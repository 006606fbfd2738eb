# vision_oc in Dafny

A model of `vision_oc`, the HTC Vision (T-Mobile G2) overclock kernel module.
When it is loaded, `vision_oc_init` does the following:

1. It computes `frequency_max = 19200 * pll2_l_val` in kHz. This is the PLL2 L value times the 19.2 MHz reference clock, computed as an unsigned 32-bit product and held in an `int`.
2. It copies `perflock_code` over the start of the perflock notifier. The copy is `sizeof(perflock_code)` bytes long: five ARM instructions (20 bytes) plus the NUL that ends the string literal, 21 bytes in all. After the copy the notifier just returns 0.
3. It writes `frequency_max`, `vdd_mv` and `vdd_raw` into slot 8 of the ACPU clock driver's `acpu_freq_tbl`.
4. It writes `frequency_max` into slot 3 of the cpufreq frequency table.
5. It writes the L value to the PLL2 L register at `MSM_CLK_CTL_BASE + 0x33c`, then busy-waits 50 µs.
6. It sets the current CPU's policy bounds. Both minimums (`cpuinfo.min_freq` and `min`) become `freq_table[0].frequency`. Both maximums become `frequency_max`.
7. It returns 0.

`vision_oc_exit` changes nothing.

The project has three files:

- `machine_types.dfy` has the C integer types (`unsigned int`, `int`, `char`) and the conversions the module's arithmetic goes through.
- `perflock_code.dfy` has the injected stub. It is both the byte literal and the five instruction words it encodes, with a little-endian encode/decode pair and round-trip lemmas.
- `vision_oc.dfy` has the module itself:
  - `Params` holds the module parameters and their defaults.
  - `ClkctlAcpuSpeed` is the speed-table record, with its eight fields.
  - `InitSpec` is the value-level specification of init over a `Snapshot` of the kernel state.
  - `Kernel` is the class holding the externally owned state: kernel text as a byte array, the two tables as arrays, the policy object, the clock registers and a log of bus events. Its method `VisionOcInit` mutates that state in place, and its contract ties the new state to `InitSpec` of the old state.

Three details of the code that the model keeps:

- The cpufreq table is written at slot 3, while the speed table is written at slot 8.
- The minimum bounds take `freq_table[0]`, whatever it holds, which need not be the lowest entry.
- Every frequency is in kHz.

`frequency_max` is an `int`, but every field it is stored into is `unsigned int`. So the value stored is always the unsigned product modulo 2^32 (`MachineTypes.UnsignedThroughIntRoundTrip`). The product is exact up to L = 223696. The `int` variable itself holds the true product only up to L = 111848.

## Model

| member | source | states |
|---|---|---|
| MachineTypes.MulU32 | vision_oc.c:92 | the unsigned product: the exact product when it fits in 32 bits, otherwise the product less a whole number of 2^32 wraps |
| MachineTypes.ToInt32 | vision_oc.c:91-92 | assigning an `unsigned int` to `int` keeps values up to INT_MAX and makes larger ones negative; the result is congruent modulo 2^32 |
| MachineTypes.ToUint32 | vision_oc.c:105-118 | storing an `int` into an unsigned field keeps non-negative values and maps negative ones to 2^31 and above; the result is congruent modulo 2^32 |
| MachineTypes.UnsignedThroughIntRoundTrip | vision_oc.c:91-92 | passing the unsigned product through the `int` variable and back into an unsigned field gives the product back |
| Perflock.EncodeWord | vision_oc.c:82-86 | the four literal bytes of one instruction are its little-endian bytes: b0 + 2^8 b1 + 2^16 b2 + 2^24 b3 equals the word |
| Perflock.DecodeWord | vision_oc.c:82-86 | reading four bytes as a word: the low byte is byte 0 and the high byte is byte 3 |
| Perflock.DecodeEncodeWord | vision_oc.c:82-86 | decoding a word's bytes gives the word back |
| Perflock.EncodeWordOf | vision_oc.c:82-86 | a word given by four little-endian bytes encodes to exactly those four bytes |
| Perflock.EncodeDecodeWord | vision_oc.c:82-86 | encoding a decoded word gives the four bytes back |
| Perflock.EncodeWords | vision_oc.c:81-87 | n instruction words take 4n bytes of code |
| Perflock.DecodeWords | vision_oc.c:81-87 | 4n bytes of code read back as n words |
| Perflock.EncodeWordsAt | vision_oc.c:81-87 | instruction k occupies bytes 4k to 4k+3 of the laid-out code |
| Perflock.EncodeWordsCons | vision_oc.c:81-87 | the bytes of a leading instruction come first in the laid-out code |
| Perflock.DecodeEncodeWords | vision_oc.c:81-87 | decoding laid-out code gives the instruction sequence back |
| Perflock.EncodeDecodeWords | vision_oc.c:81-87 | laying out the decoded words gives back the bytes, for any length that is a multiple of 4 |
| Perflock.PerflockInstructionBytes | vision_oc.c:82-86 | each of the five listed instructions (mov, stmdb, sub, mov r0 #0, ldmia) encodes to the four bytes the literal gives for it |
| Perflock.PerflockLiteralEncodesInstructions | vision_oc.c:81-87 | the 20 literal bytes are exactly the five instructions laid out in order |
| Perflock.PerflockCodeLayout | vision_oc.c:81-87 | the copied array has sizeof = 21 bytes: the literal, which decodes to the five instructions, then a 0 |
| VisionOc.FrequencyMax | vision_oc.c:92 | the value every unsigned field receives from `frequency_max`: 19200 × L when that fits in 32 bits; otherwise the product less a whole number of 2^32 wraps (the `int` variable itself is negative for 111849 ≤ L ≤ 223696) |
| VisionOc.DefaultFrequencyMax | vision_oc.c:42 | the default L = 53 gives 1017600 kHz, and the `int` holds that value unchanged |
| VisionOc.FrequencyMaxFitsInt | vision_oc.c:91-92 | for L up to 111848, the `int` `frequency_max` holds exactly 19200 × L |
| VisionOc.VddRawOf | vision_oc.c:44 | VDD_RAW(x) = 224 + (x − 750)/25: the raw value r satisfies 25(r − 224) ≤ x − 750 < 25(r − 224) + 25 |
| VisionOc.VddMvOf | vision_oc.c:44 | the inverse encoding: a raw value maps to a multiple-of-25 voltage that VDD_RAW maps back to the same raw value |
| VisionOc.DefaultVddRawMatchesEncoding | vision_oc.c:43-44 | the default `vdd_raw` 242 is VDD_RAW of the default `vdd_mv` 1200, and 242 decodes back to 1200 |
| VisionOc.Overwrite | vision_oc.c:101 | after the copy, memory has its old length, the window holds exactly the source bytes, and every byte outside the window is unchanged |
| VisionOc.OverwriteIdempotent | vision_oc.c:101 | copying the same bytes to the same place twice gives the same memory as copying once |
| VisionOc.OverclockEntry | vision_oc.c:105-107 | the slot gets the new frequency, `vdd_mv` and `vdd_raw`; `src`, `acpu_src_sel`, `acpu_src_div`, `axi_clk_khz` and `lpj` keep their old values |
| VisionOc.InitSpec | vision_oc.c:89-121 | after init: the 21 disabler bytes are at the notifier and the rest of the text is unchanged; speed slot 8 holds frequency_max, vdd_mv and vdd_raw with its other fields unchanged; cpufreq slot 3 holds frequency_max with the same index; no other slot of either table changes; the PLL2 L register holds L and no other register changes; min bounds = freq_table[0], max bounds = frequency_max |
| VisionOc.InitConsistent | vision_oc.c:105-118 | after init, cpufreq slot 3, speed slot 8 and both maximum bounds are all equal to the frequency that the L value in the PLL2 register produces |
| VisionOc.InitIdempotent | vision_oc.c:92-118 | running init again with the same parameters still fits and gives the same text, tables, registers and bounds |
| VisionOc.DefaultScenario | vision_oc.c:42-44 | with the defaults, speed slot 8 becomes 1017600 kHz at 1200 mV (raw 242) with its other fields unchanged; cpufreq slot 3 and both maximums become 1017600; register 0xf800533c holds 53 |
| VisionOc.ZeroMultiplierScenario | vision_oc.c:92-118 | L = 0 is not rejected: both slots and both maximums become 0, and the register is still written with 0 |
| VisionOc.InitIo | vision_oc.c:112-113 | init's bus traffic holds exactly one register write; it writes L to PLL2_L_VAL_ADDR, and a delay of at least 50 µs follows it directly |
| VisionOc.Kernel.MemCpy | vision_oc.c:101 | the byte-by-byte copy leaves the array equal to `Overwrite` of its old contents |
| VisionOc.Kernel.Writel | vision_oc.c:112 | `writel` sets the one addressed register, leaves the others unchanged, and logs the write |
| VisionOc.Kernel.Udelay | vision_oc.c:113 | `udelay` changes no register and logs the delay |
| VisionOc.Kernel.VisionOcInit | vision_oc.c:89-121 | init returns 0; the kernel state afterwards is `InitSpec` of the state before; the bus log grows by exactly the PLL write and then the settle delay |
| VisionOc.Kernel.VisionOcExit | vision_oc.c:123-126 | exit leaves text, tables, registers, bounds and the bus log unchanged (there is no revert) |
| VisionOc.Kernel.VisionOcInitTwice | vision_oc.c:89-121 | loading twice with the same parameters returns 0 both times and leaves the same state as one load; only the bus log shows the second write and delay |

## Left out

- `printk` messages, and the `MODULE_*`, `module_param` and `MODULE_PARM_DESC` declarations: these are logging and metadata.
- `cpufreq_cpu_get`, `cpufreq_frequency_get_table` and `smp_processor_id` are calls into the kernel. Their results are the `policy` and `freqTable` objects of `Kernel`, taken as the current CPU's. The module's static pointers `policy`, `freq_table` and `acpu_freq_tbl` are modelled as those objects.
- Raw addresses:
  - `acpu_freq_tbl_addr` only appears in a requires clause, saying that the speed table really lives there.
  - `perflock_notifier_call_addr` becomes an offset into the kernel-text array. The requires clause puts the 21-byte window inside that array.
  - The code does no checks. What an invalid address corrupts is not modelled.
- `cpufreq_cpu_get` and `cpufreq_frequency_get_table` are assumed to return a policy and a table. The code never checks for NULL: a NULL `freq_table` would fault at the write of slot 3, after the text patch and the speed-table writes; a NULL `policy` would fault at the first bound write, after the PLL write. Neither partial outcome is modelled. The reference taken by `cpufreq_cpu_get` is never released with `cpufreq_cpu_put`; reference counts are not modelled.
- The cpufreq table, the speed table, the policy object and the kernel text are distinct Dafny objects, so the model assumes they do not overlap in memory. An overlap, for example a wrong `acpu_freq_tbl_addr` that points into the cpufreq table or the policy, would make one write change another structure; the model does not capture that aliasing.
- The speed table is modelled as an array of records, not as bytes in kernel memory, so it cannot overlap the patched text. The model takes no position on struct padding or layout.
- What the ARM stub does when executed. The model fixes its bytes and the instruction words they encode; the instruction semantics are not modelled.
- Whether the stub fits the prologue of the real notifier is not modelled. The model only requires the window to lie inside the text array.
- How long `udelay(50)` takes and how the PLL hardware responds to the write. Only the order of events is kept: register write, then delay.
- `__init`/`__initdata`: the kernel discards these sections after loading. This does not change any state the model has.
- Concurrency with other CPUs reading or writing the same tables, register or policy. The module takes no locks, and a sequential model cannot express this.
