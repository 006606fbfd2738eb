/**
 * The HTC Vision overclock module: on load it disables the perflock
 * notifier by overwriting its code, rewrites the top operating point of the
 * ACPU speed table and of the cpufreq table, programs the PLL2 L value and
 * widens the current CPU's cpufreq policy to the new maximum.
 *
 * Everything the module writes belongs to the running kernel; it reaches it
 * through raw addresses and kernel calls. Here that state is the class
 * `Kernel`, and the abstract value of that state is a `Snapshot`.
 */
module VisionOc {
  import opened MachineTypes
  import opened Perflock

  /** The 19.2 MHz reference clock, in kHz. */
  const REF_CLOCK_KHZ: uint32 := 19200

  /** MSM_CLK_CTL_BASE and the PLL2 L value register inside it. */
  const MSM_CLK_CTL_BASE: int := 0xf800_5000
  const PLL2_L_VAL_ADDR: int := MSM_CLK_CTL_BASE + 0x33c

  /** The slot of `acpu_freq_tbl` and the slot of the cpufreq table that are rewritten. */
  const ACPU_SLOT: nat := 8
  const FREQ_SLOT: nat := 3

  /** The settle delay after the PLL write, in microseconds. */
  const PLL_SETTLE_US: nat := 50

  /** The module parameters. */
  datatype Params = Params(
    pll2LVal: uint32,
    vddMv: uint32,
    vddRaw: uint32,
    acpuFreqTblAddr: uint32,
    perflockNotifierCallAddr: uint32)

  /** The defaults, for 1017.6 MHz at 1200 mV on the T-Mobile G2 kernel 2.6.32.17. */
  const DEFAULT_PARAMS: Params := Params(53, 1200, 242, 0xc055_e1a0, 0xc006_c974)

  /** One entry of the ACPU clock driver's `acpu_freq_tbl`. */
  datatype ClkctlAcpuSpeed = ClkctlAcpuSpeed(
    acpuClkKHz: uint32,
    src: int32,
    acpuSrcSel: uint32,
    acpuSrcDiv: uint32,
    axiClkKHz: uint32,
    vddMv: uint32,
    vddRaw: uint32,
    lpj: uint32)

  /** One entry of the cpufreq frequency table (`index`, `frequency` in kHz). */
  datatype FreqTableEntry = FreqTableEntry(index: uint32, frequency: uint32)

  /** The four bound fields of a cpufreq policy: `cpuinfo.min_freq`, `cpuinfo.max_freq`, `min`, `max`. */
  datatype PolicyBounds = PolicyBounds(
    cpuinfoMinFreq: uint32,
    cpuinfoMaxFreq: uint32,
    min: uint32,
    max: uint32)

  /** What reaches the hardware bus, in order: register writes and busy-waits. */
  datatype IoEvent = RegWrite(addr: int, value: uint32) | Delay(us: nat)

  /** The value of everything the module can change, except the I/O log. */
  datatype Snapshot = Snapshot(
    text: seq<byte>,
    acpuFreqTbl: seq<ClkctlAcpuSpeed>,
    freqTable: seq<FreqTableEntry>,
    clkRegs: map<int, uint32>,
    bounds: PolicyBounds)

  /**
   * The value every unsigned field receives from `frequency_max`: the PLL2 L
   * value times the reference clock, as the unsigned multiplication computes
   * it. It is the exact product up to L = 223696 and wraps modulo 2^32 above
   * that. The `int` variable `frequency_max` itself holds this value only up
   * to L = 111848 and is negative from there to 223696 (`ToInt32`).
   */
  function FrequencyMax(pll2LVal: uint32): (r: uint32)
    ensures REF_CLOCK_KHZ * pll2LVal < WORD_MODULUS ==> r == REF_CLOCK_KHZ * pll2LVal
    ensures REF_CLOCK_KHZ * pll2LVal >= WORD_MODULUS ==> r != REF_CLOCK_KHZ * pll2LVal
    ensures REF_CLOCK_KHZ * pll2LVal == WORD_MODULUS * (REF_CLOCK_KHZ * pll2LVal / WORD_MODULUS) + r
  {
    MulU32(REF_CLOCK_KHZ, pll2LVal)
  }

  /** The default L value gives 1017.6 MHz, and the `int` variable holds it unchanged. */
  lemma DefaultFrequencyMax()
    ensures FrequencyMax(DEFAULT_PARAMS.pll2LVal) == 1017600
    ensures ToInt32(FrequencyMax(DEFAULT_PARAMS.pll2LVal)) == 1017600
  {
  }

  /**
   * Up to L = 111848 the product also fits the signed `int` that holds
   * `frequency_max`, so that variable holds the true frequency.
   */
  lemma FrequencyMaxFitsInt(pll2LVal: uint32)
    requires pll2LVal <= 111848
    ensures ToInt32(FrequencyMax(pll2LVal)) == REF_CLOCK_KHZ * pll2LVal
  {
  }

  /**
   * The documented encoding of a voltage in millivolts as a raw regulator
   * value, VDD_RAW(x) = 224 + (x - 750) / 25, for voltages from 750 mV up.
   */
  function VddRawOf(mv: nat): (raw: int)
    requires 750 <= mv
    ensures 224 <= raw
    ensures 25 * (raw - 224) <= mv - 750 < 25 * (raw - 224) + 25
  {
    224 + (mv - 750) / 25
  }

  /** The voltage a raw regulator value stands for: the inverse of `VddRawOf`. */
  function VddMvOf(raw: nat): (mv: int)
    requires 224 <= raw
    ensures 750 <= mv && (mv - 750) % 25 == 0
    ensures VddRawOf(mv) == raw
  {
    750 + 25 * (raw - 224)
  }

  /** The default raw voltage is the encoding of the default voltage. */
  lemma DefaultVddRawMatchesEncoding()
    ensures VddRawOf(DEFAULT_PARAMS.vddMv) == DEFAULT_PARAMS.vddRaw == 242
    ensures VddMvOf(DEFAULT_PARAMS.vddRaw) == DEFAULT_PARAMS.vddMv
  {
  }

  /**
   * `memcpy(mem + off, src, |src|)` on the value of memory: the window
   * starting at `off` becomes `src`, and every other byte stays.
   */
  function Overwrite(mem: seq<byte>, off: nat, src: seq<byte>): (r: seq<byte>)
    requires off + |src| <= |mem|
    ensures |r| == |mem|
    ensures r[off..off + |src|] == src
    ensures forall i :: 0 <= i < |mem| && !(off <= i < off + |src|) ==> r[i] == mem[i]
  {
    mem[..off] + src + mem[off + |src|..]
  }

  /** Copying the same bytes to the same place a second time changes nothing. */
  lemma OverwriteIdempotent(mem: seq<byte>, off: nat, src: seq<byte>)
    requires off + |src| <= |mem|
    ensures Overwrite(Overwrite(mem, off, src), off, src) == Overwrite(mem, off, src)
  {
  }

  /** Where the perflock notifier sits inside the kernel text that starts at `textBase`. */
  function PatchOffset(textBase: int, p: Params): int {
    p.perflockNotifierCallAddr as int - textBase
  }

  /** The perflock disabler occupies the notifier's first bytes. */
  predicate PerflockDisabled(text: seq<byte>, off: int) {
    0 <= off && off + |PerflockCode| <= |text| && text[off..off + |PerflockCode|] == PerflockCode
  }

  /**
   * The new top operating point: the given frequency and the parameter
   * voltages, with the clock source, dividers, AXI clock and loops-per-jiffy
   * of the entry it replaces.
   */
  function OverclockEntry(e: ClkctlAcpuSpeed, fmax: uint32, p: Params): (r: ClkctlAcpuSpeed)
    ensures r.acpuClkKHz == fmax && r.vddMv == p.vddMv && r.vddRaw == p.vddRaw
    ensures r.src == e.src && r.acpuSrcSel == e.acpuSrcSel && r.acpuSrcDiv == e.acpuSrcDiv
    ensures r.axiClkKHz == e.axiClkKHz && r.lpj == e.lpj
  {
    e.(acpuClkKHz := fmax, vddMv := p.vddMv, vddRaw := p.vddRaw)
  }

  /**
   * What the module assumes without checking: the patch window lies inside
   * kernel text and both tables have the slots it writes.
   */
  predicate InitFits(s: Snapshot, textBase: int, p: Params) {
    && 0 <= PatchOffset(textBase, p)
    && PatchOffset(textBase, p) + |PerflockCode| <= |s.text|
    && ACPU_SLOT < |s.acpuFreqTbl|
    && FREQ_SLOT < |s.freqTable|
  }

  /** The state after `vision_oc_init`, as a function of the state before it. */
  function InitSpec(s: Snapshot, textBase: int, p: Params): (r: Snapshot)
    requires InitFits(s, textBase, p)
    ensures |r.text| == |s.text| && |r.acpuFreqTbl| == |s.acpuFreqTbl| && |r.freqTable| == |s.freqTable|
    // the perflock notifier now starts with the 21 bytes of the disabler; the rest of the text is as it was
    ensures PerflockDisabled(r.text, PatchOffset(textBase, p))
    ensures forall i :: 0 <= i < |s.text| && !(PatchOffset(textBase, p) <= i < PatchOffset(textBase, p) + 21) ==>
      r.text[i] == s.text[i]
    // slot 8 of the speed table carries the new frequency and voltages, its other fields and all other slots stay
    ensures r.acpuFreqTbl[ACPU_SLOT].acpuClkKHz == FrequencyMax(p.pll2LVal)
    ensures r.acpuFreqTbl[ACPU_SLOT].vddMv == p.vddMv && r.acpuFreqTbl[ACPU_SLOT].vddRaw == p.vddRaw
    ensures r.acpuFreqTbl[ACPU_SLOT].(acpuClkKHz := 0, vddMv := 0, vddRaw := 0)
         == s.acpuFreqTbl[ACPU_SLOT].(acpuClkKHz := 0, vddMv := 0, vddRaw := 0)
    ensures forall i :: 0 <= i < |s.acpuFreqTbl| && i != ACPU_SLOT ==> r.acpuFreqTbl[i] == s.acpuFreqTbl[i]
    // slot 3 of the cpufreq table carries the new frequency, its index and all other slots stay
    ensures r.freqTable[FREQ_SLOT].frequency == FrequencyMax(p.pll2LVal)
    ensures r.freqTable[FREQ_SLOT].index == s.freqTable[FREQ_SLOT].index
    ensures forall i :: 0 <= i < |s.freqTable| && i != FREQ_SLOT ==> r.freqTable[i] == s.freqTable[i]
    // the PLL2 L register holds the L value; no other register changes
    ensures PLL2_L_VAL_ADDR in r.clkRegs && r.clkRegs[PLL2_L_VAL_ADDR] == p.pll2LVal
    ensures r.clkRegs.Keys == s.clkRegs.Keys + {PLL2_L_VAL_ADDR}
    ensures forall a :: a in s.clkRegs && a != PLL2_L_VAL_ADDR ==> r.clkRegs[a] == s.clkRegs[a]
    // both minimum bounds are the first table entry, both maximum bounds the new frequency
    ensures r.bounds.cpuinfoMinFreq == r.bounds.min == s.freqTable[0].frequency == r.freqTable[0].frequency
    ensures r.bounds.cpuinfoMaxFreq == r.bounds.max == FrequencyMax(p.pll2LVal)
  {
    var fmax := FrequencyMax(p.pll2LVal);
    var freqTable := s.freqTable[FREQ_SLOT := s.freqTable[FREQ_SLOT].(frequency := fmax)];
    var min := freqTable[0].frequency;
    Snapshot(
      Overwrite(s.text, PatchOffset(textBase, p), PerflockCode),
      s.acpuFreqTbl[ACPU_SLOT := OverclockEntry(s.acpuFreqTbl[ACPU_SLOT], fmax, p)],
      freqTable,
      s.clkRegs[PLL2_L_VAL_ADDR := p.pll2LVal],
      PolicyBounds(min, fmax, min, fmax))
  }

  /**
   * After init, the rewritten cpufreq slot, the rewritten speed-table slot
   * and both maximum bounds all hold the frequency that the value in the
   * PLL2 L register produces.
   */
  lemma InitConsistent(s: Snapshot, textBase: int, p: Params)
    requires InitFits(s, textBase, p)
    ensures var r := InitSpec(s, textBase, p);
      && PLL2_L_VAL_ADDR in r.clkRegs
      && r.freqTable[FREQ_SLOT].frequency == r.acpuFreqTbl[ACPU_SLOT].acpuClkKHz
      && r.acpuFreqTbl[ACPU_SLOT].acpuClkKHz == r.bounds.max
      && r.bounds.max == r.bounds.cpuinfoMaxFreq
      && r.bounds.max == FrequencyMax(r.clkRegs[PLL2_L_VAL_ADDR])
  {
  }

  /** Running init a second time with the same parameters reproduces the same state. */
  lemma InitIdempotent(s: Snapshot, textBase: int, p: Params)
    requires InitFits(s, textBase, p)
    ensures InitFits(InitSpec(s, textBase, p), textBase, p)
    ensures InitSpec(InitSpec(s, textBase, p), textBase, p) == InitSpec(s, textBase, p)
  {
  }

  /** With the default parameters: 1017600 kHz at 1200 mV (raw 242), and L = 53 in the register. */
  lemma DefaultScenario(s: Snapshot, textBase: int)
    requires InitFits(s, textBase, DEFAULT_PARAMS)
    ensures var r := InitSpec(s, textBase, DEFAULT_PARAMS);
      && r.acpuFreqTbl[8] == s.acpuFreqTbl[8].(acpuClkKHz := 1017600, vddMv := 1200, vddRaw := 242)
      && r.freqTable[3].frequency == 1017600
      && r.bounds.max == r.bounds.cpuinfoMaxFreq == 1017600
      && 0xf800_533c in r.clkRegs && r.clkRegs[0xf800_533c] == 53
  {
  }

  /** An L value of 0 is not rejected: every frequency written is 0 and the register still receives 0. */
  lemma ZeroMultiplierScenario(s: Snapshot, textBase: int, p: Params)
    requires InitFits(s, textBase, p) && p.pll2LVal == 0
    ensures var r := InitSpec(s, textBase, p);
      && r.acpuFreqTbl[ACPU_SLOT].acpuClkKHz == 0
      && r.freqTable[FREQ_SLOT].frequency == 0
      && r.bounds.max == r.bounds.cpuinfoMaxFreq == 0
      && PLL2_L_VAL_ADDR in r.clkRegs && r.clkRegs[PLL2_L_VAL_ADDR] == 0
  {
  }

  /** The bus traffic of one init: the PLL2 L write, then the settle delay. */
  function InitIo(p: Params): (io: seq<IoEvent>)
    ensures exists k :: 0 <= k < |io| && io[k].RegWrite?
    ensures forall j, k :: 0 <= j < |io| && 0 <= k < |io| && io[j].RegWrite? && io[k].RegWrite? ==> j == k
    ensures forall k :: 0 <= k < |io| && io[k].RegWrite? ==>
      && io[k] == RegWrite(PLL2_L_VAL_ADDR, p.pll2LVal)
      && k + 1 < |io| && io[k + 1].Delay? && io[k + 1].us >= PLL_SETTLE_US
  {
    var io := [RegWrite(PLL2_L_VAL_ADDR, p.pll2LVal), Delay(PLL_SETTLE_US)];
    assert io[0].RegWrite?;
    io
  }

  /** The cpufreq policy object of one CPU, owned by the cpufreq core. */
  class CpufreqPolicy {
    var cpuinfoMinFreq: uint32
    var cpuinfoMaxFreq: uint32
    var min: uint32
    var max: uint32

    constructor (b: PolicyBounds)
      ensures Bounds() == b
    {
      cpuinfoMinFreq, cpuinfoMaxFreq, min, max := b.cpuinfoMinFreq, b.cpuinfoMaxFreq, b.min, b.max;
    }

    function Bounds(): PolicyBounds
      reads this
    {
      PolicyBounds(cpuinfoMinFreq, cpuinfoMaxFreq, min, max)
    }
  }

  /**
   * The kernel state the module reaches: kernel text (from `textBase`),
   * `acpu_freq_tbl` (at `acpuFreqTblAddr`), the current CPU's cpufreq table
   * and policy (what `cpufreq_frequency_get_table` and `cpufreq_cpu_get`
   * return for it), the clock-control registers, and the bus log.
   */
  class Kernel {
    const text: array<byte>
    const textBase: int
    const acpuFreqTbl: array<ClkctlAcpuSpeed>
    const acpuFreqTblAddr: int
    const freqTable: array<FreqTableEntry>
    const policy: CpufreqPolicy
    var clkRegs: map<int, uint32>
    var ioLog: seq<IoEvent>

    constructor (text: array<byte>, textBase: int, acpuFreqTbl: array<ClkctlAcpuSpeed>, acpuFreqTblAddr: int,
                 freqTable: array<FreqTableEntry>, policy: CpufreqPolicy, clkRegs: map<int, uint32>)
      ensures this.text == text && this.textBase == textBase
      ensures this.acpuFreqTbl == acpuFreqTbl && this.acpuFreqTblAddr == acpuFreqTblAddr
      ensures this.freqTable == freqTable && this.policy == policy
      ensures this.clkRegs == clkRegs && ioLog == []
    {
      this.text, this.textBase := text, textBase;
      this.acpuFreqTbl, this.acpuFreqTblAddr := acpuFreqTbl, acpuFreqTblAddr;
      this.freqTable, this.policy := freqTable, policy;
      this.clkRegs, ioLog := clkRegs, [];
    }

    /** The abstract value of the state. */
    function Snap(): Snapshot
      reads this, text, acpuFreqTbl, freqTable, policy
    {
      Snapshot(text[..], acpuFreqTbl[..], freqTable[..], clkRegs, policy.Bounds())
    }

    /** `memcpy` into kernel memory, one byte at a time. */
    static method MemCpy(dst: array<byte>, off: nat, src: seq<byte>)
      requires off + |src| <= dst.Length
      modifies dst
      ensures dst[..] == Overwrite(old(dst[..]), off, src)
    {
      var i := 0;
      while i < |src|
        invariant 0 <= i <= |src|
        invariant forall k :: 0 <= k < i ==> dst[off + k] == src[k]
        invariant forall k :: 0 <= k < dst.Length && !(off <= k < off + i) ==> dst[k] == old(dst[k])
      {
        dst[off + i] := src[i];
        i := i + 1;
      }
      assert dst[..] == Overwrite(old(dst[..]), off, src) by {
        var want := Overwrite(old(dst[..]), off, src);
        forall k | 0 <= k < dst.Length ensures dst[k] == want[k] {
          if off <= k < off + |src| {
            assert want[k] == want[off..off + |src|][k - off];
          }
        }
      }
    }

    /** `writel`: the register takes the value and the write is logged. */
    method Writel(value: uint32, addr: int)
      modifies this
      ensures clkRegs == old(clkRegs)[addr := value]
      ensures ioLog == old(ioLog) + [RegWrite(addr, value)]
    {
      clkRegs := clkRegs[addr := value];
      ioLog := ioLog + [RegWrite(addr, value)];
    }

    /** `udelay`: only the delay itself is observable. */
    method Udelay(us: nat)
      modifies this
      ensures clkRegs == old(clkRegs)
      ensures ioLog == old(ioLog) + [Delay(us)]
    {
      ioLog := ioLog + [Delay(us)];
    }

    /**
     * `vision_oc_init`. The requires clauses are what the module takes on
     * trust: the speed table really is at the parameter address, and the
     * patch window and table slots exist.
     */
    method VisionOcInit(p: Params) returns (ret: int32)
      requires p.acpuFreqTblAddr as int == acpuFreqTblAddr
      requires InitFits(Snap(), textBase, p)
      modifies this, text, acpuFreqTbl, freqTable, policy
      ensures ret == 0
      ensures Snap() == InitSpec(old(Snap()), textBase, p)
      ensures ioLog == old(ioLog) + InitIo(p)
    {
      ghost var s := Snap();
      var frequencyMax: int32 := ToInt32(MulU32(REF_CLOCK_KHZ, p.pll2LVal));
      UnsignedThroughIntRoundTrip(MulU32(REF_CLOCK_KHZ, p.pll2LVal));
      ghost var fmax := FrequencyMax(p.pll2LVal);
      assert ToUint32(frequencyMax) == fmax;

      MemCpy(text, PatchOffset(textBase, p), PerflockCode);

      acpuFreqTbl[ACPU_SLOT] := acpuFreqTbl[ACPU_SLOT].(acpuClkKHz := ToUint32(frequencyMax));
      acpuFreqTbl[ACPU_SLOT] := acpuFreqTbl[ACPU_SLOT].(vddMv := p.vddMv);
      acpuFreqTbl[ACPU_SLOT] := acpuFreqTbl[ACPU_SLOT].(vddRaw := p.vddRaw);
      freqTable[FREQ_SLOT] := freqTable[FREQ_SLOT].(frequency := ToUint32(frequencyMax));
      assert acpuFreqTbl[..] == s.acpuFreqTbl[ACPU_SLOT := OverclockEntry(s.acpuFreqTbl[ACPU_SLOT], fmax, p)];
      assert freqTable[..] == s.freqTable[FREQ_SLOT := s.freqTable[FREQ_SLOT].(frequency := fmax)];

      Writel(p.pll2LVal, PLL2_L_VAL_ADDR);
      Udelay(PLL_SETTLE_US);

      policy.cpuinfoMinFreq := freqTable[0].frequency;
      policy.cpuinfoMaxFreq := ToUint32(frequencyMax);
      policy.min := freqTable[0].frequency;
      policy.max := ToUint32(frequencyMax);

      ret := 0;
    }

    /** `vision_oc_exit`: nothing is restored; the state is left as it is. */
    method VisionOcExit()
      ensures Snap() == old(Snap()) && ioLog == old(ioLog)
    {
    }

    /**
     * Loading the module twice with the same parameters leaves the tables,
     * text, registers and bounds as one load does; only the bus sees the
     * second PLL write and delay.
     */
    method VisionOcInitTwice(p: Params) returns (ret1: int32, ret2: int32)
      requires p.acpuFreqTblAddr as int == acpuFreqTblAddr
      requires InitFits(Snap(), textBase, p)
      modifies this, text, acpuFreqTbl, freqTable, policy
      ensures ret1 == 0 && ret2 == 0
      ensures Snap() == InitSpec(old(Snap()), textBase, p)
      ensures ioLog == old(ioLog) + InitIo(p) + InitIo(p)
    {
      ghost var s0 := Snap();
      ret1 := VisionOcInit(p);
      InitIdempotent(s0, textBase, p);
      ret2 := VisionOcInit(p);
    }
  }
}
