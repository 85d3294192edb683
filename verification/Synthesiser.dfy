/** Tuning of the STV6120 (src/nim_controller.cpp): divider, fractional-N synthesiser,
    charge pump and high-pass filter, packed into registers. */
module Synthesiser {
  import opened Prelude

  const XTAL: nat := 30000
  const TWO_18: nat := 0x4_0000

  // rdiv is 1 for this crystal.
  const RDIV: nat := 1

  function Divider(freqKhz: Uint32): nat {
    if freqKhz <= 299000 then 3 else if freqKhz <= 596000 then 2 else if freqKhz <= 1191000 then 1 else 0
  }

  function Pow2(k: nat): nat {
    if k == 0 then 1 else 2 * Pow2(k - 1)
  }

  // Shifts in 32 bits.
  function Shifted(n: Uint32, places: nat): Uint32 {
    n * Pow2(places) % TWO_32
  }

  function Vco(freqKhz: Uint32): Uint32 {
    Shifted(freqKhz, Divider(freqKhz) + 1)
  }

  function ScaledVco(freqKhz: Uint32): Uint32 {
    Shifted(Vco(freqKhz), RDIV)
  }

  function N(freqKhz: Uint32): Uint16 {
    ScaledVco(freqKhz) / XTAL % TWO_16
  }

  function F(freqKhz: Uint32): nat {
    ScaledVco(freqKhz) % XTAL * TWO_18 / XTAL
  }

  // The upper end of each charge pump range, in kHz, and its code.
  const ICP: seq<(nat, nat, nat)> :=
    [(2380000, 2472000, 0), (2473000, 2700000, 1), (2701000, 3021000, 2), (3022000, 3387000, 3),
     (3388000, 3845000, 5), (3846000, 4394000, 6), (4395000, 4760000, 7)]

  method ChargePumpForVco(vcoKhz: nat) returns (icp: nat)
    ensures icp == ChargePump(vcoKhz)
  {
    var row := 0;
    while row < 7 && vcoKhz > ICP[row].1
      invariant 0 <= row <= 7 && ChargePump(vcoKhz) == ChargePumpFrom(vcoKhz, row)
    {
      row := row + 1;
    }
    icp := if row == 7 then ICP[6].2 else ICP[row].2;
  }

  function ChargePumpFrom(vcoKhz: nat, row: nat): nat
    requires row <= 7
    decreases 7 - row
  {
    if row == 7 then ICP[6].2 else if vcoKhz <= ICP[row].1 then ICP[row].2 else ChargePumpFrom(vcoKhz, row + 1)
  }

  function ChargePump(vcoKhz: nat): nat {
    ChargePumpFrom(vcoKhz, 0)
  }

  const CFHF: seq<nat> :=
    [6796, 5828, 4778, 4118, 3513, 3136, 2794, 2562, 2331, 2169, 2006, 1890, 1771, 1680, 1586, 1514,
     1433, 1374, 1310, 1262, 1208, 1167, 1122, 1087, 1049, 1018, 983, 956, 926, 902, 875, 854]

  // The last filter step that still covers the frequency, or the first step.
  predicate IsFilterStep(freqKhz: Uint32, step: nat) {
    var f := 3 * freqKhz % TWO_32 / 1000;
    && step < 32
    && (f > CFHF[0] ==> step == 0)
    && (f <= CFHF[0] ==> (forall i | 0 <= i <= step :: f <= CFHF[i]) && (step < 31 ==> f > CFHF[step + 1]))
  }

  method HighPassFilterForFrequency(freqKhz: Uint32) returns (cfhf: nat)
    ensures IsFilterStep(freqKhz, cfhf)
  {
    var f, k := 3 * freqKhz % TWO_32 / 1000, 0;
    while k < 32 && f <= CFHF[k]
      invariant 0 <= k <= 32 && forall i | 0 <= i < k :: f <= CFHF[i]
    {
      k := k + 1;
    }
    cfhf := if k == 0 then 0 else k - 1;
  }

  // The four packed registers: N in eight bits and one, F in seven, eight and three,
  // the charge pump above a fixed bit. No two fields share a bit.
  datatype Registers = Registers(low: Byte, mixed: Byte, middle: Byte, high: Byte)

  function Packed(n: nat, f: nat, icp: nat): Registers
    requires icp < 8
  {
    Registers(n % 256, f % 128 * 2 + n / 256 % 2, f / 128 % 256, f / 32768 % 8 + icp * 16 + 8)
  }

  datatype Tuning = Tuning(n: nat, f: nat, icp: nat)

  function Unpacked(r: Registers): Tuning {
    Tuning(r.low as nat + 256 * (r.mixed % 2), r.mixed as nat / 2 + 128 * (r.middle as nat) + 32768 * (r.high % 8),
           r.high / 16)
  }

  function Programmed(freqKhz: Uint32): Registers {
    CodeFits(Vco(freqKhz));
    Packed(N(freqKhz), F(freqKhz), ChargePump(Vco(freqKhz)))
  }

  // The register file of the chip; a tuner's registers start at base.
  class Tuner {
    var registers: map<nat, Byte>

    constructor ()
    {
      registers := map[];
    }

    /** Programs tuner 1 or 2 and no register of the other. lowPass is what the
        low-pass calibration left in the divider's register. */
    method SetTunerFrequency(tuner1: bool, freqKhz: Uint32, lowPass: Byte)
      requires lowPass == 0x80 || lowPass == 0x92
      modifies this
      ensures var base := if tuner1 then 0x02 else 0x0c;
        && registers.Keys == old(registers.Keys) + {base, base + 1, base + 2, base + 3, base + 4, base + 5}
        && Registers(registers[base], registers[base + 1], registers[base + 2], registers[base + 3]) ==
           Programmed(freqKhz)
        && registers[base + 4] / 32 % 4 == Divider(freqKhz) && registers[base + 4] % 32 == lowPass % 32
        && IsFilterStep(freqKhz, registers[base + 5])
        && forall r | r in old(registers) && !(base <= r <= base + 5) :: registers[r] == old(registers)[r]
    {
      hide N, F, Vco, ChargePump, Divider, Packed, IsFilterStep;
      var base := if tuner1 then 0x02 else 0x0c;
      var p := Divider(freqKhz);
      DividerFits(freqKhz, lowPass);
      var n, f := N(freqKhz), F(freqKhz);
      var icp := ChargePumpForVco(Vco(freqKhz));
      var cfhf := HighPassFilterForFrequency(freqKhz);
      CodeFits(Vco(freqKhz));
      WritePll(base, n, f, icp);
      registers := registers[base + 4 := p * 32 + lowPass];
      StepFits(freqKhz, cfhf);
      registers := registers[base + 5 := cfhf];
    }

    method WritePll(base: nat, n: nat, f: nat, icp: nat)
      requires icp < 8
      modifies this
      ensures registers.Keys == old(registers.Keys) + {base, base + 1, base + 2, base + 3}
      ensures Registers(registers[base], registers[base + 1], registers[base + 2], registers[base + 3]) ==
              Packed(n, f, icp)
      ensures forall r | r in old(registers) && !(base <= r <= base + 3) :: registers[r] == old(registers)[r]
    {
      registers := registers[base := n % 256];
      registers := registers[base + 1 := f % 128 * 2 + n / 256 % 2];
      registers := registers[base + 2 := f / 128 % 256];
      registers := registers[base + 3 := f / 32768 % 8 + icp * 16 + 8];
    }
  }

  lemma {:induction false} CodesFit(vcoKhz: nat, row: nat)
    requires row <= 7
    ensures ChargePumpFrom(vcoKhz, row) < 8
    decreases 7 - row
  {
    if row < 7 { CodesFit(vcoKhz, row + 1); }
  }

  lemma CodeFits(vcoKhz: nat)
    ensures ChargePump(vcoKhz) < 8
  {
    CodesFit(vcoKhz, 0);
  }

  lemma StepFits(freqKhz: Uint32, step: nat)
    requires IsFilterStep(freqKhz, step)
    ensures step < 32
  {
  }

  lemma DividerFits(freqKhz: Uint32, lowPass: Byte)
    requires lowPass == 0x80 || lowPass == 0x92
    ensures var p := Divider(freqKhz);
      p <= 3 && p * 32 + lowPass < 256 && (p * 32 + lowPass) / 32 % 4 == p && (p * 32 + lowPass) % 32 == lowPass % 32
  {
  }

  // -------------------------------------------------------------- properties

  lemma PowersOfTwo()
    ensures Pow2(0) == 1 && Pow2(1) == 2 && Pow2(2) == 4 && Pow2(3) == 8 && Pow2(4) == 16
  {
  }

  lemma LowBits(n: nat)
    ensures n % 512 == n % 256 + 256 * (n / 256 % 2)
  {
  }

  lemma FractionBits(f: nat)
    ensures f % TWO_18 == f % 128 + 128 * (f / 128 % 256) + 32768 * (f / 32768 % 8)
  {
    var q := f / 128;
    assert f == 128 * q + f % 128;
    var t := q / 256;
    assert q == 256 * t + q % 256;
    assert t == f / 32768;
    var u := t / 8;
    assert t == 8 * u + t % 8;
    assert f == TWO_18 * u + (f % 128 + 128 * (q % 256) + 32768 * (t % 8));
  }

  lemma FieldsApart(a: nat, b: nat, c: nat, d: nat)
    requires a < 128 && b < 2 && c < 8 && d < 8
    ensures (a * 2 + b) % 2 == b && (a * 2 + b) / 2 == a
    ensures (c + d * 16 + 8) % 8 == c && (c + d * 16 + 8) / 16 == d
  {
  }

  /** Unpacking gives back what was packed, as far as the fields reach. */
  lemma PackRoundTrip(n: nat, f: nat, icp: nat)
    requires icp < 8
    ensures Unpacked(Packed(n, f, icp)) == Tuning(n % 512, f % TWO_18, icp)
  {
    LowBits(n);
    FractionBits(f);
    var a, b, c := f % 128, n / 256 % 2, f / 32768 % 8;
    FieldsApart(a, b, c, icp);
    var r := Packed(n, f, icp);
    assert r.low == n % 256 && r.mixed == a * 2 + b && r.middle == f / 128 % 256 && r.high == c + icp * 16 + 8;
  }

  lemma VcoValue(freqKhz: Uint32)
    requires freqKhz < 0x4000_0000
    ensures Vco(freqKhz) == freqKhz * (if freqKhz <= 299000 then 16 else if freqKhz <= 596000 then 8
                                       else if freqKhz <= 1191000 then 4 else 2)
    ensures ScaledVco(freqKhz) == 2 * Vco(freqKhz)
  {
    PowersOfTwo();
  }

  // F stays below 2^18 and approaches the remainder from below.
  lemma FractionFits(r: nat)
    requires r < XTAL
    ensures var f := r * TWO_18 / XTAL;
      f < TWO_18 && f * XTAL <= r * TWO_18 < (f + 1) * XTAL
  {
  }

  /** The synthesiser comes as close as it can from below: the programmed N and F reach
      the scaled oscillator frequency up to less than one step of 30000 / 2^18 kHz. */
  lemma SynthesiserUndershoots(freqKhz: Uint32)
    requires freqKhz < 0x4000_0000
    ensures var n, f := ScaledVco(freqKhz) / XTAL, F(freqKhz);
      f < TWO_18 && (n * TWO_18 + f) * XTAL <= ScaledVco(freqKhz) * TWO_18 < (n * TWO_18 + f + 1) * XTAL
  {
    var s := ScaledVco(freqKhz);
    FractionFits(s % XTAL);
    Undershoot(s, s / XTAL, s % XTAL, F(freqKhz));
  }

  lemma Undershoot(s: nat, n: nat, r: nat, f: nat)
    requires s == n * XTAL + r && f * XTAL <= r * TWO_18 < (f + 1) * XTAL
    ensures (n * TWO_18 + f) * XTAL <= s * TWO_18 < (n * TWO_18 + f + 1) * XTAL
  {
  }

  /** Below 2^30 kHz the registers hold N, F and the charge pump code exactly when the
      frequency is below 3,840,000 kHz; from there on N no longer fits. */
  lemma RegistersRecoverTuning(freqKhz: Uint32)
    requires freqKhz < 0x4000_0000
    ensures Unpacked(Programmed(freqKhz)) ==
              Tuning(ScaledVco(freqKhz) / XTAL, F(freqKhz), ChargePump(Vco(freqKhz)))
            <==> freqKhz < 3840000
  {
    var icp := ChargePump(Vco(freqKhz));
    CodesFit(Vco(freqKhz), 0);
    PackRoundTrip(N(freqKhz), F(freqKhz), icp);
    SynthesiserUndershoots(freqKhz);
    VcoValue(freqKhz);
    FitsNine(freqKhz);
  }

  lemma FitsNine(freqKhz: Uint32)
    requires freqKhz < 0x4000_0000
    ensures ScaledVco(freqKhz) / XTAL < 512 <==> freqKhz < 3840000
    ensures F(freqKhz) % TWO_18 == F(freqKhz)
    ensures ScaledVco(freqKhz) / XTAL % TWO_16 % 512 == ScaledVco(freqKhz) / XTAL <==> ScaledVco(freqKhz) / XTAL < 512
  {
    VcoValue(freqKhz);
    SynthesiserUndershoots(freqKhz);
  }

  /** The divider keeps the oscillator in its range exactly for 148,750 to 2,392,000 kHz. */
  lemma VcoStaysInRange(freqKhz: Uint32)
    requires freqKhz < 0x4000_0000
    ensures 2380000 <= Vco(freqKhz) <= 4784000 <==> 148750 <= freqKhz <= 2392000
  {
    VcoValue(freqKhz);
  }

  lemma {:induction false} ChargePumpRow(vcoKhz: nat, row: nat)
    requires row <= 7 && (row > 0 ==> vcoKhz > ICP[row - 1].1)
    ensures forall k | row <= k < 7 && vcoKhz <= ICP[k].1 && (k > 0 ==> vcoKhz > ICP[k - 1].1) ::
              ChargePumpFrom(vcoKhz, row) == ICP[k].2
    ensures vcoKhz > ICP[6].1 ==> ChargePumpFrom(vcoKhz, row) == 7
    decreases 7 - row
  {
    if row < 7 && vcoKhz > ICP[row].1 {
      ChargePumpRow(vcoKhz, row + 1);
    }
  }

  /** The charge pump codes, by the oscillator frequency in kHz. */
  lemma ChargePumpCodes(vcoKhz: nat)
    ensures ChargePump(vcoKhz) ==
            if vcoKhz <= 2472000 then 0 else if vcoKhz <= 2700000 then 1 else if vcoKhz <= 3021000 then 2
            else if vcoKhz <= 3387000 then 3 else if vcoKhz <= 3845000 then 5 else if vcoKhz <= 4394000 then 6 else 7
  {
    ChargePumpRow(vcoKhz, 0);
  }

  /** The charge pump code is that of the range the oscillator frequency falls in: the
      ranges are bounded by the upper ends of the table, and the last is open. */
  lemma ChargePumpFollowsTable(vcoKhz: nat, k: nat)
    requires k < 7 && (k > 0 ==> vcoKhz > ICP[k - 1].1) && (k < 6 ==> vcoKhz <= ICP[k].1)
    ensures ChargePump(vcoKhz) == ICP[k].2
  {
    ChargePumpRow(vcoKhz, 0);
  }
}
