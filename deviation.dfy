/**
  The frequency-deviation register arithmetic of the Si4060 driver header
  (Software/ARM_SI4060.h): the MODEM_FREQ_DEV code for a peak deviation in Hz,
  given the synthesizer's output divider and its TCXO reference clock.
*/
module Deviation {

  /** Reference oscillator of the synthesizer, in Hz. */
  const TCXO: nat := 32000000

  /** Fixed prescaler of the synthesizer's PLL. */
  const NPRESC: nat := 2

  /** 2^19, the scale of the deviation register. */
  const TWO_POW_19: nat := 524288

  /** Output dividers of the two bands the driver transmits on. */
  const OUTDIV_434MHZ: nat := 8
  const OUTDIV_144MHZ: nat := 24

  /** The deviation codes the driver programs. */
  const TX_DEVIATION_RTTY: nat := 26
  const TX_DEVIATION_APRS: nat := 688

  /**
    MODEM_FREQ_DEV = floor(2^19 * outdiv * peakHz / (NPRESC * tcxoHz)).
    The code is the largest integer whose multiple of the denominator does not
    exceed the numerator: the formula floored, never rounded up.
  */
  function DeviationCode(outdiv: nat, peakHz: nat, tcxoHz: nat): (code: nat)
    requires tcxoHz > 0
    ensures code * (NPRESC * tcxoHz) <= TWO_POW_19 * outdiv * peakHz
    ensures TWO_POW_19 * outdiv * peakHz < (code + 1) * (NPRESC * tcxoHz)
  {
    (TWO_POW_19 * outdiv * peakHz) / (NPRESC * tcxoHz)
  }

  /** The floor is the only integer with that property. */
  lemma DeviationCodeUnique(outdiv: nat, peakHz: nat, tcxoHz: nat, c: nat)
    requires tcxoHz > 0
    requires c * (NPRESC * tcxoHz) <= TWO_POW_19 * outdiv * peakHz
    requires TWO_POW_19 * outdiv * peakHz < (c + 1) * (NPRESC * tcxoHz)
    ensures c == DeviationCode(outdiv, peakHz, tcxoHz)
  {
    var code := DeviationCode(outdiv, peakHz, tcxoHz);
    var d := NPRESC * tcxoHz;
    if c > code {
      MultiplyMonotone(code + 1, c, d);
      assert false;
    }
  }

  lemma MultiplyMonotone(a: nat, b: nat, d: nat)
    requires a <= b
    ensures a * d <= b * d
  {
  }

  /** A larger peak deviation never gives a smaller code. */
  lemma DeviationMonotone(outdiv: nat, lowHz: nat, highHz: nat, tcxoHz: nat)
    requires tcxoHz > 0
    requires lowHz <= highHz
    ensures DeviationCode(outdiv, lowHz, tcxoHz) <= DeviationCode(outdiv, highHz, tcxoHz)
  {
    var low := DeviationCode(outdiv, lowHz, tcxoHz);
    var high := DeviationCode(outdiv, highHz, tcxoHz);
    var d := NPRESC * tcxoHz;
    MultiplyMonotone(lowHz, highHz, TWO_POW_19 * outdiv);
    assert TWO_POW_19 * outdiv * lowHz <= TWO_POW_19 * outdiv * highHz;
    if low > high {
      MultiplyMonotone(high + 1, low, d);
      assert false;
    }
  }

  /** The tabulated deviations are peak to peak; the formula takes the peak, half of it. */
  function PeakOf(peakToPeakHz: nat): (peakHz: nat)
    ensures 2 * peakHz <= peakToPeakHz <= 2 * peakHz + 1
  {
    peakToPeakHz / 2
  }

  /** A row of the reference table: a peak-to-peak deviation in Hz and its register code. */
  datatype ReferencePair = ReferencePair(peakToPeakHz: nat, code: nat)

  /** The reference pairs tabulated for the 434 MHz band (OUTDIV 8). */
  const REFERENCE_434MHZ: seq<ReferencePair> :=
    [ReferencePair(1200, 39), ReferencePair(1000, 33), ReferencePair(800, 26), ReferencePair(450, 16)]

  /** The reference pairs tabulated for the 144 MHz band (OUTDIV 24). */
  const REFERENCE_144MHZ: seq<ReferencePair> :=
    [ReferencePair(12000, 1179), ReferencePair(10000, 983), ReferencePair(7000, 688),
     ReferencePair(4400, 432), ReferencePair(2200, 216), ReferencePair(1200, 118)]

  predicate Reproduces(outdiv: nat, pair: ReferencePair)
  {
    DeviationCode(outdiv, PeakOf(pair.peakToPeakHz), TCXO) == pair.code
  }

  /** The floored formula reproduces the 1200 and 800 Hz rows at 434 MHz and every 144 MHz row but the last. */
  lemma ReferencePairsReproduced()
    ensures Reproduces(OUTDIV_434MHZ, REFERENCE_434MHZ[0]) && Reproduces(OUTDIV_434MHZ, REFERENCE_434MHZ[2])
    ensures forall i :: 0 <= i < 5 ==> Reproduces(OUTDIV_144MHZ, REFERENCE_144MHZ[i])
  {
  }

  /** At the remaining three rows the floor is 32, 14 and 117, not the tabulated 33, 16 and 118. */
  lemma ReferencePairsNotFloored()
    ensures DeviationCode(OUTDIV_434MHZ, PeakOf(REFERENCE_434MHZ[1].peakToPeakHz), TCXO) == 32
    ensures DeviationCode(OUTDIV_434MHZ, PeakOf(REFERENCE_434MHZ[3].peakToPeakHz), TCXO) == 14
    ensures DeviationCode(OUTDIV_144MHZ, PeakOf(REFERENCE_144MHZ[5].peakToPeakHz), TCXO) == 117
  {
  }

  /** The two transmissions whose deviation the driver sets. */
  datatype Transmission = Rtty | Aprs

  /** RTTY goes out on 434 MHz, APRS on 144 MHz. */
  function OutDiv(t: Transmission): nat
  {
    match t
    case Rtty => OUTDIV_434MHZ
    case Aprs => OUTDIV_144MHZ
  }

  /** The intended peak-to-peak shifts: 800 Hz for RTTY, 7000 Hz for APRS. */
  function PeakToPeakHz(t: Transmission): nat
  {
    match t
    case Rtty => 800
    case Aprs => 7000
  }

  /** The code the driver programs for each transmission is the formula at its band and shift. */
  function ConfiguredDeviation(t: Transmission): (code: nat)
    ensures code == DeviationCode(OutDiv(t), PeakOf(PeakToPeakHz(t)), TCXO)
  {
    match t
    case Rtty => TX_DEVIATION_RTTY
    case Aprs => TX_DEVIATION_APRS
  }
}
