/**
  The state codes and initial variables of the interrupt-driven RTTY
  transmitter declared in the Si4060 driver header (Software/ARM_SI4060.h).
  Only the encoding and the initial values are shown there; the transitions
  live in the timer interrupt handler, which is not part of this model.
*/
module RttyState {

  import opened Wrappers

  /** Timer interrupts between transmissions. */
  const TXTRANSPAUSE: nat := 0

  /** Data bits per ASCII character. */
  const TXBITS: nat := 8

  /** The states of the RTTY interrupt machine. */
  datatype TxState = TxPause | TxStartBit | TxByte | TxStopBit | TxReload | TxWait

  /** The code the state variable holds for each state. */
  function Code(s: TxState): (code: nat)
    ensures code < 6
  {
    match s
    case TxPause => 0
    case TxStartBit => 1
    case TxByte => 2
    case TxStopBit => 3
    case TxReload => 4
    case TxWait => 5
  }

  /** Decodes the state variable; only 0..5 name a state. */
  function FromCode(code: int): (s: Option<TxState>)
    ensures s.Some? <==> 0 <= code < 6
    ensures s.Some? ==> Code(s.value) == code
  {
    if code == 0 then Some(TxPause)
    else if code == 1 then Some(TxStartBit)
    else if code == 2 then Some(TxByte)
    else if code == 3 then Some(TxStopBit)
    else if code == 4 then Some(TxReload)
    else if code == 5 then Some(TxWait)
    else None
  }

  lemma CodeRoundTrip(s: TxState)
    ensures FromCode(Code(s)) == Some(s)
  {
  }

  /** Distinct states have distinct codes. */
  lemma CodesDistinct(s: TxState, t: TxState)
    ensures Code(s) == Code(t) <==> s == t
  {
    CodeRoundTrip(s);
    CodeRoundTrip(t);
  }

  /** A character has 7 or 8 data bits. */
  predicate ValidCharacterBits(bits: int)
  {
    bits == 7 || bits == 8
  }

  predicate IsByte(x: int)
  {
    0 <= x < 256
  }

  /**
    The machine's variables: the state code, the pause counter, the stop-bit
    flag (1 for two stop bits, 0 for one), the byte being sent, the data bits
    left in it and the reload flag.
  */
  datatype RttyMachine = RttyMachine(
    state: TxState, pause: nat, stopBitsFlag: nat, txByte: nat, bitsLeft: nat, reload: nat)

  /** Stop bits sent after each character. */
  function StopBitCount(m: RttyMachine): (count: nat)
    requires m.stopBitsFlag <= 1
    ensures count == 1 || count == 2
    ensures count == 2 <==> m.stopBitsFlag == 1
  {
    m.stopBitsFlag + 1
  }

  /** Every variable fits the width it is declared with: 8 bits, and 16 bits for the reload flag. */
  predicate FitsDeclaredWidths(m: RttyMachine)
  {
    IsByte(Code(m.state)) && IsByte(m.pause) && IsByte(m.stopBitsFlag)
    && IsByte(m.txByte) && IsByte(m.bitsLeft) && m.reload < 65536
  }

  /** The statically initialised machine; the reload flag has no initialiser and so starts at 0. */
  const INITIAL: RttyMachine := RttyMachine(TxWait, 0, 1, 0, TXBITS, 0)

  /**
    The machine starts waiting (code 5) with a full character's worth of bits,
    a character width of 7 or 8, two stop bits and no pause.
  */
  lemma InitialMachine()
    ensures Code(INITIAL.state) == 5 && FromCode(5) == Some(INITIAL.state)
    ensures INITIAL.bitsLeft == TXBITS && ValidCharacterBits(TXBITS)
    ensures INITIAL.stopBitsFlag <= 1 && StopBitCount(INITIAL) == 2
    ensures INITIAL.pause == TXTRANSPAUSE
    ensures FitsDeclaredWidths(INITIAL)
  {
  }
}
