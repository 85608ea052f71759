/**
  The selector shared by the two timer interrupt handlers of the Si4060 driver
  header (Software/ARM_SI4060.h): it tells them which transmitter is running.
*/
module HandlerMode {

  import opened Wrappers

  /** The transmitters the handlers can serve; code 2 is unused. */
  datatype Mode = RttyInterrupt | GfskSync | Lookup

  /** The selector value of a mode: 0, 1 or 3. */
  function Code(m: Mode): (code: nat)
    ensures code <= 3 && code != 2
  {
    match m
    case RttyInterrupt => 0
    case GfskSync => 1
    case Lookup => 3
  }

  /** Decodes the selector: 0, 1 and 3 name a mode, every other value none. */
  function FromCode(code: int): (m: Option<Mode>)
    ensures m.Some? <==> (code == 0 || code == 1 || code == 3)
    ensures m.Some? ==> Code(m.value) == code
  {
    if code == 0 then Some(RttyInterrupt)
    else if code == 1 then Some(GfskSync)
    else if code == 3 then Some(Lookup)
    else None
  }

  lemma CodeRoundTrip(m: Mode)
    ensures FromCode(Code(m)) == Some(m)
  {
  }
}
