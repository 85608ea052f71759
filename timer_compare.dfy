/**
  The timer compare-value arithmetic of the Si4060 driver header
  (Software/ARM_SI4060.h): a timer counter clocked from the master clock (MCK)
  through the prescaler chosen in TC_CMRx, reset on reaching the compare value,
  interrupts once per transmitted bit or per generated sample.
*/
module TimerCompare {

  import opened Wrappers

  /** The counter clock sources selectable in TC_CMRx. */
  datatype TimerClock = TimerClock1 | TimerClock2 | TimerClock3 | TimerClock4 | TimerClock5

  /** The TC_CMRx code of a clock source: 0..4, with 4 for the slow clock. */
  function Code(clock: TimerClock): (code: nat)
    ensures code <= 4
    ensures code == 4 <==> clock == TimerClock5
  {
    match clock
    case TimerClock1 => 0
    case TimerClock2 => 1
    case TimerClock3 => 2
    case TimerClock4 => 3
    case TimerClock5 => 4
  }

  /** Decodes a TC_CMRx code; only 0..4 name a clock source. */
  function FromCode(code: int): (clock: Option<TimerClock>)
    ensures clock.Some? <==> 0 <= code <= 4
    ensures clock.Some? ==> Code(clock.value) == code
  {
    if code == 0 then Some(TimerClock1)
    else if code == 1 then Some(TimerClock2)
    else if code == 2 then Some(TimerClock3)
    else if code == 3 then Some(TimerClock4)
    else if code == 4 then Some(TimerClock5)
    else None
  }

  lemma CodeRoundTrip(clock: TimerClock)
    ensures FromCode(Code(clock)) == Some(clock)
  {
  }

  function Pow4(n: nat): nat
  {
    if n == 0 then 1 else 4 * Pow4(n - 1)
  }

  /**
    The master-clock divisor of a clock source: MCK/2, MCK/8, MCK/32, MCK/128,
    that is 2 * 4^code. TIMER_CLOCK5 runs from the slow clock and divides nothing.
  */
  function MckDivisor(clock: TimerClock): (divisor: Option<nat>)
    ensures divisor.None? <==> clock == TimerClock5
    ensures divisor.Some? ==> divisor.value == 2 * Pow4(Code(clock))
  {
    match clock
    case TimerClock1 => Some(2)
    case TimerClock2 => Some(8)
    case TimerClock3 => Some(32)
    case TimerClock4 => Some(128)
    case TimerClock5 => None
  }

  lemma {:induction false} NestedFloor(n: nat, a: nat, b: nat, q: nat)
    requires a > 0 && b > 0
    requires q == n / a / b
    ensures q * (a * b) <= n < (q + 1) * (a * b)
  {
    var t := n / a;
    assert t * a <= n < (t + 1) * a;
    assert q * b <= t < (q + 1) * b;
    assert q * (a * b) == (q * b) * a;
    assert (q * b) * a <= t * a;
    assert t + 1 <= (q + 1) * b;
    assert (t + 1) * a <= ((q + 1) * b) * a;
    assert ((q + 1) * b) * a == (q + 1) * (a * b);
  }

  /**
    The compare value for a bit rate: MCK / divisor / baud, in integers. It is
    the largest count whose period (count * divisor * baud master-clock cycles)
    fits in one second, so the timer never runs slower than the bit rate.
  */
  function CompareValue(mckHz: nat, divisor: nat, baud: nat): (cv: nat)
    requires divisor > 0 && baud > 0
    ensures cv * (divisor * baud) <= mckHz < (cv + 1) * (divisor * baud)
  {
    var cv := mckHz / divisor / baud;
    NestedFloor(mckHz, divisor, baud, cv);
    cv
  }

  /** The compare value is exact when the prescaled clock is a whole multiple of the bit rate. */
  predicate DividesExactly(mckHz: nat, divisor: nat, baud: nat)
  {
    divisor * baud > 0 && mckHz % (divisor * baud) == 0
  }

  /**
    The interrupt rate a compare value produces: the same division with the
    compare value and the rate exchanged. Converting that rate back into a
    compare value never gives a smaller count.
  */
  function InterruptRate(mckHz: nat, divisor: nat, cv: nat): (rate: nat)
    requires divisor > 0 && cv > 0
    ensures rate * (divisor * cv) <= mckHz < (rate + 1) * (divisor * cv)
    ensures rate > 0 ==> CompareValue(mckHz, divisor, rate) >= cv
  {
    var rate := CompareValue(mckHz, divisor, cv);
    RateBackToCompareValue(mckHz, divisor, cv, rate);
    rate
  }

  lemma RateBackToCompareValue(mckHz: nat, divisor: nat, cv: nat, rate: nat)
    requires divisor > 0 && cv > 0
    requires rate * (divisor * cv) <= mckHz
    ensures rate > 0 ==> CompareValue(mckHz, divisor, rate) >= cv
  {
    if rate > 0 {
      var c := CompareValue(mckHz, divisor, rate);
      var d := divisor * rate;
      assert cv * d == rate * (divisor * cv);
      if c < cv {
        MultiplyAtLeast(c + 1, cv, d);
      }
    }
  }

  /** When exact, the compare value gives back precisely the bit rate it was computed for. */
  lemma ExactCompareRoundTrip(mckHz: nat, divisor: nat, baud: nat)
    requires mckHz > 0 && divisor > 0 && baud > 0
    requires DividesExactly(mckHz, divisor, baud)
    ensures CompareValue(mckHz, divisor, baud) > 0
    ensures CompareValue(mckHz, divisor, baud) * divisor * baud == mckHz
    ensures InterruptRate(mckHz, divisor, CompareValue(mckHz, divisor, baud)) == baud
  {
    var cv := CompareValue(mckHz, divisor, baud);
    var k := mckHz / (divisor * baud);
    assert mckHz == k * (divisor * baud);
    KeepsQuotient(k, divisor * baud, cv);
    assert cv == k;
    assert mckHz == (cv * baud) * divisor;
    assert mckHz / divisor == cv * baud by { ExactQuotient(cv * baud, divisor); }
    assert (cv * baud) / cv == baud by { ExactQuotient(baud, cv); }
  }

  lemma KeepsQuotient(k: nat, d: nat, c: nat)
    requires d > 0
    requires c * d <= k * d < (c + 1) * d
    ensures c == k
  {
  }

  lemma ExactQuotient(q: nat, d: nat)
    requires d > 0
    ensures (q * d) / d == q
  {
    var r := (q * d) / d;
    assert r * d <= q * d < (r + 1) * d;
    KeepsQuotient(q, d, r);
  }

  /** The three host clock profiles the driver is tuned for. */
  datatype Host = Mck64MHz | Mck16MHz | Mck12MHz

  function MckHz(host: Host): nat
  {
    match host
    case Mck64MHz => 64000000
    case Mck16MHz => 16000000
    case Mck12MHz => 12000000
  }

  /** The clock source the RTTY timer uses on each host: TIMER_CLOCK4 at 64 MHz, TIMER_CLOCK2 otherwise. */
  function RttyClock(host: Host): (clock: TimerClock)
    ensures MckDivisor(clock).Some?
    ensures clock == TimerClock4 <==> host == Mck64MHz
  {
    match host
    case Mck64MHz => TimerClock4
    case Mck16MHz => TimerClock2
    case Mck12MHz => TimerClock2
  }

  function RttyDivisor(host: Host): (divisor: nat)
    ensures divisor > 0 && MckDivisor(RttyClock(host)) == Some(divisor)
  {
    MckDivisor(RttyClock(host)).value
  }

  /** A row of the RTTY compare-value table: a bit rate and the compare value for each host. */
  datatype CompareRow = CompareRow(baud: nat, at64MHz: nat, at16MHz: nat, at12MHz: nat)

  function Tabulated(row: CompareRow, host: Host): nat
  {
    match host
    case Mck64MHz => row.at64MHz
    case Mck16MHz => row.at16MHz
    case Mck12MHz => row.at12MHz
  }

  const RTTY_COMPARE_TABLE: seq<CompareRow> := [
    CompareRow(50, 10000, 40000, 30000),
    CompareRow(100, 5000, 20000, 15000),
    CompareRow(200, 2500, 10000, 7500),
    CompareRow(300, 1667, 6667, 5000),
    CompareRow(600, 833, 3333, 2500),
    CompareRow(1200, 417, 1667, 1250)
  ]

  predicate ExactRow(row: CompareRow, host: Host)
  {
    row.baud > 0 && DividesExactly(MckHz(host), RttyDivisor(host), row.baud)
  }

  predicate RowAgrees(row: CompareRow, host: Host)
  {
    row.baud > 0 && Tabulated(row, host) == CompareValue(MckHz(host), RttyDivisor(host), row.baud)
  }

  /**
    Which table entries are exact: every 12 MHz entry, and the 50, 100 and 200
    baud entries at 64 MHz and 16 MHz.
  */
  lemma ExactTableEntries()
    ensures |RTTY_COMPARE_TABLE| == 6
    ensures forall i :: 0 <= i < 6 ==> ExactRow(RTTY_COMPARE_TABLE[i], Mck12MHz)
    ensures forall i :: 0 <= i < 6 ==>
      (ExactRow(RTTY_COMPARE_TABLE[i], Mck64MHz) <==> RTTY_COMPARE_TABLE[i].baud <= 200)
    ensures forall i :: 0 <= i < 6 ==>
      (ExactRow(RTTY_COMPARE_TABLE[i], Mck16MHz) <==> RTTY_COMPARE_TABLE[i].baud <= 200)
  {
  }

  /** Every exact entry of the table is the compare value computed from its host and bit rate. */
  lemma ExactEntriesAgree()
    ensures forall i, host :: 0 <= i < 6 && ExactRow(RTTY_COMPARE_TABLE[i], host) ==> RowAgrees(RTTY_COMPARE_TABLE[i], host)
  {
  }

  /**
    The compare value rounded to the nearest count: within half a count of
    MCK / divisor / rate, halves rounding up.
  */
  function NearestCompareValue(mckHz: nat, divisor: nat, rateHz: nat): (cv: nat)
    requires divisor > 0 && rateHz > 0
    ensures (2 * cv - 1) * (divisor * rateHz) <= 2 * mckHz < (2 * cv + 1) * (divisor * rateHz)
  {
    (2 * mckHz + divisor * rateHz) / (2 * (divisor * rateHz))
  }

  /** Where the division is exact, rounding and flooring agree. */
  lemma ExactNearestAgree(mckHz: nat, divisor: nat, rateHz: nat)
    requires divisor > 0 && rateHz > 0
    requires DividesExactly(mckHz, divisor, rateHz)
    ensures NearestCompareValue(mckHz, divisor, rateHz) == CompareValue(mckHz, divisor, rateHz)
  {
    var d := divisor * rateHz;
    var k := mckHz / d;
    assert mckHz == k * d;
    assert k * (2 * d) == 2 * (k * d);
    assert (k + 1) * (2 * d) == 2 * (k * d) + 2 * d;
    FloorUnique(2 * mckHz + d, 2 * d, k);
    KeepsQuotient(k, d, CompareValue(mckHz, divisor, rateHz));
  }

  lemma FloorUnique(x: nat, d: nat, c: nat)
    requires d > 0
    requires c * d <= x < (c + 1) * d
    ensures x / d == c
  {
    var r := x / d;
    assert r * d <= x < (r + 1) * d;
    if r < c {
      MultiplyAtLeast(r + 1, c, d);
    } else if r > c {
      MultiplyAtLeast(c + 1, r, d);
    }
  }

  lemma MultiplyAtLeast(a: int, b: int, d: nat)
    requires a <= b
    ensures a * d <= b * d
  {
  }

  /** Every entry of the RTTY table, exact or not, is the compare value rounded to the nearest count. */
  lemma TableEntriesNearest()
    ensures forall i, host :: 0 <= i < 6 ==>
      RTTY_COMPARE_TABLE[i].baud > 0 &&
      Tabulated(RTTY_COMPARE_TABLE[i], host) == NearestCompareValue(MckHz(host), RttyDivisor(host), RTTY_COMPARE_TABLE[i].baud)
  {
  }

  /** A row of the APRS timer table: host, clock source, compare value and the interrupt rate it is for. */
  datatype AprsTimerRow = AprsTimerRow(host: Host, clock: TimerClock, cv: nat, rateHz: nat)

  /** The APRS timer settings, one row per host and rate: the bit clock, the sine-sample clock and the synchronous GFSK clock. */
  const APRS_TIMER_TABLE: seq<AprsTimerRow> := [
    AprsTimerRow(Mck64MHz, TimerClock2, 6667, 1200),
    AprsTimerRow(Mck64MHz, TimerClock2, 368, 21739),
    AprsTimerRow(Mck64MHz, TimerClock2, 303, 26400),
    AprsTimerRow(Mck16MHz, TimerClock1, 6667, 1200),
    AprsTimerRow(Mck16MHz, TimerClock1, 736, HALVED_SAMPLE_RATE),
    AprsTimerRow(Mck16MHz, TimerClock1, 303, 26400),
    AprsTimerRow(Mck12MHz, TimerClock1, 5000, 1200),
    AprsTimerRow(Mck12MHz, TimerClock1, 552, HALVED_SAMPLE_RATE),
    AprsTimerRow(Mck12MHz, TimerClock1, 227, 26400)
  ]

  /** The sample rate the slow hosts run at: half of 21739 Hz, floored. */
  const HALVED_SAMPLE_RATE: nat := 10869

  predicate AprsRowNearest(row: AprsTimerRow)
  {
    row.rateHz > 0 && MckDivisor(row.clock).Some? && MckDivisor(row.clock).value > 0 &&
    row.cv == NearestCompareValue(MckHz(row.host), MckDivisor(row.clock).value, row.rateHz)
  }

  /** Each APRS timer entry is the rounded compare value for its host, clock and rate. */
  lemma AprsTimerEntriesNearest()
    ensures |APRS_TIMER_TABLE| == 9
    ensures forall i :: 0 <= i < 9 ==> AprsRowNearest(APRS_TIMER_TABLE[i])
    ensures HALVED_SAMPLE_RATE == APRS_TIMER_TABLE[1].rateHz / 2
    ensures APRS_TIMER_TABLE[4].rateHz == HALVED_SAMPLE_RATE && APRS_TIMER_TABLE[7].rateHz == HALVED_SAMPLE_RATE
  {
  }

  /** TC_CMRx code of the RTTY timer and its compare value. */
  const TIMER_CLOCK_RTTY: nat := 0x01
  const COMPARE_VALUE_RTTY: nat := 5000

  /** TC_CMRx code of the APRS lookup bit timer (TC0) and its compare value. */
  const TIMER_CLOCK_LOOKUP_TC0: nat := 0x00
  const COMPARE_VALUE_LOOKUP_TC0: nat := 5000

  /** TC_CMRx codes and compare values of the synchronous GFSK timer and the APRS lookup sample timer (TC1). */
  const TIMER_CLOCK_GFSK_SYNC_TC0: nat := 0x00
  const COMPARE_VALUE_GFSK_SYNC_TC0: nat := 227
  const TIMER_CLOCK_LOOKUP_TC1: nat := 0x00
  const COMPARE_VALUE_LOOKUP_TC1: nat := 552

  /** The configured RTTY timer is MCK/8 with compare value 5000: exactly 300 baud on the 12 MHz host. */
  lemma ConfiguredRttyTimer()
    ensures FromCode(TIMER_CLOCK_RTTY) == Some(RttyClock(Mck12MHz))
    ensures DividesExactly(MckHz(Mck12MHz), RttyDivisor(Mck12MHz), 300)
    ensures CompareValue(MckHz(Mck12MHz), RttyDivisor(Mck12MHz), 300) == COMPARE_VALUE_RTTY
    ensures InterruptRate(MckHz(Mck12MHz), RttyDivisor(Mck12MHz), COMPARE_VALUE_RTTY) == 300
  {
  }

  /** The configured APRS bit timer is MCK/2 with compare value 5000: exactly 1200 baud on the 12 MHz host. */
  lemma ConfiguredAprsBitTimer()
    ensures FromCode(TIMER_CLOCK_LOOKUP_TC0) == Some(TimerClock1)
    ensures MckDivisor(FromCode(TIMER_CLOCK_LOOKUP_TC0).value).Some?
    ensures var divisor := MckDivisor(FromCode(TIMER_CLOCK_LOOKUP_TC0).value).value;
      divisor > 0 && DividesExactly(MckHz(Mck12MHz), divisor, 1200) &&
      CompareValue(MckHz(Mck12MHz), divisor, 1200) == COMPARE_VALUE_LOOKUP_TC0 &&
      InterruptRate(MckHz(Mck12MHz), divisor, COMPARE_VALUE_LOOKUP_TC0) == 1200
  {
  }

  /** The configured GFSK and lookup sample timers are the 12 MHz rows of the APRS timer table. */
  lemma ConfiguredAprsSampleTimers()
    ensures FromCode(TIMER_CLOCK_GFSK_SYNC_TC0) == Some(APRS_TIMER_TABLE[8].clock)
    ensures APRS_TIMER_TABLE[8].host == Mck12MHz && APRS_TIMER_TABLE[8].cv == COMPARE_VALUE_GFSK_SYNC_TC0
    ensures FromCode(TIMER_CLOCK_LOOKUP_TC1) == Some(APRS_TIMER_TABLE[7].clock)
    ensures APRS_TIMER_TABLE[7].host == Mck12MHz && APRS_TIMER_TABLE[7].cv == COMPARE_VALUE_LOOKUP_TC1
    ensures AprsRowNearest(APRS_TIMER_TABLE[7]) && AprsRowNearest(APRS_TIMER_TABLE[8])
  {
    AprsTimerEntriesNearest();
  }
}
