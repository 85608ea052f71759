/**
  The APRS sine lookup table of the Si4060 driver header (Software/ARM_SI4060.h).
  One period of a sine wave as 256 unsigned 8-bit samples centred on 128; the
  lookup transmitter adds each sample (scaled) to the carrier as a frequency
  offset and walks the table with a per-tone cursor step.
  The table is written as its eight source lines of 32 samples each.
*/
module SineLookup {

  /** Number of samples in one period of the table. */
  const TABLE_LENGTH: nat := 256

  /** Cursor increments per timer tick for the two AFSK tones (12 MHz and 16 MHz hosts). */
  const LOOKUP_TBL_STEP_1200: nat := 28
  const LOOKUP_TBL_STEP_2200: nat := 52

  /** The increments tabulated for the 64 MHz host, whose table timer runs twice as fast. */
  const LOOKUP_TBL_STEP_1200_64MHZ: nat := 14
  const LOOKUP_TBL_STEP_2200_64MHZ: nat := 26

  const ROW0: seq<int> := [128,131,134,137,140,144,147,150,153,156,159,162,165,168,171,174,177,179,182,185,188,191,193,196,199,201,204,206,209,211,213,216]
  const ROW1: seq<int> := [218,220,222,224,226,228,230,232,234,235,237,239,240,241,243,244,245,246,248,249,250,250,251,252,253,253,254,254,254,255,255,255]
  const ROW2: seq<int> := [255,255,255,255,254,254,254,253,253,252,251,250,250,249,248,246,245,244,243,241,240,239,237,235,234,232,230,228,226,224,222,220]
  const ROW3: seq<int> := [218,216,213,211,209,206,204,201,199,196,193,191,188,185,182,179,177,174,171,168,165,162,159,156,153,150,147,144,140,137,134,131]
  const ROW4: seq<int> := [128,125,122,119,116,112,109,106,103,100, 97, 94, 91, 88, 85, 82, 79, 77, 74, 71, 68, 65, 63, 60, 57, 55, 52, 50, 47, 45, 43, 40]
  const ROW5: seq<int> := [ 38, 36, 34, 32, 30, 28, 26, 24, 22, 21, 19, 17, 16, 15, 13, 12, 11, 10,  8,  7,  6,  6,  5,  4,  3,  3,  2,  2,  2,  1,  1,  1]
  const ROW6: seq<int> := [  1,  1,  1,  1,  2,  2,  2,  3,  3,  4,  5,  6,  6,  7,  8, 10, 11, 12, 13, 15, 16, 17, 19, 21, 22, 24, 26, 28, 30, 32, 34, 36]
  const ROW7: seq<int> := [ 38, 40, 43, 45, 47, 50, 52, 55, 57, 60, 63, 65, 68, 71, 74, 77, 79, 82, 85, 88, 91, 94, 97,100,103,106,109,112,116,119,122,125]

  /** The two half periods: the positive lobe (source lines 172-175) and the negative lobe (lines 176-179). */
  const FIRST_HALF: seq<int> := (ROW0 + ROW1) + (ROW2 + ROW3)
  const SECOND_HALF: seq<int> := (ROW4 + ROW5) + (ROW6 + ROW7)

  /** The table itself, `SineLookUp` in the driver. */
  const SINE_LOOK_UP: seq<int> := FIRST_HALF + SECOND_HALF

  // Locating a sample: table -> half -> row. InRow0..InRow7 give each row on its own.

  lemma HalfOf(i: nat)
    requires i < 256
    ensures |FIRST_HALF| == 128 && |SECOND_HALF| == 128 && |SINE_LOOK_UP| == TABLE_LENGTH
    ensures SINE_LOOK_UP[i] == if i < 128 then FIRST_HALF[i] else SECOND_HALF[i - 128]
  {
  }

  lemma RowOfFirstHalf(j: nat)
    requires j < 128
    ensures FIRST_HALF[j] ==
      if j < 32 then ROW0[j] else if j < 64 then ROW1[j - 32] else if j < 96 then ROW2[j - 64] else ROW3[j - 96]
  {
    if j < 64 {
      assert FIRST_HALF[j] == (ROW0 + ROW1)[j];
    } else {
      assert FIRST_HALF[j] == (ROW2 + ROW3)[j - 64];
    }
  }

  lemma RowOfSecondHalf(j: nat)
    requires j < 128
    ensures SECOND_HALF[j] ==
      if j < 32 then ROW4[j] else if j < 64 then ROW5[j - 32] else if j < 96 then ROW6[j - 64] else ROW7[j - 96]
  {
    if j < 64 {
      assert SECOND_HALF[j] == (ROW4 + ROW5)[j];
    } else {
      assert SECOND_HALF[j] == (ROW6 + ROW7)[j - 64];
    }
  }

  lemma InRow0(i: nat)
    requires i < 32
    ensures |SINE_LOOK_UP| == TABLE_LENGTH && SINE_LOOK_UP[i] == ROW0[i]
  {
    HalfOf(i);
    RowOfFirstHalf(i);
  }

  lemma InRow1(i: nat)
    requires 32 <= i < 64
    ensures |SINE_LOOK_UP| == TABLE_LENGTH && SINE_LOOK_UP[i] == ROW1[i - 32]
  {
    HalfOf(i);
    RowOfFirstHalf(i);
  }

  lemma InRow2(i: nat)
    requires 64 <= i < 96
    ensures |SINE_LOOK_UP| == TABLE_LENGTH && SINE_LOOK_UP[i] == ROW2[i - 64]
  {
    HalfOf(i);
    RowOfFirstHalf(i);
  }

  lemma InRow3(i: nat)
    requires 96 <= i < 128
    ensures |SINE_LOOK_UP| == TABLE_LENGTH && SINE_LOOK_UP[i] == ROW3[i - 96]
  {
    HalfOf(i);
    RowOfFirstHalf(i);
  }

  lemma InRow4(i: nat)
    requires 128 <= i < 160
    ensures |SINE_LOOK_UP| == TABLE_LENGTH && SINE_LOOK_UP[i] == ROW4[i - 128]
  {
    HalfOf(i);
    RowOfSecondHalf(i - 128);
  }

  lemma InRow5(i: nat)
    requires 160 <= i < 192
    ensures |SINE_LOOK_UP| == TABLE_LENGTH && SINE_LOOK_UP[i] == ROW5[i - 160]
  {
    HalfOf(i);
    RowOfSecondHalf(i - 128);
  }

  lemma InRow6(i: nat)
    requires 192 <= i < 224
    ensures |SINE_LOOK_UP| == TABLE_LENGTH && SINE_LOOK_UP[i] == ROW6[i - 192]
  {
    HalfOf(i);
    RowOfSecondHalf(i - 128);
  }

  lemma InRow7(i: nat)
    requires 224 <= i < 256
    ensures |SINE_LOOK_UP| == TABLE_LENGTH && SINE_LOOK_UP[i] == ROW7[i - 224]
  {
    HalfOf(i);
    RowOfSecondHalf(i - 128);
  }

  // Facts about the rows, each over 32 literal samples: the first quarter
  // (rows 0 and 1 and the peak that opens row 2) lies in the upper half of the
  // byte range, and every other row is a mirror or a complement of a quarter row.

  lemma QuarterRowsInRange()
    ensures forall j :: 0 <= j < 32 ==> 128 <= ROW0[j] <= 255 && 128 <= ROW1[j] <= 255
    ensures ROW2[0] == 255
  {
  }

  lemma Row4Complements0()
    ensures forall j :: 0 <= j < 32 ==> ROW0[j] + ROW4[j] == 256
  {
  }

  lemma Row5Complements1()
    ensures forall j :: 0 <= j < 32 ==> ROW1[j] + ROW5[j] == 256
  {
  }

  lemma Row6Complements2()
    ensures forall j :: 0 <= j < 32 ==> ROW2[j] + ROW6[j] == 256
  {
  }

  lemma Row7Complements3()
    ensures forall j :: 0 <= j < 32 ==> ROW3[j] + ROW7[j] == 256
  {
  }

  lemma RowStartsMirror()
    ensures ROW0[0] == ROW4[0] && ROW1[0] == ROW3[0]
  {
  }

  lemma Row3MirrorsLow0()
    ensures forall j :: 1 <= j < 16 ==> ROW0[j] == ROW3[32 - j]
  {
  }

  lemma Row3MirrorsHigh0()
    ensures forall j :: 16 <= j < 32 ==> ROW0[j] == ROW3[32 - j]
  {
  }

  lemma Row2MirrorsLow1()
    ensures forall j :: 1 <= j < 16 ==> ROW1[j] == ROW2[32 - j]
  {
  }

  lemma Row2MirrorsHigh1()
    ensures forall j :: 16 <= j < 32 ==> ROW1[j] == ROW2[32 - j]
  {
  }

  // Shapes of a 256-sample period, stated for any table.

  /** Each sample of the second half is the matching sample of the first half reflected about 128. */
  ghost predicate HalfPeriodAntisymmetric(t: seq<int>)
  {
    |t| == TABLE_LENGTH && forall i :: 0 <= i < 128 ==> t[i] + t[i + 128] == 256
  }

  /** The first half is symmetric about its peak at index 64. */
  ghost predicate LobeMirrored(t: seq<int>)
  {
    |t| == TABLE_LENGTH && forall i :: 0 <= i <= 128 ==> t[i] == t[128 - i]
  }

  /** The rising quarter, samples 0..64, lies in the upper half of the byte range. */
  ghost predicate RisingQuarterHigh(t: seq<int>)
  {
    |t| == TABLE_LENGTH && forall i :: 0 <= i <= 64 ==> 128 <= t[i] <= 255
  }

  /** The sample at index i rebuilt from the first quarter period q = samples 0..64. */
  function FromQuarter(q: seq<int>, i: nat): int
    requires |q| == 65 && i < 256
  {
    if i <= 64 then q[i]
    else if i <= 128 then q[128 - i]
    else if i <= 192 then 256 - q[i - 128]
    else 256 - q[256 - i]
  }

  /** The two symmetries together make a table quarter-wave symmetric. */
  lemma {:induction false} QuarterWaveFromSymmetries(t: seq<int>)
    requires HalfPeriodAntisymmetric(t) && LobeMirrored(t)
    ensures forall i :: 0 <= i < TABLE_LENGTH ==> t[i] == FromQuarter(t[..65], i)
  {
    var q := t[..65];
    forall i | 0 <= i < TABLE_LENGTH
      ensures t[i] == FromQuarter(q, i)
    {
      if i <= 64 {
        assert q[i] == t[i];
      } else if i <= 128 {
        assert q[128 - i] == t[128 - i];
      } else if i <= 192 {
        assert q[i - 128] == t[i - 128];
      } else {
        assert q[256 - i] == t[256 - i];
        assert t[256 - i] == t[i - 128];
      }
    }
  }

  /** With the symmetries, a high rising quarter puts every sample in 1..255. */
  lemma {:induction false} RangeFromSymmetries(t: seq<int>)
    requires HalfPeriodAntisymmetric(t) && LobeMirrored(t) && RisingQuarterHigh(t)
    ensures forall i :: 0 <= i < TABLE_LENGTH ==> 1 <= t[i] <= 255
  {
    forall i | 0 <= i < TABLE_LENGTH
      ensures 1 <= t[i] <= 255
    {
      var lobe := if i < 128 then i else i - 128;
      var quarter := if lobe <= 64 then lobe else 128 - lobe;
      assert 128 <= t[quarter] <= 255;
      assert t[lobe] == t[quarter];
      if i >= 128 {
        assert t[lobe] + t[i] == 256;
      }
    }
  }

  // The table has these shapes.

  lemma TableLength()
    ensures |SINE_LOOK_UP| == TABLE_LENGTH
  {
    HalfOf(0);
  }

  /** The table starts and crosses the centre at 128 and peaks at 255 and 1 a quarter period later. */
  lemma CardinalSamples()
    ensures |SINE_LOOK_UP| == TABLE_LENGTH
    ensures SINE_LOOK_UP[0] == 128 && SINE_LOOK_UP[64] == 255
    ensures SINE_LOOK_UP[128] == 128 && SINE_LOOK_UP[192] == 1
  {
    InRow0(0); InRow2(64); InRow4(128); InRow6(192);
  }

  lemma AntisymmetricInRow0(i: nat)
    requires i < 32
    ensures |SINE_LOOK_UP| == TABLE_LENGTH && SINE_LOOK_UP[i] + SINE_LOOK_UP[i + 128] == 256
  {
    InRow0(i); InRow4(i + 128); Row4Complements0();
  }

  lemma AntisymmetricInRow1(i: nat)
    requires 32 <= i < 64
    ensures |SINE_LOOK_UP| == TABLE_LENGTH && SINE_LOOK_UP[i] + SINE_LOOK_UP[i + 128] == 256
  {
    InRow1(i); InRow5(i + 128); Row5Complements1();
  }

  lemma AntisymmetricInRow2(i: nat)
    requires 64 <= i < 96
    ensures |SINE_LOOK_UP| == TABLE_LENGTH && SINE_LOOK_UP[i] + SINE_LOOK_UP[i + 128] == 256
  {
    InRow2(i); InRow6(i + 128); Row6Complements2();
  }

  lemma AntisymmetricInRow3(i: nat)
    requires 96 <= i < 128
    ensures |SINE_LOOK_UP| == TABLE_LENGTH && SINE_LOOK_UP[i] + SINE_LOOK_UP[i + 128] == 256
  {
    InRow3(i); InRow7(i + 128); Row7Complements3();
  }

  /** Half-period antisymmetry at one index of the positive lobe. */
  lemma AntisymmetricAt(i: nat)
    requires i < 128
    ensures |SINE_LOOK_UP| == TABLE_LENGTH
    ensures SINE_LOOK_UP[i] + SINE_LOOK_UP[i + 128] == 256
  {
    if i < 32 {
      AntisymmetricInRow0(i);
    } else if i < 64 {
      AntisymmetricInRow1(i);
    } else if i < 96 {
      AntisymmetricInRow2(i);
    } else {
      AntisymmetricInRow3(i);
    }
  }

  /** Half-period antisymmetry: the negative lobe is the positive lobe reflected about 128. */
  lemma {:induction false} HalfPeriodAntisymmetry()
    ensures HalfPeriodAntisymmetric(SINE_LOOK_UP)
  {
    TableLength();
    forall i | 0 <= i < 128
      ensures SINE_LOOK_UP[i] + SINE_LOOK_UP[i + 128] == 256
    {
      AntisymmetricAt(i);
    }
  }

  lemma MirrorInRow0(i: nat)
    requires 1 <= i < 32
    ensures |SINE_LOOK_UP| == TABLE_LENGTH && SINE_LOOK_UP[i] == SINE_LOOK_UP[128 - i]
  {
    InRow0(i); InRow3(128 - i);
    if i < 16 { Row3MirrorsLow0(); } else { Row3MirrorsHigh0(); }
  }

  lemma MirrorInRow1(i: nat)
    requires 32 < i < 64
    ensures |SINE_LOOK_UP| == TABLE_LENGTH && SINE_LOOK_UP[i] == SINE_LOOK_UP[128 - i]
  {
    InRow1(i); InRow2(128 - i);
    if i < 48 { Row2MirrorsLow1(); } else { Row2MirrorsHigh1(); }
  }

  lemma MirrorAtRowStarts()
    ensures |SINE_LOOK_UP| == TABLE_LENGTH
    ensures SINE_LOOK_UP[0] == SINE_LOOK_UP[128] && SINE_LOOK_UP[32] == SINE_LOOK_UP[96]
  {
    InRow0(0); InRow4(128); InRow1(32); InRow3(96); RowStartsMirror();
  }

  lemma MirroredRow0()
    ensures |SINE_LOOK_UP| == TABLE_LENGTH
    ensures forall i :: 1 <= i < 32 ==> SINE_LOOK_UP[i] == SINE_LOOK_UP[128 - i]
  {
    TableLength();
    forall i | 1 <= i < 32
      ensures SINE_LOOK_UP[i] == SINE_LOOK_UP[128 - i]
    {
      MirrorInRow0(i);
    }
  }

  lemma MirroredRow1()
    ensures |SINE_LOOK_UP| == TABLE_LENGTH
    ensures forall i :: 32 < i < 64 ==> SINE_LOOK_UP[i] == SINE_LOOK_UP[128 - i]
  {
    TableLength();
    forall i | 32 < i < 64
      ensures SINE_LOOK_UP[i] == SINE_LOOK_UP[128 - i]
    {
      MirrorInRow1(i);
    }
  }

  /** A table whose rising quarter mirrors into the falling quarter, row by row, has a mirrored lobe. */
  lemma {:induction false} MirroredFromRisingQuarter(t: seq<int>)
    requires |t| == TABLE_LENGTH
    requires t[0] == t[128] && t[32] == t[96]
    requires forall i :: 1 <= i < 32 ==> t[i] == t[128 - i]
    requires forall i :: 32 < i < 64 ==> t[i] == t[128 - i]
    ensures LobeMirrored(t)
  {
    forall i | 0 <= i <= 128
      ensures t[i] == t[128 - i]
    {
      if i > 64 {
        assert t[128 - i] == t[128 - (128 - i)];
      }
    }
  }

  /** Mirror symmetry of the positive lobe about its peak at index 64. */
  lemma LobeMirrorSymmetry()
    ensures LobeMirrored(SINE_LOOK_UP)
  {
    MirrorAtRowStarts();
    MirroredRow0();
    MirroredRow1();
    MirroredFromRisingQuarter(SINE_LOOK_UP);
  }

  /** With both symmetries, the negative lobe is symmetric about its trough at index 192 too. */
  lemma {:induction false} NegativeLobeFromSymmetries(t: seq<int>)
    requires HalfPeriodAntisymmetric(t) && LobeMirrored(t)
    ensures forall j :: 128 < j < 256 ==> t[j] == t[384 - j]
  {
    forall j | 128 < j < 256
      ensures t[j] == t[384 - j]
    {
      var i := j - 128;
      assert t[i] + t[i + 128] == 256;
      assert t[128 - i] + t[(128 - i) + 128] == 256;
      assert t[i] == t[128 - i];
    }
  }

  /** Mirror symmetry of the negative lobe about its trough at index 192. */
  lemma NegativeLobeMirrorSymmetry()
    ensures |SINE_LOOK_UP| == TABLE_LENGTH
    ensures forall j :: 128 < j < 256 ==> SINE_LOOK_UP[j] == SINE_LOOK_UP[384 - j]
  {
    HalfPeriodAntisymmetry();
    LobeMirrorSymmetry();
    NegativeLobeFromSymmetries(SINE_LOOK_UP);
  }

  /** The rising quarter of the table lies in 128..255. */
  lemma RisingQuarterInRange()
    ensures RisingQuarterHigh(SINE_LOOK_UP)
  {
    TableLength();
    QuarterRowsInRange();
    forall i | 0 <= i <= 64
      ensures 128 <= SINE_LOOK_UP[i] <= 255
    {
      if i < 32 {
        InRow0(i);
      } else if i < 64 {
        InRow1(i);
      } else {
        InRow2(i);
      }
    }
  }

  /** Quarter-wave symmetry: the whole table is determined by its first 65 samples. */
  lemma QuarterWaveSymmetry()
    ensures |SINE_LOOK_UP| == TABLE_LENGTH
    ensures forall i :: 0 <= i < TABLE_LENGTH ==> SINE_LOOK_UP[i] == FromQuarter(SINE_LOOK_UP[..65], i)
  {
    HalfPeriodAntisymmetry();
    LobeMirrorSymmetry();
    QuarterWaveFromSymmetries(SINE_LOOK_UP);
  }

  /** Every sample lies in 1..255, so every sample is a nonzero unsigned byte. */
  lemma SamplesInRange()
    ensures |SINE_LOOK_UP| == TABLE_LENGTH
    ensures forall i :: 0 <= i < TABLE_LENGTH ==> 1 <= SINE_LOOK_UP[i] <= 255
  {
    HalfPeriodAntisymmetry();
    LobeMirrorSymmetry();
    RisingQuarterInRange();
    RangeFromSymmetries(SINE_LOOK_UP);
  }

  // The lookup cursor.

  /** sample(cursor): the table read at an in-range cursor. */
  function Sample(cursor: nat): (r: int)
    requires cursor < TABLE_LENGTH
    ensures 1 <= r <= 255
  {
    SamplesInRange();
    SINE_LOOK_UP[cursor]
  }

  /** One tick of the table timer: the cursor moves by step and wraps at the table length. */
  function Advance(cursor: nat, step: nat): (next: nat)
    ensures next < TABLE_LENGTH
  {
    (cursor + step) % TABLE_LENGTH
  }

  /** The cursor after the given number of ticks from start. */
  function CursorAfter(start: nat, step: nat, ticks: nat): (c: nat)
    ensures c < TABLE_LENGTH
  {
    if ticks == 0 then start % TABLE_LENGTH else Advance(CursorAfter(start, step, ticks - 1), step)
  }

  lemma ModAddLeft(a: nat, b: nat)
    ensures (a % TABLE_LENGTH + b) % TABLE_LENGTH == (a + b) % TABLE_LENGTH
  {
  }

  /** Closed form: after n ticks the cursor is (start + n * step) mod 256. */
  lemma {:induction false} CursorClosedForm(start: nat, step: nat, ticks: nat)
    ensures CursorAfter(start, step, ticks) == (start + ticks * step) % TABLE_LENGTH
  {
    if ticks > 0 {
      CursorClosedForm(start, step, ticks - 1);
      var before := start + (ticks - 1) * step;
      assert before + step == start + ticks * step;
      ModAddLeft(before, step);
    }
  }

  /** Starting from cursor 0, the cursor climbs by exactly step per tick until the first wrap. */
  lemma CursorBeforeFirstWrap(step: nat, ticks: nat)
    requires ticks * step < TABLE_LENGTH
    ensures CursorAfter(0, step, ticks) == ticks * step
  {
    CursorClosedForm(0, step, ticks);
  }

  /** The cursor is back where it started after any number of ticks whose total advance is a whole table. */
  lemma CursorPeriod(start: nat, step: nat, period: nat, ticks: nat)
    requires (period * step) % TABLE_LENGTH == 0
    ensures CursorAfter(start, step, ticks + period) == CursorAfter(start, step, ticks)
  {
    CursorClosedForm(start, step, ticks + period);
    CursorClosedForm(start, step, ticks);
    var k := (period * step) / TABLE_LENGTH;
    assert (ticks + period) * step == ticks * step + k * TABLE_LENGTH;
    ModAddMultiple(start + ticks * step, k);
  }

  lemma {:induction false} ModAddMultiple(x: nat, k: nat)
    ensures (x + k * TABLE_LENGTH) % TABLE_LENGTH == x % TABLE_LENGTH
  {
    if k > 0 {
      ModAddMultiple(x, k - 1);
      assert x + k * TABLE_LENGTH == (x + (k - 1) * TABLE_LENGTH) + TABLE_LENGTH;
    }
  }

  /**
    With the 12 MHz and 16 MHz steps the cursor comes back to its start every 64
    ticks; with the 64 MHz steps, which run at twice the tick rate, every 128 ticks.
  */
  lemma ConfiguredStepPeriods(start: nat, ticks: nat)
    ensures CursorAfter(start, LOOKUP_TBL_STEP_1200, ticks + 64) == CursorAfter(start, LOOKUP_TBL_STEP_1200, ticks)
    ensures CursorAfter(start, LOOKUP_TBL_STEP_2200, ticks + 64) == CursorAfter(start, LOOKUP_TBL_STEP_2200, ticks)
    ensures CursorAfter(start, LOOKUP_TBL_STEP_1200_64MHZ, ticks + 128) == CursorAfter(start, LOOKUP_TBL_STEP_1200_64MHZ, ticks)
    ensures CursorAfter(start, LOOKUP_TBL_STEP_2200_64MHZ, ticks + 128) == CursorAfter(start, LOOKUP_TBL_STEP_2200_64MHZ, ticks)
  {
    CursorPeriod(start, LOOKUP_TBL_STEP_1200, 64, ticks);
    CursorPeriod(start, LOOKUP_TBL_STEP_2200, 64, ticks);
    CursorPeriod(start, LOOKUP_TBL_STEP_1200_64MHZ, 128, ticks);
    CursorPeriod(start, LOOKUP_TBL_STEP_2200_64MHZ, 128, ticks);
  }

  /** 64 ticks are not a period of the 64 MHz steps: after them the cursor is half a table away. */
  lemma FastStepsHalfWayAfter64(start: nat)
    requires start < TABLE_LENGTH
    ensures CursorAfter(start, LOOKUP_TBL_STEP_1200_64MHZ, 64) == Advance(start, 128)
    ensures CursorAfter(start, LOOKUP_TBL_STEP_2200_64MHZ, 64) == Advance(start, 128)
    ensures Advance(start, 128) != CursorAfter(start, LOOKUP_TBL_STEP_1200_64MHZ, 0)
  {
    CursorClosedForm(start, LOOKUP_TBL_STEP_1200_64MHZ, 64);
    CursorClosedForm(start, LOOKUP_TBL_STEP_2200_64MHZ, 64);
    ModAddMultiple(start + 128, 3);
    ModAddMultiple(start + 128, 6);
    AdvanceHalfTable(start);
  }

  /**
    Halving the table timer rate and doubling the step visits every other cursor
    position of the faster profile, so the tone keeps its frequency.
  */
  lemma HalvedRateDoubledStep(start: nat, step: nat, ticks: nat)
    ensures CursorAfter(start, 2 * step, ticks) == CursorAfter(start, step, 2 * ticks)
  {
    var advance := ticks * (2 * step);
    assert advance == (2 * ticks) * step;
    CursorClosedForm(start, 2 * step, ticks);
    CursorClosedForm(start, step, 2 * ticks);
  }

  /** The 12 MHz and 16 MHz steps are the 64 MHz steps doubled, at half the table timer rate. */
  lemma SlowHostProfileTracksFastHost(start: nat, ticks: nat)
    ensures CursorAfter(start, LOOKUP_TBL_STEP_1200, ticks) == CursorAfter(start, LOOKUP_TBL_STEP_1200_64MHZ, 2 * ticks)
    ensures CursorAfter(start, LOOKUP_TBL_STEP_2200, ticks) == CursorAfter(start, LOOKUP_TBL_STEP_2200_64MHZ, 2 * ticks)
  {
    HalvedRateDoubledStep(start, LOOKUP_TBL_STEP_1200_64MHZ, ticks);
    HalvedRateDoubledStep(start, LOOKUP_TBL_STEP_2200_64MHZ, ticks);
  }

  /** Half a table ahead of any cursor the sample is the reflection about 128. */
  lemma SampleHalfTableAhead(cursor: nat)
    requires cursor < TABLE_LENGTH
    ensures Sample(Advance(cursor, 128)) == 256 - Sample(cursor)
  {
    AdvanceHalfTable(cursor);
    if cursor < 128 {
      AntisymmetricAt(cursor);
    } else {
      AntisymmetricAt(cursor - 128);
    }
  }

  lemma AdvanceHalfTable(cursor: nat)
    requires cursor < TABLE_LENGTH
    ensures Advance(cursor, 128) == if cursor < 128 then cursor + 128 else cursor - 128
  {
  }

  /** The sample stream seen by the lookup transmitter repeats with the cursor. */
  lemma SampleStreamPeriodic(start: nat, step: nat, period: nat, ticks: nat)
    requires (period * step) % TABLE_LENGTH == 0
    ensures Sample(CursorAfter(start, step, ticks + period)) == Sample(CursorAfter(start, step, ticks))
  {
    CursorPeriod(start, step, period, ticks);
  }
}
