# Si4060 driver header arithmetic, in Dafny

This project models the data and integer arithmetic in the Si4060 radio driver header `Software/ARM_SI4060.h`. That header belongs to the firmware of a high-altitude balloon tracker, which transmits RTTY on 434 MHz and APRS on 144 MHz. The header declares the driver's functions without their bodies, so the model covers what the header itself fixes:

- **`SineLookup`** (`sine_lookup.dfy`). The 256-sample sine table `SineLookUp` that the APRS lookup transmitter adds to the carrier as a frequency offset. Also the per-tone cursor steps, and the cursor that walks the table modulo 256.
  - The table is written as its eight source lines of 32 samples each.
  - The proofs establish its length, its range, half-period antisymmetry, mirror symmetry of the positive and of the negative lobe, and quarter-wave symmetry.
  - They also cover the cursor's bounds, closed form and period, and the equivalence between the slow-host and fast-host step profiles.
- **`Deviation`** (`deviation.dfy`). The `MODEM_FREQ_DEV` conversion from a peak deviation in Hz to the register code, computed in integers with a floor. The model checks the configured codes and the documented reference pairs against it.
- **`TimerCompare`** (`timer_compare.dfy`). The timer counter's compare value, MCK / prescaler / bit rate, both floored and rounded to the nearest count.
  - It includes the `TC_CMRx` clock-source codes and their master-clock divisors.
  - It covers the RTTY compare-value table and the APRS timer table, plus the configured timer constants.
- **`RttyState`** (`rtty_state.dfy`). The state codes of the interrupt-driven RTTY transmitter, its variables and their static initial values.
- **`HandlerMode`** (`handler_mode.dfy`). The selector that tells the timer interrupt handlers which transmitter is running.
- **`Wrappers`** (`wrappers.dfy`). `Option`, used for decoding codes.

There are no loops or assignments in the header, so everything is modelled with constants, functions and lemmas.

The deviation formula's comment is read literally, as integer division. Under that reading three of its reference pairs do not match (see `Deviation.ReferencePairsNotFloored`). They are kept as tabulated and reported rather than "corrected".

## Model

| member | source | states |
|---|---|---|
| SineLookup.TableLength | Software/ARM_SI4060.h:171-180 | The table has exactly 256 samples. |
| SineLookup.SamplesInRange | Software/ARM_SI4060.h:131 | Every sample lies in 1..255 (the documented range of `SineLookUp`). |
| SineLookup.CardinalSamples | Software/ARM_SI4060.h:172-179 | Sample 0 and sample 128 are the centre value 128; the positive peak 255 is at index 64 and the negative peak 1 at index 192, so the range is attained at both ends. |
| SineLookup.HalfPeriodAntisymmetry | Software/ARM_SI4060.h:172-179 | For every i in 0..127, `SineLookUp[i] + SineLookUp[i+128] == 256`: the negative lobe is the positive one reflected about 128. |
| SineLookup.LobeMirrorSymmetry | Software/ARM_SI4060.h:172-175 | For every i in 0..128, `SineLookUp[i] == SineLookUp[128-i]`: the positive lobe is symmetric about its peak at index 64. |
| SineLookup.NegativeLobeMirrorSymmetry | Software/ARM_SI4060.h:176-179 | For every j in 129..255, `SineLookUp[j] == SineLookUp[384-j]`: the negative lobe is symmetric about its trough at index 192. |
| SineLookup.NegativeLobeFromSymmetries | Software/ARM_SI4060.h:172-179 | For any 256-sample table, half-period antisymmetry plus a mirrored positive lobe imply a mirrored negative lobe. |
| SineLookup.QuarterWaveSymmetry | Software/ARM_SI4060.h:172-179 | Every sample equals the one rebuilt from the first 65 samples by mirroring and reflecting (quarter-wave symmetry). |
| SineLookup.QuarterWaveFromSymmetries | Software/ARM_SI4060.h:172-179 | For any 256-sample table, half-period antisymmetry plus lobe mirroring imply quarter-wave symmetry. |
| SineLookup.RangeFromSymmetries | Software/ARM_SI4060.h:131 | For any 256-sample table with both symmetries whose rising quarter lies in 128..255, every sample lies in 1..255. |
| SineLookup.RisingQuarterInRange | Software/ARM_SI4060.h:172-174 | Samples 0..64 lie in 128..255. |
| SineLookup.Sample | Software/ARM_SI4060.h:171-180 | Reading the table at any in-range cursor gives a value in 1..255. |
| SineLookup.Advance | Software/ARM_SI4060.h:164-165 | A cursor advanced by any step modulo 256 is a valid table index. |
| SineLookup.CursorAfter | Software/ARM_SI4060.h:164-165 | After any number of ticks the cursor is a valid table index. |
| SineLookup.CursorClosedForm | Software/ARM_SI4060.h:164-165 | After n ticks from start the cursor is `(start + n*step) % 256`. |
| SineLookup.CursorBeforeFirstWrap | Software/ARM_SI4060.h:164-165 | From cursor 0 the cursor is exactly n*step while n*step < 256. |
| SineLookup.CursorPeriod | Software/ARM_SI4060.h:164-165 | If period*step is a multiple of 256, the cursor repeats with that period. |
| SineLookup.ConfiguredStepPeriods | Software/ARM_SI4060.h:153-165 | 64 ticks are a period of the cursor for steps 28 and 52, and 128 ticks a period for the 64 MHz steps 14 and 26. |
| SineLookup.FastStepsHalfWayAfter64 | Software/ARM_SI4060.h:158-159 | After 64 ticks with step 14 or 26 the cursor is half a table (128 positions) from where it started, so 64 ticks are not a period of the 64 MHz steps. |
| SineLookup.HalvedRateDoubledStep | Software/ARM_SI4060.h:161-162 | Doubling the step at half the tick rate visits exactly every other cursor position of the original step. |
| SineLookup.SlowHostProfileTracksFastHost | Software/ARM_SI4060.h:153-165 | The 12/16 MHz steps 28 and 52 trace the same cursor positions as the 64 MHz steps 14 and 26 at twice the tick rate. |
| SineLookup.SampleHalfTableAhead | Software/ARM_SI4060.h:172-179 | The sample 128 positions ahead of any cursor is 256 minus the sample at the cursor. |
| SineLookup.SampleStreamPeriodic | Software/ARM_SI4060.h:164-180 | The stream of samples read by the cursor repeats whenever the cursor does. |
| Deviation.DeviationCode | Software/ARM_SI4060.h:21-30 | The code is the floor of `2^19 * OUTDIV * peak / (2 * TCXO)`: code times the denominator does not exceed the numerator, code plus one times it does. |
| Deviation.DeviationCodeUnique | Software/ARM_SI4060.h:28-29 | Any integer with that bracketing property is the code. |
| Deviation.DeviationMonotone | Software/ARM_SI4060.h:28-34 | For fixed OUTDIV and TCXO a larger deviation never yields a smaller code. |
| Deviation.PeakOf | Software/ARM_SI4060.h:30-34 | The peak deviation is half the tabulated peak-to-peak deviation, rounded down. |
| Deviation.ReferencePairsReproduced | Software/ARM_SI4060.h:32-33 | The formula gives 39 (1200 Hz) and 26 (800 Hz) at OUTDIV 8, and 1179, 983, 688, 432, 216 for 12000..2200 Hz at OUTDIV 24. |
| Deviation.ReferencePairsNotFloored | Software/ARM_SI4060.h:32-33 | At 1000 Hz and 450 Hz (OUTDIV 8) and 1200 Hz (OUTDIV 24) the floor is 32, 14 and 117, not the tabulated 33, 16 and 118. |
| Deviation.ConfiguredDeviation | Software/ARM_SI4060.h:36-37 | `TX_DEVIATION_RTTY` 26 is the code for 800 Hz peak-to-peak at 434 MHz; `TX_DEVIATION_APRS` 688 the code for 7000 Hz at 144 MHz. |
| TimerCompare.Code | Software/ARM_SI4060.h:66-70 | Each clock source maps to its `TC_CMRx` code 0..4 (TIMER_CLOCK1 to 0 through TIMER_CLOCK5 to 4); code 4 belongs to the slow clock alone. |
| TimerCompare.FromCode | Software/ARM_SI4060.h:65-70 | A `TC_CMRx` code names a clock source exactly when it is 0..4, and decodes to the source with that code. |
| TimerCompare.CodeRoundTrip | Software/ARM_SI4060.h:65-70 | Decoding a clock source's code gives the clock source back. |
| TimerCompare.MckDivisor | Software/ARM_SI4060.h:65-70 | TIMER_CLOCK1..4 divide MCK by 2 * 4^code (2, 8, 32, 128); TIMER_CLOCK5 (slow clock) has no MCK divisor. |
| TimerCompare.CompareValue | Software/ARM_SI4060.h:51-63 | The floored compare value is the largest count whose period, count * divisor * baud master-clock cycles, fits in one second. |
| TimerCompare.InterruptRate | Software/ARM_SI4060.h:51-63 | The interrupt rate of a compare value is the largest rate r with r * divisor * compare value master-clock cycles fitting in one second; converting that rate back into a compare value never gives a smaller count. |
| TimerCompare.RttyClock | Software/ARM_SI4060.h:54-55 | The RTTY timer uses TIMER_CLOCK4 exactly on the 64 MHz host and TIMER_CLOCK2 on the 16 and 12 MHz hosts; either way a clock source with an MCK divisor. |
| TimerCompare.ExactCompareRoundTrip | Software/ARM_SI4060.h:51-63 | When divisor * baud divides MCK, the compare value is positive, times divisor times baud gives MCK back, and the interrupt rate it produces is the baud rate. |
| TimerCompare.ExactTableEntries | Software/ARM_SI4060.h:54-63 | Every 12 MHz entry is an exact division; a 64 MHz or 16 MHz entry is exact if and only if its baud rate is at most 200. |
| TimerCompare.ExactEntriesAgree | Software/ARM_SI4060.h:54-63 | Every exact entry equals the compare value computed from its host clock, prescaler and baud rate. |
| TimerCompare.NearestCompareValue | Software/ARM_SI4060.h:51-63 | The rounded compare value lies within half a count of MCK / divisor / rate. |
| TimerCompare.ExactNearestAgree | Software/ARM_SI4060.h:51-63 | Where the division is exact the rounded and floored compare values coincide. |
| TimerCompare.TableEntriesNearest | Software/ARM_SI4060.h:54-63 | Every entry of the RTTY table, including 1667, 833, 417, 6667, 3333 and 1667, is the compare value rounded to the nearest count. |
| TimerCompare.AprsTimerEntriesNearest | Software/ARM_SI4060.h:98-115 | Every entry of the APRS timer table is the rounded compare value for its host, clock source and rate; the 16 and 12 MHz sample timers run at 10869 Hz, the 64 MHz sample rate of 21739 Hz halved (rounded down). |
| TimerCompare.ConfiguredRttyTimer | Software/ARM_SI4060.h:61-73 | `TIMER_CLOCK_RTTY` 0x01 decodes to TIMER_CLOCK2 (MCK/8) and `COMPARE_VALUE_RTTY` 5000 is the exact compare value for 300 baud on the 12 MHz host, giving exactly 300 interrupts per second. |
| TimerCompare.ConfiguredAprsBitTimer | Software/ARM_SI4060.h:113-122 | `TIMER_CLOCK_LOOKUP_TC0` 0x00 decodes to TIMER_CLOCK1, whose MCK divisor is 2, and with that divisor `COMPARE_VALUE_LOOKUP_TC0` 5000 is the exact compare value for 1200 baud at 12 MHz, giving exactly 1200 interrupts per second. |
| TimerCompare.ConfiguredAprsSampleTimers | Software/ARM_SI4060.h:113-123 | The GFSK and lookup sample timer constants (0x00 with 227, 0x00 with 552) are the 12 MHz rows of the APRS timer table and are rounded compare values. |
| RttyState.Code | Software/ARM_SI4060.h:83-88 | Every state's code is below 6. |
| RttyState.FromCode | Software/ARM_SI4060.h:83-88 | A state variable value names a state exactly when it is 0..5, and decodes to the state with that code. |
| RttyState.CodeRoundTrip | Software/ARM_SI4060.h:83-88 | Decoding a state's code gives the state back. |
| RttyState.CodesDistinct | Software/ARM_SI4060.h:83-88 | Two states have the same code if and only if they are the same state. |
| RttyState.StopBitCount | Software/ARM_SI4060.h:202 | The stop-bit flag selects one or two stop bits, two exactly when the flag is 1. |
| RttyState.InitialMachine | Software/ARM_SI4060.h:200-205 | The machine starts in TXWAIT (code 5) with `TXBITS` bits left; `TXBITS` is 7 or 8; the flag selects two stop bits; the pause counter starts at 0, which is also the value of `TXTRANSPAUSE`; every variable fits its declared width. |
| HandlerMode.Code | Software/ARM_SI4060.h:190-193 | RTTY_INTERRUPT maps to 0, GFSK_SYNC to 1 and LOOKUP to 3; no mode uses 2. |
| HandlerMode.FromCode | Software/ARM_SI4060.h:187-195 | The handler selector names a mode exactly for 0, 1 and 3 (2 is unused), and decodes to the mode with that code. |
| HandlerMode.CodeRoundTrip | Software/ARM_SI4060.h:187-195 | Decoding a mode's code gives the mode back. |

## Left out

- The register-level driver operations (`SI4060_init`, `SI4060_frequency`, `SI4060_CTS_check_and_read`, `SI4060_start_TX` and the rest, lines 235-254). They are SPI I/O and only their prototypes are visible.
- Timer setup, the `TC0_Handler`/`TC1_Handler` interrupt handlers and the stop functions (lines 256-264). Their bodies are not in the header, so state transitions of the RTTY machine and the APRS bit and sample timing are not modelled.
- The RTTY, APRS and OOK transmit routines (lines 266-273). They are bodiless prototypes.
- The `volatile` globals shared between handlers and the main loop (lines 184, 195, 199-231), apart from the RTTY machine's initial values. Interrupt concurrency and buffer handoff are not modelled.
- The floating-point lookup multipliers, the multiplier offset, `lookup_tbl_multiplier` and `FREQ_OFFSET` (lines 24, 129-150). They are float numerics and the tone frequencies they are tuned to are approximate.
- `SineLookup.Sample` reads the table as unsigned bytes without the float scaling applied before the offset reaches the radio.
- The pre-emphasis deviations 324 and 589 (lines 38-39). They are hand-tuned constants with no formula behind them.
- `POWER_LEVEL` and its table (lines 42-48). It is an analog characterisation, not arithmetic.
- The carrier frequencies `FREQUENCY_RTTY`/`FREQUENCY_APRS` (lines 22-23). The PLL formula that turns them into register values is not in the header.
- `TXDELAY_RTTY`, `TX_BUFFER_SIZE`, `CTS_TIMEOUT`, `APRS_BUFFER_SIZE` (lines 77, 89, 125-126). They are delays and buffer sizes used only by code whose bodies are not shown.
- The pin wiring comment (lines 1-10) and the compile-time disabled ordinary GFSK mode (lines 276-281).
- Deviation.ReferencePairsReproduced: covers only the reference pairs that the floored formula reproduces. The three that it does not are stated separately by Deviation.ReferencePairsNotFloored.
- RttyState.InitialMachine: the reload flag has no initialiser in the header. It is taken as 0, the value of a zero-initialised static.
