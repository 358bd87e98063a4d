# GPS time source of ArduinoNTPd, modelled in Dafny

ArduinoNTPd serves NTP time from a GPS receiver. Its `GPSTimeSource` keeps a
clock in three `uint32_t` fields: seconds since 1 January 1900, a fraction of
a second, and the microsecond-counter value at the last update. Three writers
change the clock:

- the update call drains the serial data source. For each decoded NMEA
  sentence it applies a fix-age policy: an invalid or stale fix zeroes the
  clock, and a fix with a new second is committed. When nothing was
  committed, it extrapolates from the microsecond counter using modular
  subtraction, with a carry into the seconds when the fraction wraps;
- the pulse-per-second interrupt advances to the next second, zeroes the
  fraction and records the counter;
- the constructor sets the initial state.

The project has three modules:

- `FixedPoint` (`fixed_point.dfy`) holds 32-bit wrap-around addition and
  subtraction. It also holds the two fraction conversions, at the scale the
  code uses: `0xFFFFFF / 1000` per millisecond and `0xFFFFFF / 1000000` per
  microsecond.
- `ClockSpec` (`clock_spec.dfy`) states each transition as a function of the
  clock value. It also proves the properties the design relies on: a drain
  reports an update exactly when some sentence committed; extrapolation is a
  64-bit fixed-point addition on the NTP timestamp layout of section 6 of
  RFC 5905; duplicate sentences are suppressed; pulses and extrapolation
  never move the clock backwards away from the 32-bit limit.
- `GpsTimeSource` (`gps_time_source.dfy`) is the class with the source's
  fields. Its methods update those fields in place, and each is proved to
  perform its `ClockSpec` transition.

Hardware and foreign code become explicit inputs:

- Every read of the microsecond counter is a parameter. In the drain, each
  byte carries the reading taken while it is handled. Extrapolation gets two
  readings: one for the elapsed time and one for the new reference.
- The decoder's verdict on each byte is an optional decoded fix.
- The calendar-to-seconds conversion is a function parameter `toEpoch`.

Where the code and its documentation disagree, the model follows the code:

- The header comment says the fraction is scaled to `0xFFFFFFFF` per
  second. The code uses `0xFFFFFF`. So 50 hundredths become 8,388,500 units,
  not 2^31 (`ClockSpec.FixScenario`).
- The carry into the seconds fires only on a 32-bit wrap of the fraction. So
  "fraction below one second" is not an invariant of this code, and the
  model does not claim it.
- The header declares `now` and `updateFractionalSeconds_` but not
  `updateTime`, and it declares the getters non-const. The model follows the
  definitions in the .cpp.
- A sentence that is not usable is said to report "no update". In the code
  it never clears a flag that an earlier sentence of the same drain set
  (`ClockSpec.UnusableAfterCommitStillReportsUpdate`).

A duplicate sentence for the stored second leaves the fraction untouched,
even when its hundredths differ. The model keeps that behaviour.

## Model

| member | source | states |
|---|---|---|
| FixedPoint.Add32 | ArduinoNTPd/GPSTimeSource.cpp:100-107 | `uint32_t` addition either is exact or wraps once, and the sum is below the first operand exactly when it wrapped (the overflow test of the carry) |
| FixedPoint.Sub32 | ArduinoNTPd/GPSTimeSource.cpp:98 | the modular difference is the one value that, added to the reference with wrap-around, gives the current reading; without a wrap it is the plain difference |
| FixedPoint.ElapsedSurvivesWrap | ArduinoNTPd/GPSTimeSource.cpp:98 | a counter that moved on by `elapsed` from `last`, across zero or not, gives back exactly `elapsed` |
| FixedPoint.HundredthsToFraction | ArduinoNTPd/GPSTimeSource.cpp:71-72 | the fix fraction never overflows a signed 32-bit long for any byte, is below the 0xFFFFFF scale exactly for hundredths up to 100, never exceeds the untruncated value, and is zero only for zero hundredths |
| FixedPoint.ElapsedToFraction | ArduinoNTPd/GPSTimeSource.cpp:102 | the extrapolated fraction delta is below 16,000,000 (below the scale), is a multiple of 16 and never exceeds the untruncated value |
| ClockSpec.Initial | ArduinoNTPd/GPSTimeSource.h:32-40 | a new clock has seconds 0 and fraction 0; the reference is left arbitrary |
| ClockSpec.Timestamp | ArduinoNTPd/GPSTimeSource.h:47-57 | the clock as a 64-bit NTP timestamp: below 2^64, seconds in the upper and fraction in the lower word, both recoverable |
| ClockSpec.Ingest | ArduinoNTPd/GPSTimeSource.cpp:66-90 | after a usable fix the clock shows its second; a commit happens exactly for a usable fix that changes the second and sets the hundredths fraction and the counter; a usable fix for the stored second changes nothing; an invalid or stale fix (sentinel age or at least 5000 ms) zeroes seconds and fraction, refreshes the reference and commits nothing |
| ClockSpec.DrainUpdatedIffSomeCommit | ArduinoNTPd/GPSTimeSource.cpp:49-92 | the drain's flag is true exactly when some sentence of the drain committed |
| ClockSpec.PollUpdatedIffSomeCommit | ArduinoNTPd/GPSTimeSource.cpp:47-113 | the update returns true exactly when some sentence committed; it extrapolates exactly when it returns false, from the clock the drain left |
| ClockSpec.DuplicateSentenceChangesNothing | ArduinoNTPd/GPSTimeSource.cpp:74 | the same usable sentence fed twice commits nothing the second time and leaves the clock as the first left it, fraction included |
| ClockSpec.UnusableAfterCommitStillReportsUpdate | ArduinoNTPd/GPSTimeSource.cpp:80-94 | a stale fix after a commit in the same drain zeroes the clock, yet the update still returns true and does not extrapolate |
| ClockSpec.FixScenario | ArduinoNTPd/GPSTimeSource.cpp:66-81 | a fix for 2024-01-01 00:00:00, 50 hundredths, age 100 ms sets that second and fraction 8,388,500 and returns true, when the second is new |
| ClockSpec.Extrapolate | ArduinoNTPd/GPSTimeSource.cpp:94-111 | the reference is refreshed from the second reading; the fraction goes down exactly when the 32-bit fraction sum wrapped, and exactly then one more second is added to the elapsed whole seconds |
| ClockSpec.Advance | ArduinoNTPd/GPSTimeSource.cpp:100-102 | an elapsed count advances the timestamp by its whole seconds in the upper word and its sub-second part, at 16 units per microsecond, in the lower word |
| ClockSpec.ExtrapolateAddsToTimestamp | ArduinoNTPd/GPSTimeSource.cpp:98-110 | extrapolation adds `Advance(elapsed)` to the 64-bit timestamp modulo 2^64: the seconds carry is exactly the carry out of the fraction word |
| ClockSpec.ExtrapolationScenario | ArduinoNTPd/GPSTimeSource.cpp:98-110 | with nothing to drain and the counter 1,500,000 past the reference, even across a counter wrap, one second and 8,000,000 fraction units are added |
| ClockSpec.FirstExtrapolation | ArduinoNTPd/GPSTimeSource.h:32-40 | the first extrapolation of a new instance, from an arbitrary uninitialised reference, sets seconds and fraction to the whole and sub-second parts of the modular elapsed time |
| ClockSpec.Tick | ArduinoNTPd/GPSTimeSource.cpp:27-34 | a pulse sets seconds to `(old + 1) mod 2^32`, fraction 0 and the reference to the pulse's counter; away from the seconds limit the timestamp moves forward by at most one second |
| ClockSpec.ApplyIsMonotone | ArduinoNTPd/GPSTimeSource.cpp:98-110 | one pulse or extrapolation, away from the 32-bit seconds limit, never lowers the timestamp, gains at most 4295 seconds, and lowers the fraction only together with a move to a later second |
| ClockSpec.RunIsMonotone | ArduinoNTPd/GPSTimeSource.cpp:27-34 | any sequence of pulses and extrapolations without a fix, far enough from the seconds limit, never moves the timestamp or the seconds backwards |
| GpsTimeSource.GPSTimeSource.constructor | ArduinoNTPd/GPSTimeSource.h:32-40 | binds the data source; seconds and fraction 0, `microsecondsPerSecond_` 0, `hasLocked_` false, reference not initialised |
| GpsTimeSource.GPSTimeSource.PpsInterrupt | ArduinoNTPd/GPSTimeSource.cpp:27-34 | performs `Tick` on the fields and flips the LED level; nothing else changes |
| GpsTimeSource.GPSTimeSource.GetSecondsSinceEpoch | ArduinoNTPd/GPSTimeSource.cpp:37-40 | returns the stored seconds and changes no state |
| GpsTimeSource.GPSTimeSource.GetFractionalSecondsSinceEpoch | ArduinoNTPd/GPSTimeSource.cpp:42-45 | returns the stored fraction and changes no state |
| GpsTimeSource.GPSTimeSource.UpdateTime | ArduinoNTPd/GPSTimeSource.cpp:47-114 | empties the data source, and the new clock and the result are those of `Poll` on the old clock and the drained bytes; only the three clock fields change |

## Left out

- Serial I/O (`dataSource_.available` and `read`) and the TinyGPS decoder (`encode`, `crack_datetime`) are foreign library calls. The data source is a queue of bytes, each already paired with the decoder's verdict on it. `IDataSource` and TinyGPS are not part of this model.
- The sentinel `TinyGPS::GPS_INVALID_AGE` is taken as `0xFFFFFFFF`, with `unsigned long` as 32 bits. The decoder library that defines it is not part of this model.
- `TimeUtilities::numberOfSecondsSince1900Epoch` is not part of this model. It is the parameter `toEpoch`, so nothing is proved about the 1900 epoch, leap years or month lengths. The decoded year is an unbounded integer that only this function reads.
- Every `micros()` read is an explicit parameter; the counter hardware is not modelled.
- `enableInterrupts` is left out: pin setup, `attachInterrupt`, the serial log line and the `Singleton_` global are hardware wiring. `PpsInterrupt` is therefore an instance method, not a static one reaching the instance through `Singleton_`.
- Preemption of the update call by the interrupt is left out, and so is the atomicity of the three-field update: that is concurrency. The pulse is a separate sequential method.
- `digitalWrite` to the LED pin is left out. Only the LED level is kept. In the source it is a file-scope global that starts false; here it is a field of the instance that the constructor sets to false.
- The declared but undefined `now` and `updateFractionalSeconds_` have no behaviour to model.
- The non-Arduino stub that makes `micros()` return 0 is left out: the counter is always a parameter.
