/** The GPS time source object: three `uint32_t` clock fields updated in place
    by the update call and by the pulse-per-second handler, plus two fields
    the constructor sets and nothing reads. Each method is proved to perform
    the transition of the same name in module ClockSpec. */
module GpsTimeSource {
  import opened FixedPoint
  import opened ClockSpec

  /** The serial data source: the bytes waiting to be read, each already
      paired with what the sentence decoder makes of it. */
  class DataSource {
    var pending: seq<ByteRead>

    constructor (pending: seq<ByteRead>)
      ensures this.pending == pending
    {
      this.pending := pending;
    }
  }

  class GPSTimeSource {
    /** Bound once, by the constructor; being `const`, nothing rebinds it. */
    const dataSource: DataSource
    var secondsSinceEpoch: uint32
    var fractionalSecondsSinceEpoch: uint32
    /** Despite its name, holds a microsecond counter reading. */
    var millisecondsOfLastUpdate: uint32
    var microsecondsPerSecond: uint32
    var hasLocked: bool
    /** The status LED's level, toggled by every pulse. */
    var ledState: bool

    /** The clock the three fields stand for. */
    function State(): Clock
      reads this
    {
      Clock(secondsSinceEpoch, fractionalSecondsSinceEpoch, millisecondsOfLastUpdate)
    }

    /** Seconds and fraction start at zero; the last-update reference is not
        initialised and holds the arbitrary `indeterminate`. */
    constructor (dataSource: DataSource, indeterminate: uint32)
      ensures this.dataSource == dataSource
      ensures State() == Initial(indeterminate)
      ensures microsecondsPerSecond == 0 && !hasLocked && !ledState
    {
      this.dataSource := dataSource;
      secondsSinceEpoch := 0;
      fractionalSecondsSinceEpoch := 0;
      millisecondsOfLastUpdate := indeterminate;
      microsecondsPerSecond := 0;
      hasLocked := false;
      ledState := false;
    }

    /** The pulse-per-second handler, with `counter` the microsecond counter
        at the pulse. Only the clock and the LED level change. */
    method PpsInterrupt(counter: uint32)
      modifies this`secondsSinceEpoch, this`fractionalSecondsSinceEpoch,
               this`millisecondsOfLastUpdate, this`ledState
      ensures State() == Tick(old(State()), counter)
      ensures ledState == !old(ledState)
    {
      secondsSinceEpoch := Add32(secondsSinceEpoch, 1);
      fractionalSecondsSinceEpoch := 0;
      millisecondsOfLastUpdate := counter;
      ledState := !ledState;
    }

    /** The stored seconds since 1 January 1900; changes nothing. */
    method GetSecondsSinceEpoch() returns (seconds: uint32)
      ensures seconds == State().seconds
    {
      seconds := secondsSinceEpoch;
    }

    /** The stored fraction; changes nothing. */
    method GetFractionalSecondsSinceEpoch() returns (fraction: uint32)
      ensures fraction == State().fraction
    {
      fraction := fractionalSecondsSinceEpoch;
    }

    /** Drains the data source, ingesting every completed sentence; if none
        committed, extrapolates from the counter, read as `counterNow` for the
        elapsed time and as `counterAfter` for the new reference.
        `toEpoch` converts a calendar time to seconds since 1900. */
    method UpdateTime(toEpoch: CalendarTime -> uint32, counterNow: uint32, counterAfter: uint32)
      returns (updated: bool)
      modifies this`secondsSinceEpoch, this`fractionalSecondsSinceEpoch,
               this`millisecondsOfLastUpdate, dataSource`pending
      ensures dataSource.pending == []
      ensures Ingested(State(), updated) ==
              Poll(old(State()), old(dataSource.pending), toEpoch, counterNow, counterAfter)
    {
      ghost var input := dataSource.pending;
      ghost var start := State();
      ghost var read := 0;
      var returnValue := false;

      while dataSource.pending != []
        invariant 0 <= read <= |input|
        invariant dataSource.pending == input[read..]
        invariant Ingested(State(), returnValue) == Drain(start, input[..read], toEpoch)
        decreases |dataSource.pending|
      {
        var b := dataSource.pending[0];
        dataSource.pending := dataSource.pending[1..];
        assert input[..read + 1][..read] == input[..read];
        read := read + 1;
        match b.decoded
        case Some(fix) =>
          if fix.fixAge != GPS_INVALID_AGE && fix.fixAge < MAX_FIX_AGE {
            var tempSeconds := toEpoch(fix.time);
            var tempFract := HundredthsToFraction(fix.hundredths);
            if tempSeconds != secondsSinceEpoch {
              secondsSinceEpoch := tempSeconds;
              fractionalSecondsSinceEpoch := tempFract;
              millisecondsOfLastUpdate := b.counter;
              returnValue := true;
            }
          } else {
            secondsSinceEpoch := 0;
            fractionalSecondsSinceEpoch := 0;
            millisecondsOfLastUpdate := b.counter;
          }
        case None =>
      }
      assert input[..read] == input;

      if !returnValue {
        var difference := Sub32(counterNow, millisecondsOfLastUpdate);
        secondsSinceEpoch := Add32(secondsSinceEpoch, difference / MICROS_PER_SECOND);
        var tempFract := Add32(fractionalSecondsSinceEpoch, ElapsedToFraction(difference));
        if tempFract < fractionalSecondsSinceEpoch {
          secondsSinceEpoch := Add32(secondsSinceEpoch, 1);
        }
        fractionalSecondsSinceEpoch := tempFract;
        millisecondsOfLastUpdate := counterAfter;
      }
      updated := returnValue;
    }
  }
}
