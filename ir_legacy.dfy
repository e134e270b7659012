/**
 * The IR door-position sensor of the garage_bot revision: the same two-phase
 * timing as the sketch revision, but each completed cycle stores a single
 * reflected value, |ambient - receiver|, in one circular buffer, and the
 * detection is the truncating mean of that buffer against the threshold.
 *
 * As written, the index wraps only once it EXCEEDS the buffer size, so it
 * reaches COUNT and the next cycle writes one past the end of the buffer.
 * `NextIndexAsWritten` models that advance and `AsWrittenIndexCycle` shows
 * the out-of-range index; the sensor below uses the intended wrap,
 * `IrSensor.NextIndex`.
 */
module IrSensorLegacy {
  import IrSensor

  /** The index advance as written: reset only when the advanced index is greater than COUNT. */
  function NextIndexAsWritten(i: nat): nat
  {
    if i + 1 > IrSensor.COUNT then 0 else i + 1
  }

  /** The index after `k` completed cycles from 0, under the advance as written. */
  function IndexAfterAsWritten(k: nat): nat
  {
    if k == 0 then 0 else NextIndexAsWritten(IndexAfterAsWritten(k - 1))
  }

  /**
   * As written, the index runs through COUNT + 1 values, 0 to COUNT, so
   * after COUNT cycles it equals COUNT: the next reflected value is stored
   * outside a buffer of COUNT slots.
   */
  lemma {:induction false} AsWrittenIndexCycle(k: nat)
    ensures IndexAfterAsWritten(k) == k % (IrSensor.COUNT + 1)
    ensures k % (IrSensor.COUNT + 1) == IrSensor.COUNT ==> IndexAfterAsWritten(k) >= IrSensor.COUNT
  {
    if k > 0 {
      AsWrittenIndexCycle(k - 1);
    }
  }

  /** The concrete case: from a fresh sensor, the 21st cycle writes slot 20 of a 20-slot buffer. */
  lemma AsWrittenIndexOutOfRange()
    ensures IndexAfterAsWritten(IrSensor.COUNT) == IrSensor.COUNT
  {
    AsWrittenIndexCycle(IrSensor.COUNT);
  }

  /** Value view of one sensor. */
  datatype LegacySampler = LegacySampler(readings: seq<int>, ambientReading: int, receiverReading: int,
                                         threshold: int, timestamp: nat, isReading: bool, index: nat,
                                         taken: nat, detected: bool, emitterHigh: bool)

  /** The sampler after one call, with the `onChange` notifications it raised. */
  datatype LegacyStep = LegacyStep(sampler: LegacySampler, changes: seq<bool>)

  /** COUNT non-negative reflected values, the index inside them, the taken counter at most COUNT. */
  ghost predicate WellFormed(s: LegacySampler)
  {
    |s.readings| == IrSensor.COUNT && s.index < IrSensor.COUNT && s.taken <= IrSensor.COUNT &&
    (forall i :: 0 <= i < IrSensor.COUNT ==> s.readings[i] >= 0) &&
    s.emitterHigh == s.isReading
  }

  /** The state after the constructor and `init`. */
  function Initial(threshold: int): (s: LegacySampler)
    ensures WellFormed(s)
    ensures forall i :: 0 <= i < IrSensor.COUNT ==> s.readings[i] == 0
    ensures s.threshold == threshold && !s.isReading && s.index == 0 && s.taken == 0 && !s.detected
  {
    LegacySampler(seq(IrSensor.COUNT, _ => 0), 0, 0, threshold, 0, false, 0, 0, false, false)
  }

  predicate PhaseOneDue(s: LegacySampler, now: nat)
  {
    !s.isReading && now > s.timestamp + IrSensor.READ_DELAY - 2
  }

  predicate PhaseTwoDue(s: LegacySampler, now: nat)
  {
    s.isReading && now > s.timestamp + 2
  }

  /** Phase 1: take the ambient reading, switch the emitter on, stamp the time. */
  function AmbientPhase(s: LegacySampler, now: nat, reading: nat): (r: LegacySampler)
    requires WellFormed(s) && !s.isReading
    ensures WellFormed(r) && r.isReading && r.timestamp == now && r.ambientReading == reading
    ensures r.emitterHigh && r.readings == s.readings && r.receiverReading == s.receiverReading
    ensures r.index == s.index && r.taken == s.taken && r.threshold == s.threshold && r.detected == s.detected
  {
    s.(ambientReading := reading, isReading := true, timestamp := now, emitterHigh := true)
  }

  /**
   * Phase 2 up to the evaluation: take the receiver reading, switch the
   * emitter off, store the reflected value in the current slot and advance.
   */
  function ActivePhase(s: LegacySampler, now: nat, reading: nat): (r: LegacySampler)
    requires WellFormed(s) && s.isReading
    ensures WellFormed(r) && !r.isReading && r.timestamp == now && r.receiverReading == reading
    ensures r.readings == s.readings[s.index := IrSensor.Abs(s.ambientReading - reading)]
    ensures r.index == (s.index + 1) % IrSensor.COUNT && r.taken == IrSensor.Min(s.taken + 1, IrSensor.COUNT)
    ensures r.threshold == s.threshold && r.detected == s.detected && r.ambientReading == s.ambientReading
  {
    s.(receiverReading := reading, isReading := false, timestamp := now, emitterHigh := false,
       readings := s.readings[s.index := IrSensor.Abs(s.ambientReading - reading)],
       index := IrSensor.NextIndex(s.index), taken := IrSensor.Min(s.taken + 1, IrSensor.COUNT))
  }

  /**
   * The evaluation: a detection exactly when the truncating mean of the
   * buffer reaches the threshold, and `onChange` exactly on a flip.
   */
  function Evaluate(s: LegacySampler): (st: LegacyStep)
    requires WellFormed(s)
    ensures WellFormed(st.sampler)
    ensures st.sampler == s.(detected := IrSensor.Sum(s.readings) / IrSensor.COUNT >= s.threshold)
    ensures st.changes == (if st.sampler.detected != s.detected then [st.sampler.detected] else [])
  {
    var averageReading := IrSensor.Mean(s.readings);
    var detected := averageReading >= s.threshold;
    LegacyStep(s.(detected := detected), if detected != s.detected then [detected] else [])
  }

  /** One call of `run`, given the value the receiver pin reads at that moment. */
  function RunStep(s: LegacySampler, now: nat, reading: nat): (st: LegacyStep)
    requires WellFormed(s)
    ensures WellFormed(st.sampler)
    ensures PhaseOneDue(s, now) ==> st == LegacyStep(AmbientPhase(s, now, reading), [])
    ensures PhaseTwoDue(s, now) && ActivePhase(s, now, reading).taken >= IrSensor.COUNT ==>
      st == Evaluate(ActivePhase(s, now, reading))
    ensures PhaseTwoDue(s, now) && ActivePhase(s, now, reading).taken < IrSensor.COUNT ==>
      st == LegacyStep(ActivePhase(s, now, reading), [])
    ensures !PhaseOneDue(s, now) && !PhaseTwoDue(s, now) ==> st == LegacyStep(s, [])
    ensures st.changes == (if st.sampler.detected != s.detected then [st.sampler.detected] else [])
  {
    if PhaseOneDue(s, now) then LegacyStep(AmbientPhase(s, now, reading), [])
    else if PhaseTwoDue(s, now) then
      var next := ActivePhase(s, now, reading);
      if next.taken >= IrSensor.COUNT then Evaluate(next) else LegacyStep(next, [])
    else LegacyStep(s, [])
  }

  /** A whole cycle at the earliest moments `run` lets it happen. */
  function CycleStep(s: LegacySampler, x: IrSensor.Sample): (r: LegacySampler)
    requires WellFormed(s) && !s.isReading
    ensures WellFormed(r) && !r.isReading
    ensures r.readings == s.readings[s.index := IrSensor.Abs(x.ambient - x.active)]
    ensures r.index == (s.index + 1) % IrSensor.COUNT && r.taken == IrSensor.Min(s.taken + 1, IrSensor.COUNT)
    ensures r.taken < IrSensor.COUNT ==> r.detected == s.detected
  {
    var t := s.timestamp + IrSensor.READ_DELAY - 1;
    var first := RunStep(s, t, x.ambient).sampler;
    RunStep(first, t + 3, x.active).sampler
  }

  /** The sampler after a sequence of whole cycles, the last one last. */
  function Cycles(s: LegacySampler, xs: seq<IrSensor.Sample>): (r: LegacySampler)
    requires WellFormed(s) && !s.isReading
    ensures WellFormed(r) && !r.isReading
    decreases |xs|
  {
    if xs == [] then s else CycleStep(Cycles(s, xs[..|xs| - 1]), xs[|xs| - 1])
  }

  /**
   * With the intended wrap, after k cycles from `init` the index is k mod
   * COUNT, the taken counter min(k, COUNT), and no detection has been
   * evaluated before cycle COUNT, when every slot has been written once.
   */
  lemma {:induction false} CountersFromInit(threshold: int, xs: seq<IrSensor.Sample>)
    ensures Cycles(Initial(threshold), xs).index == |xs| % IrSensor.COUNT
    ensures Cycles(Initial(threshold), xs).taken == IrSensor.Min(|xs|, IrSensor.COUNT)
    ensures |xs| < IrSensor.COUNT ==> !Cycles(Initial(threshold), xs).detected
    decreases |xs|
  {
    if xs != [] {
      var init := xs[..|xs| - 1];
      CountersFromInit(threshold, init);
      CountersStep(Cycles(Initial(threshold), init), xs[|xs| - 1], |init|);
    }
  }

  /** A cycle after k cycles counted from 0 leaves the counters, and the flag early on, as k + 1 cycles do. */
  lemma CountersStep(s: LegacySampler, x: IrSensor.Sample, k: nat)
    requires WellFormed(s) && !s.isReading
    requires s.index == k % IrSensor.COUNT && s.taken == IrSensor.Min(k, IrSensor.COUNT)
    requires k < IrSensor.COUNT ==> !s.detected
    ensures CycleStep(s, x).index == (k + 1) % IrSensor.COUNT
    ensures CycleStep(s, x).taken == IrSensor.Min(k + 1, IrSensor.COUNT)
    ensures k + 1 < IrSensor.COUNT ==> !CycleStep(s, x).detected
  {
    IrSensor.ModSuccessor(k);
  }

  /** The summing loop of `run`. */
  method SumReadings(readings: array<int>) returns (sum: int)
    requires readings.Length == IrSensor.COUNT
    ensures sum == IrSensor.Sum(readings[..])
  {
    sum := 0;
    var i := 0;
    while i < IrSensor.COUNT
      invariant 0 <= i <= IrSensor.COUNT
      invariant sum == IrSensor.Sum(readings[..i])
    {
      assert readings[..i + 1][..i] == readings[..i];
      sum := sum + readings[i];
      i := i + 1;
    }
    assert readings[..IrSensor.COUNT] == readings[..];
  }

  /** The sensor as a heap object: one circular buffer written in place. */
  class IRSensor {
    const name: string
    const readings: array<int>
    var ambientReading: int
    var receiverReading: int
    var threshold: int
    var readingTimestamp: nat
    var isReading: bool
    var readingIndex: nat
    var readingsTaken: nat
    var detectedFlag: bool
    /** The level last written to the emitter pin. */
    var emitterHigh: bool
    /** Every `onChange` value raised, oldest first. */
    ghost var changes: seq<bool>

    function Snapshot(): LegacySampler
      reads this, readings
    {
      LegacySampler(readings[..], ambientReading, receiverReading, threshold, readingTimestamp, isReading,
                    readingIndex, readingsTaken, detectedFlag, emitterHigh)
    }

    ghost predicate Valid()
      reads this, readings
    {
      WellFormed(Snapshot())
    }

    /** The constructor followed by `init`, which zeroes the buffer and stores the threshold. */
    constructor (name: string, threshold: int)
      ensures Valid() && Snapshot() == Initial(threshold) && changes == []
      ensures this.name == name && fresh(readings)
    {
      var buffer := new int[IrSensor.COUNT];
      var i := 0;
      while i < IrSensor.COUNT
        invariant 0 <= i <= IrSensor.COUNT
        invariant forall j :: 0 <= j < i ==> buffer[j] == 0
      {
        buffer[i] := 0;
        i := i + 1;
      }
      assert buffer[..] == seq(IrSensor.COUNT, _ => 0);
      this.name := name;
      readings := buffer;
      ambientReading := 0;
      receiverReading := 0;
      this.threshold := threshold;
      readingTimestamp := 0;
      isReading := false;
      readingIndex := 0;
      readingsTaken := 0;
      detectedFlag := false;
      emitterHigh := false;
      changes := [];
    }

    /** `run`; `reading` is what the receiver pin reads at `now`. */
    method Run(now: nat, reading: nat)
      requires Valid()
      modifies this, readings
      ensures Valid()
      ensures var st := RunStep(old(Snapshot()), now, reading);
        Snapshot() == st.sampler && changes == old(changes) + st.changes
    {
      if !isReading && now > readingTimestamp + IrSensor.READ_DELAY - 2 {
        ambientReading := reading;
        emitterHigh := true;
        isReading := true;
        readingTimestamp := now;
      } else if isReading && now > readingTimestamp + 2 {
        SampleReflected(now, reading);
        if readingsTaken >= IrSensor.COUNT {
          EvaluateReadings();
        }
      }
    }

    /** Phase 2 of `run`, up to the evaluation, with the intended wrap of the index. */
    method SampleReflected(now: nat, reading: nat)
      requires Valid() && PhaseTwoDue(Snapshot(), now)
      modifies this`receiverReading, this`isReading, this`readingTimestamp, this`emitterHigh,
               readings, this`readingIndex, this`readingsTaken
      ensures Valid() && Snapshot() == ActivePhase(old(Snapshot()), now, reading)
    {
      receiverReading := reading;
      isReading := false;
      readingTimestamp := now;
      var reflectedReading := IrSensor.Abs(ambientReading - receiverReading);
      emitterHigh := false;
      readings[readingIndex] := reflectedReading;
      readingIndex := readingIndex + 1;
      if readingIndex >= IrSensor.COUNT {
        readingIndex := 0;
      }
      readingsTaken := IrSensor.Min(readingsTaken + 1, IrSensor.COUNT);
    }

    /** The evaluation at the end of phase 2. */
    method EvaluateReadings()
      requires Valid()
      modifies this`detectedFlag, this`changes
      ensures Valid()
      ensures var st := Evaluate(old(Snapshot())); Snapshot() == st.sampler && changes == old(changes) + st.changes
    {
      var oldDetected := detectedFlag;
      var sumOfReadings := SumReadings(readings);
      var averageReading := sumOfReadings / IrSensor.COUNT;
      detectedFlag := averageReading >= threshold;
      if oldDetected != detectedFlag {
        changes := changes + [detectedFlag];
      }
    }

    /** `detected()`: the stored flag. */
    function Detected(): (d: bool)
      reads this
      ensures d == Snapshot().detected
    {
      detectedFlag
    }
  }
}
