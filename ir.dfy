/**
 * The IR door-position sensor of the sketch revision. Every reading cycle has
 * two phases: an ambient sample with the emitter off, then, after the
 * emitter has been on for more than 2 ms, an active sample. Both samples go
 * to the same slot of two circular buffers; once enough cycles have been
 * taken, the truncating means of the two buffers are compared against the
 * threshold.
 *
 * The analog reads are parameters of `Run`; they are never negative, so
 * Dafny's division on the sums agrees with the truncating division of C.
 */
module IrSensor {
  import BotFs

  /** SENSOR_IR_SMOOTHING_READING_COUNT. */
  const COUNT: nat := 20
  /** SENSOR_IR_READ_DELAY. */
  const READ_DELAY: nat := 100

  function Abs(x: int): (r: int)
    ensures r >= 0 && (r == x || r == -x)
  {
    if x < 0 then -x else x
  }

  function Min(a: int, b: int): (r: int)
    ensures r <= a && r <= b && (r == a || r == b)
  {
    if a <= b then a else b
  }

  /** The sum of a buffer, defined on its prefixes so that a left-to-right loop can be checked against it. */
  function Sum(s: seq<int>): int
  {
    if s == [] then 0 else Sum(s[..|s| - 1]) + s[|s| - 1]
  }

  /** The integer mean of a full buffer. */
  function Mean(s: seq<int>): int
  {
    Sum(s) / COUNT
  }

  /** A buffer of `n` samples, each between 0 and `hi`, sums to between 0 and n * hi. */
  lemma {:induction false} SumWithin(s: seq<int>, hi: int)
    requires forall i :: 0 <= i < |s| ==> 0 <= s[i] <= hi
    ensures 0 <= Sum(s) <= |s| * hi
    decreases |s|
  {
    if s != [] {
      var init := s[..|s| - 1];
      assert forall i :: 0 <= i < |init| ==> init[i] == s[i];
      SumWithin(init, hi);
    }
  }

  /** The mean of a full buffer lies within the range of its samples. */
  lemma MeanWithin(s: seq<int>, hi: int)
    requires |s| == COUNT
    requires forall i :: 0 <= i < |s| ==> 0 <= s[i] <= hi
    ensures 0 <= Mean(s) <= hi
  {
    SumWithin(s, hi);
  }

  /** The index advance of the sketch revision: wraps once it reaches COUNT. */
  function NextIndex(i: nat): (r: nat)
    requires i < COUNT
    ensures r < COUNT && r == (i + 1) % COUNT
  {
    if i + 1 >= COUNT then 0 else i + 1
  }

  /** Value view of one sensor. */
  datatype Sampler = Sampler(ambient: seq<int>, active: seq<int>, threshold: int, timestamp: nat,
                             isReading: bool, index: nat, taken: nat, detected: bool,
                             avgAmbient: int, avgActive: int, emitterHigh: bool)

  /** The sampler after one call, with the `onChange` notifications it raised. */
  datatype IrStep = IrStep(sampler: Sampler, changes: seq<bool>)

  /**
   * Two buffers of COUNT non-negative samples, the index inside them, the
   * taken counter at most COUNT - 1, and the emitter on exactly between the
   * two phases.
   */
  ghost predicate WellFormed(s: Sampler)
  {
    |s.ambient| == COUNT && |s.active| == COUNT && s.index < COUNT && s.taken <= COUNT - 1 &&
    (forall i :: 0 <= i < COUNT ==> s.ambient[i] >= 0) &&
    (forall i :: 0 <= i < COUNT ==> s.active[i] >= 0) &&
    s.emitterHigh == s.isReading
  }

  /** The state after the constructor and `init`. */
  function Initial(threshold: int): (s: Sampler)
    ensures WellFormed(s)
    ensures forall i :: 0 <= i < COUNT ==> s.ambient[i] == 0 && s.active[i] == 0
    ensures s.threshold == threshold && !s.isReading && s.index == 0 && s.taken == 0 && !s.detected
  {
    Sampler(seq(COUNT, _ => 0), seq(COUNT, _ => 0), threshold, 0, false, 0, 0, false, 0, 0, false)
  }

  predicate PhaseOneDue(s: Sampler, now: nat)
  {
    !s.isReading && now > s.timestamp + READ_DELAY - 2
  }

  predicate PhaseTwoDue(s: Sampler, now: nat)
  {
    s.isReading && now > s.timestamp + 2
  }

  /** The ambient phase: sample into the current slot, switch the emitter on, stamp the time. */
  function AmbientPhase(s: Sampler, now: nat, reading: nat): (r: Sampler)
    requires WellFormed(s) && !s.isReading
    ensures WellFormed(r) && r.isReading && r.timestamp == now
    // stated as an equality so the inductions over whole cycles (CountersFromInit,
    // FillingFromInit) see the phase without unfolding it; AmbientPhaseWritesOneSlot
    // states what it means
    ensures r == s.(ambient := s.ambient[s.index := reading], isReading := true, timestamp := now, emitterHigh := true)
  {
    s.(ambient := s.ambient[s.index := reading], isReading := true, timestamp := now, emitterHigh := true)
  }

  /**
   * The ambient phase writes the current slot of the ambient buffer and
   * nothing else: the active buffer, the counters and the detection state
   * are left as they were.
   */
  lemma AmbientPhaseWritesOneSlot(s: Sampler, now: nat, reading: nat)
    requires WellFormed(s) && !s.isReading
    ensures var r := AmbientPhase(s, now, reading);
      r.ambient[s.index] == reading &&
      (forall i :: 0 <= i < COUNT && i != s.index ==> r.ambient[i] == s.ambient[i]) &&
      r.active == s.active && r.index == s.index && r.taken == s.taken &&
      r.threshold == s.threshold && r.detected == s.detected && r.emitterHigh
  {
  }

  /** The active phase up to the evaluation: sample into the same slot, switch the emitter off, advance. */
  function ActivePhase(s: Sampler, now: nat, reading: nat): (r: Sampler)
    requires WellFormed(s) && s.isReading
    ensures WellFormed(r) && !r.isReading && r.timestamp == now
    ensures r.active == s.active[s.index := reading] && r.ambient == s.ambient
    ensures r.index == (s.index + 1) % COUNT && r.taken == Min(s.taken + 1, COUNT - 1)
    ensures r.threshold == s.threshold && r.detected == s.detected
    ensures r.avgAmbient == s.avgAmbient && r.avgActive == s.avgActive
  {
    s.(active := s.active[s.index := reading], isReading := false, timestamp := now, emitterHigh := false,
       index := NextIndex(s.index), taken := Min(s.taken + 1, COUNT - 1))
  }

  /**
   * The evaluation: both truncating means over all COUNT slots, a detection
   * exactly when they differ by at least the threshold, and `onChange`
   * carrying the new value exactly when the flag flips.
   */
  function Evaluate(s: Sampler): (st: IrStep)
    requires WellFormed(s)
    ensures WellFormed(st.sampler)
    ensures st.sampler.avgAmbient == Sum(s.ambient) / COUNT && st.sampler.avgActive == Sum(s.active) / COUNT
    ensures st.sampler.detected <==> Abs(st.sampler.avgAmbient - st.sampler.avgActive) >= s.threshold
    ensures st.sampler == s.(avgAmbient := st.sampler.avgAmbient, avgActive := st.sampler.avgActive,
                             detected := st.sampler.detected)
    ensures st.changes == (if st.sampler.detected != s.detected then [st.sampler.detected] else [])
  {
    var avgAmbient := Mean(s.ambient);
    var avgActive := Mean(s.active);
    var detected := Abs(avgAmbient - avgActive) >= s.threshold;
    IrStep(s.(avgAmbient := avgAmbient, avgActive := avgActive, detected := detected),
           if detected != s.detected then [detected] else [])
  }

  /** One call of `run`, given the value the receiver pin reads at that moment. */
  function RunStep(s: Sampler, now: nat, reading: nat): (st: IrStep)
    requires WellFormed(s)
    ensures WellFormed(st.sampler)
    // at most one phase runs; evaluation only once COUNT - 1 cycles have been taken
    ensures PhaseOneDue(s, now) ==> st == IrStep(AmbientPhase(s, now, reading), [])
    ensures PhaseTwoDue(s, now) && ActivePhase(s, now, reading).taken >= COUNT - 1 ==>
      st == Evaluate(ActivePhase(s, now, reading))
    ensures PhaseTwoDue(s, now) && ActivePhase(s, now, reading).taken < COUNT - 1 ==>
      st == IrStep(ActivePhase(s, now, reading), [])
    ensures !PhaseOneDue(s, now) && !PhaseTwoDue(s, now) ==> st == IrStep(s, [])
    // the detection flag changes only through `onChange`
    ensures st.changes == (if st.sampler.detected != s.detected then [st.sampler.detected] else [])
  {
    if PhaseOneDue(s, now) then IrStep(AmbientPhase(s, now, reading), [])
    else if PhaseTwoDue(s, now) then
      var next := ActivePhase(s, now, reading);
      if next.taken >= COUNT - 1 then Evaluate(next) else IrStep(next, [])
    else IrStep(s, [])
  }

  /** One pair of analog reads: the ambient sample and the active sample of a cycle. */
  datatype Sample = Sample(ambient: nat, active: nat)

  /** A whole cycle at the earliest moments `run` lets it happen: the ambient phase, then the active phase 3 ms later. */
  function CycleStep(s: Sampler, x: Sample): (r: Sampler)
    requires WellFormed(s) && !s.isReading
    ensures WellFormed(r) && !r.isReading
    ensures r.ambient == s.ambient[s.index := x.ambient] && r.active == s.active[s.index := x.active]
    ensures r.index == (s.index + 1) % COUNT && r.taken == Min(s.taken + 1, COUNT - 1)
    ensures r.taken < COUNT - 1 ==> r.detected == s.detected
  {
    var t := s.timestamp + READ_DELAY - 1;
    var first := RunStep(s, t, x.ambient).sampler;
    RunStep(first, t + 3, x.active).sampler
  }

  /** The sampler after a sequence of whole cycles, the last one last. */
  function Cycles(s: Sampler, xs: seq<Sample>): (r: Sampler)
    requires WellFormed(s) && !s.isReading
    ensures WellFormed(r) && !r.isReading
    decreases |xs|
  {
    if xs == [] then s else CycleStep(Cycles(s, xs[..|xs| - 1]), xs[|xs| - 1])
  }

  /** The ambient samples of a sequence of cycles. */
  function Ambients(xs: seq<Sample>): (r: seq<int>)
    ensures |r| == |xs| && forall i :: 0 <= i < |xs| ==> r[i] == xs[i].ambient
  {
    seq(|xs|, i requires 0 <= i < |xs| => xs[i].ambient)
  }

  /** The active samples of a sequence of cycles. */
  function Actives(xs: seq<Sample>): (r: seq<int>)
    ensures |r| == |xs| && forall i :: 0 <= i < |xs| ==> r[i] == xs[i].active
  {
    seq(|xs|, i requires 0 <= i < |xs| => xs[i].active)
  }

  /** Writing the first zero slot after a filled prefix extends the prefix. */
  lemma FillNextSlot(prefix: seq<int>, v: int, n: nat)
    requires n >= 1
    ensures (prefix + seq(n, _ => 0))[|prefix| := v] == prefix + [v] + seq(n - 1, _ => 0)
  {
    var lhs := (prefix + seq(n, _ => 0))[|prefix| := v];
    var rhs := prefix + [v] + seq(n - 1, _ => 0);
    assert forall i :: 0 <= i < |lhs| ==> lhs[i] == rhs[i];
  }

  /** A cycle whose index is the first zero slot of both buffers fills that slot. */
  lemma CycleFillsSlot(s: Sampler, x: Sample, ambient: seq<int>, active: seq<int>)
    requires WellFormed(s) && !s.isReading
    requires |ambient| == |active| == s.index
    requires s.ambient == ambient + seq(COUNT - s.index, _ => 0)
    requires s.active == active + seq(COUNT - s.index, _ => 0)
    ensures CycleStep(s, x).ambient == ambient + [x.ambient] + seq(COUNT - s.index - 1, _ => 0)
    ensures CycleStep(s, x).active == active + [x.active] + seq(COUNT - s.index - 1, _ => 0)
  {
    FillNextSlot(ambient, x.ambient, COUNT - s.index);
    FillNextSlot(active, x.active, COUNT - s.index);
  }

  /** The samples of a non-empty sequence of cycles are those of all but the last, then the last. */
  lemma SamplesSnoc(xs: seq<Sample>)
    requires xs != []
    ensures Ambients(xs) == Ambients(xs[..|xs| - 1]) + [xs[|xs| - 1].ambient]
    ensures Actives(xs) == Actives(xs[..|xs| - 1]) + [xs[|xs| - 1].active]
  {
    assert Ambients(xs) == Ambients(xs[..|xs| - 1]) + [xs[|xs| - 1].ambient];
  }

  /** A counter below COUNT has not wrapped yet. */
  lemma ModBelow(k: nat)
    requires k < COUNT
    ensures k % COUNT == k
  {
  }

  /** Advancing a wrapped counter is wrapping the advanced counter. */
  lemma ModSuccessor(k: nat)
    ensures (k % COUNT + 1) % COUNT == (k + 1) % COUNT
  {
  }

  /** A cycle after k cycles counted from 0 leaves the counters as k + 1 cycles do. */
  lemma CountersStep(s: Sampler, x: Sample, k: nat)
    requires WellFormed(s) && !s.isReading
    requires s.index == k % COUNT && s.taken == Min(k, COUNT - 1)
    ensures CycleStep(s, x).index == (k + 1) % COUNT && CycleStep(s, x).taken == Min(k + 1, COUNT - 1)
  {
    ModSuccessor(k);
  }

  /** After k cycles from `init` the index is k mod COUNT and the taken counter min(k, COUNT - 1). */
  lemma {:induction false} CountersFromInit(threshold: int, xs: seq<Sample>)
    ensures Cycles(Initial(threshold), xs).index == |xs| % COUNT
    ensures Cycles(Initial(threshold), xs).taken == Min(|xs|, COUNT - 1)
    decreases |xs|
  {
    if xs != [] {
      var init := xs[..|xs| - 1];
      var s := Cycles(Initial(threshold), init);
      CountersFromInit(threshold, init);
      CountersStep(s, xs[|xs| - 1], |init|);
      assert Cycles(Initial(threshold), xs) == CycleStep(s, xs[|xs| - 1]);
    }
  }

  /**
   * Filling the buffers from `init`: while k < COUNT, after k cycles the
   * buffers hold the first k samples in order followed by the zeros of
   * `init`, and the detection flag is still the initial false before cycle
   * COUNT - 1. So the first evaluation, on cycle COUNT - 1, averages over a
   * last slot that still holds 0.
   */
  lemma {:induction false} FillingFromInit(threshold: int, xs: seq<Sample>)
    requires |xs| < COUNT
    ensures Cycles(Initial(threshold), xs).ambient == Ambients(xs) + seq(COUNT - |xs|, _ => 0)
    ensures Cycles(Initial(threshold), xs).active == Actives(xs) + seq(COUNT - |xs|, _ => 0)
    ensures |xs| < COUNT - 1 ==> !Cycles(Initial(threshold), xs).detected
    decreases |xs|
  {
    if xs != [] {
      var init := xs[..|xs| - 1];
      var s := Cycles(Initial(threshold), init);
      var x := xs[|init|];
      FillingFromInit(threshold, init);
      CountersFromInit(threshold, init);
      assert s.index == |init| && s.taken == |init| by {
        ModBelow(|init|);
      }
      CycleFillsSlot(s, x, Ambients(init), Actives(init));
      SamplesSnoc(xs);
    }
  }

  /**
   * The summing loop of `run` over both buffers.
   */
  method SumBoth(ambient: array<int>, active: array<int>) returns (sumAmbient: int, sumActive: int)
    requires ambient.Length == COUNT && active.Length == COUNT
    ensures sumAmbient == Sum(ambient[..]) && sumActive == Sum(active[..])
  {
    sumAmbient, sumActive := 0, 0;
    var i := 0;
    while i < COUNT
      invariant 0 <= i <= COUNT
      invariant sumAmbient == Sum(ambient[..i]) && sumActive == Sum(active[..i])
    {
      assert ambient[..i + 1][..i] == ambient[..i];
      assert active[..i + 1][..i] == active[..i];
      sumAmbient := sumAmbient + ambient[i];
      sumActive := sumActive + active[i];
      i := i + 1;
    }
    assert ambient[..COUNT] == ambient[..];
    assert active[..COUNT] == active[..];
  }

  /** The sensor as a heap object: two circular buffers written in place. */
  class IRSensor {
    const name: string
    const config: BotFs.Config
    const ambientReadings: array<int>
    const activeReadings: array<int>
    var threshold: int
    var readingTimestamp: nat
    var isReading: bool
    var readingIndex: nat
    var readingsTaken: nat
    var detected: bool
    var averageAmbientReading: int
    var averageActiveReading: int
    /** The level last written to the emitter pin. */
    var emitterHigh: bool
    /** Every `onChange` value raised, oldest first. */
    ghost var changes: seq<bool>

    function Snapshot(): Sampler
      reads this, ambientReadings, activeReadings
    {
      Sampler(ambientReadings[..], activeReadings[..], threshold, readingTimestamp, isReading,
              readingIndex, readingsTaken, detected, averageAmbientReading, averageActiveReading, emitterHigh)
    }

    ghost predicate Valid()
      reads this, ambientReadings, activeReadings
    {
      ambientReadings != activeReadings && WellFormed(Snapshot())
    }

    /** The constructor followed by `init`, which zeroes both buffers and stores the threshold. */
    constructor (name: string, config: BotFs.Config, threshold: int)
      ensures Valid() && Snapshot() == Initial(threshold) && changes == []
      ensures this.name == name && this.config == config
      ensures fresh(ambientReadings) && fresh(activeReadings)
    {
      var ambient := new int[COUNT];
      var active := new int[COUNT];
      var i := 0;
      while i < COUNT
        invariant 0 <= i <= COUNT
        invariant forall j :: 0 <= j < i ==> ambient[j] == 0 && active[j] == 0
      {
        ambient[i] := 0;
        active[i] := 0;
        i := i + 1;
      }
      assert ambient[..] == seq(COUNT, _ => 0) && active[..] == seq(COUNT, _ => 0);
      this.name := name;
      this.config := config;
      ambientReadings := ambient;
      activeReadings := active;
      this.threshold := threshold;
      readingTimestamp := 0;
      isReading := false;
      readingIndex := 0;
      readingsTaken := 0;
      detected := false;
      averageAmbientReading := 0;
      averageActiveReading := 0;
      emitterHigh := false;
      changes := [];
    }

    /** `run`; `reading` is what the receiver pin reads at `now`. */
    method Run(now: nat, reading: nat)
      requires Valid()
      modifies this, ambientReadings, activeReadings
      ensures Valid()
      ensures var st := RunStep(old(Snapshot()), now, reading);
        Snapshot() == st.sampler && changes == old(changes) + st.changes
    {
      if !isReading && now > readingTimestamp + READ_DELAY - 2 {
        SampleAmbient(now, reading);
      } else if isReading && now > readingTimestamp + 2 {
        SampleActive(now, reading);
        if readingsTaken >= COUNT - 1 {
          EvaluateReadings();
        }
      }
    }

    /** Phase 1 of `run`. */
    method SampleAmbient(now: nat, reading: nat)
      requires Valid() && PhaseOneDue(Snapshot(), now)
      modifies this`isReading, this`readingTimestamp, ambientReadings, this`emitterHigh
      ensures Valid() && Snapshot() == AmbientPhase(old(Snapshot()), now, reading)
    {
      isReading := true;
      readingTimestamp := now;
      ambientReadings[readingIndex] := reading;
      emitterHigh := true;
    }

    /** Phase 2 of `run`, up to the evaluation. */
    method SampleActive(now: nat, reading: nat)
      requires Valid() && PhaseTwoDue(Snapshot(), now)
      modifies this`isReading, this`readingTimestamp, activeReadings, this`emitterHigh,
               this`readingIndex, this`readingsTaken
      ensures Valid() && Snapshot() == ActivePhase(old(Snapshot()), now, reading)
    {
      isReading := false;
      readingTimestamp := now;
      activeReadings[readingIndex] := reading;
      emitterHigh := false;
      readingIndex := readingIndex + 1;
      if readingIndex >= COUNT {
        readingIndex := 0;
      }
      readingsTaken := Min(readingsTaken + 1, COUNT - 1);
    }

    /** The evaluation at the end of phase 2. */
    method EvaluateReadings()
      requires Valid()
      modifies this`averageAmbientReading, this`averageActiveReading, this`detected, this`changes
      ensures Valid()
      ensures var st := Evaluate(old(Snapshot())); Snapshot() == st.sampler && changes == old(changes) + st.changes
    {
      var oldDetected := detected;
      var sumOfAmbientReadings, sumOfActiveReadings := SumBoth(ambientReadings, activeReadings);
      averageAmbientReading := sumOfAmbientReadings / COUNT;
      averageActiveReading := sumOfActiveReadings / COUNT;
      detected := Abs(averageAmbientReading - averageActiveReading) >= threshold;
      if oldDetected != detected {
        changes := changes + [detected];
      }
    }

    /** `setThreshold`: store the value and forward it, with this sensor's name, to the configuration. */
    method SetThreshold(newThreshold: int)
      modifies this`threshold, config`topIrSensorThreshold, config`bottomIrSensorThreshold, config`saves
      ensures threshold == newThreshold
      ensures name == "TOP" ==> config.topIrSensorThreshold == newThreshold
      ensures name == "BOTTOM" ==> config.bottomIrSensorThreshold == newThreshold
      ensures name != "TOP" ==> config.topIrSensorThreshold == old(config.topIrSensorThreshold)
      ensures name != "BOTTOM" ==> config.bottomIrSensorThreshold == old(config.bottomIrSensorThreshold)
      ensures config.saves == old(config.saves) + 1
    {
      threshold := newThreshold;
      config.SetIRSensorThreshold(name, newThreshold);
    }
  }
}
