/**
 * Quadrature-encoder bookkeeping (class Encoder in encoder.py). The hardware timer
 * counter and the microsecond clock become parameters; the rest of update, zero and
 * the getters is modelled as written. One update is the pure function EncoderStep,
 * and the class methods are proved to perform it in place.
 */
module QuadratureEncoder {

  /** Auto-reload value of the 16-bit timer counter: the counter runs over [0, AR]. */
  const AR: int := 65535
  /** AR + 1, the period of the counter. */
  const COUNTER_RANGE: int := 65536
  /** Low-pass filter weight of the previous speed. */
  const ALPHA: real := 0.8
  /** math.pi as the firmware sees it. */
  const PI: real := 3.141592653589793
  /** 2 pi / (12 * 120): 12 counts per motor turn through a 120:1 gearbox. */
  const RADIANS_PER_TICK: real := (2.0 * PI) / (12.0 * 120.0)

  predicate IsCounter(c: int) {
    0 <= c <= AR
  }

  /**
   * The overflow/underflow correction of update: a raw delta beyond half the counter
   * range is taken to have wrapped and is moved back by one full range.
   */
  function WrapDelta(raw: int): (d: int)
    ensures (d - raw) % COUNTER_RANGE == 0
    ensures -AR <= raw <= AR ==> -COUNTER_RANGE / 2 <= d <= COUNTER_RANGE / 2
    ensures -COUNTER_RANGE / 2 <= raw <= COUNTER_RANGE / 2 ==> d == raw
  {
    if raw > COUNTER_RANGE / 2 then raw - COUNTER_RANGE
    else if raw < -(COUNTER_RANGE / 2) then raw + COUNTER_RANGE
    else raw
  }

  function Abs(x: int): nat {
    if x < 0 then -x else x
  }

  /** Of all the deltas the two counter readings allow, the correction picks a shortest one. */
  lemma WrapDeltaShortest(raw: int, k: int)
    requires -AR <= raw <= AR
    ensures Abs(WrapDelta(raw)) <= Abs(raw + k * COUNTER_RANGE)
  {
    var d := WrapDelta(raw);
    var m := (d - raw) / COUNTER_RANGE;
    assert raw + k * COUNTER_RANGE == d + (k - m) * COUNTER_RANGE;
    if k - m >= 1 {
      assert d + (k - m) * COUNTER_RANGE >= d + COUNTER_RANGE;
    } else if k - m <= -1 {
      assert d + (k - m) * COUNTER_RANGE <= d - COUNTER_RANGE;
    }
  }

  /** A counter that fell from 65000 to 0 wrapped forward: the raw delta -65000 becomes 536. */
  lemma WrapDeltaExample()
    ensures WrapDelta(0 - 65000) == 536
  {
  }

  /** The exponential low-pass filter: speed' = alpha * speed + (1 - alpha) * raw. */
  function Filter(speed: real, rawSpeed: real): (s: real)
    ensures s - rawSpeed == ALPHA * (speed - rawSpeed)
    ensures speed <= rawSpeed ==> speed <= s <= rawSpeed
    ensures rawSpeed <= speed ==> rawSpeed <= s <= speed
  {
    ALPHA * speed + (1.0 - ALPHA) * rawSpeed
  }

  /** raw_speed: the corrected delta in radians over the interval in seconds. */
  function RawSpeed(delta: int, intervalUs: int): (w: real)
    requires intervalUs > 0
    ensures w * (intervalUs as real * 0.000001) == delta as real * RADIANS_PER_TICK
  {
    (delta as real * RADIANS_PER_TICK) / (intervalUs as real * 0.000001)
  }

  /** What an Encoder object stores (the timer itself and current_position are left out). */
  datatype EncoderState = EncoderState(
    position: int,
    prevPosition: int,
    delta: int,
    speed: real,
    currentTime: int,
    lastTime: int)

  /** One update: read the counter and the clock, correct the delta, accumulate, filter. */
  function EncoderStep(e: EncoderState, counter: int, nowUs: int): (r: EncoderState)
    requires IsCounter(e.prevPosition) && IsCounter(counter) && nowUs > e.currentTime
    ensures -COUNTER_RANGE / 2 <= r.delta <= COUNTER_RANGE / 2
    ensures (r.delta - (counter - e.prevPosition)) % COUNTER_RANGE == 0
    ensures r.position == e.position + r.delta
    ensures r.prevPosition == counter && IsCounter(r.prevPosition)
    ensures r.lastTime == e.currentTime && r.currentTime == nowUs
    ensures r.speed - RawSpeed(r.delta, nowUs - e.currentTime) == ALPHA * (e.speed - RawSpeed(r.delta, nowUs - e.currentTime))
  {
    var delta := WrapDelta(counter - e.prevPosition);
    EncoderState(e.position + delta, counter, delta,
                 Filter(e.speed, RawSpeed(delta, nowUs - e.currentTime)), nowUs, e.currentTime)
  }

  /**
   * Over any run of updates the position moves by the sum of the corrected deltas,
   * each congruent to the counter change it stands for; so the position always agrees
   * with the counter modulo the counter range.
   */
  lemma {:induction false} PositionTracksCounter(e: EncoderState, counters: seq<int>, times: seq<int>)
    requires IsCounter(e.prevPosition) && |counters| == |times|
    requires forall i :: 0 <= i < |counters| ==> IsCounter(counters[i])
    requires ClockAdvances(e.currentTime, times)
    ensures Congruent(e.position, e.prevPosition, Steps(e, counters, times).position, Steps(e, counters, times).prevPosition)
    decreases |counters|
  {
    if counters != [] {
      var next := EncoderStep(e, counters[0], times[0]);
      StepsUnfold(e, counters, times);
      PositionTracksCounter(next, counters[1..], times[1..]);
      var last := Steps(next, counters[1..], times[1..]);
      StepKeepsCongruence(e, counters[0], times[0]);
      Telescoping(e.position, e.prevPosition, next.position, next.prevPosition, last.position, last.prevPosition);
    }
  }

  /** A run of updates is its first update followed by the run of the rest. */
  lemma StepsUnfold(e: EncoderState, counters: seq<int>, times: seq<int>)
    requires IsCounter(e.prevPosition) && |counters| == |times| && counters != []
    requires forall i :: 0 <= i < |counters| ==> IsCounter(counters[i])
    requires ClockAdvances(e.currentTime, times)
    ensures var next := EncoderStep(e, counters[0], times[0]);
            && ClockAdvances(next.currentTime, times[1..])
            && (forall i :: 0 <= i < |counters[1..]| ==> IsCounter(counters[1..][i]))
            && Steps(e, counters, times) == Steps(next, counters[1..], times[1..])
  {
    var next := EncoderStep(e, counters[0], times[0]);
    assert ClockAdvances(next.currentTime, times[1..]);
    assert forall i :: 0 <= i < |counters[1..]| ==> IsCounter(counters[1..][i]);
  }

  /** One update moves the position by as much as the counter, modulo the counter range. */
  lemma StepKeepsCongruence(e: EncoderState, counter: int, nowUs: int)
    requires IsCounter(e.prevPosition) && IsCounter(counter) && nowUs > e.currentTime
    ensures var r := EncoderStep(e, counter, nowUs);
            Congruent(e.position, e.prevPosition, r.position, r.prevPosition)
  {
    var r := EncoderStep(e, counter, nowUs);
    assert r.position - e.position - (r.prevPosition - e.prevPosition) == r.delta - (counter - e.prevPosition);
  }

  /** Position and counter moved from (p0, c0) to (p1, c1) by the same amount, modulo the counter range. */
  predicate Congruent(p0: int, c0: int, p1: int, c1: int) {
    (p1 - p0 - (c1 - c0)) % COUNTER_RANGE == 0
  }

  /** Two steps that each keep position and counter congruent keep them congruent together. */
  lemma Telescoping(p0: int, c0: int, p1: int, c1: int, p2: int, c2: int)
    requires Congruent(p0, c0, p1, c1) && Congruent(p1, c1, p2, c2)
    ensures Congruent(p0, c0, p2, c2)
  {
    SumOfMultiples(p2 - p1 - (c2 - c1), p1 - p0 - (c1 - c0));
    assert (p2 - p1 - (c2 - c1)) + (p1 - p0 - (c1 - c0)) == p2 - p0 - (c2 - c0);
  }

  lemma SumOfMultiples(a: int, b: int)
    requires a % COUNTER_RANGE == 0 && b % COUNTER_RANGE == 0
    ensures (a + b) % COUNTER_RANGE == 0
  {
    assert a == COUNTER_RANGE * (a / COUNTER_RANGE);
    assert b == COUNTER_RANGE * (b / COUNTER_RANGE);
    assert a + b == COUNTER_RANGE * (a / COUNTER_RANGE + b / COUNTER_RANGE);
  }

  /** Each clock value is later than the one before, the first later than t0. */
  predicate ClockAdvances(t0: int, times: seq<int>) {
    (|times| > 0 ==> times[0] > t0) && forall i :: 1 <= i < |times| ==> times[i - 1] < times[i]
  }

  /** A run of updates with the given counter readings and clock values. */
  function Steps(e: EncoderState, counters: seq<int>, times: seq<int>): (r: EncoderState)
    requires IsCounter(e.prevPosition) && |counters| == |times|
    requires forall i :: 0 <= i < |counters| ==> IsCounter(counters[i])
    requires ClockAdvances(e.currentTime, times)
    decreases |counters|
  {
    if counters == [] then e
    else Steps(EncoderStep(e, counters[0], times[0]), counters[1..], times[1..])
  }

  class Encoder {
    var position: int
    var prevPosition: int
    var delta: int
    var speed: real
    var currentTime: int
    var lastTime: int

    ghost predicate Valid()
      reads this
    {
      IsCounter(prevPosition)
    }

    function State(): EncoderState
      reads this
    {
      EncoderState(position, prevPosition, delta, speed, currentTime, lastTime)
    }

    /** __init__: position 0, previous counter = the counter now, both times = now, speed 0. */
    constructor (counter: int, nowUs: int)
      requires IsCounter(counter)
      ensures Valid()
      ensures State() == EncoderState(0, counter, 0, 0.0, nowUs, nowUs)
    {
      delta := 0;
      position := 0;
      prevPosition := counter;
      currentTime := nowUs;
      lastTime := nowUs;
      speed := 0.0;
    }

    /** update: the clock must have advanced, since the interval divides the speed. */
    method Update(counter: int, nowUs: int)
      requires Valid() && IsCounter(counter) && nowUs > currentTime
      modifies this
      ensures Valid()
      ensures State() == EncoderStep(old(State()), counter, nowUs)
    {
      var currentPosition := counter;
      delta := currentPosition - prevPosition;
      lastTime := currentTime;
      currentTime := nowUs;
      prevPosition := currentPosition;
      if delta > COUNTER_RANGE / 2 {
        delta := delta - COUNTER_RANGE;
      } else if delta < -(COUNTER_RANGE / 2) {
        delta := delta + COUNTER_RANGE;
      }
      position := position + delta;
      var timeInterval := (currentTime - lastTime) as real * 0.000001;
      var rawSpeed := (delta as real * RADIANS_PER_TICK) / timeInterval;
      speed := ALPHA * speed + (1.0 - ALPHA) * rawSpeed;
    }

    /** get_position: the accumulated position with the sign flipped. */
    method GetPosition() returns (p: int)
      ensures p == -position
    {
      p := position * -1;
    }

    /** get_delta: the corrected delta of the last update. */
    method GetDelta() returns (d: int)
      ensures d == delta
    {
      d := delta;
    }

    /** zero: position back to 0 and the counter now taken as reference; speed untouched. */
    method Zero(counter: int)
      requires IsCounter(counter)
      modifies this
      ensures Valid()
      ensures State() == old(State()).(position := 0, prevPosition := counter)
    {
      position := 0;
      prevPosition := counter;
    }

    /** get_speed: one update, then the filtered speed with the sign flipped. */
    method GetSpeed(counter: int, nowUs: int) returns (w: real)
      requires Valid() && IsCounter(counter) && nowUs > currentTime
      modifies this
      ensures Valid()
      ensures State() == EncoderStep(old(State()), counter, nowUs)
      ensures w == -speed
    {
      Update(counter, nowUs);
      w := -speed;
    }
  }
}
