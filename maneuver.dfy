/**
 * The decision logic of main.py's control tasks, as pure functions: the bumper
 * debounce of bumper_isr, the bumper-recovery sequence (round_block_state) and the
 * finish sequence (final_step_state) that inner_loop_task runs, and the duty clamp.
 * Time is an integer count of milliseconds (ticks_ms without wrap-around).
 */
module Maneuver {

  /** Minimum time between two accepted bumper triggers. */
  const DEBOUNCE_MS: int := 200
  /** Open-loop duty of the maneuvers, and the extra duty given to the left wheel. */
  const DUTY: real := 20.0
  const LEFT_CORRECTION: real := 3.0
  /** Exit times of the recovery states: int(turn_time * 900) with turn_time = 0.65 is 585. */
  const REVERSE_MS: int := 750
  const TURN_MS: int := (65 * 900) / 100
  const ARC_MS: int := 3500
  const FIND_LINE_MS: int := 400
  /** Exit times of the finish states and the heading tolerance of the turnaround, in degrees. */
  const FORWARD_MS: int := 1200
  const STOP_MS: int := 1000
  const STRAIGHT_MS: int := 6600
  const HEADING_TOLERANCE: real := 0.5

  // ---------------------------------------------------------------- bumper debounce

  /** The two globals bumper_isr updates. */
  datatype Trigger = Trigger(callRoundBlock: bool, lastTriggerTime: int)

  /**
   * bumper_isr at time now: a trigger is accepted only while no recovery is running and
   * more than 200 ms after the last accepted one; otherwise it is ignored entirely.
   */
  function OnBumper(t: Trigger, now: int): (r: Trigger)
    ensures r != t <==> !t.callRoundBlock && now - t.lastTriggerTime > DEBOUNCE_MS
    ensures r != t ==> r == Trigger(true, now)
  {
    if !t.callRoundBlock && now - t.lastTriggerTime > DEBOUNCE_MS then Trigger(true, now) else t
  }

  /** After an accepted trigger, every further trigger within the debounce window is ignored. */
  lemma SecondTriggerIgnored(t: Trigger, now1: int, now2: int)
    requires OnBumper(t, now1) != t
    requires now2 - now1 <= DEBOUNCE_MS
    ensures OnBumper(OnBumper(t, now1), now2) == OnBumper(t, now1)
  {
  }

  // ---------------------------------------------------------------- duty clamp

  /** The inner loop's clamp of a PID output to the duty range [-100, 100]. */
  function ClampDuty(p: real): (d: real)
    ensures -100.0 <= d <= 100.0
    ensures -100.0 <= p <= 100.0 ==> d == p
    ensures p > 100.0 ==> d == 100.0
    ensures p < -100.0 ==> d == -100.0
  {
    if p > 100.0 then 100.0 else if p < -100.0 then -100.0 else p
  }

  /** One pair of set_duty calls: left motor first, then right. */
  datatype Command = Command(left: real, right: real)

  function Lefts(cs: seq<Command>): (ds: seq<real>)
    ensures |ds| == |cs| && forall i :: 0 <= i < |cs| ==> ds[i] == cs[i].left
  {
    seq(|cs|, i requires 0 <= i < |cs| => cs[i].left)
  }

  function Rights(cs: seq<Command>): (ds: seq<real>)
    ensures |ds| == |cs| && forall i :: 0 <= i < |cs| ==> ds[i] == cs[i].right
  {
    seq(|cs|, i requires 0 <= i < |cs| => cs[i].right)
  }

  predicate CommandsInRange(cs: seq<Command>) {
    forall i :: 0 <= i < |cs| ==> -100.0 <= cs[i].left <= 100.0 && -100.0 <= cs[i].right <= 100.0
  }

  // ---------------------------------------------------------------- recovery sequence

  /** round_block_state: 0 idle, 1 reverse, 2 pivot turn, 3 arc, 4 find the line. */
  datatype RoundBlock = Idle | Reverse | Turn1 | Arc | FindLine

  function RoundBlockCode(s: RoundBlock): int {
    match s
    case Idle => 0
    case Reverse => 1
    case Turn1 => 2
    case Arc => 3
    case FindLine => 4
  }

  /** The state that follows s in the cycle 0 -> 1 -> 2 -> 3 -> 4 -> 0. */
  function RoundBlockSucc(s: RoundBlock): (n: RoundBlock)
    ensures RoundBlockCode(n) == (RoundBlockCode(s) + 1) % 5
  {
    match s
    case Idle => Reverse
    case Reverse => Turn1
    case Turn1 => Arc
    case Arc => FindLine
    case FindLine => Idle
  }

  /**
   * One pass of the recovery loop in state s, elapsed ms after the state's entry time:
   * the state either stays or moves to its successor, each move gated as the source gates it.
   */
  function RoundBlockNext(s: RoundBlock, elapsed: int, isLine: bool): (n: RoundBlock)
    ensures n == s || n == RoundBlockSucc(s)
    ensures s == Idle ==> n == Reverse
    ensures s == Reverse ==> (n == Turn1 <==> elapsed > REVERSE_MS)
    ensures s == Turn1 ==> (n == Arc <==> elapsed > TURN_MS)
    ensures s == Arc ==> (n == FindLine <==> elapsed > ARC_MS)
    ensures s == FindLine ==> (n == Idle <==> isLine && elapsed > FIND_LINE_MS)
  {
    match s
    case Idle => Reverse
    case Reverse => if elapsed > REVERSE_MS then Turn1 else Reverse
    case Turn1 => if elapsed > TURN_MS then Arc else Turn1
    case Arc => if elapsed > ARC_MS then FindLine else Arc
    case FindLine => if isLine && elapsed > FIND_LINE_MS then Idle else FindLine
  }

  /** The open-loop set_duty calls of one pass (the arc state drives closed-loop instead). */
  function RoundBlockCommands(s: RoundBlock, isLine: bool): (cs: seq<Command>)
    ensures CommandsInRange(cs)
    ensures s == Idle || s == Arc || (s == FindLine && !isLine) ==> cs == []
  {
    match s
    case Idle => []
    case Reverse => [Command(-DUTY - LEFT_CORRECTION, -DUTY)]
    case Turn1 => [Command(DUTY + LEFT_CORRECTION, -DUTY)]
    case Arc => []
    case FindLine => if isLine then [Command(DUTY + LEFT_CORRECTION, -DUTY)] else []
  }

  /** The recovery globals: call_round_block, round_block_state, round_block_start_time. */
  datatype Sequencer = Sequencer(active: bool, state: RoundBlock, start: int)

  /**
   * One pass while call_round_block is set. Every move records now as the entry time,
   * except the last (find line -> idle), which clears call_round_block instead.
   */
  function SequencerStep(q: Sequencer, now: int, isLine: bool): (r: Sequencer)
    requires q.active
    ensures r.state == RoundBlockNext(q.state, now - q.start, isLine)
    ensures r.active <==> !(q.state == FindLine && r.state == Idle)
    ensures r.start == (if r.state != q.state && r.state != Idle then now else q.start)
  {
    var n := RoundBlockNext(q.state, now - q.start, isLine);
    Sequencer(!(q.state == FindLine && n == Idle), n,
              if n != q.state && n != Idle then now else q.start)
  }

  /** The recovery loop driven by one pass per task invocation; it stops once call_round_block clears. */
  function RunSequencer(q: Sequencer, nows: seq<int>, lines: seq<bool>): Sequencer
    requires |nows| == |lines|
    decreases |nows|
  {
    if nows == [] || !q.active then q
    else RunSequencer(SequencerStep(q, nows[0], lines[0]), nows[1..], lines[1..])
  }

  /** The least time from the trigger at which each state can have been entered. */
  function EntryOffset(s: RoundBlock): int {
    match s
    case Idle => 0
    case Reverse => 0
    case Turn1 => REVERSE_MS + 1
    case Arc => REVERSE_MS + 1 + TURN_MS + 1
    case FindLine => REVERSE_MS + 1 + TURN_MS + 1 + ARC_MS + 1
  }

  /** The least duration of a whole recovery maneuver. */
  const RECOVERY_MIN_MS: int := EntryOffset(FindLine) + FIND_LINE_MS + 1

  predicate NonDecreasing(t0: int, nows: seq<int>) {
    (|nows| > 0 ==> t0 <= nows[0]) && forall i :: 1 <= i < |nows| ==> nows[i - 1] <= nows[i]
  }

  /** What a recovery that began at t0 satisfies once its last pass ran at time last. */
  ghost predicate TimingInv(q: Sequencer, t0: int, last: int) {
    && (q.active ==> q.state != Idle && t0 + EntryOffset(q.state) <= q.start <= last)
    && (!q.active ==> last >= t0 + RECOVERY_MIN_MS)
  }

  /** TimingInv holds along every run whose passes come at non-decreasing times. */
  lemma {:induction false} RunKeepsTiming(q: Sequencer, t0: int, last: int, nows: seq<int>, lines: seq<bool>)
    requires |nows| == |lines| && TimingInv(q, t0, last) && t0 <= last && NonDecreasing(last, nows)
    ensures TimingInv(RunSequencer(q, nows, lines), t0, if nows == [] then last else nows[|nows| - 1])
    decreases |nows|
  {
    if nows != [] {
      var end := nows[|nows| - 1];
      if !q.active {
        assert NonDecreasing(last, nows[1..]);
        LastIsLatest(last, nows);
      } else {
        var next := SequencerStep(q, nows[0], lines[0]);
        assert TimingInv(next, t0, nows[0]);
        assert NonDecreasing(nows[0], nows[1..]);
        RunKeepsTiming(next, t0, nows[0], nows[1..], lines[1..]);
        assert nows[1..] != [] ==> nows[1..][|nows[1..]| - 1] == end;
      }
    }
  }

  lemma {:induction false} LastIsLatest(t0: int, nows: seq<int>)
    requires NonDecreasing(t0, nows) && nows != []
    ensures t0 <= nows[|nows| - 1]
    decreases |nows|
  {
    if |nows| > 1 {
      assert NonDecreasing(nows[0], nows[1..]);
      LastIsLatest(nows[0], nows[1..]);
    }
  }

  /**
   * A trigger accepted at t0 and passes at non-decreasing times: no state is reached
   * before its earliest entry time, and the maneuver cannot end before RECOVERY_MIN_MS.
   * In particular, with every pass at most 750 ms after the first, the robot is still
   * reversing (it never reached the turn, let alone the arc).
   */
  lemma RecoveryTiming(start: int, nows: seq<int>, lines: seq<bool>)
    requires |nows| == |lines| && nows != [] && NonDecreasing(nows[0], nows)
    ensures var q := RunSequencer(Sequencer(true, Idle, start), nows, lines);
            var t0, last := nows[0], nows[|nows| - 1];
            && (q.active ==> q.state != Idle && t0 + EntryOffset(q.state) <= q.start <= last)
            && (!q.active ==> last >= t0 + RECOVERY_MIN_MS)
            && (last - t0 <= REVERSE_MS ==> q.active && q.state == Reverse)
  {
    var t0 := nows[0];
    var q := RunSequencer(Sequencer(true, Idle, start), nows, lines);
    var next := SequencerStep(Sequencer(true, Idle, start), t0, lines[0]);
    assert next == Sequencer(true, Reverse, t0);
    assert NonDecreasing(t0, nows[1..]);
    RunKeepsTiming(next, t0, t0, nows[1..], lines[1..]);
    assert nows[1..] != [] ==> nows[1..][|nows[1..]| - 1] == nows[|nows| - 1];
  }

  // ---------------------------------------------------------------- finish sequence

  /** final_step_state: 0 start, 1 forward, 2 stop, 3 turn around, 4 straight; Done after the last. */
  datatype Finish = Start | Forward | Stop | Turnaround | Straight | Done

  function FinishSucc(s: Finish): Finish {
    match s
    case Start => Forward
    case Forward => Stop
    case Stop => Turnaround
    case Turnaround => Straight
    case Straight => Done
    case Done => Done
  }

  function AbsReal(x: real): real {
    if x < 0.0 then -x else x
  }

  /**
   * The turnaround's exit test: the heading word (1/16 degree) is within 0.5 degree of the
   * initial heading, compared as plain numbers (359.9 and 0.1 are not close).
   */
  predicate HeadingMatched(initialHeading: real, headingRaw: int) {
    AbsReal(initialHeading - headingRaw as real / 16.0) <= HEADING_TOLERANCE
  }

  function FinishNext(s: Finish, elapsed: int, matched: bool): (n: Finish)
    ensures n == s || n == FinishSucc(s)
    ensures s == Start ==> n == Forward
    ensures s == Forward ==> (n == Stop <==> elapsed > FORWARD_MS)
    ensures s == Stop ==> (n == Turnaround <==> elapsed > STOP_MS)
    ensures s == Turnaround ==> (n == Straight <==> matched)
    ensures s == Straight ==> (n == Done <==> elapsed > STRAIGHT_MS)
    ensures s == Done ==> n == Done
  {
    match s
    case Start => Forward
    case Forward => if elapsed > FORWARD_MS then Stop else Forward
    case Stop => if elapsed > STOP_MS then Turnaround else Stop
    case Turnaround => if matched then Straight else Turnaround
    case Straight => if elapsed > STRAIGHT_MS then Done else Straight
    case Done => Done
  }

  /**
   * The set_duty calls of one finish pass. Leaving the turnaround and reaching Done
   * both stop the two motors after the state's own command.
   */
  function FinishCommands(s: Finish, elapsed: int, matched: bool): (cs: seq<Command>)
    ensures CommandsInRange(cs)
    ensures FinishNext(s, elapsed, matched) != s && (s == Turnaround || s == Straight)
            ==> |cs| == 2 && cs[1] == Command(0.0, 0.0)
  {
    match s
    case Start => []
    case Forward => [Command(DUTY, DUTY)]
    case Stop => [Command(0.0, 0.0)]
    case Turnaround =>
      [Command(10.0 + LEFT_CORRECTION, -10.0)] + (if matched then [Command(0.0, 0.0)] else [])
    case Straight =>
      [Command(DUTY - 0.5, DUTY)] + (if elapsed > STRAIGHT_MS then [Command(0.0, 0.0)] else [])
    case Done => []
  }

  /** The finish globals: final_step_state and round_block_start_time (shared with the recovery). */
  datatype FinishTimer = FinishTimer(state: Finish, start: int)

  /** One finish pass: every move records now as entry time, except the final move to Done. */
  function FinishStep(f: FinishTimer, now: int, matched: bool): (r: FinishTimer)
    ensures r.state == FinishNext(f.state, now - f.start, matched)
    ensures r.start == (if r.state != f.state && r.state != Done then now else f.start)
  {
    var n := FinishNext(f.state, now - f.start, matched);
    FinishTimer(n, if n != f.state && n != Done then now else f.start)
  }

  function RunFinish(f: FinishTimer, nows: seq<int>, matches: seq<bool>): FinishTimer
    requires |nows| == |matches|
    decreases |nows|
  {
    if nows == [] then f else RunFinish(FinishStep(f, nows[0], matches[0]), nows[1..], matches[1..])
  }

  /** The least time after the finish began at which each finish state can have been entered. */
  function FinishOffset(s: Finish): int {
    match s
    case Start => 0
    case Forward => 0
    case Stop => FORWARD_MS + 1
    case Turnaround => FORWARD_MS + 1 + STOP_MS + 1
    case Straight => FORWARD_MS + 1 + STOP_MS + 1
    case Done => FORWARD_MS + 1 + STOP_MS + 1 + STRAIGHT_MS + 1
  }

  ghost predicate FinishInv(f: FinishTimer, t0: int, last: int) {
    && (f.state != Start && f.state != Done ==> t0 + FinishOffset(f.state) <= f.start <= last)
    && (f.state == Done ==> last >= t0 + FinishOffset(Done))
  }

  lemma {:induction false} RunFinishKeepsTiming(f: FinishTimer, t0: int, last: int, nows: seq<int>, matches: seq<bool>)
    requires |nows| == |matches| && FinishInv(f, t0, last) && t0 <= last && NonDecreasing(last, nows)
    ensures FinishInv(RunFinish(f, nows, matches), t0, if nows == [] then last else nows[|nows| - 1])
    decreases |nows|
  {
    if nows != [] {
      var next := FinishStep(f, nows[0], matches[0]);
      assert FinishInv(next, t0, nows[0]);
      assert NonDecreasing(nows[0], nows[1..]);
      RunFinishKeepsTiming(next, t0, nows[0], nows[1..], matches[1..]);
      assert nows[1..] != [] ==> nows[1..][|nows[1..]| - 1] == nows[|nows| - 1];
    }
  }

  /**
   * A finish sequence whose first pass ran at t0 ends (raises the stop of the run loop)
   * only when a pass runs at least (1200 + 1) + (1000 + 1) + (6600 + 1) = 8803 ms after t0.
   */
  lemma FinishTiming(start: int, nows: seq<int>, matches: seq<bool>)
    requires |nows| == |matches| && nows != [] && NonDecreasing(nows[0], nows)
    ensures RunFinish(FinishTimer(Start, start), nows, matches).state == Done
            ==> nows[|nows| - 1] >= nows[0] + FinishOffset(Done)
  {
    var t0 := nows[0];
    var next := FinishStep(FinishTimer(Start, start), t0, matches[0]);
    assert next == FinishTimer(Forward, t0);
    assert NonDecreasing(t0, nows[1..]);
    RunFinishKeepsTiming(next, t0, t0, nows[1..], matches[1..]);
    assert nows[1..] != [] ==> nows[1..][|nows[1..]| - 1] == nows[|nows| - 1];
  }

  /** The 8803 ms bound is reached: a run with passes exactly at each gate ends at 8803 ms. */
  lemma FinishTimingReached()
    ensures FinishOffset(Done) == 8803
    ensures RunFinish(FinishTimer(Start, 0), [0, 1201, 2202, 2202, 8803], [false, false, false, true, false]).state == Done
  {
    var f1 := FinishStep(FinishTimer(Start, 0), 0, false);
    assert f1 == FinishTimer(Forward, 0);
    var f2 := FinishStep(f1, 1201, false);
    assert f2 == FinishTimer(Stop, 1201);
    var f3 := FinishStep(f2, 2202, false);
    assert f3 == FinishTimer(Turnaround, 2202);
    var f4 := FinishStep(f3, 2202, true);
    assert f4 == FinishTimer(Straight, 2202);
    assert FinishStep(f4, 8803, false).state == Done;
  }
}
