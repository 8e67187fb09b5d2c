/** How long a consumer goes on after its producers are done: each of its steps brings closing nearer, by a
    measure of the unread packets and of where it stands. */
module ConsumerProgress {
  import opened Timestamps
  import opened Options
  import opened Streams
  import opened Merging
  import opened SyncSets
  import opened ScheduleIndependence

  /** Every producer has promised to send nothing more. */
  predicate Finished(s: State) {
    forall i :: 0 <= i < |s.streams| ==> s.streams[i].bound >= ONE_OVER_POST_STREAM
  }

  predicate IsConsumers(step: Step) {
    !step.Produce? && !step.Promise?
  }

  function Unread(streams: seq<Stream>): nat {
    if streams == [] then 0 else Unread(streams[..|streams| - 1]) + |streams[|streams| - 1].queue|
  }

  /** A stream still to be popped has a packet at the time of the input set. */
  ghost predicate HeadAhead(phase: Phase, streams: seq<Stream>)
    requires phase.Filling?
  {
    exists i :: |phase.taken| <= i < |streams| && streams[i].queue != [] && streams[i].queue[0].timestamp == phase.time
  }

  predicate IsFinal(seen: Minima) {
    seen.bound >= ONE_OVER_POST_STREAM
  }

  /** One round of reading, judging, popping and delivering. */
  function Round(n: nat): nat {
    2 * n + 2
  }

  function Rounds(unread: int, n: nat): int {
    unread * Round(n)
  }

  /** The steps ahead of a consumer of `n` streams. A pass that has seen an outdated bound may be in vain, or
      lead to an empty set; every later round delivers a packet. */
  ghost function StepsAhead(phase: Phase, streams: seq<Stream>): int {
    var n, u := |streams|, Unread(streams);
    match phase
    case Closing => 0
    case Reading(k, seen) => Rounds(if IsFinal(seen) then u else u + 1, n) + n - k + 1
    case Filling(_, taken) => Rounds(if HeadAhead(phase, streams) then u - 1 else u, n) + Round(n) - |taken|
  }

  ghost function Ahead(s: State): int {
    StepsAhead(s.phase, s.streams)
  }

  lemma {:induction false} OneRoundMore(u: int, n: nat)
    ensures Rounds(u + 1, n) == Rounds(u, n) + Round(n)
  {}

  lemma {:induction false} UnreadAfterUpdate(streams: seq<Stream>, i: nat, st: Stream)
    requires i < |streams|
    ensures Unread(streams[i := st]) == Unread(streams) + |st.queue| - |streams[i].queue|
  {
    var n := |streams| - 1;
    if i == n {
      assert streams[i := st][..n] == streams[..n];
    } else {
      UnreadAfterUpdate(streams[..n], i, st);
      assert streams[i := st][..n] == streams[..n][i := st];
    }
  }

  lemma {:induction false} UnreadHead(streams: seq<Stream>, i: nat)
    requires i < |streams| && streams[i].queue != []
    ensures Unread(streams) > 0
  {
    if i < |streams| - 1 { UnreadHead(streams[..|streams| - 1], i); }
  }

  // ---------- the producers ----------

  lemma {:induction false} NothingToSend(st: Stream, held: seq<Packet>, future: seq<Packet>, history: seq<Packet>)
    requires Follows(st, held, future, history) && st.bound >= ONE_OVER_POST_STREAM
    ensures future == []
  {
    FollowsSendable(st, held, future, history);
    var soonest := if future == [] then st.bound else future[0].timestamp;
    assert st.bound <= soonest;
  }

  lemma {:induction false} SameQueuesUnread(streams: seq<Stream>, streams': seq<Stream>)
    requires |streams| == |streams'| && forall i :: 0 <= i < |streams| ==> streams'[i].queue == streams[i].queue
    ensures Unread(streams') == Unread(streams)
  {
    if streams != [] { SameQueuesUnread(streams[..|streams| - 1], streams'[..|streams| - 1]); }
  }

  lemma {:induction false} SameQueuesAhead(phase: Phase, streams: seq<Stream>, streams': seq<Stream>)
    requires |streams| == |streams'| && forall i :: 0 <= i < |streams| ==> streams'[i].queue == streams[i].queue
    ensures StepsAhead(phase, streams') == StepsAhead(phase, streams)
  {
    SameQueuesUnread(streams, streams');
    if phase.Filling? { assert HeadAhead(phase, streams') <==> HeadAhead(phase, streams); }
  }

  /** A finished producer can only raise its bound further. */
  lemma {:induction false} ProducerChangesNothing(st: Stream, future: seq<Packet>, n: nat, b: Timestamp)
    requires st.bound >= ONE_OVER_POST_STREAM && future == [] && n <= |future| && st.bound <= b
    ensures AddPackets(st, future[..n]).stream == st
    ensures SetNextTimestampBound(st, b).stream.queue == st.queue
    ensures SetNextTimestampBound(st, b).stream.bound >= ONE_OVER_POST_STREAM
  {
    assert future[..n] == [];
  }

  lemma {:induction false} UpdateKeepsAhead(s: State, i: nat, st: Stream, future: seq<Packet>)
    requires Finished(s) && i < |s.streams| == |s.future|
    requires st.queue == s.streams[i].queue && st.bound >= ONE_OVER_POST_STREAM
    ensures var s' := s.(streams := s.streams[i := st], future := s.future[i := future]);
            Finished(s') && Ahead(s') == Ahead(s)
  {
    SameQueuesAhead(s.phase, s.streams, s.streams[i := st]);
  }

  lemma {:induction false} ProducerKeepsAhead(c: Config, s: State, step: Step)
    requires AllFollow(c, s) && Finished(s) && Enabled(s, step) && !IsConsumers(step)
    ensures Finished(Do(c, s, step)) && Ahead(Do(c, s, step)) == Ahead(s)
  {
    match step
    case Produce(i, n) =>
      NothingToSend(s.streams[i], Held(s, i), s.future[i], c.histories[i]);
      ProducerChangesNothing(s.streams[i], s.future[i], n, s.streams[i].bound);
      UpdateKeepsAhead(s, i, AddPackets(s.streams[i], s.future[i][..n]).stream, s.future[i][n..]);
    case Promise(i, b) =>
      NothingToSend(s.streams[i], Held(s, i), s.future[i], c.histories[i]);
      ProducerChangesNothing(s.streams[i], s.future[i], 0, b);
      UpdateKeepsAhead(s, i, SetNextTimestampBound(s.streams[i], b).stream, s.future[i]);
  }

  // ---------- the consumer ----------

  /** A pass that has seen only final bounds finds the next packet, or that there is none. */
  lemma {:induction false} FinalPassDecides(m: Minima, last: Timestamp, processBounds: bool)
    requires IsFinal(m) && (m.packet == DONE || (IsAllowedInStream(m.packet) && last < m.packet))
    ensures Decide(m, last, processBounds) == if m.packet == DONE then ReadyForClose else ReadyForProcess(m.packet)
  {}

  lemma {:induction false} HeadIsAhead(phase: Phase, streams: seq<Stream>, last: Timestamp)
    requires phase.Reading? && ReadingInv(phase, streams, last) && phase.seen.packet != DONE
    ensures HeadAhead(Filling(phase.seen.packet, []), streams)
  {
    var i :| 0 <= i < phase.k && streams[i].queue != [] && streams[i].queue[0].timestamp == phase.seen.packet;
  }

  lemma {:induction false} FinalStepsAhead(phase: Phase, streams: seq<Stream>)
    requires phase.Reading? && phase.k == |streams| && IsFinal(phase.seen)
    ensures StepsAhead(Closing, streams) < StepsAhead(phase, streams)
    ensures HeadAhead(Filling(phase.seen.packet, []), streams) ==>
              StepsAhead(Filling(phase.seen.packet, []), streams) < StepsAhead(phase, streams)
  {
    var u: int := Unread(streams);
    OneRoundMore(u - 1, |streams|);
    assert Rounds(Unread(streams), |streams|) >= 0;
  }

  lemma {:induction false} FinalJudgeGoesAhead(c: Config, s: State)
    requires AllFollow(c, s) && s.phase.Reading? && ReadingInv(s.phase, s.streams, s.last)
    requires Enabled(s, Judge) && IsFinal(s.phase.seen)
    ensures Ahead(Do(c, s, Judge)) < Ahead(s)
  {
    var m := s.phase.seen;
    if m.packet != DONE {
      HeadIsTrue(c, s);
      HeadIsAhead(s.phase, s.streams, s.last);
    }
    FinalPassDecides(m, s.last, c.processBounds);
    FinalStepsAhead(s.phase, s.streams);
  }

  lemma {:induction false} JudgeGoesAhead(phase: Phase, streams: seq<Stream>, r: Readiness)
    requires phase.Reading? && phase.k == |streams| && !IsFinal(phase.seen)
    ensures StepsAhead(AfterJudging(r), streams) < StepsAhead(phase, streams)
  {
    var u: int := Unread(streams);
    OneRoundMore(u, |streams|);
    OneRoundMore(u - 1, |streams|);
    assert Rounds(u, |streams|) >= 0;
  }

  lemma {:induction false} ReadGoesAhead(phase: Phase, streams: seq<Stream>)
    requires phase.Reading? && phase.k < |streams| && streams[phase.k].bound >= ONE_OVER_POST_STREAM
    ensures StepsAhead(AfterRead(phase, streams), streams) < StepsAhead(phase, streams)
  {
    assert IsFinal(AfterRead(phase, streams).seen) <==> IsFinal(phase.seen);
  }

  lemma {:induction false} DeliverGoesAhead(phase: Phase, streams: seq<Stream>)
    requires phase.Filling? && |phase.taken| == |streams|
    ensures StepsAhead(FROM_START, streams) < StepsAhead(phase, streams)
  {
    assert !HeadAhead(phase, streams);
  }

  /** One pop: a packet is taken if the stream's head is at the time of the set. */
  lemma {:induction false} PopGoesAhead(t: Timestamp, taken: seq<Option<Packet>>, streams: seq<Stream>,
                                        slot: Option<Packet>, st: Stream)
    requires |taken| < |streams|
    requires var old_ := streams[|taken|];
             st.queue == if old_.queue != [] && old_.queue[0].timestamp == t then old_.queue[1..] else old_.queue
    ensures StepsAhead(Filling(t, taken + [slot]), streams[|taken| := st]) < StepsAhead(Filling(t, taken), streams)
  {
    var k, n := |taken|, |streams|;
    var streams', phase, phase' := streams[k := st], Filling(t, taken), Filling(t, taken + [slot]);
    UnreadAfterUpdate(streams, k, st);
    var u: int := Unread(streams);
    OneRoundMore(u - 1, n);
    OneRoundMore(u - 2, n);
    if streams[k].queue != [] && streams[k].queue[0].timestamp == t {
      assert HeadAhead(phase, streams);
    } else {
      HeadStaysAhead(t, taken, streams, slot, st);
    }
  }

  lemma {:induction false} HeadStaysAhead(t: Timestamp, taken: seq<Option<Packet>>, streams: seq<Stream>,
                                          slot: Option<Packet>, st: Stream)
    requires |taken| < |streams|
    requires streams[|taken|].queue == [] || streams[|taken|].queue[0].timestamp != t
    ensures HeadAhead(Filling(t, taken + [slot]), streams[|taken| := st]) <==> HeadAhead(Filling(t, taken), streams)
  {
    var k, streams' := |taken|, streams[|taken| := st];
    assert forall i :: k < i < |streams| ==> streams'[i] == streams[i];
  }

  /** What a pop leaves of the stream, as far as the measure and the bounds are concerned. */
  predicate PopLeaves(st: Stream, t: Timestamp, st': Stream) {
    && st'.bound == st.bound
    && st'.queue == if st.queue != [] && st.queue[0].timestamp == t then st.queue[1..] else st.queue
  }

  lemma {:induction false} PopIsHead(c: Config, s: State)
    requires AllFollow(c, s) && s.phase.Filling? && FillingInv(s.phase, s.streams, s.last) && Enabled(s, Pop)
    ensures var st := s.streams[|s.phase.taken|];
            PopLeaves(st, s.phase.time, PopPacketAtTimestamp(st, s.phase.time).stream)
  {
    var k := |s.phase.taken|;
    PopTakesHead(s.streams[k], s.future[k], c.histories[k], s.phase.time);
  }

  lemma {:induction false} PopStep(s: State)
    requires s.phase.Filling? && |s.phase.taken| < |s.streams|
    requires var st := s.streams[|s.phase.taken|];
             PopLeaves(st, s.phase.time, PopPacketAtTimestamp(st, s.phase.time).stream)
    ensures Ahead(DoPop(s)) < Ahead(s) && (Finished(s) ==> Finished(DoPop(s)))
  {
    var r := PopPacketAtTimestamp(s.streams[|s.phase.taken|], s.phase.time);
    var slot := if r.packet.content.Some? then Some(r.packet) else None;
    PopGoesAhead(s.phase.time, s.phase.taken, s.streams, slot, r.stream);
  }

  lemma {:induction false} ConsumerGoesAhead(c: Config, s: State, step: Step)
    requires AllFollow(c, s) && PhaseInv(c, s) && Finished(s) && Enabled(s, step) && IsConsumers(step)
    ensures Finished(Do(c, s, step)) && Ahead(Do(c, s, step)) < Ahead(s)
  {
    match step
    case Read => ReadGoesAhead(s.phase, s.streams);
    case Judge =>
      if IsFinal(s.phase.seen) { FinalJudgeGoesAhead(c, s); }
      else { JudgeGoesAhead(s.phase, s.streams, Decide(s.phase.seen, s.last, c.processBounds)); }
    case Pop =>
      PopIsHead(c, s);
      PopStep(s);
    case Deliver => DeliverGoesAhead(s.phase, s.streams);
  }

  // ---------- every run ----------

  function ConsumerSteps(steps: seq<Step>): nat {
    if steps == [] then 0 else ConsumerSteps(steps[..|steps| - 1]) + if IsConsumers(steps[|steps| - 1]) then 1 else 0
  }

  lemma {:induction false} HeadIsUnread(phase: Phase, streams: seq<Stream>)
    requires phase.Filling? && HeadAhead(phase, streams)
    ensures Unread(streams) > 0
  {
    var i :| |phase.taken| <= i < |streams| && streams[i].queue != [] && streams[i].queue[0].timestamp == phase.time;
    UnreadHead(streams, i);
  }

  lemma {:induction false} RoundsAreNatural(u: int, n: nat)
    requires u >= 0
    ensures Rounds(u, n) >= 0
  {}

  /** The measure with the products named: `a` rounds for one packet less, `b` for all, `d` for two more. */
  lemma {:induction false} StepsAheadAreBounded(phase: Phase, streams: seq<Stream>)
    requires phase.Reading? ==> phase.k <= |streams|
    requires phase.Filling? ==> |phase.taken| <= |streams|
    ensures 0 <= StepsAhead(phase, streams) <= Rounds(Unread(streams) + 2, |streams|)
    ensures StepsAhead(phase, streams) == 0 <==> phase.Closing?
  {
    var n: nat, u: int := |streams|, Unread(streams);
    OneRoundMore(u - 1, n);
    OneRoundMore(u, n);
    OneRoundMore(u + 1, n);
    RoundsAreNatural(u, n);
    if phase.Filling? && HeadAhead(phase, streams) {
      HeadIsUnread(phase, streams);
      RoundsAreNatural(u - 1, n);
    }
    var a, b, d := Rounds(u - 1, n), Rounds(u, n), Rounds(u + 2, n);
    assert StepsAhead(phase, streams) == match phase
      case Closing => 0
      case Reading(k, seen) => (if IsFinal(seen) then b else b + Round(n)) + n - k + 1
      case Filling(_, taken) => (if HeadAhead(phase, streams) then a else b) + Round(n) - |taken|;
  }

  lemma {:induction false} AheadIsBounded(c: Config, s: State)
    requires Inv(c, s)
    ensures 0 <= Ahead(s) <= Rounds(Unread(s.streams) + 2, |s.streams|)
    ensures Ahead(s) == 0 <==> s.phase.Closing?
  {
    StepsAheadAreBounded(s.phase, s.streams);
  }

  lemma {:induction false} StepGoesOn(c: Config, s: State, step: Step, next: State)
    requires Inv(c, s) && Finished(s) && Enabled(s, step) && next == Do(c, s, step)
    ensures Finished(next) && Ahead(next) + (if IsConsumers(step) then 1 else 0) <= Ahead(s)
  {
    if IsConsumers(step) { ConsumerGoesAhead(c, s, step); } else { ProducerKeepsAhead(c, s, step); }
  }

  lemma {:induction false} OneStepMore(steps: seq<Step>, r: nat, k: nat)
    requires r < k <= |steps|
    ensures ConsumerSteps(steps[r..k]) == ConsumerSteps(steps[r..k - 1]) + if IsConsumers(steps[k - 1]) then 1 else 0
  {
    assert steps[r..k][..k - 1 - r] == steps[r..k - 1];
  }

  ghost predicate GoesOn(s: State, step: Step, next: State) {
    Finished(s) ==> Finished(next) && Ahead(next) + (if IsConsumers(step) then 1 else 0) <= Ahead(s)
  }

  lemma {:induction false} RunGoesOn(c: Config, states: seq<State>, steps: seq<Step>, k: nat)
    requires WellFormed(c) && IsRun(c, states, steps) && k < |steps|
    ensures GoesOn(states[k], steps[k], states[k + 1])
  {
    RunKeepsInv(c, states, steps, k);
    if Finished(states[k]) { StepGoesOn(c, states[k], steps[k], states[k + 1]); }
  }

  lemma {:induction false} StepsAddUp(states: seq<State>, steps: seq<Step>, r: nat, k: nat)
    requires |states| == |steps| + 1 && r <= k < |states| && Finished(states[r])
    requires forall i :: r <= i < k ==> GoesOn(states[i], steps[i], states[i + 1])
    ensures Finished(states[k]) && ConsumerSteps(steps[r..k]) + Ahead(states[k]) <= Ahead(states[r])
    decreases k
  {
    if r < k {
      StepsAddUp(states, steps, r, k - 1);
      OneStepMore(steps, r, k);
      assert GoesOn(states[k - 1], steps[k - 1], states[k - 1 + 1]);
    }
  }

  /** Once the producers are done, in every continuation of every run, the consumer's steps and what is still
      ahead of it do not exceed what was ahead. */
  lemma {:induction false} ClosingComesNearer(c: Config, states: seq<State>, steps: seq<Step>, r: nat, k: nat)
    requires WellFormed(c) && IsRun(c, states, steps) && r <= k < |states| && Finished(states[r])
    ensures Finished(states[k]) && ConsumerSteps(steps[r..k]) + Ahead(states[k]) <= Ahead(states[r])
  {
    forall i: nat | i < |steps| ensures GoesOn(states[i], steps[i], states[i + 1]) { RunGoesOn(c, states, steps, i); }
    StepsAddUp(states, steps, r, k);
  }

  lemma {:induction false} SomeStepIsEnabled(c: Config, s: State)
    requires Inv(c, s) && !s.phase.Closing?
    ensures exists step :: IsConsumers(step) && Enabled(s, step)
  {
    var step := if s.phase.Reading? then (if s.phase.k < |s.streams| then Read else Judge)
                else if |s.phase.taken| < |s.streams| then Pop else Deliver;
    assert IsConsumers(step) && Enabled(s, step);
  }

  ghost predicate OnItsWay(s: State) {
    && 0 <= Ahead(s) <= Rounds(Unread(s.streams) + 2, |s.streams|)
    && (Ahead(s) == 0 <==> s.phase.Closing?)
    && (!s.phase.Closing? ==> exists step :: IsConsumers(step) && Enabled(s, step))
  }

  lemma {:induction false} StateIsOnItsWay(c: Config, s: State)
    requires Inv(c, s)
    ensures OnItsWay(s)
  {
    AheadIsBounded(c, s);
    if !s.phase.Closing? { SomeStepIsEnabled(c, s); }
  }

  lemma {:induction false} RunIsOnItsWay(c: Config, states: seq<State>, steps: seq<Step>, k: nat)
    requires WellFormed(c) && IsRun(c, states, steps) && k < |states|
    ensures OnItsWay(states[k])
  {
    RunKeepsInv(c, states, steps, k);
    StateIsOnItsWay(c, states[k]);
  }

  /** So the consumer is told to close after a number of its steps that is bounded by two rounds more than
      there are unread packets, and until then it always has a step to take. */
  lemma {:induction false} ClosingIsReached(c: Config, states: seq<State>, steps: seq<Step>, r: nat, k: nat)
    requires WellFormed(c) && IsRun(c, states, steps) && r <= k < |states| && Finished(states[r])
    ensures ConsumerSteps(steps[r..k]) <= Ahead(states[r]) <= Rounds(Unread(states[r].streams) + 2, |states[r].streams|)
    ensures ConsumerSteps(steps[r..k]) == Ahead(states[r]) ==> states[k].phase.Closing?
    ensures !states[k].phase.Closing? ==> exists step :: IsConsumers(step) && Enabled(states[k], step)
  {
    ClosingComesNearer(c, states, steps, r, k);
    RunIsOnItsWay(c, states, steps, r);
    RunIsOnItsWay(c, states, steps, k);
  }
}
