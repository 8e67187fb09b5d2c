/** The scheduling protocol of one non-source node with batch size 1, in runs without errors:
    producers feed its streams and owe a readiness check when an update notifies; executor threads
    start and finish its invocations; scheduling threads read the streams one lock at a time and
    commit invocations. Each step is one critical section. */
module NodeScheduling {
  import opened Timestamps
  import opened Options
  import opened Streams
  import opened SyncSets
  import opened CalculatorNodes
  import StreamRuns

  /** Where a thread stands in the scheduling loop. */
  datatype Place =
    | Enter
    | Pass(allowance: int, spent: int, seen: seq<View>)
    | Fill(allowance: int, spent: int, time: Timestamp, popped: nat)
    | PlanClose(allowance: int, spent: int)
    | Leave

  /** The life of the one invocation that closes the node. */
  datatype Closing = NotPlanned | CloseQueued | CloseRunning | CloseEnding | CloseDone

  /** `owed` counts the threads that still owe a readiness check, `queued` the committed invocations
      not yet started and `running` those started whose slot is not yet given back. */
  datatype State = State(node: Node, streams: seq<Stream>, last: Timestamp, loops: seq<Place>,
                         owed: nat, queued: nat, running: nat, closing: Closing)

  datatype Op = Add(packets: seq<Packet>) | Raise(bound: Timestamp)

  datatype Step =
    | Feed(i: nat, op: Op)               // a producer updates a stream
    | Open                               // the node is opened; its opener owes the first check
    | Check                              // a thread makes the check it owes
    | EnterAt(l: nat)                    // a thread starts the scheduling loop
    | ReadAt(l: nat)                     // it reads the next stream
    | JudgeAt(l: nat, active: bool)      // it decides; parallel contexts may still be active
    | PopAt(l: nat)                      // it pops the next stream
    | CommitAt(l: nat)                   // it commits an invocation and queues it
    | LeaveAt(l: nat)                    // it reaches the end of the loop
    | Start                              // an executor thread starts a queued invocation
    | Finish                             // it ends scheduling of an invocation it has run
    | StartClose
    | Shut(i: nat)                       // closing the node closes its streams
    | FinishClose                        // the node is marked closed
    | EndClose                           // and its closing invocation ends scheduling

  function Views(streams: seq<Stream>): seq<View> {
    seq(|streams|, i requires 0 <= i < |streams| => MinTimestampOrBound(streams[i]))
  }

  function Apply(st: Stream, op: Op): Update {
    match op
    case Add(ps) => AddPackets(st, ps)
    case Raise(b) => SetNextTimestampBound(st, b)
  }

  /** A batch that is refused after it has put packets into an empty queue. */
  predicate StartsAndFails(st: Stream, op: Op) {
    op.Add? && !st.closed && st.queue == [] && 0 < StreamRuns.Taken(st, op.packets) < |op.packets|
  }

  function NextRound(allowance: int, spent: int): Place {
    if spent < allowance then Pass(allowance, spent, []) else Leave
  }

  predicate AtPlace(s: State, l: nat) {
    l < |s.loops|
  }

  predicate Enabled(s: State, step: Step) {
    match step
    case Feed(i, op) => i < |s.streams| && !StartsAndFails(s.streams[i], op)
    case Open => s.node.status == StatePrepared
    case Check => s.owed > 0
    case EnterAt(l) => AtPlace(s, l) && s.loops[l].Enter?
    case ReadAt(l) => AtPlace(s, l) && s.loops[l].Pass? && |s.loops[l].seen| < |s.streams|
    case JudgeAt(l, active) =>
      // a queued invocation holds an active context when invocations run in parallel, and only
      // unfinished invocations do
      && AtPlace(s, l) && s.loops[l].Pass? && |s.loops[l].seen| == |s.streams|
      && (if active then s.node.maxInFlight > 1
          && s.queued + s.running > 0 else s.node.maxInFlight == 1 || s.queued == 0)
    case PopAt(l) => AtPlace(s, l) && s.loops[l].Fill? && s.loops[l].popped < |s.streams|
    case CommitAt(l) =>
      AtPlace(s, l) && (s.loops[l].PlanClose? || (s.loops[l].Fill? && s.loops[l].popped == |s.streams|))
    case LeaveAt(l) => AtPlace(s, l) && s.loops[l].Leave?
    case Start => s.queued > 0
    case Finish => s.running > 0
    case StartClose => s.closing == CloseQueued
    case Shut(i) => i < |s.streams| && s.closing == CloseRunning
    case FinishClose => s.closing == CloseRunning
    case EndClose => s.closing == CloseEnding
  }

  function Without(loops: seq<Place>, l: nat): seq<Place>
    requires l < |loops|
  {
    loops[..l] + loops[l + 1..]
  }

  /** The node after a section that may send its thread into the scheduling loop. */
  function Joined(s: State, o: Outcome): State {
    s.(node := o.node, loops := if o.goOn then s.loops + [Enter] else s.loops)
  }

  /** The node after a section of the loop itself: the thread moves on or leaves. */
  function Moved(s: State, l: nat, o: Outcome): State
    requires AtPlace(s, l)
  {
    if o.goOn then s.(node := o.node, loops := s.loops[l := NextRound(o.node.maxInFlight - o.node.inFlight, 0)])
    else s.(node := o.node, loops := Without(s.loops, l))
  }

  function Judged(s: State, l: nat, r: Readiness, active: bool): State
    requires AtPlace(s, l) && s.loops[l].Pass?
  {
    var p := s.loops[l];
    s.(last := LastProcessed(r, s.last),
       loops := s.loops[l := match r
                             case NotReady => Leave
                             case ReadyForProcess(t) => Fill(p.allowance, p.spent, t, 0)
                             case ReadyForClose =>
                               if active || s.closing != NotPlanned then Leave else PlanClose(p.allowance, p.spent)])
  }

  function Committed(s: State, l: nat): State
    requires AtPlace(s, l) && (s.loops[l].PlanClose? || s.loops[l].Fill?)
  {
    var p, o := s.loops[l], TryToBeginScheduling(s.node);
    if p.PlanClose? then
      s.(node := o.node, closing := CloseQueued, loops := s.loops[l := Leave])
    else
      s.(node := o.node, queued := s.queued + 1, loops := s.loops[l := NextRound(p.allowance, p.spent + 1)])
  }

  function Fed(s: State, i: nat, u: Update): State
    requires i < |s.streams|
  {
    s.(streams := s.streams[i := u.stream], owed := s.owed + if u.notify then 1 else 0)
  }

  function Popped(s: State, l: nat): State
    requires Enabled(s, PopAt(l))
  {
    var p := s.loops[l];
    s.(streams := s.streams[p.popped := PopPacketAtTimestamp(s.streams[p.popped], p.time).stream],
       loops := s.loops[l := p.(popped := p.popped + 1)])
  }

  function Do(processBounds: bool, s: State, step: Step): State
    requires Enabled(s, step)
  {
    match step
    case Feed(i, op) => Fed(s, i, Apply(s.streams[i], op))
    case Open => s.(node := s.node.(status := StateOpened), owed := s.owed + 1)
    case Check => Joined(s.(owed := s.owed - 1), CheckIfBecameReady(s.node))
    case EnterAt(l) => Moved(s, l, EnterLoop(s.node))
    case ReadAt(l) =>
      var p := s.loops[l];
      s.(loops := s.loops[l := p.(seen := p.seen + [MinTimestampOrBound(s.streams[|p.seen|])])])
    case JudgeAt(l, active) => Judged(s, l, Decide(Summary(s.loops[l].seen), s.last, processBounds), active)
    case PopAt(l) => Popped(s, l)
    case CommitAt(l) => Committed(s, l)
    case LeaveAt(l) => Moved(s, l, LeaveLoop(s.node))
    case Start => s.(queued := s.queued - 1, running := s.running + 1)
    case Finish => Joined(s.(running := s.running - 1), EndScheduling(s.node))
    case StartClose => s.(closing := CloseRunning)
    case Shut(i) => s.(streams := s.streams[i := Close(s.streams[i])])
    case FinishClose => s.(closing := CloseEnding, node := s.node.(status := StateClosed))
    case EndClose => Joined(s.(closing := CloseDone), EndScheduling(s.node))
  }

  /** The CHECKs of the code: a committed invocation gets its slot, a started one finds its node
      open, and slots are never given back twice. */
  predicate Safe(s: State, step: Step) {
    match step
    case CommitAt(_) => TryToBeginScheduling(s.node).goOn
    case Start => s.node.status != StateClosed
    case StartClose => s.node.status != StateClosed
    case Finish => EndScheduling(s.node).node.inFlight >= 0
    case _ => true
  }

  predicate Init(s: State) {
    && s.node == Node(StatePrepared, Idle, 0, s.node.maxInFlight) && s.node.maxInFlight >= 1
    && s.loops == [] && s.owed == s.queued == s.running == 0 && s.closing == NotPlanned
    && s.last == UNSET
    && forall i :: 0 <= i < |s.streams| ==> s.streams[i].queue == []
  }

  // ---------- the invariant ----------

  /** Nothing is left in the stream and nothing more can come. */
  predicate Over(st: Stream) {
    st.queue == [] && st.bound >= ONE_OVER_POST_STREAM
  }

  predicate AllOver(streams: seq<Stream>) {
    forall i :: 0 <= i < |streams| ==> Over(streams[i])
  }

  predicate Planned(s: State) {
    s.closing != NotPlanned
  }

  predicate Legal(st: Stream) {
    forall i :: 0 <= i < |st.queue| ==> IsAllowedInStream(st.queue[i].timestamp)
  }

  predicate CountsInv(s: State) {
    var n := s.node;
    && 1 <= n.maxInFlight && 0 <= n.inFlight <= n.maxInFlight && n.status != StateActive
    && (n.status == StatePrepared ==>
          n.scheduling == Idle && n.inFlight == 0 && s.queued == s.running == 0 && !Planned(s))
    && (n.status == StateOpened ==> n.inFlight == s.queued + s.running + if Planned(s) then 1 else 0)
    && (n.status == StateClosed <==> s.closing == CloseEnding || s.closing == CloseDone)
    && (Planned(s) ==> s.queued == 0 && n.inFlight > 0)
    && |s.loops| == if n.scheduling == Idle then 0 else 1
  }

  predicate StreamsInv(s: State) {
    && (forall i :: 0 <= i < |s.streams| ==> Legal(s.streams[i]))
    && (Planned(s) ==> AllOver(s.streams))
  }

  /** A pass over the streams now would start no invocation that a finishing one will not start. */
  predicate Quiet(processBounds: bool, s: State) {
    match Decide(Summary(Views(s.streams)), s.last, processBounds)
    case NotReady => true
    case ReadyForProcess(_) => false
    case ReadyForClose => s.node.inFlight > 0
  }

  /** Why no further pass is needed, or who will make it. */
  predicate Covered(processBounds: bool, s: State) {
    || Planned(s) || s.owed > 0 || s.node.scheduling == SchedulingPending
    || s.node.inFlight == s.node.maxInFlight || Quiet(processBounds, s)
  }

  /** The slots the scheduling thread may still commit are free. */
  predicate SlotsFree(n: Node, allowance: int, spent: int) {
    && spent < allowance && n.inFlight + (allowance - spent) <= n.maxInFlight
    && (n.scheduling == SchedulingPending || n.inFlight + (allowance - spent) == n.maxInFlight)
  }

  predicate SeenOver(v: View) {
    v.empty && v.time >= ONE_OVER_POST_STREAM
  }

  predicate SeenInv(s: State, seen: seq<View>) {
    && |seen| <= |s.streams|
    && (forall i :: 0 <= i < |seen| ==>
          (SeenOver(seen[i]) ==> Over(s.streams[i])) && (!seen[i].empty ==> IsAllowedInStream(seen[i].time)))
    && (Planned(s) ==> forall i :: 0 <= i < |seen| ==> SeenOver(seen[i]))
    && (Planned(s) || s.owed > 0 || s.node.scheduling == SchedulingPending
        || forall i :: 0 <= i < |seen| ==> seen[i] == MinTimestampOrBound(s.streams[i]))
  }

  predicate PlaceInv(processBounds: bool, s: State, p: Place) {
    match p
    case Enter => true
    case Pass(a, k, seen) => SlotsFree(s.node, a, k) && SeenInv(s, seen)
    case Fill(a, k, _, _) => SlotsFree(s.node, a, k) && !Planned(s)
    case PlanClose(a, k) => SlotsFree(s.node, a, k) && !Planned(s) && AllOver(s.streams) && s.queued == 0
    case Leave => Covered(processBounds, s)
  }

  predicate Inv(processBounds: bool, s: State) {
    && CountsInv(s) && StreamsInv(s)
    && (forall l :: 0 <= l < |s.loops| ==> PlaceInv(processBounds, s, s.loops[l]))
    && (s.node.status == StateOpened && s.node.scheduling == Idle ==> Covered(processBounds, s))
  }

  // ---------- streams ----------

  /** The rule behind every notification: an update that does not notify shows its reader nothing new,
      with one exception. */
  lemma {:induction false} SilentUpdateShowsNothing(st: Stream, op: Op)
    ensures (!Apply(st, op).notify && MinTimestampOrBound(Apply(st, op).stream) != MinTimestampOrBound(st))
       <==> StartsAndFails(st, op)
    ensures Apply(st, op).ok ==> !StartsAndFails(st, op)
  {
    if op.Add? && !st.closed { StreamRuns.AddedQueue(st, op.packets); }
  }

  lemma {:induction false} AppendedQueue(st: Stream, ps: seq<Packet>)
    requires AppendAll(st, ps).ok
    ensures AppendAll(st, ps).stream.queue == st.queue + ps && (ps == [] ==> AppendAll(st, ps).stream == st)
    ensures forall i :: 0 <= i < |ps| ==> IsAllowedInStream(ps[i].timestamp) && st.bound <= ps[0].timestamp
    decreases |ps|
  {
    if ps != [] { AppendedQueue(st, ps[..|ps| - 1]); }
  }

  lemma {:induction false} UpdateKeepsLegal(st: Stream, op: Op)
    requires Legal(st)
    ensures Legal(Apply(st, op).stream) && (Over(st) ==> Over(Apply(st, op).stream))
  {
    if op.Add? && !st.closed {
      var k := StreamRuns.Taken(st, op.packets);
      StreamRuns.TakenPrefix(st, op.packets);
      AppendedQueue(st, op.packets[..k]);
    }
  }

  lemma {:induction false} SummaryMinimum(views: seq<View>, t: Timestamp)
    requires t < DONE
    ensures var m := Summary(views);
            Least(m.packet, m.bound) >= t <==> forall i :: 0 <= i < |views| ==> views[i].time >= t
    decreases |views|
  {
    if views != [] { SummaryMinimum(views[..|views| - 1], t); }
  }

  // ---------- steps ----------

  lemma {:induction false} NotifyingFeedKeepsInv(pb: bool, s: State, i: nat, u: Update)
    requires Inv(pb, s) && i < |s.streams| && u.notify
    requires Legal(u.stream) && (Over(s.streams[i]) ==> Over(u.stream))
    ensures Inv(pb, Fed(s, i, u))
  {}

  lemma {:induction false} SilentFeedKeepsInv(pb: bool, s: State, i: nat, u: Update)
    requires Inv(pb, s) && i < |s.streams| && !u.notify
    requires Legal(u.stream) && (Over(s.streams[i]) ==> Over(u.stream))
    requires MinTimestampOrBound(u.stream) == MinTimestampOrBound(s.streams[i])
    ensures Inv(pb, Fed(s, i, u))
  {
    assert Views(Fed(s, i, u).streams) == Views(s.streams);
  }

  lemma {:induction false} FeedKeepsInv(pb: bool, s: State, i: nat, op: Op)
    requires Inv(pb, s) && Enabled(s, Feed(i, op))
    ensures Inv(pb, Do(pb, s, Feed(i, op)))
  {
    var u := Apply(s.streams[i], op);
    UpdateKeepsLegal(s.streams[i], op);
    if u.notify {
      NotifyingFeedKeepsInv(pb, s, i, u);
    } else {
      SilentUpdateShowsNothing(s.streams[i], op);
      SilentFeedKeepsInv(pb, s, i, u);
    }
  }

  lemma {:induction false} OpenKeepsInv(pb: bool, s: State)
    requires Inv(pb, s) && Enabled(s, Open)
    ensures Inv(pb, Do(pb, s, Open))
  {}

  lemma {:induction false} CheckKeepsInv(pb: bool, s: State)
    requires Inv(pb, s) && Enabled(s, Check)
    ensures Inv(pb, Do(pb, s, Check))
  {}

  lemma {:induction false} EnterKeepsInv(pb: bool, s: State, l: nat)
    requires Inv(pb, s) && Enabled(s, EnterAt(l))
    ensures Inv(pb, Do(pb, s, EnterAt(l)))
  {}

  lemma {:induction false} ReadKeepsInv(pb: bool, s: State, l: nat)
    requires Inv(pb, s) && Enabled(s, ReadAt(l))
    ensures Inv(pb, Do(pb, s, ReadAt(l)))
  {
    assert Legal(s.streams[|s.loops[l].seen|]);
  }

  /** What a thread knows that has read all streams. */
  lemma {:induction false} CompletePass(pb: bool, s: State, seen: seq<View>)
    requires StreamsInv(s) && SeenInv(s, seen) && |seen| == |s.streams|
    ensures var r := Decide(Summary(seen), s.last, pb);
            && (r.ReadyForClose? ==> AllOver(s.streams)) && (Planned(s) ==> r.ReadyForClose?)
            && (Planned(s) || s.owed > 0 || s.node.scheduling == SchedulingPending || seen == Views(s.streams))
  {
    SummaryMinimum(seen, ONE_OVER_POST_STREAM);
  }

  /** An answer that starts nothing leaves nothing to start, unless something is already owed. */
  lemma {:induction false} LeavingIsCovered(pb: bool, s: State, seen: seq<View>, r: Readiness)
    requires r == Decide(Summary(seen), s.last, pb) && !r.ReadyForProcess?
    requires r.ReadyForClose? ==> Planned(s) || s.node.inFlight > 0
    requires Planned(s) || s.owed > 0 || s.node.scheduling == SchedulingPending || seen == Views(s.streams)
    ensures Covered(pb, s.(last := LastProcessed(r, s.last)))
  {}

  lemma {:induction false} JudgeKeepsInv(pb: bool, s: State, l: nat, active: bool)
    requires Inv(pb, s) && Enabled(s, JudgeAt(l, active))
    ensures Inv(pb, Do(pb, s, JudgeAt(l, active)))
  {
    assert l == 0 && |s.loops| == 1 && PlaceInv(pb, s, s.loops[l]);
    var seen := s.loops[l].seen;
    var r := Decide(Summary(seen), s.last, pb);
    CompletePass(pb, s, seen);
    if r.NotReady? || (r.ReadyForClose? && (active || Planned(s))) { LeavingIsCovered(pb, s, seen, r); }
    JudgedKeepsInv(pb, s, l, r, active);
  }

  lemma {:induction false} JudgedKeepsInv(pb: bool, s: State, l: nat, r: Readiness, active: bool)
    requires CountsInv(s) && StreamsInv(s) && AtPlace(s, l) && s.loops[l].Pass? && PlaceInv(pb, s, s.loops[l])
    requires if active then s.queued + s.running > 0 else s.node.maxInFlight == 1 || s.queued == 0
    requires (r.ReadyForClose? ==> AllOver(s.streams)) && (Planned(s) ==> r.ReadyForClose?)
    requires r.NotReady? || (r.ReadyForClose? && (active || Planned(s)))
        ==> Covered(pb, s.(last := LastProcessed(r, s.last)))
    ensures Inv(pb, Judged(s, l, r, active))
  {}

  lemma {:induction false} PopKeepsInv(pb: bool, s: State, l: nat)
    requires Inv(pb, s) && Enabled(s, PopAt(l))
    ensures Inv(pb, Do(pb, s, PopAt(l)))
  {
  }

  lemma {:induction false} CommitKeepsInv(pb: bool, s: State, l: nat)
    requires Inv(pb, s) && Enabled(s, CommitAt(l))
    ensures Safe(s, CommitAt(l)) && Inv(pb, Do(pb, s, CommitAt(l)))
  {}

  lemma {:induction false} LeaveKeepsInv(pb: bool, s: State, l: nat)
    requires Inv(pb, s) && Enabled(s, LeaveAt(l))
    ensures Inv(pb, Do(pb, s, LeaveAt(l)))
  {}

  lemma {:induction false} StartKeepsInv(pb: bool, s: State)
    requires Inv(pb, s) && Enabled(s, Start)
    ensures Safe(s, Start) && Inv(pb, Do(pb, s, Start))
  {}

  lemma {:induction false} FinishKeepsInv(pb: bool, s: State)
    requires Inv(pb, s) && Enabled(s, Finish)
    ensures Safe(s, Finish) && Inv(pb, Do(pb, s, Finish))
  {}

  lemma {:induction false} CloseKeepsInv(pb: bool, s: State, step: Step)
    requires Inv(pb, s) && Enabled(s, step) && (step.StartClose? || step.Shut?)
    ensures Safe(s, step) && Inv(pb, Do(pb, s, step))
  {}

  lemma {:induction false} ClosedKeepsInv(pb: bool, s: State, step: Step)
    requires Inv(pb, s) && Enabled(s, step) && (step.FinishClose? || step.EndClose?)
    ensures Safe(s, step) && Inv(pb, Do(pb, s, step))
  {}

  lemma {:induction false} StepKeepsInv(pb: bool, s: State, step: Step)
    requires Inv(pb, s) && Enabled(s, step)
    ensures Safe(s, step) && Inv(pb, Do(pb, s, step))
  {
    match step
    case Feed(i, op) => FeedKeepsInv(pb, s, i, op);
    case Open => OpenKeepsInv(pb, s);
    case Check => CheckKeepsInv(pb, s);
    case EnterAt(l) => EnterKeepsInv(pb, s, l);
    case ReadAt(l) => ReadKeepsInv(pb, s, l);
    case JudgeAt(l, active) => JudgeKeepsInv(pb, s, l, active);
    case PopAt(l) => PopKeepsInv(pb, s, l);
    case CommitAt(l) => CommitKeepsInv(pb, s, l);
    case LeaveAt(l) => LeaveKeepsInv(pb, s, l);
    case Start => StartKeepsInv(pb, s);
    case Finish => FinishKeepsInv(pb, s);
    case StartClose => CloseKeepsInv(pb, s, step);
    case Shut(_) => CloseKeepsInv(pb, s, step);
    case _ => ClosedKeepsInv(pb, s, step);
  }

  // ---------- every run ----------

  ghost predicate IsRun(pb: bool, states: seq<State>, steps: seq<Step>) {
    && |states| == |steps| + 1 && Init(states[0])
    && forall i :: 0 <= i < |steps| ==> Enabled(states[i], steps[i]) && states[i + 1] == Do(pb, states[i], steps[i])
  }

  lemma {:induction false} RunKeepsInv(pb: bool, states: seq<State>, steps: seq<Step>, i: nat)
    requires IsRun(pb, states, steps) && i < |states|
    ensures Inv(pb, states[i])
  {
    if i > 0 {
      RunKeepsInv(pb, states, steps, i - 1);
      StepKeepsInv(pb, states[i - 1], steps[i - 1]);
    }
  }

  /** What the streams would answer if they were all read now. */
  function ReadinessNow(pb: bool, s: State): Readiness {
    Decide(Summary(Views(s.streams)), s.last, pb)
  }

  /** No lost wakeup. At every point of every run, an open node that nobody is scheduling while its
      streams are ready for processing has every slot in use, or some thread still owes it a check;
      and one ready to close is closing, or an unfinished invocation or an owed check will see to it. */
  lemma {:induction false} NoLostWakeup(pb: bool, states: seq<State>, steps: seq<Step>, i: nat)
    requires IsRun(pb, states, steps) && i < |states|
    requires states[i].node.status == StateOpened && states[i].node.scheduling == Idle
    ensures var s := states[i];
            && (ReadinessNow(pb, s).ReadyForProcess? ==> s.node.inFlight == s.node.maxInFlight || s.owed > 0)
            && (ReadinessNow(pb, s).ReadyForClose? ==> Planned(s) || s.node.inFlight > 0 || s.owed > 0)
  {
    var s := states[i];
    RunKeepsInv(pb, states, steps, i);
    SummaryMinimum(Views(s.streams), ONE_OVER_POST_STREAM);
    if Planned(s) { assert forall j :: 0 <= j < |s.streams| ==> Views(s.streams)[j].time >= ONE_OVER_POST_STREAM; }
  }

  /** What the condition on updates is for: on a node at rest with one stream, a batch that is refused
      after it has put packets into the queue leaves the node ready with nobody to notice. */
  lemma {:induction false} RefusedBatchLosesWakeup(s: State, op: Op)
    requires |s.streams| == 1 && StartsAndFails(s.streams[0], op)
    requires s.node.status == StateOpened && s.node.scheduling == Idle && s.owed == 0
    ensures var s' := Fed(s, 0, Apply(s.streams[0], op));
            ReadinessNow(false, s').ReadyForProcess? && s'.node == s.node && s'.loops == s.loops && s'.owed == 0
  {
    var st, ps := s.streams[0], op.packets;
    var k, st' := StreamRuns.Taken(st, ps), Apply(st, op).stream;
    StreamRuns.AddedQueue(st, ps);
    StreamRuns.TakenPrefix(st, ps);
    AppendedQueue(st, ps[..k]);
    assert st'.queue[0] == ps[..k][0];
    var t, views := st'.queue[0].timestamp, Views([st']);
    assert IsAllowedInStream(t) && views == [View(false, t)];
    assert Summary(views) == Minima(DONE, t) by { assert views[..0] == [] && Summary([]) == NOTHING_READ; }
    assert Fed(s, 0, Apply(st, op)).streams == [st'];
  }

  predicate InMotion(s: State) {
    || s.owed > 0 || s.loops != [] || s.queued > 0 || s.running > 0
    || s.closing == CloseQueued || s.closing == CloseRunning
  }

  /** An open node for which no thread has anything left to do is waiting for input, and only for that. */
  lemma {:induction false} OnlyInputIsMissing(pb: bool, states: seq<State>, steps: seq<Step>, i: nat)
    requires IsRun(pb, states, steps) && i < |states|
    requires states[i].node.status == StateOpened && !InMotion(states[i])
    ensures ReadinessNow(pb, states[i]) == NotReady
  {
    RunKeepsInv(pb, states, steps, i);
    NoLostWakeup(pb, states, steps, i);
  }

  function Unspent(s: State): int {
    if s.loops == [] then 0 else
    match s.loops[0]
    case Pass(a, k, _) => a - k
    case Fill(a, k, _, _) => a - k
    case PlanClose(a, k) => a - k
    case _ => 0
  }

  /** At most one thread is in the scheduling loop; the slots in use and those it may still commit
      stay within the maximum; so every committed invocation gets its slot, no invocation starts on
      a closed node, and no slot is given back twice. */
  lemma {:induction false} SchedulingIsExclusive(pb: bool, states: seq<State>, steps: seq<Step>, i: nat)
    requires IsRun(pb, states, steps) && i < |states|
    ensures var s := states[i];
            && |s.loops| == (if s.node.scheduling == Idle then 0 else 1)
            && 0 <= s.node.inFlight && s.node.inFlight + Unspent(s) <= s.node.maxInFlight
            && forall step :: Enabled(s, step) ==> Safe(s, step)
  {
    var s := states[i];
    RunKeepsInv(pb, states, steps, i);
    if s.loops != [] { assert PlaceInv(pb, s, s.loops[0]); }
    forall step | Enabled(s, step) ensures Safe(s, step) { StepKeepsInv(pb, s, step); }
  }

  lemma {:induction false} StepKeepsPlanned(pb: bool, s: State, step: Step)
    requires Enabled(s, step) && Planned(s)
    ensures Planned(Do(pb, s, step))
  {}

  lemma {:induction false} PlannedStays(pb: bool, states: seq<State>, steps: seq<Step>, i: nat, j: nat)
    requires IsRun(pb, states, steps) && i <= j < |states| && Planned(states[i])
    ensures Planned(states[j])
  {
    if i < j {
      PlannedStays(pb, states, steps, i, j - 1);
      StepKeepsPlanned(pb, states[j - 1], steps[j - 1]);
    }
  }

  lemma {:induction false} PlannedCommitsNothing(pb: bool, s: State, l: nat)
    requires Inv(pb, s) && Planned(s)
    ensures !Enabled(s, CommitAt(l))
  {
    if l < |s.loops| { assert PlaceInv(pb, s, s.loops[l]); }
  }

  /** Once the invocation that closes the node is committed, no run ever commits another one or
      starts one of the others, and its slot is never given back; nor is it started again once
      the node is closed. */
  lemma {:induction false} NothingAfterClosing(pb: bool, states: seq<State>, steps: seq<Step>, i: nat, j: nat)
    requires IsRun(pb, states, steps) && i <= j < |states| && Planned(states[i])
    ensures var s := states[j];
            && s.node.inFlight > 0 && (s.node.maxInFlight == 1 ==> s.node.inFlight == 1)
            && !Enabled(s, Start) && (forall l :: !Enabled(s, CommitAt(l)))
            && (s.node.status == StateClosed ==> !Enabled(s, StartClose))
  {
    PlannedStays(pb, states, steps, i, j);
    RunKeepsInv(pb, states, steps, j);
    forall l: nat ensures !Enabled(states[j], CommitAt(l)) { PlannedCommitsNothing(pb, states[j], l); }
  }
}
