/** Propagation of outputs for a calculator whose invocations run in parallel: whoever finishes an invocation
    may become the propagation thread, which sends the outputs of finished invocations in the order of their
    input timestamps and, in between, the bound. */
module ParallelOutputs {
  import opened Timestamps
  import opened Options

  datatype PropagationState = Idle | PropagatingPackets | PropagatingBound | PropagationPending

  /** What the timestamp mutex guards. `taskBound` is the earliest timestamp at which an input may still come. */
  datatype Handler = Handler(state: PropagationState, completed: set<Timestamp>, taskBound: Timestamp)

  predicate IsFirst(t: Timestamp, ts: set<Timestamp>) {
    t in ts && forall u :: u in ts ==> t <= u
  }

  ghost function First(ts: set<Timestamp>): (t: Timestamp)
    requires ts != {}
    ensures IsFirst(t, ts)
    decreases |ts|
  {
    var x :| x in ts;
    if ts == {x} then x else
    var rest := ts - {x};
    assert ts == rest + {x};
    Least(x, First(rest))
  }

  // ---------- the locked sections ----------

  /** An invocation has finished, or the inputs got a higher bound; the thread enters the propagation loop
      if nobody is in it. */
  function Posted(h: Handler, t: Timestamp): Handler {
    h.(completed := h.completed + {t}, state := if h.state == PropagatingBound then PropagationPending else h.state)
  }

  function Bounded(h: Handler, b: Timestamp): Handler {
    if b == h.taskBound then h else
    h.(taskBound := b, state := if h.state == PropagatingBound then PropagationPending else h.state)
  }

  /** The invocation in front has finished. */
  predicate FrontIsDone(completed: set<Timestamp>, front: Option<Timestamp>) {
    front.Some? && IsFirst(front.value, completed)
  }

  /** What the loop does next: at its entry, after it has sent the outputs for `t`, and after it has sent a
      bound. `front` is the first active invocation, if any is active. */
  function Entered(h: Handler, front: Option<Timestamp>): Handler {
    h.(state := if front.None? then PropagatingBound
                else if FrontIsDone(h.completed, front) then PropagatingPackets else Idle)
  }

  function AfterPackets(h: Handler, t: Timestamp, front: Option<Timestamp>): Handler {
    h.(state := if front.None? then (if h.taskBound <= NextAllowedInStream(t) then Idle else PropagatingBound)
                else if FrontIsDone(h.completed, front) then PropagatingPackets else Idle)
  }

  function AfterBound(h: Handler, front: Option<Timestamp>): Handler {
    h.(state := if front.None? then PropagatingBound
                else if FrontIsDone(h.completed, front) then PropagatingPackets else Idle)
  }

  // ---------- threads ----------

  datatype From = Entry | Packets(sent: Timestamp) | Bound(announced: Timestamp)

  /** Where the propagation thread is. It holds the timestamp mutex while it is `Looking` for the first active
      invocation and when it has `Seen` it. */
  datatype Place =
    | Outside
    | Looking(from: From)
    | Seen(from: From, front: Option<Timestamp>)
    | Sending(time: Timestamp)
    | Recycling(time: Timestamp)
    | Relock(time: Timestamp)
    | Announcing(bound: Timestamp)
    | RelockBound(bound: Timestamp)

  /** `prepared` are the timestamps of all invocations so far; those from position `recycled` on are active.
      `sent` are those whose outputs were sent, and `known` is the greatest bound that readers can tell from
      that and from the bounds announced. */
  datatype State = State(h: Handler, prepared: seq<Timestamp>, recycled: nat, place: Place, sent: seq<Timestamp>,
                         known: Timestamp)

  datatype Step =
    | Prepare(t: Timestamp)      // the scheduling thread prepares the next invocation
    | Update(b: Timestamp)       // or finds no input ready before the bound
    | Finish(t: Timestamp)       // an invocation finishes
    | Look                       // the propagation thread asks for the first active invocation
    | Decide
    | Send
    | Recycle
    | Retake
    | Announce
    | RetakeBound

  predicate Free(p: Place) {
    !p.Looking? && !p.Seen?
  }

  function Active(s: State): seq<Timestamp> {
    if s.recycled <= |s.prepared| then s.prepared[s.recycled..] else []
  }

  function Front(s: State): Option<Timestamp> {
    if Active(s) == [] then None else Some(Active(s)[0])
  }

  /** Invocations are prepared one after the other in time, never before a bound that was found; bounds rise. */
  predicate Enabled(s: State, step: Step) {
    match step
    case Prepare(t) =>
      && IsAllowedInStream(t) && s.h.taskBound <= t
      && (s.prepared != [] ==> s.prepared[|s.prepared| - 1] < t)
    case Update(b) => Free(s.place) && s.h.taskBound <= b
    case Finish(t) => Free(s.place) && t in Active(s) && t !in s.h.completed
    case Look => s.place.Looking?
    case Decide => s.place.Seen?
    case Send => s.place.Sending?
    case Recycle => s.place.Recycling? && s.recycled < |s.prepared|
    case Retake => s.place.Relock? && s.h.completed != {}
    case Announce => s.place.Announcing?
    case RetakeBound => s.place.RelockBound?
  }

  /** Where the loop goes on once its state is decided; it has released the mutex. */
  function Goes(s: State, h: Handler, front: Option<Timestamp>): State {
    var place := match h.state
      case PropagatingPackets => if front.Some? then Sending(front.value) else Outside
      case PropagatingBound => Announcing(h.taskBound)
      case _ => Outside;
    s.(h := h, place := place)
  }

  ghost function Do(s: State, step: Step): State
    requires Enabled(s, step)
  {
    match step
    case Prepare(t) => s.(prepared := s.prepared + [t])
    case Update(b) =>
      s.(h := Bounded(s.h, b), place := if s.h.state == Idle && b != s.h.taskBound then Looking(Entry) else s.place)
    case Finish(t) => s.(h := Posted(s.h, t), place := if s.h.state == Idle then Looking(Entry) else s.place)
    case Look => s.(place := Seen(s.place.from, Front(s)))
    case Decide =>
      var front := s.place.front;
      (match s.place.from
       case Entry => Goes(s, Entered(s.h, front), front)
       case Packets(t) => Goes(s, AfterPackets(s.h, t, front), front)
       case Bound(_) => Goes(s, AfterBound(s.h, front), front))
    case Send =>
      var t := s.place.time;
      s.(sent := s.sent + [t], known := Greatest(s.known, NextAllowedInStream(t)), place := Recycling(t))
    case Recycle => s.(recycled := s.recycled + 1, place := Relock(s.place.time))
    case Retake =>
      s.(h := s.h.(completed := s.h.completed - {First(s.h.completed)}), place := Looking(Packets(s.place.time)))
    case Announce => s.(known := Greatest(s.known, s.place.bound), place := RelockBound(s.place.bound))
    case RetakeBound =>
      if s.h.state == PropagatingBound then s.(h := s.h.(state := Idle), place := Outside)
      else s.(place := Looking(Bound(s.place.bound)))
  }

  /** The CHECKs of the code, and that nobody enters the loop while a thread is in it. */
  ghost predicate Safe(s: State, step: Step)
    requires Enabled(s, step)
  {
    match step
    case Update(b) => s.h.state == Idle ==> s.place == Outside
    case Finish(t) => s.h.state == Idle ==> s.place == Outside
    case Decide =>
      (match s.place.from
       case Entry =>
         && s.h.state == Idle
         && (s.place.front.Some? ==> forall t :: t in s.h.completed ==> s.place.front.value <= t)
       case Packets(_) => s.h.completed != {} ==> s.place.front.Some?
       case Bound(b) => s.h.state == PropagationPending && (s.place.front.None? ==> b < s.h.taskBound))
    case Recycle => Front(s) == Some(s.place.time)
    case Retake => First(s.h.completed) == s.place.time
    case Announce => s.h.state == PropagatingBound || s.h.state == PropagationPending
    case _ => true
  }

  predicate Init(s: State) {
    s == State(Handler(Idle, {}, UNSET), [], 0, Outside, [], UNSET)
  }

  // ---------- the invariant ----------

  predicate Ascends(ts: seq<Timestamp>) {
    forall i, j :: 0 <= i < j < |ts| ==> ts[i] < ts[j]
  }

  /** Invocations come in order; what was sent is a prefix of them, one ahead of the recycled ones while its
      context is being recycled; finished ones are active, but for the one just recycled. */
  predicate OrderInv(s: State) {
    && Ascends(s.prepared) && s.recycled <= |s.prepared|
    && s.sent == (if s.place.Recycling? && s.recycled < |s.prepared| then s.prepared[..s.recycled + 1]
                  else s.prepared[..s.recycled])
    && (s.place.Recycling? || s.place.Sending? ==> Front(s) == Some(s.place.time) && s.place.time in s.h.completed)
    && (s.place.Relock? ==>
          s.recycled > 0 && s.prepared[s.recycled - 1] == s.place.time && s.place.time in s.h.completed)
    && forall t :: t in s.h.completed ==> t in Active(s) || (s.place.Relock? && t == s.place.time)
  }

  /** The propagation state says where the propagation thread is. */
  predicate StateInv(s: State) {
    var bounding := s.h.state == PropagatingBound || s.h.state == PropagationPending;
    match s.place
    case Outside => s.h.state == Idle
    case Looking(from) => FromInv(s.h, from)
    case Seen(from, front) => FromInv(s.h, from) && (front.None? ==> s.h.completed == {})
                              && (front.Some? ==> Front(s) == front)
    case Sending(_) => s.h.state == PropagatingPackets
    case Recycling(_) => s.h.state == PropagatingPackets
    case Relock(_) => s.h.state == PropagatingPackets
    case Announcing(b) => bounding && BoundInv(s.h, b)
    case RelockBound(b) => bounding && BoundInv(s.h, b)
  }

  predicate FromInv(h: Handler, from: From) {
    match from
    case Entry => h.state == Idle
    case Packets(_) => h.state == PropagatingPackets
    case Bound(b) => h.state == PropagationPending && BoundInv(h, b)
  }

  /** While a bound is sent, whatever happens makes the state pending. */
  predicate BoundInv(h: Handler, b: Timestamp) {
    && (h.state == PropagatingBound ==> h.completed == {} && b == h.taskBound)
    && b <= h.taskBound && (h.state == PropagationPending ==> h.completed != {} || b < h.taskBound)
  }

  /** Nobody in the loop, nothing left to do: the first active invocation has not finished, and without active
      ones the bound is known. */
  predicate RestInv(s: State) {
    s.place == Outside ==>
      && (Front(s).Some? ==> Front(s).value !in s.h.completed)
      && (Front(s).None? ==> s.h.taskBound <= s.known)
  }

  predicate NoneBefore(ts: seq<Timestamp>, b: Timestamp) {
    forall i :: 0 <= i < |ts| ==> b <= ts[i]
  }

  /** No bound outruns an active invocation. */
  predicate AheadInv(s: State) {
    && (s.place.Announcing? ==> NoneBefore(Active(s), s.place.bound))
    && (s.place.Seen? && s.place.front.None? ==> NoneBefore(Active(s), s.h.taskBound))
    && (s.place.RelockBound? ==> s.place.bound <= s.known)
    && (s.place.Looking? && s.place.from.Packets? ==> NextAllowedInStream(s.place.from.sent) <= s.known)
    && (s.place.Seen? && s.place.from.Packets? ==> NextAllowedInStream(s.place.from.sent) <= s.known)
    && (s.place.Recycling? || s.place.Relock? ==> NextAllowedInStream(s.place.time) <= s.known)
  }

  predicate Inv(s: State) {
    OrderInv(s) && StateInv(s) && RestInv(s) && AheadInv(s)
  }

  lemma {:induction false} PrepareAppends(prepared: seq<Timestamp>, n: nat, t: Timestamp)
    requires Ascends(prepared) && n <= |prepared| && (prepared != [] ==> prepared[|prepared| - 1] < t)
    ensures var all := prepared + [t];
            && Ascends(all) && all[n..] == prepared[n..] + [t] && all[..n] == prepared[..n]
            && (n < |prepared| ==> all[..n + 1] == prepared[..n + 1])
  {}

  predicate IsPrepared(s: State, t: Timestamp, next: State) {
    && next == s.(prepared := s.prepared + [t]) && Active(next) == Active(s) + [t]
    && (Front(s).Some? ==> Front(next) == Front(s))
  }

  lemma {:induction false} PrepareKeepsOrder(s: State, t: Timestamp, next: State)
    requires OrderInv(s) && Enabled(s, Prepare(t)) && IsPrepared(s, t, next)
    ensures OrderInv(next)
  {
    PrepareAppends(s.prepared, s.recycled, t);
  }

  lemma {:induction false} PrepareKeepsState(s: State, t: Timestamp, next: State)
    requires StateInv(s) && IsPrepared(s, t, next)
    ensures StateInv(next)
  {}

  lemma {:induction false} PrepareKeepsRest(s: State, t: Timestamp, next: State)
    requires RestInv(s) && IsPrepared(s, t, next)
    requires s.place == Outside ==> forall u :: u in s.h.completed ==> u in Active(s)
    ensures RestInv(next)
  {}

  lemma {:induction false} StillNoneBefore(ts: seq<Timestamp>, t: Timestamp, b: Timestamp)
    requires NoneBefore(ts, b) && b <= t
    ensures NoneBefore(ts + [t], b)
  {}

  lemma {:induction false} PrepareKeepsAhead(s: State, t: Timestamp, next: State)
    requires AheadInv(s) && IsPrepared(s, t, next) && s.h.taskBound <= t
    requires s.place.Announcing? ==> s.place.bound <= t
    ensures AheadInv(next)
  {
    if s.place.Announcing? { StillNoneBefore(Active(s), t, s.place.bound); }
    if s.place.Seen? && s.place.front.None? { StillNoneBefore(Active(s), t, s.h.taskBound); }
  }

  lemma {:induction false} PrepareKeepsInv(s: State, t: Timestamp)
    requires Inv(s) && Enabled(s, Prepare(t))
    ensures Inv(Do(s, Prepare(t)))
  {
    var next := Do(s, Prepare(t));
    PrepareAppends(s.prepared, s.recycled, t);
    assert IsPrepared(s, t, next);
    PrepareKeepsOrder(s, t, next);
    PrepareKeepsState(s, t, next);
    PrepareKeepsRest(s, t, next);
    PrepareKeepsAhead(s, t, next);
  }

  lemma {:induction false} UpdateKeepsInv(s: State, b: Timestamp)
    requires Inv(s) && Enabled(s, Update(b))
    ensures Safe(s, Update(b)) && Inv(Do(s, Update(b)))
  {
    assert Active(Do(s, Update(b))) == Active(s);
  }

  lemma {:induction false} FinishKeepsInv(s: State, t: Timestamp)
    requires Inv(s) && Enabled(s, Finish(t))
    ensures Safe(s, Finish(t)) && Inv(Do(s, Finish(t)))
  {
    assert Active(Do(s, Finish(t))) == Active(s);
  }

  lemma {:induction false} FrontIsFirst(s: State)
    requires Ascends(s.prepared) && s.recycled < |s.prepared|
    ensures Front(s) == Some(s.prepared[s.recycled])
    ensures forall t :: t in Active(s) ==> Front(s).value <= t
  {}

  lemma {:induction false} LookKeepsInv(s: State)
    requires Inv(s) && Enabled(s, Look)
    ensures Inv(Do(s, Look))
  {
    if s.recycled < |s.prepared| { FrontIsFirst(s); }
  }

  lemma {:induction false} DecisionIsSafe(s: State)
    requires Inv(s) && Enabled(s, Decide)
    ensures Safe(s, Decide)
  {
    if s.recycled < |s.prepared| { FrontIsFirst(s); }
  }

  function Decided(s: State): Handler
    requires s.place.Seen?
  {
    match s.place.from
    case Entry => Entered(s.h, s.place.front)
    case Packets(t) => AfterPackets(s.h, t, s.place.front)
    case Bound(_) => AfterBound(s.h, s.place.front)
  }

  lemma {:induction false} DecideKeepsOrder(s: State, next: State)
    requires OrderInv(s) && StateInv(s) && s.place.Seen? && next == Goes(s, Decided(s), s.place.front)
    ensures OrderInv(next)
  {
    assert Active(next) == Active(s);
  }

  lemma {:induction false} DecideKeepsState(s: State, next: State)
    requires StateInv(s) && s.place.Seen? && next == Goes(s, Decided(s), s.place.front)
    ensures StateInv(next)
  {}

  lemma {:induction false} DecideKeepsRest(s: State, next: State)
    requires OrderInv(s) && StateInv(s) && AheadInv(s) && s.place.Seen?
    requires next == Goes(s, Decided(s), s.place.front)
    requires s.place.front.Some? ==> forall t :: t in s.h.completed ==> s.place.front.value <= t
    ensures RestInv(next)
  {
    assert Front(next) == Front(s);
  }

  lemma {:induction false} DecideKeepsAhead(s: State, next: State)
    requires AheadInv(s) && s.place.Seen? && next == Goes(s, Decided(s), s.place.front)
    ensures AheadInv(next)
  {
    assert Active(next) == Active(s);
  }

  lemma {:induction false} FinishedNotBeforeFront(s: State)
    requires OrderInv(s) && StateInv(s) && s.place.Seen? && s.place.front.Some?
    ensures forall t :: t in s.h.completed ==> s.place.front.value <= t
  {
    FrontIsFirst(s);
  }

  lemma {:induction false} DecideKeepsInv(s: State)
    requires Inv(s) && Enabled(s, Decide)
    ensures Inv(Do(s, Decide))
  {
    var next := Do(s, Decide);
    assert next == Goes(s, Decided(s), s.place.front);
    if s.place.front.Some? { FinishedNotBeforeFront(s); }
    DecideKeepsOrder(s, next);
    DecideKeepsState(s, next);
    DecideKeepsRest(s, next);
    DecideKeepsAhead(s, next);
  }

  lemma {:induction false} SendKeepsInv(s: State)
    requires Inv(s) && Enabled(s, Send)
    ensures Inv(Do(s, Send))
  {
    assert s.prepared[..s.recycled] + [s.prepared[s.recycled]] == s.prepared[..s.recycled + 1];
  }

  /** What is recycled is the first active invocation, and then the first finished one. */
  lemma {:induction false} RecycleDropsFront(s: State)
    requires OrderInv(s) && s.recycled < |s.prepared|
    ensures var t, rest := s.prepared[s.recycled], s.prepared[s.recycled + 1..];
            Active(s) == [t] + rest && forall u :: u in rest ==> t < u
  {
    var k := s.recycled;
    assert Active(s) == [s.prepared[k]] + s.prepared[k + 1..];
  }

  lemma {:induction false} RecycleKeepsInv(s: State)
    requires Inv(s) && Enabled(s, Recycle)
    ensures Safe(s, Recycle) && Inv(Do(s, Recycle))
  {
    RecycleDropsFront(s);
  }

  lemma {:induction false} RecycledIsFirst(s: State)
    requires OrderInv(s) && s.place.Relock? && s.h.completed != {}
    ensures First(s.h.completed) == s.place.time
    ensures forall t :: t in Active(s) ==> s.place.time < t
  {}

  lemma {:induction false} RetakeKeepsInv(s: State)
    requires Inv(s) && Enabled(s, Retake)
    ensures Safe(s, Retake) && Inv(Do(s, Retake))
  {
    RecycledIsFirst(s);
  }

  lemma {:induction false} BoundStepKeepsInv(s: State, step: Step)
    requires Inv(s) && Enabled(s, step) && (step.Announce? || step.RetakeBound?)
    ensures Safe(s, step) && Inv(Do(s, step))
  {}

  lemma {:induction false} StepKeepsInv(s: State, step: Step)
    requires Inv(s) && Enabled(s, step)
    ensures Safe(s, step) && Inv(Do(s, step))
  {
    match step
    case Prepare(t) => PrepareKeepsInv(s, t);
    case Update(b) => UpdateKeepsInv(s, b);
    case Finish(t) => FinishKeepsInv(s, t);
    case Look => LookKeepsInv(s);
    case Decide => DecisionIsSafe(s); DecideKeepsInv(s);
    case Send => SendKeepsInv(s);
    case Recycle => RecycleKeepsInv(s);
    case Retake => RetakeKeepsInv(s);
    case _ => BoundStepKeepsInv(s, step);
  }

  // ---------- every run ----------

  ghost predicate IsRun(states: seq<State>, steps: seq<Step>) {
    && |states| == |steps| + 1 && Init(states[0])
    && forall i :: 0 <= i < |steps| ==> Enabled(states[i], steps[i]) && states[i + 1] == Do(states[i], steps[i])
  }

  lemma {:induction false} RunKeepsInv(states: seq<State>, steps: seq<Step>, i: nat)
    requires IsRun(states, steps) && i < |states|
    ensures Inv(states[i])
  {
    if i > 0 {
      RunKeepsInv(states, steps, i - 1);
      StepKeepsInv(states[i - 1], steps[i - 1]);
    }
  }

  /** In whatever order invocations finish, their outputs are sent in the order of their input timestamps, each
      once and only when it has finished; no check of the code fails, so that one thread at a time is in the loop;
      and that thread never finds a context or a finished timestamp missing. */
  lemma {:induction false} SentInOrder(states: seq<State>, steps: seq<Step>, i: nat)
    requires IsRun(states, steps) && i < |states|
    ensures var s := states[i];
            && |s.sent| <= |s.prepared| && s.sent == s.prepared[..|s.sent|] && Ascends(s.sent)
            && (s.place.Sending? ==>
                  |s.sent| < |s.prepared| && s.place.time == s.prepared[|s.sent|] && s.place.time in s.h.completed)
            && (s.place.Recycling? ==> Enabled(s, Recycle)) && (s.place.Relock? ==> Enabled(s, Retake))
    ensures i < |steps| ==> Safe(states[i], steps[i])
  {
    RunKeepsInv(states, steps, i);
    OrderMeansPrefix(states[i]);
    if i < |steps| { StepKeepsInv(states[i], steps[i]); }
  }

  lemma {:induction false} OrderMeansPrefix(s: State)
    requires OrderInv(s)
    ensures |s.sent| <= |s.prepared| && s.sent == s.prepared[..|s.sent|] && Ascends(s.sent)
    ensures s.place.Sending? ==>
              |s.sent| < |s.prepared| && s.place.time == s.prepared[|s.sent|] && s.place.time in s.h.completed
    ensures (s.place.Recycling? ==> Enabled(s, Recycle)) && (s.place.Relock? ==> Enabled(s, Retake))
  {}

  lemma {:induction false} RestMeansNothingLeft(s: State)
    requires OrderInv(s) && RestInv(s) && s.place == Outside
    ensures |s.sent| < |s.prepared| ==> s.prepared[|s.sent|] !in s.h.completed
    ensures |s.sent| == |s.prepared| ==> s.h.taskBound <= s.known
  {}

  /** Nothing is stranded: whenever no thread is in the loop, the first invocation whose outputs are not sent
      has not finished; and if there is none, readers can tell the bound. */
  lemma {:induction false} NothingIsStranded(states: seq<State>, steps: seq<Step>, i: nat)
    requires IsRun(states, steps) && i < |states| && states[i].place == Outside
    ensures var s := states[i];
            && (|s.sent| < |s.prepared| ==> s.prepared[|s.sent|] !in s.h.completed)
            && (|s.sent| == |s.prepared| ==> s.h.taskBound <= s.known)
  {
    RunKeepsInv(states, steps, i);
    RestMeansNothingLeft(states[i]);
  }

  lemma {:induction false} UnsentIsActive(s: State)
    requires OrderInv(s) && AheadInv(s) && s.place.Announcing?
    ensures forall k :: |s.sent| <= k < |s.prepared| ==> s.place.bound <= s.prepared[k]
  {
    forall k | |s.sent| <= k < |s.prepared| ensures s.place.bound <= s.prepared[k] {
      assert s.prepared[k] == Active(s)[k - s.recycled];
    }
  }

  /** A bound that is announced is not beyond any invocation whose outputs are still to be sent. */
  lemma {:induction false} BoundNeverOutruns(states: seq<State>, steps: seq<Step>, i: nat, k: nat)
    requires IsRun(states, steps) && i < |states| && states[i].place.Announcing?
    requires |states[i].sent| <= k < |states[i].prepared|
    ensures states[i].place.bound <= states[i].prepared[k]
  {
    RunKeepsInv(states, steps, i);
    UnsentIsActive(states[i]);
  }

  // ---------- transitions of the propagation state ----------

  /** The eight transitions that the documentation lists. */
  predicate IsDocumented(from: PropagationState, to: PropagationState) {
    match from
    case Idle => to == PropagatingPackets || to == PropagatingBound
    case PropagatingPackets => to == Idle || to == PropagatingBound
    case PropagatingBound => to == PropagationPending || to == Idle
    case PropagationPending => to == PropagatingPackets || to == Idle
  }

  /** The code makes a ninth one: a pending state goes back to the bound exactly when the thread has sent a bound
      and finds no active invocation. */
  lemma {:induction false} TransitionIsDocumentedIff(s: State, step: Step)
    requires Inv(s) && Enabled(s, step) && Do(s, step).h.state != s.h.state
    ensures IsDocumented(s.h.state, Do(s, step).h.state)
       <==> !(step.Decide? && s.place.from.Bound? && s.place.front.None?)
  {}

  ghost predicate Leads(s: State, step: Step, next: State) {
    Enabled(s, step) && next == Do(s, step)
  }

  lemma {:induction false} BoundRises(s0: State, s1: State, s2: State, s3: State, s4: State)
    requires Init(s0) && s1 == s0.(h := Handler(Idle, {}, 1), place := Looking(Entry))
    requires s2 == s1.(place := Seen(Entry, None))
    requires s3 == s1.(h := Handler(PropagatingBound, {}, 1), place := Announcing(1))
    requires s4 == s3.(h := Handler(PropagationPending, {}, 2))
    ensures Leads(s0, Update(1), s1) && Leads(s1, Look, s2) && Leads(s2, Decide, s3) && Leads(s3, Update(2), s4)
  {}

  lemma {:induction false} BoundIsSentAgain(s4: State, s5: State, s6: State, s7: State, s8: State)
    requires s4 == State(Handler(PropagationPending, {}, 2), [], 0, Announcing(1), [], UNSET)
    requires s5 == s4.(place := RelockBound(1), known := 1) && s6 == s5.(place := Looking(Bound(1)))
    requires s7 == s5.(place := Seen(Bound(1), None))
    requires s8 == s5.(h := Handler(PropagatingBound, {}, 2), place := Announcing(2))
    ensures Leads(s4, Announce, s5) && Leads(s5, RetakeBound, s6) && Leads(s6, Look, s7) && Leads(s7, Decide, s8)
  {}

  lemma {:induction false} NinthTransition() returns (states: seq<State>, steps: seq<Step>)
    ensures IsRun(states, steps) && |steps| == 8
    ensures states[7].h.state == PropagationPending && states[8].h.state == PropagatingBound
  {
    var s0 := State(Handler(Idle, {}, UNSET), [], 0, Outside, [], UNSET);
    var s1 := s0.(h := Handler(Idle, {}, 1), place := Looking(Entry));
    var s2, s3 := s1.(place := Seen(Entry, None)), s1.(h := Handler(PropagatingBound, {}, 1), place := Announcing(1));
    var s4 := s3.(h := Handler(PropagationPending, {}, 2));
    var s5 := s4.(place := RelockBound(1), known := 1);
    var s6, s7 := s5.(place := Looking(Bound(1))), s5.(place := Seen(Bound(1), None));
    var s8 := s5.(h := Handler(PropagatingBound, {}, 2), place := Announcing(2));
    BoundRises(s0, s1, s2, s3, s4);
    BoundIsSentAgain(s4, s5, s6, s7, s8);
    states := [s0, s1, s2, s3, s4, s5, s6, s7, s8];
    steps := [Update(1), Look, Decide, Update(2), Announce, RetakeBound, Look, Decide];
    forall i | 0 <= i < |steps| ensures Leads(states[i], steps[i], states[i + 1]) {}
  }
}

/** The handler object: what its methods do while they hold the timestamp mutex. `front` is what the context
    manager answers about the first active invocation. */
module ParallelOutputObjects {
  import opened Timestamps
  import opened Options
  import P = ParallelOutputs

  class InOrderOutputStreamHandler {
    var propagationState: P.PropagationState
    var completedInputTimestamps: set<Timestamp>
    var taskTimestampBound: Timestamp

    ghost function Contents(): P.Handler
      reads this
    {
      P.Handler(propagationState, completedInputTimestamps, taskTimestampBound)
    }

    constructor ()
      ensures Contents() == P.Handler(P.Idle, {}, UNSET)
    {
      propagationState, completedInputTimestamps, taskTimestampBound := P.Idle, {}, UNSET;
    }

    method PrepareForRun()
      modifies this
      ensures Contents() == P.Handler(P.Idle, {}, UNSET)
    {
      completedInputTimestamps := {};
      taskTimestampBound := UNSET;
      propagationState := P.Idle;
    }

    /** Returns whether the caller goes into the loop. */
    method PostProcess(inputTimestamp: Timestamp) returns (enter: bool)
      modifies this`propagationState, this`completedInputTimestamps
      ensures Contents() == P.Posted(old(Contents()), inputTimestamp) && enter == (old(propagationState) == P.Idle)
    {
      completedInputTimestamps := completedInputTimestamps + {inputTimestamp};
      if propagationState == P.PropagatingBound {
        propagationState := P.PropagationPending;
        return false;
      }
      enter := propagationState == P.Idle;
    }

    /** The bound must not fall. */
    method UpdateTaskTimestampBound(timestamp: Timestamp) returns (enter: bool)
      requires taskTimestampBound <= timestamp
      modifies this`propagationState, this`taskTimestampBound
      ensures Contents() == P.Bounded(old(Contents()), timestamp)
      ensures enter <==> old(propagationState) == P.Idle && old(taskTimestampBound) != timestamp
    {
      if taskTimestampBound == timestamp { return false; }
      taskTimestampBound := timestamp;
      if propagationState == P.PropagatingBound {
        propagationState := P.PropagationPending;
        return false;
      }
      enter := propagationState == P.Idle;
    }

    method IsFrontDone(front: Timestamp) returns (done: bool)
      ensures done == P.IsFirst(front, completedInputTimestamps)
    {
      done := false;
      if completedInputTimestamps != {} {
        ghost var first := P.First(completedInputTimestamps);
        var begin :| P.IsFirst(begin, completedInputTimestamps);
        assert P.IsFirst(begin, completedInputTimestamps);
        done := begin == front;
      }
    }

    /** The entry of the loop. */
    method Enter(front: Option<Timestamp>)
      requires propagationState == P.Idle
      modifies this`propagationState
      ensures Contents() == P.Entered(old(Contents()), front)
    {
      if front.None? {
        propagationState := P.PropagatingBound;
      } else {
        var done := IsFrontDone(front.value);
        if done { propagationState := P.PropagatingPackets; }
      }
    }

    /** The first finished invocation is taken off when its outputs are sent. */
    method EraseFirst()
      requires completedInputTimestamps != {}
      modifies this`completedInputTimestamps
      ensures var before := old(Contents());
              Contents() == before.(completed := before.completed - {P.First(before.completed)})
    {
      ghost var first := P.First(completedInputTimestamps);
      var begin :| P.IsFirst(begin, completedInputTimestamps);
      assert P.IsFirst(begin, completedInputTimestamps);
      completedInputTimestamps := completedInputTimestamps - {begin};
    }

    method FinishPackets(contextTimestamp: Timestamp, front: Option<Timestamp>)
      requires completedInputTimestamps != {} ==> front.Some?
      modifies this`propagationState
      ensures Contents() == P.AfterPackets(old(Contents()), contextTimestamp, front)
    {
      if completedInputTimestamps == {} && front.None? {
        var known := taskTimestampBound <= NextAllowedInStream(contextTimestamp);
        propagationState := if known then P.Idle else P.PropagatingBound;
        return;
      }
      var done := IsFrontDone(front.value);
      propagationState := if done then P.PropagatingPackets else P.Idle;
    }

    /** Returns whether the loop goes on to look for active invocations. */
    method FinishBound() returns (recheck: bool)
      requires propagationState == P.PropagatingBound || propagationState == P.PropagationPending
      modifies this`propagationState
      ensures recheck == (old(propagationState) == P.PropagationPending)
      ensures Contents() == old(Contents()).(state := if recheck then P.PropagationPending else P.Idle)
    {
      recheck := propagationState == P.PropagationPending;
      if !recheck { propagationState := P.Idle; }
    }

    method Recheck(boundToPropagate: Timestamp, front: Option<Timestamp>)
      requires propagationState == P.PropagationPending && (front.None? ==> boundToPropagate < taskTimestampBound)
      modifies this`propagationState
      ensures Contents() == P.AfterBound(old(Contents()), front)
    {
      if front.None? {
        propagationState := P.PropagatingBound;
        return;
      }
      var done := IsFrontDone(front.value);
      propagationState := if done then P.PropagatingPackets else P.Idle;
    }
  }
}
