/** Packet generators: a concurrent worklist that runs every generator whose input side packets have
    become available. Whatever the order of its tasks, it reaches the one least fixed point. */
module Generators {
  /** Side packets by name; names and contents are opaque. */
  type Packets = map<nat, int>

  datatype Gen = Gen(inputs: seq<nat>, outputs: set<nat>, generate: seq<int> -> Packets)

  /** Generators are deterministic, deliver just what they declare, and no two declare the same name. */
  ghost predicate WellFormed(c: seq<Gen>) {
    && (forall g, v :: 0 <= g < |c| ==> c[g].generate(v).Keys == c[g].outputs)
    && forall g, h :: 0 <= g < h < |c| ==> c[g].outputs !! c[h].outputs
  }

  predicate Runnable(gen: Gen, p: Packets) {
    forall i :: 0 <= i < |gen.inputs| ==> gen.inputs[i] in p
  }

  function Values(gen: Gen, p: Packets): seq<int>
    requires Runnable(gen, p)
  {
    seq(|gen.inputs|, i requires 0 <= i < |gen.inputs| => p[gen.inputs[i]])
  }

  predicate Within(p: Packets, q: Packets) {
    forall x :: x in p ==> x in q && q[x] == p[x]
  }

  /** The generator could run on these packets, and its results are among them. */
  predicate Ran(gen: Gen, p: Packets) {
    Runnable(gen, p) && Within(gen.generate(Values(gen, p)), p)
  }

  // ---------- the reference meaning ----------

  /** The given packets closed under running generators. */
  predicate IsSolution(c: seq<Gen>, given: Packets, p: Packets) {
    Within(given, p) && forall g :: 0 <= g < |c| && Runnable(c[g], p) ==> Ran(c[g], p)
  }

  ghost predicate IsLeastSolution(c: seq<Gen>, given: Packets, p: Packets) {
    IsSolution(c, given, p) && forall q :: IsSolution(c, given, q) ==> Within(p, q)
  }

  lemma {:induction false} SamePackets(p: Packets, q: Packets)
    requires Within(p, q) && Within(q, p)
    ensures p == q
  {
    assert p.Keys == q.Keys;
  }

  lemma {:induction false} LeastSolutionIsUnique(c: seq<Gen>, given: Packets, p: Packets, q: Packets)
    requires IsLeastSolution(c, given, p) && IsLeastSolution(c, given, q)
    ensures p == q
  {
    SamePackets(p, q);
  }

  lemma {:induction false} StillRunnable(gen: Gen, p: Packets, q: Packets)
    requires Runnable(gen, p) && Within(p, q)
    ensures Runnable(gen, q) && Values(gen, q) == Values(gen, p)
  {}

  // ---------- the worklist ----------

  /** A thread is the caller (`gen == -1`) or the task of one generator. A task waits with its inputs
      captured, has generated its outputs without a lock, or scans all generators for runnable ones. */
  datatype Stage = Queued(inputs: seq<int>) | Generated(outputs: Packets) | Scanning(next: nat) | Done

  datatype Thread = Thread(gen: int, stage: Stage)

  datatype State = State(packets: Packets, scheduled: seq<bool>, threads: seq<Thread>, numTasks: int)

  datatype Step =
    | Scan(k: nat)      // looks at one generator and schedules it if it is runnable
    | Generate(k: nat)  // runs the generator
    | Publish(k: nat)   // adds its packets
    | Finish(k: nat)    // has looked at all generators

  predicate Enabled(c: seq<Gen>, s: State, step: Step) {
    |s.scheduled| == |c| && step.k < |s.threads| &&
    var t := s.threads[step.k];
    match step
    case Scan(_) => t.stage.Scanning? && t.stage.next < |c|
    case Generate(_) => t.stage.Queued? && 0 <= t.gen < |c|
    case Publish(_) => t.stage.Generated?
    case Finish(_) => t.stage.Scanning? && t.stage.next >= |c|
  }

  function At(s: State, k: nat, stage: Stage): State
    requires k < |s.threads|
  {
    s.(threads := s.threads[k := s.threads[k].(stage := stage)])
  }

  function Scheduled(c: seq<Gen>, s: State, g: nat): State
    requires g < |c| == |s.scheduled| && Runnable(c[g], s.packets)
  {
    s.(scheduled := s.scheduled[g := true], numTasks := s.numTasks + 1,
       threads := s.threads + [Thread(g, Queued(Values(c[g], s.packets)))])
  }

  function Do(c: seq<Gen>, s: State, step: Step): State
    requires Enabled(c, s, step)
  {
    var k := step.k;
    var t := s.threads[k];
    match step
    case Scan(_) =>
      var g := t.stage.next;
      var s' := At(s, k, Scanning(g + 1));
      if !s.scheduled[g] && Runnable(c[g], s.packets) then Scheduled(c, s', g) else s'
    case Generate(_) => At(s, k, Generated(c[t.gen].generate(t.stage.inputs)))
    case Publish(_) => At(s, k, Scanning(0)).(packets := s.packets + t.stage.outputs)
    case Finish(_) => At(s, k, Done).(numTasks := if k == 0 then s.numTasks else s.numTasks - 1)
  }

  /** No side packet is defined twice. */
  predicate Safe(s: State, step: Step) {
    if step.Publish? && step.k < |s.threads| && s.threads[step.k].stage.Generated?
    then s.threads[step.k].stage.outputs.Keys !! s.packets.Keys else true
  }

  /** What an execution may start from: generators counted as executed before have run on the given
      packets, and the others' outputs are not given. */
  predicate Prepared(c: seq<Gen>, given: Packets, before: seq<bool>) {
    && |before| == |c|
    && forall g :: 0 <= g < |c| ==> if before[g] then Ran(c[g], given) else c[g].outputs !! given.Keys
  }

  predicate Init(c: seq<Gen>, given: Packets, before: seq<bool>, s: State) {
    s == State(given, before, [Thread(-1, Scanning(0))], 0)
  }

  // ---------- the invariant ----------

  predicate Published(t: Thread) {
    t.stage.Scanning? || t.stage.Done?
  }

  predicate StageInv(c: seq<Gen>, p: Packets, t: Thread)
    requires 0 <= t.gen < |c|
  {
    var gen := c[t.gen];
    Runnable(gen, p) &&
    match t.stage
    case Queued(v) => v == Values(gen, p)
    case Generated(o) => o == gen.generate(Values(gen, p))
    case _ => Within(gen.generate(Values(gen, p)), p)
  }

  ghost predicate ThreadsInv(c: seq<Gen>, before: seq<bool>, s: State)
    requires |before| == |c| == |s.scheduled|
  {
    && s.threads != [] && s.threads[0].gen == -1 && Published(s.threads[0])
    && (forall k :: 0 < k < |s.threads| ==> 0 <= s.threads[k].gen < |c| && StageInv(c, s.packets, s.threads[k]))
    && (forall k :: 0 < k < |s.threads| ==> !before[s.threads[k].gen] && s.scheduled[s.threads[k].gen])
    && forall k, l :: 0 <= k < l < |s.threads| ==> s.threads[k].gen != s.threads[l].gen
  }

  ghost predicate HasThread(s: State, g: int) {
    exists k :: 0 < k < |s.threads| && s.threads[k].gen == g
  }

  ghost predicate HasPublished(s: State, g: int) {
    exists k :: 0 < k < |s.threads| && s.threads[k].gen == g && Published(s.threads[k])
  }

  /** Generator `g` will be looked at yet. */
  ghost predicate ScannerBefore(threads: seq<Thread>, g: int) {
    exists k :: 0 <= k < |threads| && threads[k].stage.Scanning? && threads[k].stage.next <= g
  }

  ghost predicate GeneratorInv(c: seq<Gen>, before: seq<bool>, s: State, g: int)
    requires |before| == |c| == |s.scheduled| && 0 <= g < |c|
  {
    && (before[g] ==> s.scheduled[g] && Ran(c[g], s.packets))
    && (s.scheduled[g] && !before[g] ==> HasThread(s, g))
    && (!before[g] && !HasPublished(s, g) ==> c[g].outputs !! s.packets.Keys)
    && (!s.scheduled[g] && Runnable(c[g], s.packets) ==> ScannerBefore(s.threads, g))
  }

  ghost predicate GeneratorsInv(c: seq<Gen>, before: seq<bool>, s: State)
    requires |before| == |c| == |s.scheduled|
  {
    forall g :: 0 <= g < |c| ==> GeneratorInv(c, before, s, g)
  }

  function Live(threads: seq<Thread>): nat {
    if |threads| <= 1 then 0 else Live(threads[..|threads| - 1]) + if threads[|threads| - 1].stage.Done? then 0 else 1
  }

  ghost predicate LeastInv(c: seq<Gen>, given: Packets, p: Packets) {
    Within(given, p) && forall q :: IsSolution(c, given, q) ==> Within(p, q)
  }

  ghost predicate Inv(c: seq<Gen>, given: Packets, before: seq<bool>, s: State) {
    && |before| == |c| == |s.scheduled|
    && ThreadsInv(c, before, s) && GeneratorsInv(c, before, s) && LeastInv(c, given, s.packets)
    && s.numTasks == Live(s.threads)
  }

  lemma {:induction false} LiveAppended(threads: seq<Thread>, t: Thread)
    requires threads != []
    ensures Live(threads + [t]) == Live(threads) + if t.stage.Done? then 0 else 1
  {
    assert (threads + [t])[..|threads|] == threads;
  }

  lemma {:induction false} LiveUpdated(threads: seq<Thread>, k: nat, t: Thread)
    requires k < |threads|
    ensures Live(threads[k := t]) == Live(threads)
              + if k == 0 || t.stage.Done? == threads[k].stage.Done? then 0 else if t.stage.Done? then -1 else 1
  {
    var n := |threads| - 1;
    if |threads| > 1 {
      if k == n {
        assert threads[k := t][..n] == threads[..n];
      } else {
        LiveUpdated(threads[..n], k, t);
        assert threads[k := t][..n] == threads[..n][k := t];
      }
    }
  }

  // ---------- steps that move one thread on ----------

  /** Threads that stay, and stay published, still stand for their generators. */
  lemma {:induction false} ThreadsStay(s: State, s': State, g: int)
    requires |s.threads| <= |s'.threads|
    requires forall k :: 0 <= k < |s.threads| ==>
               s'.threads[k].gen == s.threads[k].gen && (Published(s.threads[k]) ==> Published(s'.threads[k]))
    ensures (HasThread(s, g) ==> HasThread(s', g)) && (HasPublished(s, g) ==> HasPublished(s', g))
  {
    if k :| 0 < k < |s.threads| && s.threads[k].gen == g { assert s'.threads[k].gen == g; }
    if k :| 0 < k < |s.threads| && s.threads[k].gen == g && Published(s.threads[k]) {
      assert s'.threads[k].gen == g && Published(s'.threads[k]);
    }
  }

  lemma {:induction false} OtherScanner(threads: seq<Thread>, k: nat, t: Thread, g: int)
    requires k < |threads| && ScannerBefore(threads, g)
    requires threads[k].stage.Scanning? && threads[k].stage.next <= g ==> t.stage.Scanning? && t.stage.next <= g
    ensures ScannerBefore(threads[k := t], g)
  {
    var l :| 0 <= l < |threads| && threads[l].stage.Scanning? && threads[l].stage.next <= g;
    assert threads[k := t][l].stage.Scanning? && threads[k := t][l].stage.next <= g;
  }

  /** What a thread may do to its stage: a scanner may go past what needs no scheduling. */
  predicate MayMove(c: seq<Gen>, s: State, k: nat, stage: Stage)
    requires k < |s.threads| && |c| == |s.scheduled|
  {
    var t := s.threads[k];
    && (Published(t) <==> stage.Scanning? || stage.Done?)
    && (t.gen >= 0 ==> t.gen < |c| && StageInv(c, s.packets, t.(stage := stage)))
    && (t.stage.Scanning? && stage.Scanning? ==>
          stage.next == t.stage.next + 1 && t.stage.next < |c|)
    && (t.stage.Scanning? && stage.Done? ==> t.stage.next >= |c|)
  }

  lemma {:induction false} MoveKeepsThreads(c: seq<Gen>, before: seq<bool>, s: State, k: nat, stage: Stage)
    requires |before| == |c| == |s.scheduled| && ThreadsInv(c, before, s)
    requires k < |s.threads| && MayMove(c, s, k, stage)
    ensures ThreadsInv(c, before, At(s, k, stage))
  {}

  lemma {:induction false} MoveKeepsGenerator(c: seq<Gen>, before: seq<bool>, s: State, k: nat, stage: Stage, g: nat)
    requires |before| == |c| == |s.scheduled| && g < |c| && GeneratorInv(c, before, s, g)
    requires k < |s.threads| && MayMove(c, s, k, stage)
    requires var t := s.threads[k].stage;
             t.Scanning? && t.next == g ==> s.scheduled[g] || !Runnable(c[g], s.packets)
    ensures GeneratorInv(c, before, At(s, k, stage), g)
  {
    ThreadsStay(s, At(s, k, stage), g);
    if !s.scheduled[g] && Runnable(c[g], s.packets) { OtherScanner(s.threads, k, s.threads[k].(stage := stage), g); }
  }

  lemma {:induction false} MoveKeepsInv(c: seq<Gen>, given: Packets, before: seq<bool>, s: State, k: nat,
      stage: Stage, numTasks: int)
    requires Inv(c, given, before, s) && k < |s.threads| && MayMove(c, s, k, stage)
    requires var t := s.threads[k].stage;
             t.Scanning? && t.next < |c| ==> s.scheduled[t.next] || !Runnable(c[t.next], s.packets)
    requires numTasks - s.numTasks
          == if k == 0 || stage.Done? == s.threads[k].stage.Done? then 0 else if stage.Done? then -1 else 1
    ensures Inv(c, given, before, At(s, k, stage).(numTasks := numTasks))
  {
    MoveKeepsThreads(c, before, s, k, stage);
    var s' := At(s, k, stage).(numTasks := numTasks);
    forall g | 0 <= g < |c| ensures GeneratorInv(c, before, s', g) {
      MoveKeepsGenerator(c, before, s, k, stage, g);
      ThreadsStay(At(s, k, stage), s', g);
    }
    LiveUpdated(s.threads, k, s.threads[k].(stage := stage));
  }

  lemma {:induction false} FinishKeepsInv(c: seq<Gen>, given: Packets, before: seq<bool>, s: State, k: nat)
    requires Inv(c, given, before, s) && Enabled(c, s, Finish(k))
    ensures Inv(c, given, before, Do(c, s, Finish(k)))
  {
    MoveKeepsInv(c, given, before, s, k, Done, if k == 0 then s.numTasks else s.numTasks - 1);
  }

  lemma {:induction false} GenerateKeepsInv(c: seq<Gen>, given: Packets, before: seq<bool>, s: State, k: nat)
    requires Inv(c, given, before, s) && Enabled(c, s, Generate(k))
    ensures Inv(c, given, before, Do(c, s, Generate(k)))
  {
    var t := s.threads[k];
    MoveKeepsInv(c, given, before, s, k, Generated(c[t.gen].generate(t.stage.inputs)), s.numTasks);
  }

  lemma {:induction false} PassKeepsInv(c: seq<Gen>, given: Packets, before: seq<bool>, s: State, k: nat)
    requires Inv(c, given, before, s) && Enabled(c, s, Scan(k))
    requires var g := s.threads[k].stage.next; s.scheduled[g] || !Runnable(c[g], s.packets)
    ensures Inv(c, given, before, Do(c, s, Scan(k)))
  {
    MoveKeepsInv(c, given, before, s, k, Scanning(s.threads[k].stage.next + 1), s.numTasks);
  }

  // ---------- scheduling ----------

  lemma {:induction false} ScheduledKeepsThreads(c: seq<Gen>, before: seq<bool>, s: State, g: nat)
    requires |before| == |c| == |s.scheduled| && ThreadsInv(c, before, s)
    requires g < |c| && !s.scheduled[g] && !before[g] && Runnable(c[g], s.packets)
    ensures ThreadsInv(c, before, Scheduled(c, s, g))
  {}

  lemma {:induction false} ScheduledKeepsOther(c: seq<Gen>, before: seq<bool>, s: State, g: nat, h: nat)
    requires |before| == |c| == |s.scheduled| && g < |c| && Runnable(c[g], s.packets)
    requires h < |c| && h != g && GeneratorInv(c, before, s, h)
    ensures GeneratorInv(c, before, Scheduled(c, s, g), h)
  {
    var s' := Scheduled(c, s, g);
    assert forall k :: 0 <= k < |s.threads| ==> s'.threads[k] == s.threads[k];
    ThreadsStay(s, s', h);
    if !s.scheduled[h] && Runnable(c[h], s.packets) {
      var l :| 0 <= l < |s.threads| && s.threads[l].stage.Scanning? && s.threads[l].stage.next <= h;
      assert s'.threads[l].stage.Scanning? && s'.threads[l].stage.next <= h;
    }
  }

  lemma {:induction false} ScheduledHasThread(c: seq<Gen>, before: seq<bool>, s: State, g: nat)
    requires |before| == |c| == |s.scheduled| && g < |c| && Runnable(c[g], s.packets)
    requires !before[g] && c[g].outputs !! s.packets.Keys && s.threads != []
    ensures GeneratorInv(c, before, Scheduled(c, s, g), g)
  {
    assert Scheduled(c, s, g).threads[|s.threads|].gen == g;
  }

  lemma {:induction false} UnscheduledIsUnpublished(c: seq<Gen>, before: seq<bool>, s: State, g: nat)
    requires |before| == |c| == |s.scheduled| && ThreadsInv(c, before, s)
    requires g < |c| && GeneratorInv(c, before, s, g) && !s.scheduled[g]
    ensures !before[g] && c[g].outputs !! s.packets.Keys
  {}

  lemma {:induction false} ScheduleKeepsInv(c: seq<Gen>, given: Packets, before: seq<bool>, s: State, k: nat)
    requires Inv(c, given, before, s) && Enabled(c, s, Scan(k))
    requires var g := s.threads[k].stage.next; !s.scheduled[g] && Runnable(c[g], s.packets)
    ensures Inv(c, given, before, Do(c, s, Scan(k)))
  {
    var g := s.threads[k].stage.next;
    var stage := Scanning(g + 1);
    var mid, s' := At(s, k, stage), Do(c, s, Scan(k));
    UnscheduledIsUnpublished(c, before, s, g);
    MoveKeepsThreads(c, before, s, k, stage);
    ScheduledKeepsThreads(c, before, mid, g);
    forall h | 0 <= h < |c| ensures GeneratorInv(c, before, s', h) {
      if h == g {
        ScheduledHasThread(c, before, mid, g);
      } else {
        MoveKeepsGenerator(c, before, s, k, stage, h);
        ScheduledKeepsOther(c, before, mid, g, h);
      }
    }
    LiveUpdated(s.threads, k, s.threads[k].(stage := stage));
    LiveAppended(mid.threads, Thread(g, Queued(Values(c[g], s.packets))));
  }

  // ---------- publishing ----------

  lemma {:induction false} MorePacketsKeepStage(c: seq<Gen>, p: Packets, q: Packets, t: Thread)
    requires 0 <= t.gen < |c| && StageInv(c, p, t) && Within(p, q)
    ensures StageInv(c, q, t)
  {
    StillRunnable(c[t.gen], p, q);
  }

  lemma {:induction false} RanStays(gen: Gen, p: Packets, q: Packets)
    requires Ran(gen, p) && Within(p, q)
    ensures Ran(gen, q)
  {
    StillRunnable(gen, p, q);
  }

  /** A thread about to publish is the only one of its generator, so nothing it adds is there yet. */
  lemma {:induction false} PublishIsFresh(c: seq<Gen>, before: seq<bool>, s: State, k: nat)
    requires WellFormed(c) && |before| == |c| == |s.scheduled| && ThreadsInv(c, before, s)
        && GeneratorsInv(c, before, s)
    requires k < |s.threads| && s.threads[k].stage.Generated?
    ensures k > 0 && !before[s.threads[k].gen] && !HasPublished(s, s.threads[k].gen)
    ensures s.threads[k].stage.outputs.Keys == c[s.threads[k].gen].outputs
    ensures s.threads[k].stage.outputs.Keys !! s.packets.Keys
  {
    var t := s.threads[k];
    assert k > 0 && StageInv(c, s.packets, t);
    assert c[t.gen].generate(Values(c[t.gen], s.packets)).Keys == c[t.gen].outputs;
    assert GeneratorInv(c, before, s, t.gen);
  }

  lemma {:induction false} PublishKeepsThreads(c: seq<Gen>, before: seq<bool>, s: State, k: nat)
    requires |before| == |c| == |s.scheduled| && ThreadsInv(c, before, s)
    requires k < |s.threads| && s.threads[k].stage.Generated? && s.threads[k].stage.outputs.Keys !! s.packets.Keys
    ensures ThreadsInv(c, before, Do(c, s, Publish(k)))
  {
    var s' := Do(c, s, Publish(k));
    forall l | 0 < l < |s.threads| ensures StageInv(c, s'.packets, s'.threads[l]) {
      MorePacketsKeepStage(c, s.packets, s'.packets, s.threads[l]);
    }
  }

  lemma {:induction false} PublishKeepsGenerator(c: seq<Gen>, before: seq<bool>, s: State, k: nat, g: nat)
    requires |before| == |c| == |s.scheduled| && g < |c| && GeneratorInv(c, before, s, g)
    requires 0 < k < |s.threads| && s.threads[k].stage.Generated? && s.threads[k].stage.outputs.Keys !! s.packets.Keys
    requires s.threads[k].gen != g ==> s.threads[k].stage.outputs.Keys !! c[g].outputs
    ensures GeneratorInv(c, before, Do(c, s, Publish(k)), g)
  {
    var s' := Do(c, s, Publish(k));
    ThreadsStay(s, s', g);
    if before[g] { RanStays(c[g], s.packets, s'.packets); }
    assert s'.threads[k].stage == Scanning(0);
    if s.threads[k].gen == g { assert HasPublished(s', g); }
  }

  lemma {:induction false} PublishKeepsLeast(c: seq<Gen>, given: Packets, s: State, k: nat)
    requires LeastInv(c, given, s.packets) && k < |s.threads| && 0 <= s.threads[k].gen < |c| == |s.scheduled|
    requires s.threads[k].stage.Generated? && StageInv(c, s.packets, s.threads[k])
    requires s.threads[k].stage.outputs.Keys !! s.packets.Keys
    ensures LeastInv(c, given, Do(c, s, Publish(k)).packets)
  {
    var gen, p' := c[s.threads[k].gen], Do(c, s, Publish(k)).packets;
    forall q | IsSolution(c, given, q) ensures Within(p', q) {
      StillRunnable(gen, s.packets, q);
      assert Ran(gen, q);
    }
  }

  lemma {:induction false} PublishKeepsInv(c: seq<Gen>, given: Packets, before: seq<bool>, s: State, k: nat)
    requires WellFormed(c) && Inv(c, given, before, s) && Enabled(c, s, Publish(k))
    ensures Safe(s, Publish(k)) && Inv(c, given, before, Do(c, s, Publish(k)))
  {
    PublishIsFresh(c, before, s, k);
    PublishKeepsThreads(c, before, s, k);
    PublishKeepsLeast(c, given, s, k);
    forall g | 0 <= g < |c| ensures GeneratorInv(c, before, Do(c, s, Publish(k)), g) {
      PublishKeepsGenerator(c, before, s, k, g);
    }
    LiveUpdated(s.threads, k, s.threads[k].(stage := Scanning(0)));
  }

  lemma {:induction false} StepKeepsInv(c: seq<Gen>, given: Packets, before: seq<bool>, s: State, step: Step)
    requires WellFormed(c) && Inv(c, given, before, s) && Enabled(c, s, step)
    ensures Safe(s, step) && Inv(c, given, before, Do(c, s, step))
  {
    match step
    case Scan(k) =>
      var g := s.threads[k].stage.next;
      if s.scheduled[g] || !Runnable(c[g], s.packets) { PassKeepsInv(c, given, before, s, k); }
      else { ScheduleKeepsInv(c, given, before, s, k); }
    case Generate(k) => GenerateKeepsInv(c, given, before, s, k);
    case Publish(k) => PublishKeepsInv(c, given, before, s, k);
    case Finish(k) => FinishKeepsInv(c, given, before, s, k);
  }

  // ---------- every execution ----------

  ghost predicate IsRun(c: seq<Gen>, given: Packets, before: seq<bool>, states: seq<State>, steps: seq<Step>) {
    && |states| == |steps| + 1 && Prepared(c, given, before) && Init(c, given, before, states[0])
    && forall i :: 0 <= i < |steps| ==> Enabled(c, states[i], steps[i]) && states[i + 1] == Do(c, states[i], steps[i])
  }

  lemma {:induction false} InitHasInv(c: seq<Gen>, given: Packets, before: seq<bool>, s: State)
    requires Prepared(c, given, before) && Init(c, given, before, s)
    ensures Inv(c, given, before, s)
  {
    forall g | 0 <= g < |c| ensures GeneratorInv(c, before, s, g) {
      assert s.threads[0].stage.Scanning? && s.threads[0].stage.next <= g;
    }
  }

  lemma {:induction false} RunKeepsInv(c: seq<Gen>, given: Packets, before: seq<bool>, states: seq<State>,
                                       steps: seq<Step>, i: nat)
    requires WellFormed(c) && IsRun(c, given, before, states, steps) && i < |states|
    ensures Inv(c, given, before, states[i])
  {
    if i == 0 {
      InitHasInv(c, given, before, states[0]);
    } else {
      RunKeepsInv(c, given, before, states, steps, i - 1);
      StepKeepsInv(c, given, before, states[i - 1], steps[i - 1]);
    }
  }

  /** The caller may return: it has scanned all generators and no task is pending. */
  predicate Idle(s: State) {
    s.threads != [] && s.threads[0].stage.Done? && s.numTasks == 0
  }

  lemma {:induction false} NoneLive(threads: seq<Thread>, k: nat)
    requires Live(threads) == 0 && 0 < k < |threads|
    ensures threads[k].stage.Done?
  {
    var n := |threads| - 1;
    if k < n { NoneLive(threads[..n], k); }
  }

  /** `g` has been run, exactly once: by this execution if it was not run before. */
  ghost predicate RunOnce(before: seq<bool>, s: State, g: nat)
    requires g < |before|
  {
    && (HasThread(s, g) <==> !before[g])
    && forall k, l :: 0 < k < |s.threads| && 0 < l < |s.threads| && s.threads[k].gen == s.threads[l].gen == g ==> k == l
  }

  lemma {:induction false} IdleIsClosed(c: seq<Gen>, given: Packets, before: seq<bool>, s: State, g: nat)
    requires Inv(c, given, before, s) && Idle(s) && g < |c|
    ensures s.scheduled[g] <==> Runnable(c[g], s.packets)
    ensures s.scheduled[g] ==> Ran(c[g], s.packets) && RunOnce(before, s, g)
    ensures !s.scheduled[g] ==> !HasThread(s, g) && !before[g] && c[g].outputs !! s.packets.Keys
  {
    assert GeneratorInv(c, before, s, g);
    forall k | 0 < k < |s.threads| ensures s.threads[k].stage.Done? { NoneLive(s.threads, k); }
    if s.scheduled[g] && !before[g] {
      var k :| 0 < k < |s.threads| && s.threads[k].gen == g;
      assert StageInv(c, s.packets, s.threads[k]);
    }
    if !s.scheduled[g] { UnscheduledIsUnpublished(c, before, s, g); }
  }

  /** Every task order of an execution ends with the same packets, the least ones closed under running
      generators, and with exactly the generators runnable on them run, each once. */
  lemma {:induction false} ExecutionIsLeastSolution(c: seq<Gen>, given: Packets, before: seq<bool>,
      states: seq<State>, steps: seq<Step>)
    requires WellFormed(c) && IsRun(c, given, before, states, steps) && Idle(states[|steps|])
    ensures var s := states[|steps|];
            && |s.scheduled| == |before| == |c|
            && IsLeastSolution(c, given, s.packets)
            && (forall g :: 0 <= g < |c| ==> (s.scheduled[g] <==> Runnable(c[g], s.packets)))
            && (forall g :: 0 <= g < |c| && s.scheduled[g] ==> RunOnce(before, s, g))
  {
    var s := states[|steps|];
    RunKeepsInv(c, given, before, states, steps, |steps|);
    forall g | 0 <= g < |c| ensures (s.scheduled[g] <==> Runnable(c[g], s.packets))
        && (s.scheduled[g] ==> Ran(c[g], s.packets) && RunOnce(before, s, g)) {
      IdleIsClosed(c, given, before, s, g);
    }
  }

  /** No step of any execution defines a side packet twice. */
  lemma {:induction false} NothingDefinedTwice(c: seq<Gen>, given: Packets, before: seq<bool>, states: seq<State>,
      steps: seq<Step>, i: nat)
    requires WellFormed(c) && IsRun(c, given, before, states, steps) && i < |steps|
    ensures Safe(states[i], steps[i])
  {
    RunKeepsInv(c, given, before, states, steps, i);
    StepKeepsInv(c, given, before, states[i], steps[i]);
  }

  // ---------- two phases ----------

  /** What `Initialize` leaves is a proper start for `RunGraphSetup` with further packets. */
  lemma {:induction false} SecondPhaseIsPrepared(c: seq<Gen>, given: Packets, s: State, more: Packets)
    requires WellFormed(c) && Inv(c, given, seq(|c|, _ => false), s) && Idle(s)
    requires more.Keys !! s.packets.Keys
    requires forall g :: 0 <= g < |c| && !s.scheduled[g] ==> more.Keys !! c[g].outputs
    ensures Prepared(c, s.packets + more, s.scheduled)
  {
    var none := seq(|c|, _ => false);
    forall g | 0 <= g < |c|
      ensures if s.scheduled[g] then Ran(c[g], s.packets + more) else c[g].outputs !! (s.packets + more).Keys
    {
      IdleIsClosed(c, given, none, s, g);
      if s.scheduled[g] { RanStays(c[g], s.packets, s.packets + more); }
    }
  }

  lemma {:induction false} LeastOfLeast(c: seq<Gen>, a: Packets, b: Packets, p: Packets, q: Packets)
    requires a.Keys !! b.Keys && p.Keys !! b.Keys
    requires IsLeastSolution(c, a, p) && IsLeastSolution(c, p + b, q)
    ensures IsLeastSolution(c, a + b, q)
  {
    forall r | IsSolution(c, a + b, r) ensures Within(q, r) {
      assert IsSolution(c, a, r);
      assert Within(p, r);
      assert IsSolution(c, p + b, r);
    }
  }

  /** Initialising with some packets and setting a run up with the others comes to the same packets,
      and to the same generators run, as one execution on all of them, whatever the task orders. */
  lemma {:induction false} TwoPhasesAreOne(c: seq<Gen>, a: Packets, b: Packets,
                                           states: seq<State>, steps: seq<Step>, states': seq<State>, steps': seq<Step>,
                                           whole: seq<State>, wholeSteps: seq<Step>)
    requires WellFormed(c) && a.Keys !! b.Keys
    requires IsRun(c, a, seq(|c|, _ => false), states, steps) && Idle(states[|steps|])
    requires states[|steps|].packets.Keys !! b.Keys
    requires IsRun(c, states[|steps|].packets + b, states[|steps|].scheduled, states', steps')
        && Idle(states'[|steps'|])
    requires IsRun(c, a + b, seq(|c|, _ => false), whole, wholeSteps) && Idle(whole[|wholeSteps|])
    ensures states'[|steps'|].packets == whole[|wholeSteps|].packets
    ensures states'[|steps'|].scheduled == whole[|wholeSteps|].scheduled
  {
    var none := seq(|c|, _ => false);
    var first, second, one := states[|steps|], states'[|steps'|], whole[|wholeSteps|];
    ExecutionIsLeastSolution(c, a, none, states, steps);
    ExecutionIsLeastSolution(c, first.packets + b, first.scheduled, states', steps');
    ExecutionIsLeastSolution(c, a + b, none, whole, wholeSteps);
    LeastOfLeast(c, a, b, first.packets, second.packets);
    LeastSolutionIsUnique(c, a + b, second.packets, one.packets);
  }
}
