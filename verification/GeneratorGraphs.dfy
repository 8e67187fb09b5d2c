/** The packet generator graph as objects, executing its generators on the application thread: the
    tasks that scanning schedules wait in a deque and run one after the other. */
module GeneratorGraphs {
  import opened Generators
  import opened GeneratorClashes

  datatype Task = Task(gen: nat, inputs: seq<int>)

  function Unscheduled(scheduled: seq<bool>): nat {
    if scheduled == [] then 0 else
    Unscheduled(scheduled[..|scheduled| - 1]) + if scheduled[|scheduled| - 1] then 0 else 1
  }

  lemma {:induction false} OneLessUnscheduled(scheduled: seq<bool>, g: nat)
    requires g < |scheduled| && !scheduled[g]
    ensures Unscheduled(scheduled[g := true]) == Unscheduled(scheduled) - 1
  {
    var n := |scheduled| - 1;
    if g == n {
      assert scheduled[g := true][..n] == scheduled[..n];
    } else {
      OneLessUnscheduled(scheduled[..n], g);
      assert scheduled[g := true][..n] == scheduled[..n][g := true];
    }
  }

  /** A task that may run now: its inputs are what the packets say, its outputs are not there yet. */
  predicate Ready(c: seq<Gen>, p: Packets, t: Task) {
    t.gen < |c| && Runnable(c[t.gen], p) && t.inputs == Values(c[t.gen], p) && c[t.gen].outputs !! p.Keys
  }

  predicate Waits(tasks: seq<Task>, g: nat) {
    exists j :: 0 <= j < |tasks| && tasks[j].gen == g
  }

  /** A generator has run, is running as `busy`, waits in the deque, or has not been scheduled. */
  predicate Accounted(c: seq<Gen>, p: Packets, scheduled: seq<bool>, tasks: seq<Task>, busy: set<nat>, g: nat)
    requires g < |c| == |scheduled|
  {
    if !scheduled[g] then c[g].outputs !! p.Keys && g !in busy
    else g in busy || Waits(tasks, g) || Ran(c[g], p)
  }

  ghost predicate Sound(c: seq<Gen>, given: Packets, p: Packets, scheduled: seq<bool>, tasks: seq<Task>,
                        busy: set<nat>) {
    && |scheduled| == |c| && LeastInv(c, given, p)
    && (forall j :: 0 <= j < |tasks| ==> Ready(c, p, tasks[j]) && scheduled[tasks[j].gen] && tasks[j].gen !in busy)
    && (forall i, j :: 0 <= i < j < |tasks| ==> tasks[i].gen != tasks[j].gen)
    && forall g :: 0 <= g < |c| ==> Accounted(c, p, scheduled, tasks, busy, g)
  }

  predicate Scanned(c: seq<Gen>, p: Packets, scheduled: seq<bool>, n: nat)
    requires |scheduled| == |c|
  {
    forall g :: 0 <= g < n && g < |c| ==> scheduled[g] || !Runnable(c[g], p)
  }

  lemma {:induction false} SchedulingIsSound(c: seq<Gen>, given: Packets, p: Packets, scheduled: seq<bool>,
      tasks: seq<Task>, busy: set<nat>, g: nat)
    requires Sound(c, given, p, scheduled, tasks, busy) && g < |c| && !scheduled[g] && Runnable(c[g], p)
    ensures Sound(c, given, p, scheduled[g := true], tasks + [Task(g, Values(c[g], p))], busy)
  {
    var tasks', scheduled' := tasks + [Task(g, Values(c[g], p))], scheduled[g := true];
    assert Accounted(c, p, scheduled, tasks, busy, g);
    forall h: nat | h < |c| ensures Accounted(c, p, scheduled', tasks', busy, h) {
      assert Accounted(c, p, scheduled, tasks, busy, h);
      if h == g { assert tasks'[|tasks|].gen == g; }
      if Waits(tasks, h) {
        var j :| 0 <= j < |tasks| && tasks[j].gen == h;
        assert tasks'[j].gen == h;
      }
    }
  }

  lemma {:induction false} TakingIsSound(c: seq<Gen>, given: Packets, p: Packets, scheduled: seq<bool>,
      tasks: seq<Task>)
    requires Sound(c, given, p, scheduled, tasks, {}) && tasks != []
    ensures Sound(c, given, p, scheduled, tasks[1..], {tasks[0].gen})
  {
    var g := tasks[0].gen;
    forall h: nat | h < |c| ensures Accounted(c, p, scheduled, tasks[1..], {g}, h) {
      assert Accounted(c, p, scheduled, tasks, {}, h);
      if h != g && Waits(tasks, h) {
        var j :| 0 <= j < |tasks| && tasks[j].gen == h;
        assert tasks[1..][j - 1].gen == h;
      }
    }
  }

  lemma {:induction false} PublishingIsSound(c: seq<Gen>, given: Packets, p: Packets, scheduled: seq<bool>,
      tasks: seq<Task>, t: Task)
    requires WellFormed(c) && Sound(c, given, p, scheduled, tasks, {t.gen}) && Ready(c, p, t)
    ensures Sound(c, given, p + c[t.gen].generate(t.inputs), scheduled, tasks, {})
  {
    var out := c[t.gen].generate(t.inputs);
    var q := p + out;
    assert out.Keys == c[t.gen].outputs && Within(p, q);
    forall r | IsSolution(c, given, r) ensures Within(q, r) {
      StillRunnable(c[t.gen], p, r);
      assert Ran(c[t.gen], r);
    }
    StillRunnable(c[t.gen], p, q);
    forall j | 0 <= j < |tasks| ensures Ready(c, q, tasks[j]) { StillRunnable(c[tasks[j].gen], p, q); }
    forall h: nat | h < |c| ensures Accounted(c, q, scheduled, tasks, {}, h) {
      assert Accounted(c, p, scheduled, tasks, {t.gen}, h);
      if Ran(c[h], p) { RanStays(c[h], p, q); }
    }
  }

  lemma {:induction false} FinishedIsLeast(c: seq<Gen>, given: Packets, p: Packets, scheduled: seq<bool>, g: nat)
    requires Sound(c, given, p, scheduled, [], {}) && Scanned(c, p, scheduled, |c|) && g < |c|
    ensures (scheduled[g] <==> Runnable(c[g], p)) && (scheduled[g] ==> Ran(c[g], p))
    ensures !scheduled[g] ==> c[g].outputs !! p.Keys
  {
    assert Accounted(c, p, scheduled, [], {}, g);
  }

  /** Nothing given stands in the way of the clean generators. */
  lemma {:induction false} CleanStart(c: seq<Gen>, given: Packets, before: seq<bool>)
    requires WellFormed(c) && |before| == |c| && forall g :: 0 <= g < |c| && before[g] ==> Ran(c[g], given)
    ensures Sound(Clean(c, given, before), given, given, before, [], {})
  {
    var d := Clean(c, given, before);
    forall g: nat | g < |d| ensures Accounted(d, given, before, [], {}, g) {}
  }

  /** A clashing generator that is scheduled has not run yet. */
  ghost predicate ClashesWait(clashing: set<nat>, scheduled: seq<bool>, tasks: seq<Task>, busy: set<nat>) {
    forall g :: g in clashing && g < |scheduled| && scheduled[g] ==> g in busy || Waits(tasks, g)
  }

  lemma {:induction false} SchedulingKeepsWaiting(clashing: set<nat>, scheduled: seq<bool>, tasks: seq<Task>,
                                                  busy: set<nat>, t: Task)
    requires ClashesWait(clashing, scheduled, tasks, busy) && t.gen < |scheduled|
    ensures ClashesWait(clashing, scheduled[t.gen := true], tasks + [t], busy)
  {
    forall g | g in clashing && g < |scheduled| && scheduled[t.gen := true][g]
      ensures g in busy || Waits(tasks + [t], g)
    {
      if g == t.gen {
        assert (tasks + [t])[|tasks|].gen == g;
      } else if g !in busy {
        var j :| 0 <= j < |tasks| && tasks[j].gen == g;
        assert (tasks + [t])[j].gen == g;
      }
    }
  }

  lemma {:induction false} TakingKeepsWaiting(clashing: set<nat>, scheduled: seq<bool>, tasks: seq<Task>)
    requires ClashesWait(clashing, scheduled, tasks, {}) && tasks != []
    ensures ClashesWait(clashing, scheduled, tasks[1..], {tasks[0].gen})
  {
    forall g | g in clashing && g < |scheduled| && scheduled[g] && g != tasks[0].gen ensures Waits(tasks[1..], g) {
      var j :| 0 <= j < |tasks| && tasks[j].gen == g;
      assert tasks[1..][j - 1].gen == g;
    }
  }

  /** One execution of the generators. */
  class GeneratorScheduler {
    const generators: seq<Gen>
    ghost const given: Packets
    ghost const before: seq<bool>
    var sidePackets: Packets
    var scheduledGenerators: seq<bool>
    var numTasks: int
    var appThreadTasks: seq<Task>
    var hasError: bool

    ghost function Cleaned(): seq<Gen>
      requires |before| == |generators|
    {
      Clean(generators, given, before)
    }

    /** After an error nothing more is run, and the error was certain. */
    ghost predicate Consistent(busy: set<nat>)
      reads this
    {
      && WellFormed(generators) && |before| == |generators| == |scheduledGenerators|
      && if hasError then MustClash(generators, given, before) else
         && Sound(Cleaned(), given, sidePackets, scheduledGenerators, appThreadTasks, busy)
         && ClashesWait(Clashing(generators, given, before), scheduledGenerators, appThreadTasks, busy)
    }

    ghost predicate Valid(busy: set<nat>)
      reads this
    {
      Consistent(busy) && numTasks == |appThreadTasks| + |busy|
    }

    ghost predicate AllScanned()
      reads this
    {
      |scheduledGenerators| == |generators| && Scanned(generators, sidePackets, scheduledGenerators, |generators|)
    }

    /** How many tasks may still run. */
    ghost function Remaining(): nat
      reads this
    {
      Unscheduled(scheduledGenerators) + |appThreadTasks|
    }

    constructor (generators: seq<Gen>, sidePackets: Packets, scheduled: seq<bool>)
      requires WellFormed(generators) && |scheduled| == |generators|
      requires forall g :: 0 <= g < |generators| && scheduled[g] ==> Ran(generators[g], sidePackets)
      ensures Valid({}) && !hasError && this.generators == generators && given == sidePackets && before == scheduled
    {
      this.generators, this.sidePackets, given, before := generators, sidePackets, sidePackets, scheduled;
      scheduledGenerators, numTasks, appThreadTasks, hasError := scheduled, 0, [], false;
      CleanStart(generators, sidePackets, scheduled);
    }

    method ScheduleAllRunnableGenerators(ghost busy: set<nat>)
      requires Valid(busy) && !hasError
      modifies this`scheduledGenerators, this`numTasks, this`appThreadTasks
      ensures Valid(busy) && AllScanned() && Remaining() == old(Remaining())
    {
      var index := 0;
      while index < |generators|
        invariant index <= |generators| && Valid(busy) && Remaining() == old(Remaining())
        invariant Scanned(generators, sidePackets, scheduledGenerators, index)
      {
        if !scheduledGenerators[index] && Runnable(generators[index], sidePackets) {
          var task := Task(index, Values(generators[index], sidePackets));
          assert Cleaned()[index].inputs == generators[index].inputs;
          SchedulingIsSound(Cleaned(), given, sidePackets, scheduledGenerators, appThreadTasks, busy, index);
          SchedulingKeepsWaiting(Clashing(generators, given, before), scheduledGenerators, appThreadTasks, busy, task);
          OneLessUnscheduled(scheduledGenerators, index);
          appThreadTasks := appThreadTasks + [task];
          scheduledGenerators := scheduledGenerators[index := true];
          numTasks := numTasks + 1;
        }
        index := index + 1;
      }
    }

    /** Just a clashing generator finds its name taken. */
    ghost predicate FindsItsName(task: Task)
      requires task.gen < |generators|
      reads this
    {
      !(generators[task.gen].outputs !! sidePackets.Keys)
    }

    lemma {:induction false} TwiceIffClashing(task: Task)
      requires Consistent({task.gen}) && !hasError && Ready(Cleaned(), sidePackets, task)
      ensures FindsItsName(task) <==> task.gen in Clashing(generators, given, before)
    {
      var g := task.gen;
      if g in Clashing(generators, given, before) {
        var x :| x in generators[g].outputs && x in given;
        assert x in sidePackets;
      } else {
        assert Cleaned()[g] == generators[g];
      }
    }

    method GenerateAndScheduleNext(task: Task)
      requires Valid({task.gen}) && (!hasError ==> Ready(Cleaned(), sidePackets, task))
      modifies this
      ensures Consistent({}) && numTasks == |appThreadTasks| + 1 && (!hasError ==> AllScanned())
      ensures Remaining() == old(Remaining())
    {
      if hasError { return; }
      var outputs := generators[task.gen].generate(task.inputs);
      TwiceIffClashing(task);
      assert Cleaned()[task.gen].inputs == generators[task.gen].inputs;
      if !(outputs.Keys !! sidePackets.Keys) {
        ClashIsCertain(generators, given, before, sidePackets, task.gen);
        hasError := true;
        sidePackets := outputs + sidePackets;
        return;
      }
      assert Cleaned()[task.gen] == generators[task.gen];
      CleanIsWellFormed(generators, given, before);
      PublishingIsSound(Cleaned(), given, sidePackets, scheduledGenerators, appThreadTasks, task);
      assert outputs + sidePackets == sidePackets + outputs;
      sidePackets := outputs + sidePackets;
      numTasks := numTasks - 1;
      ScheduleAllRunnableGenerators({});
      numTasks := numTasks + 1;
    }

    method RunApplicationThreadTasks()
      requires Valid({}) && (!hasError ==> AllScanned())
      modifies this
      ensures Valid({}) && (!hasError ==> AllScanned()) && appThreadTasks == []
    {
      while appThreadTasks != []
        invariant Valid({}) && (!hasError ==> AllScanned())
        decreases Remaining()
      {
        var task := appThreadTasks[0];
        if !hasError {
          TakingIsSound(Cleaned(), given, sidePackets, scheduledGenerators, appThreadTasks);
          TakingKeepsWaiting(Clashing(generators, given, before), scheduledGenerators, appThreadTasks);
        }
        appThreadTasks := appThreadTasks[1..];
        GenerateAndScheduleNext(task);
        numTasks := numTasks - 1;
      }
    }

    method GetNonScheduledGenerators() returns (ok: bool, nonScheduled: seq<nat>)
      ensures ok == !hasError
      ensures ok ==> forall g: nat :: g in nonScheduled <==> g < |scheduledGenerators| && !scheduledGenerators[g]
    {
      nonScheduled := [];
      if hasError { return false, nonScheduled; }
      var i := 0;
      while i < |scheduledGenerators|
        invariant i <= |scheduledGenerators|
        invariant forall g: nat :: g in nonScheduled <==> g < i && !scheduledGenerators[g]
      {
        if !scheduledGenerators[i] { nonScheduled := nonScheduled + [i]; }
        i := i + 1;
      }
      ok := true;
    }

    /** What an execution without error has come to. */
    lemma {:induction false} Finished()
      requires Consistent({}) && AllScanned() && appThreadTasks == [] && !hasError
      ensures Succeeds(generators, given, before, sidePackets) && !MustClash(generators, given, before)
      ensures forall g: nat :: g < |generators| ==>
                && (scheduledGenerators[g] <==> Runnable(generators[g], sidePackets))
                && (scheduledGenerators[g] ==> Ran(generators[g], sidePackets))
                && (!scheduledGenerators[g] && g !in Clashing(generators, given, before) ==>
                      generators[g].outputs !! sidePackets.Keys)
    {
      var d := Cleaned();
      assert Scanned(d, sidePackets, scheduledGenerators, |d|);
      forall g: nat | g < |d|
        ensures scheduledGenerators[g] <==> Runnable(d[g], sidePackets)
        ensures scheduledGenerators[g] ==> Ran(d[g], sidePackets)
        ensures !scheduledGenerators[g] ==> d[g].outputs !! sidePackets.Keys
      {
        FinishedIsLeast(d, given, sidePackets, scheduledGenerators, g);
      }
      CleanIsEnough(generators, given, before, sidePackets);
    }
  }

  /** No given packet has a name that a generator or, in `others`, a calculator declares. */
  predicate Acceptable(c: seq<Gen>, others: set<nat>, given: Packets) {
    others !! given.Keys && forall g :: 0 <= g < |c| ==> c[g].outputs !! given.Keys
  }

  /** The required packets are there, and all there are have the types that their consumers ask for. */
  predicate Satisfied(required: set<nat>, accepts: (nat, int) -> bool, p: Packets) {
    required <= p.Keys && forall x :: x in p ==> accepts(x, p[x])
  }

  /** Either phase is then a proper start for executions on any executor, by which nothing is defined twice. */
  lemma {:induction false} AcceptableIsPrepared(c: seq<Gen>, others: set<nat>, base: Packets, given: Packets,
                                                candidates: seq<nat>)
    requires Acceptable(c, others, given) && Split(c, base, candidates) && base.Keys !! given.Keys
    ensures Prepared(c, given, NoneRun(c)) && Prepared(c, base + given, RunBefore(c, candidates))
  {
    forall g: nat | g < |c| && g !in candidates ensures Ran(c[g], base + given) { RanStays(c[g], base, base + given); }
  }

  /** Among acceptable packets, one is found to be given twice only if it was given in both phases. */
  lemma {:induction false} GivenTwiceIff(c: seq<Gen>, others: set<nat>, a: Packets, b: Packets, base: Packets)
    requires WellFormed(c) && Acceptable(c, others, b) && IsLeastSolution(c, a, base)
    ensures base.Keys !! b.Keys <==> a.Keys !! b.Keys
  {
    forall x | x in base && x !in a ensures x !in b {
      SomeoneDelivered(c, a, base, x);
      var g :| 0 <= g < |c| && Runnable(c[g], base) && x in c[g].outputs;
    }
    assert forall x :: x in a ==> x in base;
  }

  /** What is acceptable clashes with nothing: the error inside an execution is never met. */
  lemma {:induction false} AcceptableNeverClashes(c: seq<Gen>, others: set<nat>, base: Packets, given: Packets,
                                                  candidates: seq<nat>)
    requires Acceptable(c, others, given) && Split(c, base, candidates)
    ensures Clashing(c, given, NoneRun(c)) == {} && !MustClash(c, given, NoneRun(c))
    ensures Clashing(c, base + given, RunBefore(c, candidates)) == {}
    ensures !MustClash(c, base + given, RunBefore(c, candidates))
  {}

  /** The generators not in `candidates` have run on the packets `p`, and the outputs of the others are missing. */
  predicate Split(c: seq<Gen>, p: Packets, candidates: seq<nat>) {
    OthersRan(c, p, candidates) && forall g: nat :: g < |c| && g in candidates ==> c[g].outputs !! p.Keys
  }

  /** The generators not in `candidates` have run, on the packets `p`. */
  predicate OthersRan(c: seq<Gen>, p: Packets, candidates: seq<nat>) {
    forall g: nat :: g < |c| && g !in candidates ==> Ran(c[g], p)
  }

  function RunBefore(c: seq<Gen>, candidates: seq<nat>): (before: seq<bool>)
    ensures |before| == |c|
  {
    seq(|c|, g => g !in candidates)
  }

  class PacketGeneratorGraph {
    const generators: seq<Gen>
    const calculatorOutputs: set<nat>
    const required: set<nat>
    const accepts: (nat, int) -> bool
    var basePackets: Packets
    var nonBaseGenerators: seq<nat>

    /** `calculatorOutputs` are the side packets that calculators declare, `required` those that no generator
        delivers and some consumer needs, and `accepts` is the type check of all consumers together. */
    constructor (generators: seq<Gen>, calculatorOutputs: set<nat>, required: set<nat>, accepts: (nat, int) -> bool)
      ensures this.generators == generators && this.calculatorOutputs == calculatorOutputs
      ensures this.required == required && this.accepts == accepts
    {
      this.generators, this.calculatorOutputs := generators, calculatorOutputs;
      this.required, this.accepts := required, accepts;
      basePackets, nonBaseGenerators := map[], [];
    }

    method CanAcceptSidePackets(sidePackets: Packets) returns (ok: bool)
      ensures ok == Acceptable(generators, calculatorOutputs, sidePackets)
    {
      var index := 0;
      while index < |generators|
        invariant index <= |generators|
        invariant forall g :: 0 <= g < index ==> generators[g].outputs !! sidePackets.Keys
      {
        if !(generators[index].outputs !! sidePackets.Keys) { return false; }
        index := index + 1;
      }
      ok := calculatorOutputs !! sidePackets.Keys;
    }

    /** Runs what can be run on the given packets, of all generators at first and then of the candidates,
        which are those not run before. Fails exactly if a packet gets defined twice. */
    method ExecuteGenerators(given: Packets, candidates: seq<nat>, initial: bool)
      returns (ok: bool, packets: Packets, nonScheduled: seq<nat>)
      requires WellFormed(generators) && (!initial ==> OthersRan(generators, given, candidates))
      ensures var before := if initial then NoneRun(generators) else RunBefore(generators, candidates);
              && (ok <==> !MustClash(generators, given, before))
              && (ok ==> Succeeds(generators, given, before, packets))
              && (ok && Clashing(generators, given, before) == {} ==> Split(generators, packets, nonScheduled))
      ensures ok ==> OthersRan(generators, packets, nonScheduled)
      ensures ok ==> forall g: nat :: g in nonScheduled <==> g < |generators| && !Runnable(generators[g], packets)
    {
      var scheduled := if initial then NoneRun(generators) else RunBefore(generators, candidates);
      var scheduler := new GeneratorScheduler(generators, given, scheduled);
      scheduler.ScheduleAllRunnableGenerators({});
      scheduler.RunApplicationThreadTasks();
      packets := scheduler.sidePackets;
      ok, nonScheduled := scheduler.GetNonScheduledGenerators();
      if ok { scheduler.Finished(); }
    }

    /** Fails exactly if a packet is given that some node declares. */
    method Initialize(inputSidePackets: Packets) returns (ok: bool)
      requires WellFormed(generators)
      modifies this
      ensures ok == Acceptable(generators, calculatorOutputs, inputSidePackets)
      ensures ok ==> IsLeastSolution(generators, inputSidePackets, basePackets)
      ensures ok ==> RunBefore(generators, nonBaseGenerators) == RunOn(generators, basePackets)
      ensures ok ==> Split(generators, basePackets, nonBaseGenerators)
    {
      basePackets := inputSidePackets;
      ok := CanAcceptSidePackets(inputSidePackets);
      if !ok { return; }
      ok, basePackets, nonBaseGenerators := ExecuteGenerators(inputSidePackets, [], true);
    }

    /** After a successful `Initialize`. Fails exactly if a packet is given twice or declared by some node, or
        if a required packet is missing or of a wrong type. */
    method RunGraphSetup(inputSidePackets: Packets) returns (ok: bool, packets: Packets, nonScheduled: seq<nat>)
      requires WellFormed(generators) && Split(generators, basePackets, nonBaseGenerators)
      ensures ok <==>
              && basePackets.Keys !! inputSidePackets.Keys
              && Acceptable(generators, calculatorOutputs, inputSidePackets)
              && Satisfied(required, accepts, basePackets + inputSidePackets)
      ensures ok ==> IsLeastSolution(generators, basePackets + inputSidePackets, packets)
      ensures ok ==> forall g: nat :: g in nonScheduled <==> g < |generators| && !Runnable(generators[g], packets)
    {
      packets, nonScheduled := basePackets, [];
      if !(basePackets.Keys !! inputSidePackets.Keys) { return false, packets, nonScheduled; }
      packets := basePackets + inputSidePackets;
      ok := CanAcceptSidePackets(inputSidePackets);
      if !ok || !Satisfied(required, accepts, packets) { return false, packets, nonScheduled; }
      AcceptableNeverClashes(generators, calculatorOutputs, basePackets, inputSidePackets, nonBaseGenerators);
      forall g: nat | g < |generators| && g !in nonBaseGenerators ensures Ran(generators[g], packets) {
        RanStays(generators[g], basePackets, packets);
      }
      ok, packets, nonScheduled := ExecuteGenerators(packets, nonBaseGenerators, false);
    }
  }
}
