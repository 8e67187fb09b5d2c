/** The history of an output stream: all that the calculator has written, in order, and legal for every
    reader. */
module OutputHistories {
  import opened Timestamps
  import opened Options
  import opened Streams
  import opened OutputStreams
  import R = StreamRuns
  import O = OutputRuns

  /** The packets that the calculator has written, call after call. */
  function Emitted(steps: seq<O.Step>): seq<Packet> {
    if steps == [] then [] else
    Emitted(steps[..|steps| - 1]) + if steps[|steps| - 1].Emit? then [steps[|steps| - 1].packet] else []
  }

  /** What the running call has written is still in its shard. */
  function Pending(s: O.State): seq<Packet> {
    if s.phase.Running? then s.phase.shard.queue else []
  }

  lemma {:induction false} StepMovesPackets(spec: Spec, s: O.State, step: O.Step)
    requires O.Enabled(spec, s, step)
    ensures var s' := O.Do(spec, s, step);
            s'.sent + Pending(s') == s.sent + Pending(s) + if step.Emit? then [step.packet] else []
  {}

  /** Nothing that a calculator writes is lost, doubled or reordered: what was sent and what the running
      call has in its shard is what it has written. */
  lemma {:induction false} SentIsEmitted(spec: Spec, states: seq<O.State>, steps: seq<O.Step>, i: nat)
    requires O.IsRun(spec, states, steps) && i < |states|
    ensures states[i].sent + Pending(states[i]) == Emitted(steps[..i])
  {
    if i > 0 {
      SentIsEmitted(spec, states, steps, i - 1);
      StepMovesPackets(spec, states[i - 1], steps[i - 1]);
      assert steps[..i][..i - 1] == steps[..i - 1];
    }
  }

  lemma {:induction false} EmittedGrows(steps: seq<O.Step>, i: nat)
    requires i <= |steps|
    ensures Emitted(steps[..i]) <= Emitted(steps)
    decreases |steps|
  {
    if i < |steps| {
      assert steps[..|steps| - 1][..i] == steps[..i];
      EmittedGrows(steps[..|steps| - 1], i);
    } else {
      assert steps[..i] == steps;
    }
  }

  ghost predicate Written(s: O.State) {
    && R.LegalPast(s.sent) && (forall j :: 0 <= j < |s.sent| ==> s.sent[j].content.Some?)
    && O.LastBound(s.sent, PRE_STREAM) <= s.bound
    && forall j :: 0 <= j < |Pending(s)| ==> Pending(s)[j].content.Some?
  }

  /** Packets that every mirror accepts after the bound that the packets before them imply. */
  lemma {:induction false} MoreIsLegal(sent: seq<Packet>, packets: seq<Packet>, from: Timestamp, mirrors: seq<Stream>)
    requires R.LegalPast(sent) && O.LastBound(sent, PRE_STREAM) <= from && O.Sendable(packets, from, |sent|, mirrors)
    ensures R.LegalPast(sent + packets)
  {
    if sent != [] && packets != [] {
      var last := sent[|sent| - 1];
      assert last.timestamp < NextAllowedInStream(last.timestamp) <= packets[0].timestamp;
      var all := sent + packets;
      forall i, j | 0 <= i < j < |all| ensures all[i].timestamp < all[j].timestamp {
        assert i < |sent| ==> sent[i].timestamp <= last.timestamp;
        assert j >= |sent| ==> from <= packets[j - |sent|].timestamp;
      }
    } else {
      assert sent == [] ==> sent + packets == packets;
      assert packets == [] ==> sent + packets == sent;
    }
  }

  lemma {:induction false} SendingKeepsWritten(s: O.State, s': O.State)
    requires O.Inv(s) && O.Inv(s') && Written(s) && s'.phase.Sending? && s'.phase.from == s.bound
    requires s'.sent == s.sent + s'.phase.packets
    requires forall j :: 0 <= j < |s'.phase.packets| ==> s'.phase.packets[j].content.Some?
    ensures Written(s')
  {
    var packets := s'.phase.packets;
    assert |s'.sent| - |packets| == |s.sent|;
    MoreIsLegal(s.sent, packets, s.bound, s'.mirrors);
    if packets != [] { assert s'.sent[|s'.sent| - 1] == packets[|packets| - 1]; } else { assert s'.sent == s.sent; }
  }

  predicate StartsSending(s: O.State, step: O.Step) {
    step.End? || step.EndLast? || step.Advance? || (step.Sent? && s.phase.Sending? && s.phase.last)
  }

  lemma {:induction false} StartSends(spec: Spec, s: O.State, step: O.Step)
    requires O.Enabled(spec, s, step) && StartsSending(s, step)
    ensures var s' := O.Do(spec, s, step);
            && s'.phase.Sending? && s'.phase.from == s.bound
            && s'.phase.packets == Pending(s) && s'.sent == s.sent + Pending(s)
  {}

  lemma {:induction false} OthersSendNothing(spec: Spec, s: O.State, step: O.Step)
    requires O.Enabled(spec, s, step) && !StartsSending(s, step)
    ensures var s' := O.Do(spec, s, step);
            && s'.sent == s.sent && s'.bound == s.bound
            && forall p :: p in Pending(s') ==> p in Pending(s) || p.content.Some?
  {}

  lemma {:induction false} StepKeepsWritten(spec: Spec, s: O.State, step: O.Step, next: O.State)
    requires O.Inv(s) && O.Enabled(spec, s, step) && Written(s) && next == O.Do(spec, s, step) && O.Inv(next)
    ensures Written(next)
  {
    if StartsSending(s, step) {
      StartSends(spec, s, step);
      SendingKeepsWritten(s, next);
    } else {
      OthersSendNothing(spec, s, step);
      forall j | 0 <= j < |Pending(next)| ensures Pending(next)[j].content.Some? {
        assert Pending(next)[j] in Pending(next);
      }
    }
  }

  /** In every run all packets sent are legal for one stream, and not empty. */
  lemma {:induction false} SentIsLegal(spec: Spec, states: seq<O.State>, steps: seq<O.Step>, i: nat)
    requires O.IsRun(spec, states, steps) && i < |states|
    ensures O.Inv(states[i]) && Written(states[i])
  {
    if i > 0 {
      SentIsLegal(spec, states, steps, i - 1);
      O.StepKeepsInv(spec, states[i - 1], steps[i - 1]);
      StepKeepsWritten(spec, states[i - 1], steps[i - 1], states[i]);
    }
  }
}
