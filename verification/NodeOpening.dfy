/** How one node comes to be opened: when all headers of its inputs and all its missing side packets
    have arrived, from whichever threads and in whichever order, it is scheduled for open once. */
module NodeOpening {
  /** One thing the node waits for: a header of each input that is not a back edge, or a side packet.
      `missing` is the atomic count; `owed` counts threads that brought it to zero and still owe the
      call that sets `ready`. */
  datatype Supply = Supply(arrived: seq<bool>, missing: int, owed: nat, called: bool, ready: bool)

  /** `openOwed` counts threads that found both supplies ready and owe the scheduling; `opens` is how
      often the node was scheduled for open. */
  datatype State = State(headers: Supply, packets: Supply, scanned: bool, openOwed: nat, opens: nat, isOpen: bool)

  datatype Step =
    | Scan                 // before the run starts, nodes that wait for nothing are scheduled
    | Header(i: nat)
    | SidePacket(i: nat)
    | HeadersReady
    | SidePacketsReady
    | Schedule
    | Open                 // an executor thread opens the node

  predicate MayArrive(s: Supply, i: nat) {
    i < |s.arrived| && !s.arrived[i]
  }

  function Arrive(s: Supply, i: nat): Supply
    requires i < |s.arrived|
  {
    s.(arrived := s.arrived[i := true], missing := s.missing - 1, owed := if s.missing == 1 then s.owed + 1 else s.owed)
  }

  /** Arrivals come after the scan: the run has not started before it, and graph inputs propagate
      their headers after it. */
  predicate Enabled(s: State, step: Step) {
    match step
    case Scan => !s.scanned
    case Header(i) => s.scanned && MayArrive(s.headers, i)
    case SidePacket(i) => s.scanned && MayArrive(s.packets, i)
    case HeadersReady => s.headers.owed > 0
    case SidePacketsReady => s.packets.owed > 0
    case Schedule => s.openOwed > 0
    case Open => s.opens > 0 && !s.isOpen
  }

  function Called(s: Supply): Supply
    requires s.owed > 0
  {
    s.(owed := s.owed - 1, called := true, ready := true)
  }

  function Do(s: State, step: Step): State
    requires Enabled(s, step)
  {
    match step
    case Scan => s.(scanned := true, opens := if s.headers.ready && s.packets.ready then s.opens + 1 else s.opens)
    case Header(i) => s.(headers := Arrive(s.headers, i))
    case SidePacket(i) => s.(packets := Arrive(s.packets, i))
    case HeadersReady =>
      s.(headers := Called(s.headers), openOwed := if s.packets.ready then s.openOwed + 1 else s.openOwed)
    case SidePacketsReady =>
      s.(packets := Called(s.packets), openOwed := if s.headers.ready then s.openOwed + 1 else s.openOwed)
    case Schedule => s.(openOwed := s.openOwed - 1, opens := s.opens + 1)
    case Open => s.(isOpen := true)
  }

  /** The CHECKs of the code: counts stay positive until everything has arrived, and each ready call
      comes once, to a node that is not open yet. */
  predicate Safe(s: State, step: Step) {
    match step
    case Header(_) => s.headers.missing > 0
    case SidePacket(_) => s.packets.missing > 0
    case HeadersReady => !s.headers.called && !s.isOpen
    case SidePacketsReady => !s.packets.called && !s.isOpen
    case _ => true
  }

  function Awaited(arrived: seq<bool>): nat {
    if arrived == [] then 0 else Awaited(arrived[..|arrived| - 1]) + if arrived[|arrived| - 1] then 0 else 1
  }

  predicate Fresh(s: Supply) {
    && (forall i :: 0 <= i < |s.arrived| ==> !s.arrived[i])
    && s == Supply(s.arrived, |s.arrived|, 0, false, |s.arrived| == 0)
  }

  predicate Init(s: State) {
    Fresh(s.headers) && Fresh(s.packets) && !s.scanned && !s.isOpen && s.openOwed == s.opens == 0
  }

  /** A supply is ready exactly if nothing is awaited and the call, if it was ever needed, was made. */
  predicate SupplyInv(s: Supply) {
    && s.missing == Awaited(s.arrived) && s.owed <= 1
    && (if s.missing > 0 then s.owed == 0 && !s.called && !s.ready
        else (s.owed == 1 && !s.called && !s.ready) || (s.owed == 0 && s.ready))
  }

  predicate Inv(s: State) {
    && SupplyInv(s.headers) && SupplyInv(s.packets)
    && s.opens + s.openOwed == (if s.scanned && s.headers.ready && s.packets.ready then 1 else 0)
    && (s.isOpen ==> s.opens == 1)
    && (!s.scanned ==> s.headers.owed == s.packets.owed == 0)
  }

  lemma {:induction false} OneArrives(arrived: seq<bool>, i: nat)
    requires i < |arrived| && !arrived[i]
    ensures Awaited(arrived[i := true]) == Awaited(arrived) - 1
  {
    var n := |arrived| - 1;
    if i == n {
      assert arrived[i := true][..n] == arrived[..n];
    } else {
      OneArrives(arrived[..n], i);
      assert arrived[i := true][..n] == arrived[..n][i := true];
    }
  }

  lemma {:induction false} NoneArrived(arrived: seq<bool>)
    requires forall i :: 0 <= i < |arrived| ==> !arrived[i]
    ensures Awaited(arrived) == |arrived|
  {
    if arrived != [] { NoneArrived(arrived[..|arrived| - 1]); }
  }

  lemma {:induction false} AllArrived(arrived: seq<bool>)
    requires forall i :: 0 <= i < |arrived| ==> arrived[i]
    ensures Awaited(arrived) == 0
  {
    if arrived != [] { AllArrived(arrived[..|arrived| - 1]); }
  }

  lemma {:induction false} StepKeepsInv(s: State, step: Step)
    requires Inv(s) && Enabled(s, step)
    ensures Safe(s, step) && Inv(Do(s, step))
  {
    match step
    case Header(i) => OneArrives(s.headers.arrived, i);
    case SidePacket(i) => OneArrives(s.packets.arrived, i);
    case _ =>
  }

  ghost predicate IsRun(states: seq<State>, steps: seq<Step>) {
    && |states| == |steps| + 1 && Init(states[0])
    && forall i :: 0 <= i < |steps| ==> Enabled(states[i], steps[i]) && states[i + 1] == Do(states[i], steps[i])
  }

  lemma {:induction false} RunKeepsInv(states: seq<State>, steps: seq<Step>, i: nat)
    requires IsRun(states, steps) && i < |states|
    ensures Inv(states[i])
  {
    if i == 0 {
      NoneArrived(states[0].headers.arrived);
      NoneArrived(states[0].packets.arrived);
    } else {
      RunKeepsInv(states, steps, i - 1);
      StepKeepsInv(states[i - 1], steps[i - 1]);
    }
  }

  predicate Complete(s: Supply) {
    forall i :: 0 <= i < |s.arrived| ==> s.arrived[i]
  }

  /** In every run the node is scheduled for open at most once, never before all it waits for is there,
      and no check of the code fails. Once everything has arrived and no thread owes anything, it has
      been scheduled exactly once. */
  lemma {:induction false} OpenedOnceWhenReady(states: seq<State>, steps: seq<Step>, i: nat)
    requires IsRun(states, steps) && i < |states|
    ensures var s := states[i];
            && s.opens <= 1
            && (s.opens == 1 ==> s.headers.missing == s.packets.missing == 0)
            && (s.scanned && Complete(s.headers) && Complete(s.packets)
                && s.headers.owed == s.packets.owed == s.openOwed == 0
                ==> s.opens == 1)
    ensures i < |steps| ==> Safe(states[i], steps[i])
  {
    var s := states[i];
    RunKeepsInv(states, steps, i);
    if Complete(s.headers) { AllArrived(s.headers.arrived); }
    if Complete(s.packets) { AllArrived(s.packets.arrived); }
    if i < |steps| { StepKeepsInv(s, steps[i]); }
  }
}

/** The objects behind it: the side packet handler with its slots and missing count, and the node's
    flags under its status mutex. */
module NodeOpeningObjects {
  import opened NodeOpening
  import opened Options

  class InputSidePacketHandler {
    var inputSidePackets: seq<Option<int>>
    var missingInputSidePacketCount: int
    const accepts: seq<int -> bool>

    ghost predicate Valid()
      reads this
    {
      |accepts| == |inputSidePackets| && missingInputSidePacketCount == Awaited(Filled(inputSidePackets))
    }

    /** `packets` are the ones provided before the run; the count is that of the empty slots. */
    constructor (packets: seq<Option<int>>, accepts: seq<int -> bool>)
      requires |accepts| == |packets|
      ensures Valid() && inputSidePackets == packets && this.accepts == accepts
    {
      this.accepts := accepts;
      inputSidePackets := packets;
      var missing, i := 0, 0;
      while i < |packets|
        invariant i <= |packets| && missing == Awaited(Filled(packets[..i]))
      {
        assert packets[..i + 1] == packets[..i] + [packets[i]];
        FilledLast(packets[..i], packets[i]);
        if packets[i].None? { missing := missing + 1; }
        i := i + 1;
      }
      assert packets[..i] == packets;
      missingInputSidePacketCount := missing;
    }

    /** Fails, changing nothing, if nothing is missing, the slot is taken or the type is wrong. The
        packet that fills the last slot obliges the caller to report readiness. */
    method Set(id: nat, packet: int) returns (ok: bool, callReady: bool)
      requires Valid() && id < |inputSidePackets|
      modifies this
      ensures Valid() && |inputSidePackets| == |old(inputSidePackets)|
      ensures ok <==> old(inputSidePackets)[id].None? && accepts[id](packet)
      ensures inputSidePackets == if ok then old(inputSidePackets)[id := Some(packet)] else old(inputSidePackets)
      ensures callReady <==> ok && AllFilled(inputSidePackets)
    {
      FilledCount(inputSidePackets);
      if missingInputSidePacketCount <= 0 { return false, false; }
      if inputSidePackets[id].Some? { return false, false; }
      if !accepts[id](packet) { return false, false; }
      OneArrives(Filled(inputSidePackets), id);
      assert Filled(inputSidePackets[id := Some(packet)]) == Filled(inputSidePackets)[id := true];
      inputSidePackets := inputSidePackets[id := Some(packet)];
      FilledCount(inputSidePackets);
      callReady := missingInputSidePacketCount == 1;
      missingInputSidePacketCount := missingInputSidePacketCount - 1;
      ok := true;
    }
  }

  function Filled(packets: seq<Option<int>>): (a: seq<bool>)
    ensures |a| == |packets|
  {
    seq(|packets|, i requires 0 <= i < |packets| => packets[i].Some?)
  }

  predicate AllFilled(packets: seq<Option<int>>) {
    forall i :: 0 <= i < |packets| ==> packets[i].Some?
  }

  lemma {:induction false} FilledLast(packets: seq<Option<int>>, p: Option<int>)
    ensures Awaited(Filled(packets + [p])) == Awaited(Filled(packets)) + if p.Some? then 0 else 1
  {
    assert Filled(packets + [p])[..|packets|] == Filled(packets);
  }

  /** The count is zero exactly if every slot is filled. */
  lemma {:induction false} FilledCount(packets: seq<Option<int>>)
    ensures Awaited(Filled(packets)) == 0 <==> AllFilled(packets)
  {
    if packets != [] {
      var n := |packets| - 1;
      assert packets == packets[..n] + [packets[n]];
      FilledLast(packets[..n], packets[n]);
      FilledCount(packets[..n]);
    }
  }

  class NodeReadiness {
    var headersReadyCalled: bool
    var headersReady: bool
    var sidePacketsReadyCalled: bool
    var sidePacketsReady: bool

    constructor (unsetHeaderCount: nat, missingSidePacketCount: nat)
      ensures headersReady == (unsetHeaderCount == 0) && sidePacketsReady == (missingSidePacketCount == 0)
      ensures !headersReadyCalled && !sidePacketsReadyCalled
    {
      headersReadyCalled, sidePacketsReadyCalled := false, false;
      headersReady, sidePacketsReady := unsetHeaderCount == 0, missingSidePacketCount == 0;
    }

    method InputStreamHeadersReady() returns (readyForOpen: bool)
      requires !headersReadyCalled
      modifies this`headersReadyCalled, this`headersReady
      ensures headersReadyCalled && headersReady && readyForOpen == sidePacketsReady
    {
      headersReadyCalled, headersReady := true, true;
      readyForOpen := sidePacketsReady;
    }

    method InputSidePacketsReady() returns (readyForOpen: bool)
      requires !sidePacketsReadyCalled
      modifies this`sidePacketsReadyCalled, this`sidePacketsReady
      ensures sidePacketsReadyCalled && sidePacketsReady && readyForOpen == headersReady
    {
      sidePacketsReadyCalled, sidePacketsReady := true, true;
      readyForOpen := headersReady;
    }
  }
}
