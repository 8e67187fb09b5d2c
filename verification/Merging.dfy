/** The reference meaning of input synchronisation: the timestamp merge-join of the complete
    packet histories of a node's input streams. */
module Merging {
  import opened Timestamps
  import opened Options
  import opened Streams
  import opened StreamRuns

  /** What one invocation sees: a time, and for each stream its packet at that time, if any. */
  datatype InputSet = InputSet(time: Timestamp, slots: seq<Option<Packet>>)

  function Slot(h: seq<Packet>, t: Timestamp): Option<Packet> {
    if h != [] && h[0].timestamp == t then Some(h[0]) else None
  }

  function Beyond(h: seq<Packet>, t: Timestamp): seq<Packet> {
    if h != [] && h[0].timestamp == t then h[1..] else h
  }

  function Slots(hs: seq<seq<Packet>>, t: Timestamp): seq<Option<Packet>> {
    seq(|hs|, i requires 0 <= i < |hs| => Slot(hs[i], t))
  }

  function Rest(hs: seq<seq<Packet>>, t: Timestamp): seq<seq<Packet>> {
    seq(|hs|, i requires 0 <= i < |hs| => Beyond(hs[i], t))
  }

  ghost predicate AllEmpty(hs: seq<seq<Packet>>) {
    forall i :: 0 <= i < |hs| ==> hs[i] == []
  }

  /** The earliest head of the histories, or DONE when there is none. */
  function Earliest(hs: seq<seq<Packet>>): (t: Timestamp)
    ensures forall i :: 0 <= i < |hs| && hs[i] != [] ==> t <= hs[i][0].timestamp
    ensures t == DONE || exists i :: 0 <= i < |hs| && hs[i] != [] && hs[i][0].timestamp == t
    ensures !AllEmpty(hs) ==> exists i :: 0 <= i < |hs| && hs[i] != [] && hs[i][0].timestamp == t
  {
    if hs == [] then DONE else
    var n := |hs| - 1;
    var t := Earliest(hs[..n]);
    assert forall i :: 0 <= i < n ==> hs[..n][i] == hs[i];
    if hs[n] != [] && hs[n][0].timestamp <= t then hs[n][0].timestamp else t
  }

  function Total(hs: seq<seq<Packet>>): nat {
    if hs == [] then 0 else Total(hs[..|hs| - 1]) + |hs[|hs| - 1]|
  }

  lemma {:induction false} RestShrinks(hs: seq<seq<Packet>>, t: Timestamp)
    ensures Total(Rest(hs, t)) <= Total(hs)
    ensures (exists i :: 0 <= i < |hs| && hs[i] != [] && hs[i][0].timestamp == t) ==> Total(Rest(hs, t)) < Total(hs)
  {
    if hs != [] {
      var n := |hs| - 1;
      RestShrinks(hs[..n], t);
      assert Rest(hs, t)[..n] == Rest(hs[..n], t);
      if i :| 0 <= i < |hs| && hs[i] != [] && hs[i][0].timestamp == t {
        if i < n { assert hs[..n][i] == hs[i]; }
      }
    }
  }

  ghost function Merge(hs: seq<seq<Packet>>): seq<InputSet>
    decreases Total(hs)
  {
    if AllEmpty(hs) then [] else
    var t := Earliest(hs);
    RestShrinks(hs, t);
    [InputSet(t, Slots(hs, t))] + Merge(Rest(hs, t))
  }

  predicate HasPacket(set_: InputSet) {
    exists i :: 0 <= i < |set_.slots| && set_.slots[i].Some?
  }

  /** The packets that the input sets deliver to stream `i`, in order. */
  function Column(m: seq<InputSet>, i: nat): seq<Packet>
    requires forall k :: 0 <= k < |m| ==> i < |m[k].slots|
  {
    if m == [] then [] else (if m[0].slots[i].Some? then [m[0].slots[i].value] else []) + Column(m[1..], i)
  }

  ghost predicate Ascending(m: seq<InputSet>) {
    forall k, l :: 0 <= k < l < |m| ==> m[k].time < m[l].time
  }

  /** The four facts that make a sequence of input sets the merge-join of histories: every set has
      the right width and some packet, packets stand at their own time, times strictly increase,
      and each stream's packets are delivered exactly once and in order. */
  ghost predicate IsJoin(m: seq<InputSet>, hs: seq<seq<Packet>>) {
    && (forall k :: 0 <= k < |m| ==> |m[k].slots| == |hs| && HasPacket(m[k]))
    && (forall k, i :: 0 <= k < |m| && 0 <= i < |hs| && m[k].slots[i].Some? ==>
          m[k].slots[i].value.timestamp == m[k].time)
    && Ascending(m)
    && forall i :: 0 <= i < |hs| ==> Column(m, i) == hs[i]
  }

  ghost predicate NotBefore(h: seq<Packet>, t: Timestamp) {
    forall i :: 0 <= i < |h| ==> t <= h[i].timestamp
  }

  ghost predicate LaterThan(h: seq<Packet>, t: Timestamp) {
    forall i :: 0 <= i < |h| ==> t < h[i].timestamp
  }

  ghost predicate HasHead(hs: seq<seq<Packet>>, t: Timestamp) {
    exists i :: 0 <= i < |hs| && hs[i] != [] && hs[i][0].timestamp == t
  }

  lemma {:induction false} ColumnIsLater(m: seq<InputSet>, n: nat, i: nat, t: Timestamp)
    requires i < n && forall k :: 0 <= k < |m| ==> |m[k].slots| == n && t < m[k].time
    requires forall k :: 0 <= k < |m| && m[k].slots[i].Some? ==> m[k].slots[i].value.timestamp == m[k].time
    ensures LaterThan(Column(m, i), t)
  {
    if m != [] { ColumnIsLater(m[1..], n, i, t); }
  }

  lemma {:induction false} HeadOfJoin(m: seq<InputSet>, hs: seq<seq<Packet>>, i: nat)
    requires IsJoin(m, hs) && m != [] && i < |hs|
    ensures m[0].slots[i] == Slot(hs[i], m[0].time) && Column(m[1..], i) == Beyond(hs[i], m[0].time)
    ensures hs[i] != [] ==> m[0].time <= hs[i][0].timestamp
  {
    ColumnIsLater(m[1..], |hs|, i, m[0].time);
    assert Column(m, i) == hs[i];
  }

  lemma {:induction false} TailOfJoin(m: seq<InputSet>, hs: seq<seq<Packet>>)
    requires IsJoin(m, hs) && m != []
    ensures IsJoin(m[1..], Rest(hs, m[0].time))
  {
    forall i | 0 <= i < |hs| ensures Column(m[1..], i) == Rest(hs, m[0].time)[i] {
      HeadOfJoin(m, hs, i);
    }
  }

  lemma {:induction false} FirstOfJoin(m: seq<InputSet>, hs: seq<seq<Packet>>)
    requires IsJoin(m, hs) && m != []
    ensures !AllEmpty(hs) && m[0] == InputSet(Earliest(hs), Slots(hs, Earliest(hs)))
  {
    var t := m[0].time;
    forall i | 0 <= i < |hs|
      ensures m[0].slots[i] == Slot(hs[i], t) && (hs[i] != [] ==> t <= hs[i][0].timestamp)
    {
      HeadOfJoin(m, hs, i);
    }
    var i :| 0 <= i < |m[0].slots| && m[0].slots[i].Some?;
    assert hs[i] != [] && hs[i][0].timestamp == t == Earliest(hs);
  }

  lemma {:induction false} NoSets(hs: seq<seq<Packet>>)
    requires IsJoin([], hs)
    ensures Merge(hs) == []
  {
    assert forall i :: 0 <= i < |hs| ==> Column([], i) == hs[i];
  }

  /** The merge-join is determined by those four facts. */
  lemma {:induction false} JoinIsUnique(m: seq<InputSet>, hs: seq<seq<Packet>>)
    requires IsJoin(m, hs)
    ensures m == Merge(hs)
    decreases |m|
  {
    if m != [] {
      FirstOfJoin(m, hs);
      TailOfJoin(m, hs);
      JoinIsUnique(m[1..], Rest(hs, m[0].time));
    } else {
      NoSets(hs);
    }
  }

  lemma {:induction false} ColumnOfHeadAndTail(hs: seq<seq<Packet>>, t: Timestamp, rest: seq<InputSet>, i: nat)
    requires IsJoin(rest, Rest(hs, t)) && i < |hs|
    ensures var m := [InputSet(t, Slots(hs, t))] + rest;
            (forall k :: 0 <= k < |m| ==> i < |m[k].slots|) && Column(m, i) == hs[i]
  {
    var m := [InputSet(t, Slots(hs, t))] + rest;
    assert m[1..] == rest && Column(rest, i) == Rest(hs, t)[i];
  }

  lemma {:induction false} HeadHasPacket(hs: seq<seq<Packet>>, t: Timestamp)
    requires !AllEmpty(hs) && t == Earliest(hs)
    ensures HasPacket(InputSet(t, Slots(hs, t)))
  {
    var i :| 0 <= i < |hs| && hs[i] != [] && hs[i][0].timestamp == t;
    assert Slots(hs, t)[i].Some?;
  }

  lemma {:induction false} JoinOfHeadAndTail(hs: seq<seq<Packet>>, t: Timestamp, rest: seq<InputSet>)
    requires !AllEmpty(hs) && t == Earliest(hs) && IsJoin(rest, Rest(hs, t))
    requires forall k :: 0 <= k < |rest| ==> t < rest[k].time
    ensures IsJoin([InputSet(t, Slots(hs, t))] + rest, hs)
  {
    HeadHasPacket(hs, t);
    forall i | 0 <= i < |hs| { ColumnOfHeadAndTail(hs, t, rest, i); }
  }

  lemma {:induction false} RestIsLater(hs: seq<seq<Packet>>, t: Timestamp)
    requires t == Earliest(hs) && forall i :: 0 <= i < |hs| ==> Increasing(hs[i])
    ensures forall i :: 0 <= i < |hs| ==> Increasing(Rest(hs, t)[i]) && LaterThan(Rest(hs, t)[i], t)
  {}

  /** Of histories that each strictly increase in time, `Merge` is the merge-join. */
  lemma {:induction false} MergeIsJoin(hs: seq<seq<Packet>>)
    requires forall i :: 0 <= i < |hs| ==> Increasing(hs[i])
    ensures IsJoin(Merge(hs), hs)
    decreases Total(hs)
  {
    if AllEmpty(hs) {
      assert forall i :: 0 <= i < |hs| ==> Column([], i) == hs[i];
    } else {
      var rest := Rest(hs, Earliest(hs));
      RestIsLater(hs, Earliest(hs));
      assert Total(rest) < Total(hs) by { RestShrinks(hs, Earliest(hs)); }
      MergeIsJoin(rest);
      TimesComeFromHistories(rest, Earliest(hs));
      JoinOfHeadAndTail(hs, Earliest(hs), Merge(rest));
    }
  }

  lemma {:induction false} TimesComeFromHistories(hs: seq<seq<Packet>>, t: Timestamp)
    requires forall i :: 0 <= i < |hs| ==> LaterThan(hs[i], t)
    ensures forall k :: 0 <= k < |Merge(hs)| ==> t < Merge(hs)[k].time
    decreases Total(hs)
  {
    if !AllEmpty(hs) {
      RestShrinks(hs, Earliest(hs));
      TimesComeFromHistories(Rest(hs, Earliest(hs)), t);
    }
  }
}
