/**
 * The event list of the simulator: events ordered by time, kept in a doubly
 * linked list whose nodes are the events themselves. Equal timestamps are kept
 * in insertion order (first in, first out): a departure from one queue and the
 * arrival it causes at the next queue carry the same timestamp.
 */
module Events {

  datatype EventKind = Arrival | Departure

  /** What an event does and at which queue of the chain. */
  datatype EventType = EventType(kind: EventKind, queueId: nat)

  /** The value carried by an event node, without its links. */
  datatype EventRec = EventRec(time: real, eventType: EventType, jobId: nat)

  predicate Sorted(s: seq<EventRec>)
  {
    forall i, j :: 0 <= i < j < |s| ==> s[i].time <= s[j].time
  }

  /** The position in front of the first event strictly later than t, or |s| if there is none. */
  function FirstLater(s: seq<EventRec>, t: real): (k: nat)
    ensures k <= |s|
    ensures forall i :: 0 <= i < k ==> s[i].time <= t
    ensures k < |s| ==> s[k].time > t
  {
    if s == [] then 0 else if s[0].time > t then 0 else 1 + FirstLater(s[1..], t)
  }

  /** The list after a sorted insertion of e: e goes in front of the first strictly later event. */
  function Insert(s: seq<EventRec>, e: EventRec): seq<EventRec>
  {
    var k := FirstLater(s, e.time);
    s[..k] + [e] + s[k..]
  }

  /** The events of s that carry timestamp t, in list order. */
  function AtTime(s: seq<EventRec>, t: real): seq<EventRec>
  {
    if s == [] then [] else (if s[0].time == t then [s[0]] else []) + AtTime(s[1..], t)
  }

  /** The list obtained by inserting the events of es one after the other, first one first. */
  function InsertAll(s: seq<EventRec>, es: seq<EventRec>): seq<EventRec>
    decreases |es|
  {
    if es == [] then s else InsertAll(Insert(s, es[0]), es[1..])
  }

  lemma InsertContents(s: seq<EventRec>, e: EventRec)
    ensures |Insert(s, e)| == |s| + 1
    ensures multiset(Insert(s, e)) == multiset(s) + multiset{e}
    ensures forall x :: x in Insert(s, e) <==> x in s || x == e
  {
    var k := FirstLater(s, e.time);
    assert s == s[..k] + s[k..];
  }

  /** A sorted insertion keeps the list sorted. */
  lemma InsertPreservesSorted(s: seq<EventRec>, e: EventRec)
    requires Sorted(s)
    ensures Sorted(Insert(s, e))
  {
    var k := FirstLater(s, e.time);
    var r := Insert(s, e);
    forall i, j | 0 <= i < j < |r| ensures r[i].time <= r[j].time {
      if j < k {
        assert r[i] == s[i] && r[j] == s[j];
      } else if j == k {
        assert r[i] == s[i] && r[j] == e;
      } else if i < k {
        assert r[i] == s[i] && r[j] == s[j - 1];
      } else if i == k {
        assert r[i] == e && r[j] == s[j - 1];
      } else {
        assert r[i] == s[i - 1] && r[j] == s[j - 1];
      }
    }
  }

  /**
   * First in, first out among equal timestamps: in a sorted list the new event
   * lands after every event that is not later than it and before every later one.
   */
  lemma InsertAfterEqualTimes(s: seq<EventRec>, e: EventRec, i: nat)
    requires Sorted(s) && i < |s|
    ensures s[i].time <= e.time <==> i < FirstLater(s, e.time)
  {
  }

  lemma {:induction false} AtTimeAppend(s: seq<EventRec>, u: seq<EventRec>, t: real)
    ensures AtTime(s + u, t) == AtTime(s, t) + AtTime(u, t)
  {
    if s == [] {
      assert s + u == u;
    } else {
      var h := if s[0].time == t then [s[0]] else [];
      assert (s + u)[0] == s[0] && (s + u)[1..] == s[1..] + u;
      AtTimeAppend(s[1..], u, t);
      assert AtTime(s + u, t) == h + (AtTime(s[1..], t) + AtTime(u, t));
      assert h + (AtTime(s[1..], t) + AtTime(u, t)) == (h + AtTime(s[1..], t)) + AtTime(u, t);
    }
  }

  lemma {:induction false} AtTimeNone(s: seq<EventRec>, t: real)
    requires forall i :: 0 <= i < |s| ==> s[i].time != t
    ensures AtTime(s, t) == []
  {
    if s != [] {
      AtTimeNone(s[1..], t);
    }
  }

  /** The events after the insertion point of time t are all strictly later than t. */
  lemma LaterAfterFirstLater(s: seq<EventRec>, t: real)
    requires Sorted(s)
    ensures forall i :: FirstLater(s, t) <= i < |s| ==> s[i].time > t
  {
    var k := FirstLater(s, t);
    forall i | k <= i < |s| ensures s[i].time > t {
      assert s[k].time <= s[i].time;
    }
  }

  lemma AtTimeSingle(e: EventRec, t: real)
    ensures AtTime([e], t) == if e.time == t then [e] else []
  {
    assert [e][1..] == [];
  }

  /** Inserting e appends it behind the events of equal time and leaves other times alone. */
  lemma AtTimeInsert(s: seq<EventRec>, e: EventRec, t: real)
    requires Sorted(s)
    ensures AtTime(Insert(s, e), t) == AtTime(s, t) + (if e.time == t then [e] else [])
  {
    var k := FirstLater(s, e.time);
    var pre, post := s[..k], s[k..];
    assert s == pre + post;
    assert Insert(s, e) == (pre + [e]) + post;
    AtTimeAppend(pre, post, t);
    AtTimeAppend(pre + [e], post, t);
    AtTimeAppend(pre, [e], t);
    AtTimeSingle(e, t);
    if e.time == t {
      LaterAfterFirstLater(s, e.time);
      AtTimeNone(post, t);
    }
  }

  lemma ConcatAssoc(a: seq<EventRec>, b: seq<EventRec>, c: seq<EventRec>)
    ensures (a + b) + c == a + (b + c)
  {
  }

  /** Any sequence of insertions into a sorted list leaves it sorted. */
  lemma {:induction false} InsertAllSorted(s: seq<EventRec>, es: seq<EventRec>)
    requires Sorted(s)
    ensures Sorted(InsertAll(s, es))
    decreases |es|
  {
    if es != [] {
      InsertPreservesSorted(s, es[0]);
      InsertAllSorted(Insert(s, es[0]), es[1..]);
    }
  }

  /** One insertion followed by the rest: the equal-time events split into the old ones, the inserted one and those of the rest. */
  lemma InsertStableStep(s: seq<EventRec>, e: EventRec, rest: seq<EventRec>, t: real)
    requires Sorted(s)
    ensures AtTime(Insert(s, e), t) + AtTime(rest, t) == AtTime(s, t) + AtTime([e] + rest, t)
  {
    var a, h, r := AtTime(s, t), AtTime([e], t), AtTime(rest, t);
    AtTimeInsert(s, e, t);
    AtTimeSingle(e, t);
    AtTimeAppend([e], rest, t);
    ConcatAssoc(a, h, r);
  }

  /**
   * Stability of the event list: after any sequence of insertions into a sorted
   * list, the events carrying one timestamp are those already there followed by
   * the inserted ones, in the order in which they were inserted.
   */
  lemma {:induction false} InsertAllStable(s: seq<EventRec>, es: seq<EventRec>, t: real)
    requires Sorted(s)
    ensures AtTime(InsertAll(s, es), t) == AtTime(s, t) + AtTime(es, t)
    decreases |es|
  {
    if es == [] {
      assert AtTime(es, t) == [];
    } else {
      InsertPreservesSorted(s, es[0]);
      InsertAllStable(Insert(s, es[0]), es[1..], t);
      InsertStableStep(s, es[0], es[1..], t);
      assert es == [es[0]] + es[1..];
    }
  }

  /** An event node. Its value is fixed at creation; only the links change. */
  class Event {
    const time: real
    const eventType: EventType
    const jobId: nat
    var next: Event?
    var prev: Event?

    constructor (time: real, eventType: EventType, jobId: nat)
      ensures this.time == time && this.eventType == eventType && this.jobId == jobId
      ensures next == null && prev == null
    {
      this.time := time;
      this.eventType := eventType;
      this.jobId := jobId;
      next := null;
      prev := null;
    }

    function Rec(): EventRec
    {
      EventRec(time, eventType, jobId)
    }
  }

  /** The values of a sequence of event nodes. */
  function Recs(ns: seq<Event>): seq<EventRec>
  {
    seq(|ns|, i requires 0 <= i < |ns| => ns[i].Rec())
  }

  /** The nodes of a sequence, as a set of objects (a frame). */
  ghost function NodeSet(ns: seq<Event>): set<object>
  {
    set i | 0 <= i < |ns| :: ns[i] as object
  }

  lemma NodeSetSplice(ns: seq<Event>, k: nat, e: Event)
    requires k <= |ns|
    ensures NodeSet(ns[..k] + [e] + ns[k..]) == NodeSet(ns) + {e}
  {
    var r := ns[..k] + [e] + ns[k..];
    assert r[k] == e;
    forall o | o in NodeSet(r) ensures o in NodeSet(ns) + {e} {
      var i :| 0 <= i < |r| && r[i] == o;
      if i < k { assert r[i] == ns[i]; } else if i > k { assert r[i] == ns[i - 1]; }
    }
    forall o | o in NodeSet(ns) ensures o in NodeSet(r) {
      var i :| 0 <= i < |ns| && ns[i] == o;
      if i < k { assert r[i] == ns[i]; } else { assert r[i + 1] == ns[i]; }
    }
  }

  lemma SpliceDistinct(ns: seq<Event>, k: nat, e: Event)
    requires k <= |ns| && e !in NodeSet(ns)
    requires forall i, j :: 0 <= i < j < |ns| ==> ns[i] != ns[j]
    ensures var r := ns[..k] + [e] + ns[k..];
      forall i, j :: 0 <= i < j < |r| ==> r[i] != r[j]
  {
    var r := ns[..k] + [e] + ns[k..];
    forall i, j | 0 <= i < j < |r| ensures r[i] != r[j] {
      if j < k {
        assert r[i] == ns[i] && r[j] == ns[j];
      } else if i > k {
        assert r[i] == ns[i - 1] && r[j] == ns[j - 1];
      } else if i < k && j > k {
        assert r[i] == ns[i] && r[j] == ns[j - 1];
      } else if i == k {
        assert r[j] == ns[j - 1];
      } else {
        assert r[i] == ns[i];
      }
    }
  }

  lemma NodeSetTail(ns: seq<Event>)
    requires ns != []
    requires forall i, j :: 0 <= i < j < |ns| ==> ns[i] != ns[j]
    ensures NodeSet(ns[1..]) == NodeSet(ns) - {ns[0]}
  {
    forall o | o in NodeSet(ns) - {ns[0]} ensures o in NodeSet(ns[1..]) {
      var i :| 0 <= i < |ns| && ns[i] == o;
      assert ns[1..][i - 1] == o;
    }
    forall o | o in NodeSet(ns[1..]) ensures o in NodeSet(ns) - {ns[0]} {
      var i :| 0 <= i < |ns[1..]| && ns[1..][i] == o;
      assert ns[i + 1] == o;
    }
  }

  /** The event list: a doubly linked list of Event nodes starting at head. */
  class EventStack {
    var head: Event?
    ghost var nodes: seq<Event>
    ghost var Repr: set<object>

    ghost predicate Valid()
      reads this, Repr
    {
      && Repr == {this as object} + NodeSet(nodes)
      && (nodes == [] ==> head == null)
      && (nodes != [] ==> head == nodes[0] && nodes[0].prev == null && nodes[|nodes| - 1].next == null)
      && (forall i :: 0 <= i < |nodes| - 1 ==> nodes[i].next == nodes[i + 1])
      && (forall i :: 0 < i < |nodes| ==> nodes[i].prev == nodes[i - 1])
      && (forall i, j :: 0 <= i < j < |nodes| ==> nodes[i] != nodes[j])
    }

    ghost function Contents(): seq<EventRec>
      reads this
    {
      Recs(nodes)
    }

    constructor ()
      ensures Valid() && fresh(Repr) && nodes == []
    {
      head := null;
      nodes := [];
      Repr := {this};
    }

    /**
     * Links e into the list in front of the first event whose time is strictly
     * greater than e's, so that it follows every event of equal time.
     */
    method InsertEvent(e: Event)
      requires Valid()
      requires e !in Repr && e.next == null && e.prev == null
      modifies Repr, e
      ensures Valid()
      ensures Repr == old(Repr) + {e}
      ensures var k := FirstLater(old(Contents()), e.time);
        nodes == old(nodes)[..k] + [e] + old(nodes)[k..]
      ensures Contents() == Insert(old(Contents()), e.Rec())
    {
      ghost var s := Contents();
      ghost var k: nat;
      if head == null {
        k := 0;
        LinkFront(e);
      } else {
        var current := head;
        if current.time > e.time {
          k := 0;
          LinkFront(e);
        } else {
          ghost var i := 0;
          while current.next != null && current.next.time <= e.time
            invariant 0 <= i < |nodes| && current == nodes[i]
            invariant forall j :: 0 <= j <= i ==> nodes[j].time <= e.time
            decreases |nodes| - i
          {
            current := current.next;
            i := i + 1;
          }
          k := i + 1;
          LinkAfter(current, k, e);
        }
      }
      FirstLaterAt(s, e.time, k);
      assert old(nodes)[..0] + [e] + old(nodes)[0..] == [e] + old(nodes);
      RecsSplice(old(nodes), k, e);
    }

    /** Links e in as the new head. */
    method LinkFront(e: Event)
      requires Valid()
      requires e !in Repr && e.next == null && e.prev == null
      modifies Repr, e
      ensures Valid()
      ensures Repr == old(Repr) + {e}
      ensures nodes == [e] + old(nodes)
    {
      NodeSetSplice(nodes, 0, e);
      SpliceDistinct(nodes, 0, e);
      assert nodes[..0] + [e] + nodes[0..] == [e] + nodes;
      e.next := head;
      if head != null {
        head.prev := e;
      }
      head := e;
      nodes := [e] + nodes;
      Repr := Repr + {e};
    }

    /** Links e in right behind node `after`, which stands at position k - 1. */
    method LinkAfter(after: Event, ghost k: nat, e: Event)
      requires Valid()
      requires e !in Repr && e.next == null && e.prev == null
      requires 0 < k <= |nodes| && after == nodes[k - 1]
      modifies Repr, e
      ensures Valid()
      ensures Repr == old(Repr) + {e}
      ensures nodes == old(nodes)[..k] + [e] + old(nodes)[k..]
    {
      NodeSetSplice(nodes, k, e);
      SpliceDistinct(nodes, k, e);
      assert k < |nodes| ==> after.next == nodes[k];
      if after.next != null {
        LinkBetween(after, k, e);
      } else {
        LinkTail(after, k, e);
      }
    }

    method LinkTail(after: Event, ghost k: nat, e: Event)
      requires Valid()
      requires e !in Repr && e.next == null && e.prev == null
      requires k == |nodes| > 0 && after == nodes[k - 1]
      requires NodeSet(nodes[..k] + [e] + nodes[k..]) == NodeSet(nodes) + {e}
      requires var r := nodes[..k] + [e] + nodes[k..]; forall i, j :: 0 <= i < j < |r| ==> r[i] != r[j]
      modifies Repr, e
      ensures Valid()
      ensures Repr == old(Repr) + {e}
      ensures nodes == old(nodes)[..k] + [e] + old(nodes)[k..]
    {
      ghost var ns := nodes[..k] + [e] + nodes[k..];
      assert ns == nodes + [e];
      e.prev := after;
      after.next := e;
      forall i | 0 <= i < |ns| - 1 ensures ns[i].next == ns[i + 1] {
        if i < k - 1 {
          assert ns[i] == nodes[i] && ns[i + 1] == nodes[i + 1];
        }
      }
      forall i | 0 < i < |ns| ensures ns[i].prev == ns[i - 1] {
        if i < k {
          assert ns[i] == nodes[i] && ns[i - 1] == nodes[i - 1];
        }
      }
      nodes := ns;
      Repr := Repr + {e};
    }

    method LinkBetween(after: Event, ghost k: nat, e: Event)
      requires Valid()
      requires e !in Repr && e.next == null && e.prev == null
      requires 0 < k < |nodes| && after == nodes[k - 1]
      requires NodeSet(nodes[..k] + [e] + nodes[k..]) == NodeSet(nodes) + {e}
      requires var r := nodes[..k] + [e] + nodes[k..]; forall i, j :: 0 <= i < j < |r| ==> r[i] != r[j]
      modifies Repr, e
      ensures Valid()
      ensures Repr == old(Repr) + {e}
      ensures nodes == old(nodes)[..k] + [e] + old(nodes)[k..]
    {
      ghost var ns := nodes[..k] + [e] + nodes[k..];
      var following := after.next;
      assert following == nodes[k];
      e.next := following;
      e.prev := after;
      following.prev := e;
      after.next := e;
      forall i | 0 <= i < |ns| - 1 ensures ns[i].next == ns[i + 1] {
        if i < k - 1 {
          assert ns[i] == nodes[i] && ns[i + 1] == nodes[i + 1];
        } else if i >= k + 1 {
          assert ns[i] == nodes[i - 1] && ns[i + 1] == nodes[i];
        }
      }
      forall i | 0 < i < |ns| ensures ns[i].prev == ns[i - 1] {
        if i < k {
          assert ns[i] == nodes[i] && ns[i - 1] == nodes[i - 1];
        } else if i > k + 1 {
          assert ns[i] == nodes[i - 1] && ns[i - 1] == nodes[i - 2];
        }
      }
      nodes := ns;
      Repr := Repr + {e};
    }

    /** Unlinks and returns the first event, or returns null on an empty list. */
    method PopEvent() returns (r: Event?)
      requires Valid()
      modifies Repr
      ensures Valid()
      ensures old(nodes) == [] ==> r == null && nodes == [] && Repr == old(Repr) && head == null
      ensures old(nodes) != [] ==> r == old(nodes)[0] && nodes == old(nodes)[1..] && Repr == old(Repr) - {r}
      ensures old(nodes) != [] && Sorted(old(Contents())) ==>
        forall i :: 0 <= i < |old(nodes)| ==> r.time <= old(nodes)[i].time
      ensures Contents() == if old(nodes) == [] then [] else old(Contents())[1..]
    {
      if head == null {
        return null;
      }
      assert forall i :: 0 <= i < |nodes| ==> Recs(nodes)[i].time == nodes[i].time;
      r := UnlinkHead();
      assert Recs(nodes) == Recs(old(nodes))[1..];
    }

    /** Unlinks the first node of a non-empty list. */
    method UnlinkHead() returns (r: Event)
      requires Valid() && nodes != []
      modifies Repr
      ensures Valid()
      ensures r == old(nodes)[0] && nodes == old(nodes)[1..] && Repr == old(Repr) - {r}
    {
      r := head;
      ghost var ns := nodes[1..];
      NodeSetTail(nodes);
      var second := r.next;
      if second != null {
        assert second == ns[0];
        second.prev := null;
      }
      forall i | 0 <= i < |ns| - 1 ensures ns[i].next == ns[i + 1] {
        assert ns[i] == nodes[i + 1] && ns[i + 1] == nodes[i + 2];
      }
      forall i | 0 < i < |ns| ensures ns[i].prev == ns[i - 1] {
        assert ns[i] == nodes[i + 1] && ns[i - 1] == nodes[i];
      }
      head := second;
      nodes, Repr := ns, Repr - {r};
    }
  }

  lemma RecsSplice(ns: seq<Event>, k: nat, e: Event)
    requires k <= |ns|
    ensures Recs(ns[..k] + [e] + ns[k..]) == Recs(ns)[..k] + [e.Rec()] + Recs(ns)[k..]
  {
  }

  /** FirstLater is determined by where the prefix of not-later events ends. */
  lemma {:induction false} FirstLaterAt(s: seq<EventRec>, t: real, k: nat)
    requires k <= |s|
    requires forall i :: 0 <= i < k ==> s[i].time <= t
    requires k < |s| ==> s[k].time > t
    ensures FirstLater(s, t) == k
  {
    if k > 0 {
      FirstLaterAt(s[1..], t, k - 1);
    }
  }
}
