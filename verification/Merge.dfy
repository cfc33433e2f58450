/**
 * How a call gets its task's events from a change feed of unknown start and from reads of the task's history.
 * An event is known by its place in its task's history, which its id determines.
 */
module Merge {
  import opened Frames

  /** What waits on a call's queue. */
  datatype Item = Event(n: nat) | FeedLost

  function Range(a: nat, b: nat): (r: seq<nat>) {
    if a < b then seq(b - a, i => a + i) else []
  }

  function Events(ns: seq<nat>): seq<Item> {
    seq(|ns|, i requires 0 <= i < |ns| => Event(ns[i]))
  }

  /** The events on a queue. */
  function Numbers(q: seq<Item>): seq<nat> {
    if q == [] then [] else (if q[0].Event? then [q[0].n] else []) + Numbers(q[1..])
  }

  /** The events a call gets before it learns that the feed is lost. */
  function Front(q: seq<Item>): seq<nat> {
    if q == [] || q[0].FeedLost? then [] else [q[0].n] + Front(q[1..])
  }

  predicate Marked(q: seq<Item>) {
    FeedLost in q
  }

  function Without(ns: seq<nat>, gone: set<nat>): seq<nat> {
    if ns == [] then [] else (if ns[0] in gone then [] else [ns[0]]) + Without(ns[1..], gone)
  }

  function Later(q: seq<Item>, read: set<nat>): seq<Item> {
    if q == [] then [] else (if q[0].Event? && q[0].n in read then [] else [q[0]]) + Later(q[1..], read)
  }

  function Elements(ns: seq<nat>): set<nat> {
    set n | n in ns
  }

  /**
   * What the postman keeps for one task: is its reference known, its call's queue, events that came too early, and
   * all that came.
   */
  datatype Slot = Slot(bound: bool, queue: Option<seq<Item>>, orphans: seq<nat>, routed: set<nat>)

  function Bound(s: Slot): Slot {
    Slot(true, if s.queue.Some? then Some(s.queue.value + Events(s.orphans)) else None, [], s.routed)
  }

  function Routed(s: Slot, n: nat): Slot {
    if n in s.routed then s
    else if s.bound && s.queue.Some? then s.(queue := Some(s.queue.value + [Event(n)]), routed := s.routed + {n})
    else s.(orphans := s.orphans + [n], routed := s.routed + {n})
  }

  /** A queue with what a history has and the call did not take, then what is newer than the history. */
  function Refilled(q: seq<Item>, routed: set<nat>, history: seq<nat>): seq<Item> {
    Events(Without(history, routed - Elements(Numbers(q)))) + Later(q, Elements(history))
  }

  function CaughtUp(s: Slot, history: seq<nat>): Slot {
    if s.bound && s.queue.Some? then
      s.(queue := Some(Refilled(s.queue.value, s.routed, history)), routed := s.routed + Elements(history))
    else s
  }

  lemma Cons(i: Item, q: seq<Item>)
    ensures Numbers([i] + q) == if i.Event? then [i.n] + Numbers(q) else Numbers(q)
    ensures Front([i] + q) == if i.Event? then [i.n] + Front(q) else []
    ensures Marked([i] + q) <==> i.FeedLost? || Marked(q)
  {
    assert ([i] + q)[0] == i && ([i] + q)[1..] == q;
  }

  lemma {:induction false} NumbersConcat(p: seq<Item>, q: seq<Item>)
    ensures Numbers(p + q) == Numbers(p) + Numbers(q)
    decreases |p|
  {
    if p == [] {
      assert p + q == q;
    } else {
      assert p + q == [p[0]] + (p[1..] + q);
      Cons(p[0], p[1..] + q);
      NumbersConcat(p[1..], q);
    }
  }

  lemma {:induction false} FrontConcat(p: seq<Item>, q: seq<Item>)
    ensures Front(p + q) == if Marked(p) then Front(p) else Front(p) + Front(q)
    decreases |p|
  {
    if p == [] {
      assert p + q == q;
    } else {
      assert p + q == [p[0]] + (p[1..] + q) && p == [p[0]] + p[1..];
      Cons(p[0], p[1..] + q);
      Cons(p[0], p[1..]);
      FrontConcat(p[1..], q);
    }
  }

  lemma {:induction false} Unmarked(q: seq<Item>)
    requires !Marked(q)
    ensures Front(q) == Numbers(q)
    decreases |q|
  {
    if q != [] {
      assert q == [q[0]] + q[1..];
      Cons(q[0], q[1..]);
      Unmarked(q[1..]);
    }
  }

  lemma {:induction false} EventsAre(ns: seq<nat>)
    ensures Numbers(Events(ns)) == Front(Events(ns)) == ns && !Marked(Events(ns))
    decreases |ns|
  {
    if ns != [] {
      assert Events(ns)[1..] == Events(ns[1..]);
      EventsAre(ns[1..]);
    }
  }

  lemma WithoutCons(n: nat, ns: seq<nat>, gone: set<nat>)
    ensures Without([n] + ns, gone) == if n in gone then Without(ns, gone) else [n] + Without(ns, gone)
  {
    assert ([n] + ns)[1..] == ns;
  }

  lemma LaterCons(i: Item, q: seq<Item>, read: set<nat>)
    ensures Later([i] + q, read) == if i.Event? && i.n in read then Later(q, read) else [i] + Later(q, read)
  {
    assert ([i] + q)[1..] == q;
  }

  lemma {:induction false} LaterIs(q: seq<Item>, read: set<nat>)
    ensures Numbers(Later(q, read)) == Without(Numbers(q), read)
    ensures Front(Later(q, read)) == Without(Front(q), read)
    ensures Marked(Later(q, read)) <==> Marked(q)
    decreases |q|
  {
    if q != [] {
      LaterIs(q[1..], read);
      LaterIsOneMore(q[0], q[1..], read);
      assert q == [q[0]] + q[1..];
    }
  }

  lemma LaterIsOneMore(i: Item, q: seq<Item>, read: set<nat>)
    requires Numbers(Later(q, read)) == Without(Numbers(q), read)
    requires Front(Later(q, read)) == Without(Front(q), read)
    requires Marked(Later(q, read)) <==> Marked(q)
    ensures Numbers(Later([i] + q, read)) == Without(Numbers([i] + q), read)
    ensures Front(Later([i] + q, read)) == Without(Front([i] + q), read)
    ensures Marked(Later([i] + q, read)) <==> Marked([i] + q)
  {
    Cons(i, q);
    Cons(i, Later(q, read));
    LaterCons(i, q, read);
    if i.Event? {
      WithoutCons(i.n, Numbers(q), read);
      WithoutCons(i.n, Front(q), read);
    }
  }

  lemma {:induction false} WithoutCounts(ns: seq<nat>, gone: set<nat>)
    ensures forall x :: multiset(Without(ns, gone))[x] == if x in gone then 0 else multiset(ns)[x]
    decreases |ns|
  {
    if ns != [] {
      WithoutCounts(ns[1..], gone);
      assert ns == [ns[0]] + ns[1..];
    }
  }

  /** What is left of a range when `gone` has exactly its numbers below `m`. */
  lemma {:induction false} WithoutRange(a: nat, b: nat, gone: set<nat>, m: nat)
    requires forall n :: a <= n < b ==> (n in gone <==> n < m)
    ensures Without(Range(a, b), gone) == if a < m then Range(m, b) else Range(a, b)
    decreases b - a
  {
    if a < b {
      assert Range(a, b)[1..] == Range(a + 1, b);
      assert Range(a, b) == [a] + Range(a + 1, b);
      WithoutRange(a + 1, b, gone, m);
      WithoutCons(a, Range(a + 1, b), gone);
    }
  }

  lemma RangeConcat(a: nat, b: nat, c: nat)
    requires a <= b <= c
    ensures Range(a, b) + Range(b, c) == Range(a, c)
  {
  }

  /**
   * A caught-up queue: first the missing part of the history, then the newer events; a mark stays behind what was
   * before it.
   */
  lemma RefilledIs(q: seq<Item>, routed: set<nat>, history: seq<nat>)
    ensures var missed, read := Without(history, routed - Elements(Numbers(q))), Elements(history);
      && Numbers(Refilled(q, routed, history)) == missed + Without(Numbers(q), read)
      && Front(Refilled(q, routed, history)) == missed + Without(Front(q), read)
      && (Marked(Refilled(q, routed, history)) <==> Marked(q))
  {
    var missed := Without(history, routed - Elements(Numbers(q)));
    EventsAre(missed);
    LaterIs(q, Elements(history));
    NumbersConcat(Events(missed), Later(q, Elements(history)));
    FrontConcat(Events(missed), Later(q, Elements(history)));
  }
}
