/** One call over GraphQL: its task's history, the change feed, the reads, and what the call is handed. */
module Watch {
  import opened Frames
  import opened Merge

  /** A change on the feed: an event of the call's task, the task's creation, or a change of another task. */
  datatype Change = Ours(n: nat) | Created | Other

  /** `next` is the first of the task's events that this feed still has to bring. */
  datatype Feed = Feed(watching: bool, subscribed: bool, cut: bool, wire: seq<Change>, next: nat)

  /** `watch_tasks`, at each of its waits. The first change waits until every bound call is caught up. */
  datatype Watcher = Idle | Catching(change: Change, todo: bool) | Reading(change: Change, snapshot: nat)

  /** The call: its assign has not been answered, its first read is under way, it hands events on, or it has ended. */
  datatype Phase = NotYet | Assigning(wasLive: bool) | First(snapshot: Option<nat>) | Streaming | Over

  datatype Sys = Sys(hist: nat, created: bool, feed: Feed, live: bool, watcher: Watcher, slot: Slot, phase: Phase,
                     handed: seq<nat>)

  datatype Step =
    | StartFeed | Subscribe | OtherChange | Cut | Died
    | Create | Report
    | Take | WatchRead | WatchAnswer | WatchFails | HandOn
    | Register | Answer | FirstRead | FirstAnswer | FirstFails | MoreRead(h: nat) | Get | End

  const BEGIN := Sys(0, false, Feed(false, false, false, [], 0), false, Idle, Slot(false, None, [], {}), NotYet, [])

  predicate Waits(p: Phase) {
    p.Assigning? || p.First? || p.Streaming?
  }

  predicate Todo(w: Watcher) {
    w.Reading? || (w.Catching? && w.todo)
  }

  predicate Lost(s: Slot) {
    s.queue.Some? && Marked(s.queue.value)
  }

  function HandledSlot(s: Slot, c: Change): Slot {
    match c
    case Ours(n) => Routed(s, n)
    case Created => Bound(s)
    case Other => s
  }

  /** What a change does once the feed is known to be live. */
  function Handled(s: Sys, c: Change): Sys {
    s.(feed := if c.Ours? then s.feed.(next := c.n + 1) else s.feed,
       slot := if s.phase.Over? then s.slot else HandledSlot(s.slot, c))
  }

  function Sent(f: Feed, c: Change): Feed {
    if f.subscribed && !f.cut then f.(wire := f.wire + [c]) else f
  }

  function Taken(s: Sys): Sys
    requires s.feed.wire != []
  {
    var c, s := s.feed.wire[0], s.(feed := s.feed.(wire := s.feed.wire[1..]));
    if s.live then Handled(s, c) else s.(live := true, watcher := Catching(c, s.slot.bound && Waits(s.phase)))
  }

  predicate Can(s: Sys, e: Step) {
    match e
    case StartFeed => !s.feed.watching
    case Subscribe => s.feed.watching && !s.feed.subscribed
    case OtherChange => true
    case Cut => s.feed.subscribed
    case Died => s.feed.watching && (s.feed.subscribed ==> s.feed.cut) && s.watcher.Idle?
    case Create => s.phase.Assigning? && !s.created
    case Report => s.created
    case Take => s.watcher.Idle? && s.feed.wire != []
    case WatchRead => s.watcher.Catching? && s.watcher.todo
    case WatchAnswer => s.watcher.Reading?
    case WatchFails => Todo(s.watcher)
    case HandOn => s.watcher.Catching? && !s.watcher.todo
    case Register => s.phase.NotYet? && s.feed.watching
    case Answer => s.phase.Assigning? && s.created
    case FirstRead => s.phase == First(None)
    case FirstAnswer => s.phase.First? && s.phase.snapshot.Some?
    case FirstFails => s.phase.First?
    case MoreRead(h) => s.phase.Streaming? && h <= s.hist
    case Get => s.phase.Streaming? && s.slot.queue.Some? && s.slot.queue.value != []
    case End => Waits(s.phase)
  }

  function Do(s: Sys, e: Step): Sys
    requires Can(s, e)
  {
    match e
    case StartFeed => s.(feed := Feed(true, false, false, [], s.feed.next))
    case Subscribe => s.(feed := Feed(true, true, false, [], s.hist))
    case OtherChange => s.(feed := Sent(s.feed, Change.Other))
    case Cut => s.(feed := s.feed.(cut := true))
    case Died =>
      s.(feed := Feed(false, false, false, [], s.feed.next), live := false,
         slot := if Waits(s.phase) && s.slot.queue.Some?
               then s.slot.(queue := Some(s.slot.queue.value + [FeedLost])) else s.slot)
    case Create => s.(created := true, feed := Sent(s.feed, Created))
    case Report => s.(hist := s.hist + 1, feed := Sent(s.feed, Ours(s.hist)))
    case Take => Taken(s)
    case WatchRead => s.(watcher := Reading(s.watcher.change, s.hist))
    case WatchAnswer =>
      s.(slot := if Waits(s.phase) then CaughtUp(s.slot, Range(0, s.watcher.snapshot)) else s.slot,
         watcher := Catching(s.watcher.change, false))
    case WatchFails => s.(watcher := Catching(s.watcher.change, false))
    case HandOn => Handled(s.(watcher := Idle), s.watcher.change)
    case Register => s.(phase := Assigning(s.live), slot := s.slot.(queue := Some([])))
    case Answer => s.(phase := if s.phase.wasLive then Streaming else First(None), slot := Bound(s.slot))
    case FirstRead => s.(phase := First(Some(s.hist)))
    case FirstAnswer => s.(phase := Streaming, slot := CaughtUp(s.slot, Range(0, s.phase.snapshot.value)))
    case FirstFails => s.(phase := Streaming)
    case MoreRead(h) => s.(slot := CaughtUp(s.slot, Range(0, h)))
    case Get =>
      var q := s.slot.queue.value;
      if q[0].FeedLost? then s.(phase := Over)
      else s.(handed := s.handed + [q[0].n], slot := s.slot.(queue := Some(q[1..])))
    case End => s.(phase := Over)
  }

  /**
   * What the call gets before it learns that the feed is lost: events that came too early join a queue without a
   * mark.
   */
  function Line(s: Slot): seq<nat> {
    if s.queue.None? then [] else
    if Marked(s.queue.value) then Front(s.queue.value) else Numbers(s.queue.value) + s.orphans
  }

  /** The changes still to be handled: the one the watcher holds back, and the rest. */
  function Coming(w: Watcher, wire: seq<Change>): seq<Change> {
    if w.Idle? then wire else [w.change] + wire
  }

  function FirstOurs(changes: seq<Change>): Option<nat> {
    if changes == [] then None else if changes[0].Ours? then Some(changes[0].n) else FirstOurs(changes[1..])
  }

  /** The next of the task's events that this feed brings: on its way, or the next to be reported. */
  function Upcoming(hist: nat, feed: Feed, w: Watcher): Option<nat> {
    if !feed.subscribed then None
    else if FirstOurs(Coming(w, feed.wire)).Some? then FirstOurs(Coming(w, feed.wire))
    else if feed.cut then None
    else Some(hist)
  }

  /** A call that has the task's first `k` events misses none before the next that the feed brings. */
  predicate Joins(due: Option<nat>, k: nat) {
    due.Some? ==> due.value <= k
  }

  predicate Fails(e: Step) {
    e.FirstFails? || e.WatchFails?
  }

  /**
   * When a failed read does no harm. For the call's first read: what waits on its queue starts with event 0, or
   * nothing does and the feed is lost, or the watcher still has to catch the call up, or the feed brings event 0
   * next or nothing any more. For the watcher's: the feed is lost, or what it brings next joins what the call has,
   * or will have from a first read under way, whose snapshot may still have to be taken.
   */
  predicate Harmless(s: Sys, e: Step) {
    var line, due := Line(s.slot), Upcoming(s.hist, s.feed, s.watcher);
    match e
    case FirstFails =>
      if line != [] then line[0] == 0 else Lost(s.slot) || !s.live || Todo(s.watcher) || Joins(due, 0)
    case WatchFails =>
      !Waits(s.phase) || Lost(s.slot) ||
      (match s.phase
       case Streaming => Joins(due, |s.handed| + |line|)
       case First(Some(h)) => Joins(due, h)
       case _ => true)
    case _ => true
  }

  /** A run, in which reads may fail as they will. */
  predicate Path(s: Sys, steps: seq<Step>, t: Sys)
    decreases |steps|
  {
    if steps == [] then s == t else Can(s, steps[0]) && Path(Do(s, steps[0]), steps[1..], t)
  }

  /** No read fails. */
  predicate ReadsSucceed(steps: seq<Step>) {
    forall e <- steps :: !Fails(e)
  }

  /** A run in which no failed read does harm. */
  predicate Run(s: Sys, steps: seq<Step>, t: Sys)
    decreases |steps|
  {
    if steps == [] then s == t else
    Can(s, steps[0]) && Harmless(s, steps[0]) && Run(Do(s, steps[0]), steps[1..], t)
  }

  /** `changes` carry the task's events in turn, from `next` on, before `last`. */
  predicate InTurn(changes: seq<Change>, next: nat, last: nat) {
    if changes == [] then next == last
    else if changes[0].Ours? then changes[0].n == next && InTurn(changes[1..], next + 1, last)
    else InTurn(changes[1..], next, last)
  }

  lemma {:induction false} InTurnMore(changes: seq<Change>, next: nat, last: nat, c: Change)
    requires InTurn(changes, next, last) && (c.Ours? ==> c.n == last)
    ensures InTurn(changes + [c], next, if c.Ours? then last + 1 else last)
    decreases |changes|
  {
    if changes == [] {
      assert changes + [c] == [c];
    } else {
      assert (changes + [c])[0] == changes[0] && (changes + [c])[1..] == changes[1..] + [c];
      InTurnMore(changes[1..], if changes[0].Ours? then next + 1 else next, last, c);
    }
  }

  lemma {:induction false} InTurnFirst(changes: seq<Change>, next: nat, last: nat)
    requires InTurn(changes, next, last)
    ensures next <= last
    decreases |changes|
  {
    if changes != [] { InTurnFirst(changes[1..], if changes[0].Ours? then next + 1 else next, last); }
  }

  /** The feed brings the task's events in order, all of them before `last` and, unless it is cut, all there are. */
  predicate FeedOk(hist: nat, created: bool, feed: Feed, live: bool, w: Watcher, last: nat) {
    && (!feed.watching ==> !feed.subscribed)
    && (!feed.subscribed ==> feed.wire == [] && w.Idle? && !live)
    && (feed.subscribed ==> InTurn(Coming(w, feed.wire), feed.next, last) && last <= hist && (feed.cut || last == hist))
    && (Created in Coming(w, feed.wire) ==> created)
    && (!created ==> hist == 0)
    && (!w.Idle? ==> live)
    && (w.Reading? ==> feed.next <= w.snapshot <= hist)
  }

  function All(s: Slot, handed: seq<nat>): seq<nat> {
    handed + (if s.queue.Some? then Numbers(s.queue.value) else []) + s.orphans
  }

  ghost predicate Once(ns: seq<nat>) {
    forall x: nat :: multiset(ns)[x] <= 1
  }

  ghost predicate Holds(ns: set<nat>, all: seq<nat>) {
    forall x: nat :: x in ns <==> x in all
  }

  /** Every event that came is in one place, once. */
  ghost predicate Accounted(hist: nat, s: Slot, handed: seq<nat>) {
    && (s.bound ==> s.orphans == [])
    && Once(All(s, handed))
    && Holds(s.routed, All(s, handed))
    && (forall x <- s.routed :: x < hist)
  }

  predicate Placed(created: bool, watching: bool, w: Watcher, s: Slot, p: Phase) {
    && s.queue.Some?
    && (Todo(w) || !p.Assigning? ==> s.bound)
    && (s.bound ==> created)
    && (!watching ==> Lost(s))
  }

  ghost predicate SlotOk(s: Sys) {
    && Placed(s.created, s.feed.watching, s.watcher, s.slot, s.phase)
    && Accounted(s.hist, s.slot, s.handed)
    && (s.phase.First? && s.phase.snapshot.Some? ==> s.phase.snapshot.value <= s.hist)
  }

  ghost predicate FeedIsOk(s: Sys) {
    exists last :: FeedOk(s.hist, s.created, s.feed, s.live, s.watcher, last)
  }

  predicate NotYetOk(s: Sys) {
    s.slot == BEGIN.slot && s.handed == [] && !s.created && !Todo(s.watcher)
  }

  /** What every step keeps, whatever reads fail. */
  ghost predicate Sound(s: Sys) {
    && (!s.phase.Over? ==> FeedIsOk(s))
    && (s.phase.NotYet? ==> NotYetOk(s))
    && (Waits(s.phase) ==> SlotOk(s))
  }

  lemma Flushed(q: seq<Item>, orphans: seq<nat>)
    ensures Numbers(q + Events(orphans)) == Numbers(q) + orphans
    ensures Marked(q + Events(orphans)) == Marked(q)
    ensures Marked(q) ==> Front(q + Events(orphans)) == Front(q)
  {
    EventsAre(orphans);
    NumbersConcat(q, Events(orphans));
    FrontConcat(q, Events(orphans));
  }

  lemma BoundLine(s: Slot, handed: seq<nat>)
    requires s.queue.Some?
    ensures Line(Bound(s)) == Line(s) && Lost(Bound(s)) == Lost(s) && All(Bound(s), handed) == All(s, handed)
  {
    Flushed(s.queue.value, s.orphans);
    var ns := Numbers(s.queue.value);
    assert ns + s.orphans + [] == ns + s.orphans;
    assert handed + (ns + s.orphans) + [] == handed + ns + s.orphans;
  }

  lemma RoutedLine(s: Slot, n: nat, handed: seq<nat>)
    requires s.queue.Some? && n !in s.routed && (s.bound ==> s.orphans == [])
    ensures Line(Routed(s, n)) == if Lost(s) then Line(s) else Line(s) + [n]
    ensures Lost(Routed(s, n)) == Lost(s) && All(Routed(s, n), handed) == All(s, handed) + [n]
  {
    var q := s.queue.value;
    NumbersConcat(q, [Event(n)]);
    FrontConcat(q, [Event(n)]);
    assert Marked(q + [Event(n)]) <==> Marked(q);
    assert [Event(n)] == [Event(n)] + [];
    Cons(Event(n), []);
    if s.bound {
      assert Numbers(q) + [n] + [] == Numbers(q) + [] + [n];
      assert handed + (Numbers(q) + [n]) + [] == handed + Numbers(q) + [] + [n];
    } else {
      assert Numbers(q) + (s.orphans + [n]) == Numbers(q) + s.orphans + [n];
      assert handed + Numbers(q) + (s.orphans + [n]) == handed + Numbers(q) + s.orphans + [n];
    }
  }

  /** A dead feed leaves its mark behind everything that is on the queue. */
  lemma LostLine(s: Slot, handed: seq<nat>)
    requires s.queue.Some?
    ensures var t := s.(queue := Some(s.queue.value + [FeedLost]));
      && Lost(t) && Line(t) <= Line(s) && All(t, handed) == All(s, handed)
  {
    var q := s.queue.value;
    NumbersConcat(q, [FeedLost]);
    FrontConcat(q, [FeedLost]);
    assert [FeedLost] == [FeedLost] + [];
    Cons(FeedLost, []);
    assert FeedLost in q + [FeedLost] by { assert (q + [FeedLost])[|q|] == FeedLost; }
    if !Marked(q) { Unmarked(q); }
    assert Numbers(q) + [] == Numbers(q);
  }

  lemma NextLine(s: Slot, handed: seq<nat>)
    requires s.queue.Some? && s.queue.value != [] && s.queue.value[0].Event?
    ensures var q := s.queue.value; var t := s.(queue := Some(q[1..]));
      && Line(s) == [q[0].n] + Line(t) && Lost(t) == Lost(s) && All(t, handed + [q[0].n]) == All(s, handed)
  {
    var q := s.queue.value;
    assert q == [q[0]] + q[1..];
    Cons(q[0], q[1..]);
    assert [q[0].n] + Numbers(q[1..]) + s.orphans == [q[0].n] + (Numbers(q[1..]) + s.orphans);
    assert handed + ([q[0].n] + Numbers(q[1..])) + s.orphans == handed + [q[0].n] + Numbers(q[1..]) + s.orphans;
  }

  /** What a history of length `h` adds for a call that took `handed`, and which events of `ns` are newer than it. */
  function Missed(handed: seq<nat>, h: nat): seq<nat> {
    Without(Range(0, h), Elements(handed))
  }

  function Newer(ns: seq<nat>, h: nat): seq<nat> {
    Without(ns, Elements(Range(0, h)))
  }

  lemma TakenIsHanded(handed: seq<nat>, waiting: seq<nat>, routed: set<nat>)
    requires Once(handed + waiting) && Holds(routed, handed + waiting)
    ensures routed - Elements(waiting) == Elements(handed)
  {
    forall x: nat ensures x in routed && x !in waiting <==> x in handed {
      assert multiset(handed + waiting)[x] == multiset(handed)[x] + multiset(waiting)[x];
      assert x in handed <==> multiset(handed)[x] > 0;
      assert x in waiting <==> multiset(waiting)[x] > 0;
    }
  }

  lemma InRange(h: nat, x: nat)
    ensures x in Elements(Range(0, h)) <==> x < h
  {
    if x < h { assert Range(0, h)[x] == x; }
  }

  lemma MissedCounts(handed: seq<nat>, h: nat, x: nat)
    ensures multiset(Missed(handed, h))[x] == if x < h && x !in handed then 1 else 0
  {
    WithoutCounts(Range(0, h), Elements(handed));
    RangeCounts(0, h, x);
  }

  lemma NewerCounts(ns: seq<nat>, h: nat, x: nat)
    ensures multiset(Newer(ns, h))[x] == if x < h then 0 else multiset(ns)[x]
  {
    WithoutCounts(ns, Elements(Range(0, h)));
    InRange(h, x);
  }

  /** Reading a history loses nothing that came, adds what is in the history, and nothing twice. */
  lemma Recount(handed: seq<nat>, waiting: seq<nat>, missed: seq<nat>, newer: seq<nat>, h: nat, x: nat)
    requires multiset(handed + waiting)[x] <= 1
    requires multiset(missed)[x] == if x < h && x !in handed then 1 else 0
    requires multiset(newer)[x] == if x < h then 0 else multiset(waiting)[x]
    ensures multiset(handed + (missed + newer))[x] <= 1
    ensures x in handed + (missed + newer) <==> x in handed + waiting || x < h
  {
    assert x in handed <==> multiset(handed)[x] > 0;
    assert x in waiting <==> multiset(waiting)[x] > 0;
    assert x in missed <==> multiset(missed)[x] > 0;
    assert x in newer <==> multiset(newer)[x] > 0;
  }

  lemma CaughtUpQueue(q: seq<Item>, routed: set<nat>, h: nat, handed: seq<nat>)
    requires Once(handed + Numbers(q)) && Holds(routed, handed + Numbers(q))
    ensures Marked(Refilled(q, routed, Range(0, h))) == Marked(q)
    ensures Numbers(Refilled(q, routed, Range(0, h))) == Missed(handed, h) + Newer(Numbers(q), h)
    ensures Front(Refilled(q, routed, Range(0, h))) == Missed(handed, h) + Newer(Front(q), h)
  {
    RefilledIs(q, routed, Range(0, h));
    TakenIsHanded(handed, Numbers(q), routed);
  }

  lemma CaughtUpLine(s: Slot, h: nat, handed: seq<nat>, hist: nat)
    requires s.bound && s.queue.Some? && Accounted(hist, s, handed)
    ensures Lost(CaughtUp(s, Range(0, h))) == Lost(s)
    ensures Line(CaughtUp(s, Range(0, h))) == Missed(handed, h) + Newer(Line(s), h)
    ensures All(CaughtUp(s, Range(0, h)), handed) == handed + (Missed(handed, h) + Newer(Numbers(s.queue.value), h))
  {
    var ns := Numbers(s.queue.value);
    assert All(s, handed) == handed + ns && ns + [] == ns;
    CaughtUpQueue(s.queue.value, s.routed, h, handed);
    var caught := Missed(handed, h) + Newer(ns, h);
    assert caught + [] == caught && handed + caught + [] == handed + caught;
  }

  lemma CaughtUpAccounted(s: Slot, h: nat, handed: seq<nat>, hist: nat)
    requires s.bound && s.queue.Some? && Accounted(hist, s, handed) && h <= hist
    ensures Accounted(hist, CaughtUp(s, Range(0, h)), handed)
  {
    var ns := Numbers(s.queue.value);
    CaughtUpLine(s, h, handed, hist);
    assert All(s, handed) == handed + ns;
    RecountAll(handed, ns, h, s.routed, hist);
  }

  lemma RecountAll(handed: seq<nat>, ns: seq<nat>, h: nat, routed: set<nat>, hist: nat)
    requires Once(handed + ns) && Holds(routed, handed + ns) && h <= hist && forall x <- routed :: x < hist
    ensures var all := handed + (Missed(handed, h) + Newer(ns, h));
            Once(all) && Holds(routed + Elements(Range(0, h)), all)
    ensures forall x <- routed + Elements(Range(0, h)) :: x < hist
  {
    forall x: nat
      ensures multiset(handed + (Missed(handed, h) + Newer(ns, h)))[x] <= 1
      ensures x in handed + (Missed(handed, h) + Newer(ns, h)) <==> x in routed + Elements(Range(0, h))
      ensures x in Elements(Range(0, h)) <==> x < h
    {
      MissedCounts(handed, h, x);
      NewerCounts(ns, h, x);
      InRange(h, x);
      Recount(handed, ns, Missed(handed, h), Newer(ns, h), h, x);
    }
  }

  lemma {:induction false} RangeCounts(a: nat, b: nat, x: nat)
    ensures multiset(Range(a, b))[x] == if a <= x < b then 1 else 0
    decreases b - a
  {
    if a < b {
      assert Range(a, b) == [a] + Range(a + 1, b);
      RangeCounts(a + 1, b, x);
    }
  }
}
