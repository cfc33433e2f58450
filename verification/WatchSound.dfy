/** What holds of a call's events in every run, whatever reads fail. */
module WatchSound {
  import opened Merge
  import opened Watch

  lemma SentKeeps(hist: nat, created: bool, f: Feed, live: bool, w: Watcher, c: Change, last: nat) returns (more: nat)
    requires FeedOk(hist, created, f, live, w, last) && (c.Ours? ==> c.n == hist && created)
    ensures FeedOk(if c.Ours? then hist + 1 else hist, created || c.Created?, Sent(f, c), live, w, more)
  {
    more := last;
    if f.subscribed && !f.cut {
      more := if c.Ours? then last + 1 else last;
      InTurnMore(Coming(w, f.wire), f.next, last, c);
      assert Coming(w, f.wire + [c]) == Coming(w, f.wire) + [c];
    }
  }

  /** The change that the watcher takes, or has held back, is the next one due. */
  lemma NextDue(hist: nat, created: bool, f: Feed, live: bool, w: Watcher, last: nat, c: Change, rest: seq<Change>)
    requires FeedOk(hist, created, f, live, w, last) && f.subscribed && !w.Reading? && Coming(w, f.wire) == [c] + rest
    ensures c.Ours? ==> c.n == f.next < hist
    ensures c.Created? ==> created
    ensures FeedOk(hist, created, f.(wire := rest, next := if c.Ours? then c.n + 1 else f.next), true, Idle, last)
  {
    assert Coming(w, f.wire)[0] == c && Coming(w, f.wire)[1..] == rest;
    InTurnFirst(Coming(w, f.wire), f.next, last);
    InTurnFirst(rest, if c.Ours? then f.next + 1 else f.next, last);
  }

  lemma HeldBack(hist: nat, created: bool, f: Feed, last: nat, todo: bool)
    requires FeedOk(hist, created, f, false, Idle, last) && f.subscribed && f.wire != []
    ensures FeedOk(hist, created, f.(wire := f.wire[1..]), true, Catching(f.wire[0], todo), last)
  {
    assert [f.wire[0]] + f.wire[1..] == f.wire;
  }

  lemma Snapshotted(hist: nat, created: bool, f: Feed, live: bool, w: Watcher, last: nat)
    requires FeedOk(hist, created, f, live, w, last) && w.Catching?
    ensures FeedOk(hist, created, f, live, Reading(w.change, hist), last)
  {
    InTurnFirst(Coming(w, f.wire), f.next, last);
  }

  lemma SendingKeeps(s: Sys, e: Step, last: nat) returns (more: nat)
    requires Can(s, e) && FeedOk(s.hist, s.created, s.feed, s.live, s.watcher, last)
    requires !s.phase.Over? && (e.Report? || e.Create? || e.OtherChange?)
    ensures FeedOk(Do(s, e).hist, Do(s, e).created, Do(s, e).feed, Do(s, e).live, Do(s, e).watcher, more)
  {
    var f := s.feed;
    match e
    case Report => more := SentKeeps(s.hist, s.created, f, s.live, s.watcher, Ours(s.hist), last);
    case Create => more := SentKeeps(s.hist, s.created, f, s.live, s.watcher, Created, last);
    case OtherChange => more := SentKeeps(s.hist, s.created, f, s.live, s.watcher, Change.Other, last);
  }

  lemma TakingKeeps(s: Sys, last: nat)
    requires Can(s, Take) && FeedOk(s.hist, s.created, s.feed, s.live, s.watcher, last) && !s.phase.Over?
    ensures FeedOk(s.hist, s.created, Do(s, Take).feed, Do(s, Take).live, Do(s, Take).watcher, last)
  {
    var f := s.feed;
    assert f.wire == [f.wire[0]] + f.wire[1..];
    if s.live { NextDue(s.hist, s.created, f, s.live, s.watcher, last, f.wire[0], f.wire[1..]); }
    else { HeldBack(s.hist, s.created, f, last, s.slot.bound && Waits(s.phase)); }
  }

  lemma FeedKept(s: Sys, e: Step, last: nat) returns (more: nat)
    requires Can(s, e) && FeedOk(s.hist, s.created, s.feed, s.live, s.watcher, last) && !s.phase.Over?
    ensures FeedOk(Do(s, e).hist, Do(s, e).created, Do(s, e).feed, Do(s, e).live, Do(s, e).watcher, more)
  {
    var f := s.feed;
    more := last;
    if e.Report? || e.Create? || e.OtherChange? { more := SendingKeeps(s, e, last); }
    else if e.Take? { TakingKeeps(s, last); }
    else if e.Subscribe? { more := s.hist; }
    else if e.HandOn? { NextDue(s.hist, s.created, f, s.live, s.watcher, last, s.watcher.change, f.wire); }
    else if e.WatchRead? { Snapshotted(s.hist, s.created, f, s.live, s.watcher, last); }
  }

  lemma RoutedAccounted(hist: nat, s: Slot, n: nat, handed: seq<nat>)
    requires s.queue.Some? && Accounted(hist, s, handed) && n < hist
    ensures Accounted(hist, Routed(s, n), handed)
  {
    if n !in s.routed {
      RoutedLine(s, n, handed);
      var all := All(s, handed);
      assert multiset(all + [n]) == multiset(all) + multiset{n};
      assert n !in multiset(all);
    }
  }


  /** Handling a change keeps every event that came in one place, once. */
  lemma HandledSound(s: Sys, c: Change)
    requires Waits(s.phase) && SlotOk(s) && (c.Ours? ==> c.n < s.hist) && (c.Created? ==> s.created)
    ensures SlotOk(Handled(s, c))
  {
    match c
    case Ours(n) =>
      RoutedAccounted(s.hist, s.slot, n, s.handed);
      if n !in s.slot.routed { RoutedLine(s.slot, n, s.handed); }
    case Created => BoundLine(s.slot, s.handed);
    case Other =>
  }

  lemma TakeSound(s: Sys)
    requires Can(s, Take) && FeedIsOk(s) && Waits(s.phase) && SlotOk(s)
    ensures SlotOk(Do(s, Take))
  {
    var f, last :| f == s.feed && FeedOk(s.hist, s.created, f, s.live, s.watcher, last);
    if s.live {
      assert f.wire == [f.wire[0]] + f.wire[1..];
      NextDue(s.hist, s.created, f, s.live, s.watcher, last, f.wire[0], f.wire[1..]);
      HandledSound(s.(feed := f.(wire := f.wire[1..])), f.wire[0]);
    }
  }

  lemma HandOnSound(s: Sys)
    requires Can(s, HandOn) && FeedIsOk(s) && Waits(s.phase) && SlotOk(s)
    ensures SlotOk(Do(s, HandOn))
  {
    var f, last :| f == s.feed && FeedOk(s.hist, s.created, f, s.live, s.watcher, last);
    NextDue(s.hist, s.created, f, s.live, s.watcher, last, s.watcher.change, f.wire);
    HandledSound(s.(watcher := Idle), s.watcher.change);
  }

  predicate CatchesUp(e: Step) {
    e.WatchAnswer? || e.FirstAnswer? || e.MoreRead?
  }

  /** The length of the history that an answer brings. */
  function Snapshot(s: Sys, e: Step): nat
    requires Can(s, e) && CatchesUp(e)
  {
    match e
    case WatchAnswer => s.watcher.snapshot
    case FirstAnswer => s.phase.snapshot.value
    case MoreRead(h) => h
  }

  lemma SnapshotBounded(s: Sys, e: Step)
    requires Can(s, e) && CatchesUp(e) && FeedIsOk(s) && Waits(s.phase) && SlotOk(s)
    ensures Snapshot(s, e) <= s.hist && s.slot.bound && Do(s, e).slot == CaughtUp(s.slot, Range(0, Snapshot(s, e)))
  {
    var last :| FeedOk(s.hist, s.created, s.feed, s.live, s.watcher, last);
  }

  lemma CatchUpSound(s: Sys, e: Step)
    requires Can(s, e) && CatchesUp(e) && FeedIsOk(s) && Waits(s.phase) && SlotOk(s)
    ensures SlotOk(Do(s, e))
  {
    SnapshotBounded(s, e);
    CaughtUpAccounted(s.slot, Snapshot(s, e), s.handed, s.hist);
    CaughtUpLine(s.slot, Snapshot(s, e), s.handed, s.hist);
  }

  lemma GetSound(s: Sys)
    requires Can(s, Get) && SlotOk(s)
    ensures Waits(Do(s, Get).phase) ==> SlotOk(Do(s, Get))
  {
    if s.slot.queue.value[0].Event? { NextLine(s.slot, s.handed); }
  }

  lemma DiedSound(s: Sys)
    requires Can(s, Died) && Waits(s.phase) && SlotOk(s)
    ensures SlotOk(Do(s, Died))
  {
    LostLine(s.slot, s.handed);
  }

  lemma AnswerSound(s: Sys)
    requires Can(s, Answer) && SlotOk(s)
    ensures SlotOk(Do(s, Answer))
  {
    BoundLine(s.slot, s.handed);
  }

  /** Steps that leave the call's queue alone. */
  predicate Elsewhere(e: Step) {
    !(e.Take? || e.HandOn? || CatchesUp(e) || e.Get? || e.Died? || e.Answer?)
  }

  lemma ElsewhereSound(s: Sys, e: Step)
    requires Can(s, e) && Elsewhere(e) && Waits(s.phase) && Waits(Do(s, e).phase) && SlotOk(s)
    ensures SlotOk(Do(s, e))
  {
  }

  lemma WaitsSound(s: Sys, e: Step)
    requires Can(s, e) && FeedIsOk(s) && Waits(s.phase) && Waits(Do(s, e).phase) && SlotOk(s)
    ensures SlotOk(Do(s, e))
  {
    if e.Take? { TakeSound(s); }
    else if e.HandOn? { HandOnSound(s); }
    else if CatchesUp(e) { CatchUpSound(s, e); }
    else if e.Get? { GetSound(s); }
    else if e.Died? { DiedSound(s); }
    else if e.Answer? { AnswerSound(s); }
    else { ElsewhereSound(s, e); }
  }

  lemma PhaseBefore(s: Sys, e: Step)
    requires Can(s, e) && !s.phase.NotYet?
    ensures Waits(Do(s, e).phase) ==> Waits(s.phase)
    ensures !Do(s, e).phase.NotYet?
  {
  }

  lemma FeedStays(s: Sys, e: Step)
    requires Can(s, e) && (!s.phase.Over? ==> FeedIsOk(s))
    ensures !Do(s, e).phase.Over? ==> FeedIsOk(Do(s, e))
  {
    if s.phase.Over? {
      assert Do(s, e).phase.Over?;
    } else {
      var last :| FeedOk(s.hist, s.created, s.feed, s.live, s.watcher, last);
      var more := FeedKept(s, e, last);
    }
  }

  lemma NotYetKept(s: Sys, e: Step)
    requires s.phase.NotYet? && FeedIsOk(s) && NotYetOk(s) && Can(s, e)
    ensures Do(s, e).phase.NotYet? ==> NotYetOk(Do(s, e))
    ensures Waits(Do(s, e).phase) ==> e.Register? && SlotOk(Do(s, e))
  {
    var f, last :| f == s.feed && FeedOk(s.hist, s.created, f, s.live, s.watcher, last);
    if e.HandOn? {
      NextDue(s.hist, s.created, f, s.live, s.watcher, last, s.watcher.change, f.wire);
    } else if e.Take? && s.live {
      assert f.wire == [f.wire[0]] + f.wire[1..];
      NextDue(s.hist, s.created, f, s.live, s.watcher, last, f.wire[0], f.wire[1..]);
    }
  }

  lemma StepSound(s: Sys, e: Step)
    requires Sound(s) && Can(s, e)
    ensures Sound(Do(s, e))
  {
    FeedStays(s, e);
    if s.phase.NotYet? {
      NotYetKept(s, e);
    } else {
      PhaseBefore(s, e);
      if Waits(Do(s, e).phase) { WaitsSound(s, e); }
    }
  }

  lemma {:induction false} PathSound(s: Sys, steps: seq<Step>, t: Sys)
    requires Sound(s) && Path(s, steps, t)
    ensures Sound(t)
    decreases |steps|
  {
    if steps != [] {
      StepSound(s, steps[0]);
      PathSound(Do(s, steps[0]), steps[1..], t);
    }
  }

  lemma BeginSound()
    ensures Sound(BEGIN)
  {
    assert FeedOk(0, false, BEGIN.feed, false, Idle, 0);
  }

  function OnQueue(t: Sys): seq<Item> {
    if t.slot.queue.Some? then t.slot.queue.value else []
  }

  /** No call waits on a dead feed, whatever reads failed: a watcher runs, or the mark is on the queue. */
  lemma NoDeadFeed(steps: seq<Step>, t: Sys)
    requires Path(BEGIN, steps, t) && Waits(t.phase)
    ensures t.feed.watching || FeedLost in OnQueue(t)
  {
    BeginSound();
    PathSound(BEGIN, steps, t);
  }

  /** Where an event of a call can be: handed on, on its queue, or waiting for the call to be bound. */
  function Places(t: Sys): seq<nat> {
    t.handed + Numbers(OnQueue(t)) + t.slot.orphans
  }

  /**
   * No event is ever handed on or queued twice, whatever reads failed; a bound call's events wait on its queue alone.
   */
  lemma AtMostOnce(steps: seq<Step>, t: Sys, n: nat)
    requires Path(BEGIN, steps, t) && Waits(t.phase)
    ensures multiset(Places(t))[n] <= 1 && (n in Places(t) ==> n < t.hist)
    ensures t.slot.bound ==> Places(t) == t.handed + Numbers(OnQueue(t))
  {
    BeginSound();
    PathSound(BEGIN, steps, t);
    assert Places(t) == All(t.slot, t.handed);
    if t.slot.bound { assert t.handed + Numbers(OnQueue(t)) + [] == t.handed + Numbers(OnQueue(t)); }
  }

  /** The events that a step brings to a call: from the feed, or from a history that was read. */
  ghost predicate Brings(s: Sys, e: Step, n: nat)
    requires Can(s, e)
  {
    match e
    case Take => s.live && s.feed.wire[0] == Ours(n)
    case HandOn => s.watcher.change == Ours(n)
    case WatchAnswer => n < s.watcher.snapshot
    case FirstAnswer => n < s.phase.snapshot.value
    case MoreRead(h) => n < h
    case _ => false
  }

  lemma BroughtIsRouted(s: Sys, e: Step, n: nat)
    requires Sound(s) && Waits(s.phase) && Can(s, e) && Brings(s, e, n)
    ensures n in Do(s, e).slot.routed
  {
    if CatchesUp(e) {
      SnapshotBounded(s, e);
      InRange(Snapshot(s, e), n);
    }
  }

  lemma RoutedStays(s: Sys, e: Step, n: nat)
    requires Can(s, e) && n in s.slot.routed
    ensures n in Do(s, e).slot.routed
  {
  }

  lemma {:induction false} PathRoutes(s: Sys, steps: seq<Step>, t: Sys, n: nat)
    requires Path(s, steps, t) && n in s.slot.routed
    ensures n in t.slot.routed
    decreases |steps|
  {
    if steps != [] {
      RoutedStays(s, steps[0], n);
      PathRoutes(Do(s, steps[0]), steps[1..], t, n);
    }
  }

  /** No event that came is ever lost while its call waits, whatever reads failed before it came or after. */
  lemma NeverDropped(steps: seq<Step>, s: Sys, e: Step, n: nat, more: seq<Step>, t: Sys)
    requires Path(BEGIN, steps, s) && Waits(s.phase) && Can(s, e) && Brings(s, e, n)
    requires Path(Do(s, e), more, t) && Waits(t.phase)
    ensures n in Places(t)
  {
    BeginSound();
    PathSound(BEGIN, steps, s);
    StepSound(s, e);
    PathSound(Do(s, e), more, t);
    BroughtIsRouted(s, e, n);
    PathRoutes(Do(s, e), more, t, n);
    assert Places(t) == All(t.slot, t.handed);
  }

  lemma {:induction false} FrontFirst(q: seq<Item>)
    ensures Front(q) <= Numbers(q)
    decreases |q|
  {
    if q != [] { FrontFirst(q[1..]); }
  }

  lemma {:induction false} InWithout(ns: seq<nat>, gone: set<nat>, n: nat)
    ensures n in Without(ns, gone) <==> n in ns && n !in gone
    decreases |ns|
  {
    if ns != [] { InWithout(ns[1..], gone, n); }
  }

  /**
   * Catching up neither drops a mark nor puts it ahead of an event that waited before it, and drops no waiting event.
   */
  lemma MarkStaysBehind(q: seq<Item>, routed: set<nat>, history: seq<nat>, n: nat)
    ensures Marked(Refilled(q, routed, history)) <==> Marked(q)
    ensures n in Front(q) ==> n in Front(Refilled(q, routed, history))
    ensures n in Numbers(q) ==> n in Numbers(Refilled(q, routed, history))
  {
    RefilledIs(q, routed, history);
    FrontFirst(q);
    var missed, read := Without(history, routed - Elements(Numbers(q))), Elements(history);
    InWithout(history, routed - Elements(Numbers(q)), n);
    InWithout(Front(q), read, n);
    InWithout(Numbers(q), read, n);
    if n in Front(q) {
      var i :| 0 <= i < |Front(q)| && Front(q)[i] == n;
      assert Numbers(q)[i] == n;
    }
  }
}
