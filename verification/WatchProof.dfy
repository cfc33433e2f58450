/** Each call gets its task's events in order and without a gap, unless a failed read does harm. */
module WatchProof {
  import opened Frames
  import opened Merge
  import opened Watch
  import opened WatchSound

  predicate Smooth(ns: seq<nat>) {
    ns != [] ==> ns == Range(ns[0], ns[0] + |ns|)
  }

  /** The call's first catch-up is done, or it never needed one. */
  predicate Settled(p: Phase) {
    p.Streaming? || (p.Assigning? && p.wasLive)
  }

  /**
   * What was handed on, and then `line`, begin the task's history; unless the feed is lost, what it brings next joins
   * them.
   */
  predicate SettledOk(due: Option<nat>, live: bool, todo: bool, p: Phase, handed: seq<nat>, line: seq<nat>,
                      lost: bool) {
    && handed + line == Range(0, |handed| + |line|)
    && (!lost && live && !todo ==> Joins(due, |handed| + |line|))
    && (p.Assigning? && !lost ==> live && !todo)
  }

  /** Before the first catch-up `line` may lack events at its front, which a read under way will bring. */
  predicate UnsettledOk(due: Option<nat>, live: bool, w: Watcher, p: Phase, line: seq<nat>, lost: bool) {
    && Smooth(line)
    && (!lost && (!live || Todo(w)) ==> line == [])
    && (!lost && live && !Todo(w) && line != [] && due.Some? ==>
          (line[0] == 0 && due.value <= |line|) || line[0] + |line| == due.value)
    && (w.Reading? && line != [] ==> line[0] <= w.snapshot)
    && (p.First? && p.snapshot.Some? ==>
          && (line != [] ==> line[0] <= p.snapshot.value)
          && (!lost && live && !Todo(w) && line == [] ==> Joins(due, p.snapshot.value)))
  }

  predicate InOrder(due: Option<nat>, live: bool, w: Watcher, p: Phase, handed: seq<nat>, line: seq<nat>, lost: bool) {
    && (!p.Streaming? ==> handed == [])
    && if Settled(p) then SettledOk(due, live, Todo(w), p, handed, line, lost)
          else UnsettledOk(due, live, w, p, line, lost)
  }

  function Due(s: Sys): Option<nat> {
    Upcoming(s.hist, s.feed, s.watcher)
  }

  ghost predicate Orderly(s: Sys) {
    InOrder(Due(s), s.live, s.watcher, s.phase, s.handed, Line(s.slot), Lost(s.slot))
  }

  ghost predicate Inv(s: Sys) {
    Sound(s) && (Waits(s.phase) ==> Orderly(s))
  }

  // ------------------------------------------------------------------ what the feed brings next

  lemma {:induction false} FirstOursNext(changes: seq<Change>, next: nat, last: nat)
    requires InTurn(changes, next, last)
    ensures if FirstOurs(changes).Some? then FirstOurs(changes).value == next < last else next == last
    decreases |changes|
  {
    if changes != [] {
      if changes[0].Ours? {
        InTurnFirst(changes[1..], next + 1, last);
      } else {
        FirstOursNext(changes[1..], next, last);
      }
    }
  }

  lemma {:induction false} FirstOursMore(changes: seq<Change>, c: Change)
    ensures FirstOurs(changes + [c]) ==
            if FirstOurs(changes).Some? then FirstOurs(changes) else if c.Ours? then Some(c.n) else None
    decreases |changes|
  {
    if changes == [] {
      assert changes + [c] == [c];
    } else {
      assert (changes + [c])[0] == changes[0] && (changes + [c])[1..] == changes[1..] + [c];
      FirstOursMore(changes[1..], c);
    }
  }

  lemma DueIsNext(s: Sys)
    requires FeedIsOk(s)
    ensures Due(s).Some? ==> Due(s).value == s.feed.next <= s.hist
  {
    var last :| FeedOk(s.hist, s.created, s.feed, s.live, s.watcher, last);
    if s.feed.subscribed { FirstOursNext(Coming(s.watcher, s.feed.wire), s.feed.next, last); }
  }

  /** What is sent on a feed does not change what it brings next. */
  lemma DueAfterSent(hist: nat, f: Feed, w: Watcher, c: Change)
    requires c.Ours? ==> c.n == hist
    ensures var more := if c.Ours? then hist + 1 else hist; Upcoming(more, Sent(f, c), w) == Upcoming(hist, f, w)
  {
    if f.subscribed && !f.cut {
      FirstOursMore(Coming(w, f.wire), c);
      assert Coming(w, f.wire + [c]) == Coming(w, f.wire) + [c];
    }
  }

  /** A change that is handled was what the feed brings next, or leaves that as it is. */
  lemma DueAfterHandled(hist: nat, f: Feed, w: Watcher, c: Change, rest: seq<Change>, next: nat, last: nat)
    requires f.subscribed && Coming(w, f.wire) == [c] + rest && InTurn(Coming(w, f.wire), f.next, last)
    requires last <= hist && (f.cut || last == hist)
    ensures var due, left := Upcoming(hist, f, w), Upcoming(hist, f.(wire := rest, next := next), Idle);
      if c.Ours? then due == Some(c.n) && c.n == f.next && (left.Some? ==> left.value == c.n + 1) else left == due
  {
    assert Coming(w, f.wire)[0] == c && Coming(w, f.wire)[1..] == rest;
    FirstOursNext(rest, if c.Ours? then f.next + 1 else f.next, last);
  }

  // ------------------------------------------------------------------ catching up

  lemma MissedIs(m: nat, h: nat)
    ensures Missed(Range(0, m), h) == Range(m, h)
  {
    forall n | 0 <= n < h ensures n in Elements(Range(0, m)) <==> n < m { InRange(m, n); }
    WithoutRange(0, h, Elements(Range(0, m)), m);
  }

  lemma NewerIs(a: nat, b: nat, h: nat)
    ensures Newer(Range(a, b), h) == if a < h then Range(h, b) else Range(a, b)
  {
    forall n | a <= n < b ensures n in Elements(Range(0, h)) <==> n < h { InRange(h, n); }
    WithoutRange(a, b, Elements(Range(0, h)), h);
  }

  function Max(a: nat, b: nat): nat {
    if a < b then b else a
  }

  /** A catch-up closes the gap before a call's queue and leaves none behind it. */
  lemma CaughtUpInOrder(m: nat, a: nat, b: nat, h: nat)
    requires a == m || (m == 0 && a <= h)
    requires a <= b
    ensures Range(0, m) + (Missed(Range(0, m), h) + Newer(Range(a, b), h)) == Range(0, Max(Max(m, h), b))
  {
    var c := Max(m, h);
    var d := Max(c, b);
    MissedIs(m, h);
    NewerIs(a, b, h);
    assert Missed(Range(0, m), h) == Range(m, c) && Newer(Range(a, b), h) == Range(c, d);
    RangeConcat(m, c, d);
    RangeConcat(0, m, d);
  }

  lemma LineBounded(s: Slot, handed: seq<nat>, hist: nat)
    requires s.queue.Some? && Accounted(hist, s, handed)
    ensures Line(s) != [] ==> Line(s)[0] < hist
  {
    FrontFirst(s.queue.value);
    var line := Line(s);
    if line != [] {
      var ns := Numbers(s.queue.value);
      assert (ns + s.orphans)[0] == line[0];
      assert All(s, handed)[|handed|] == line[0];
      assert line[0] in s.routed;
    }
  }

  /** The next event that the feed brings continues the line, unless a read brought it before. */
  lemma RoutedInOrder(n: nat, due: Option<nat>, w: Watcher, p: Phase, handed: seq<nat>, line: seq<nat>, lost: bool,
                      known: bool)
    requires Waits(p) && !Todo(w) && InOrder(Some(n), true, w, p, handed, line, lost)
    requires (due.Some? ==> due.value == n + 1) && (!lost ==> (known <==> n in handed + line))
    ensures InOrder(due, true, Idle, p, handed, if known || lost then line else line + [n], lost)
  {
    if !lost {
      if Settled(p) {
        ContinuedSettled(n, handed, line, known);
      } else {
        assert handed + line == line;
        ContinuedUnsettled(n, line, known);
      }
    }
  }

  lemma ContinuedSettled(n: nat, handed: seq<nat>, line: seq<nat>, known: bool)
    requires handed + line == Range(0, |handed| + |line|) && n <= |handed| + |line| && (known <==> n in handed + line)
    ensures known <==> n < |handed| + |line|
    ensures !known ==> handed + (line + [n]) == Range(0, n + 1)
  {
    var k := |handed| + |line|;
    if n < k { assert (handed + line)[n] == n; }
    assert handed + (line + [n]) == (handed + line) + [n];
  }

  lemma ContinuedUnsettled(n: nat, line: seq<nat>, known: bool)
    requires Smooth(line) && (known <==> n in line)
    requires line != [] ==> (line[0] == 0 && n <= |line|) || line[0] + |line| == n
    ensures known ==> line[0] == 0 && n + 1 <= |line|
    ensures !known ==> Smooth(line + [n]) && (line + [n])[0] + |line + [n]| == n + 1
  {
    if line != [] && n < line[0] + |line| {
      assert line[n - line[0]] == n;
    }
  }

  /** What a catch-up leaves. */
  lemma CaughtUpLeaves(p: Phase, handed: seq<nat>, line: seq<nat>, h: nat)
    requires if Settled(p) then handed + line == Range(0, |handed| + |line|)
             else handed == [] && Smooth(line) && (line != [] ==> line[0] <= h)
    ensures var reach := if Settled(p) || line == [] then |handed| + |line| else line[0] + |line|;
      handed + (Missed(handed, h) + Newer(line, h)) == Range(0, Max(reach, h))
  {
    var m, k := |handed|, |handed| + |line|;
    if Settled(p) {
      assert handed == (handed + line)[..m] == Range(0, m);
      assert line == (handed + line)[m..] == Range(m, k);
      CaughtUpInOrder(m, m, k, h);
    } else if line == [] {
      assert handed == Range(0, 0) && line == Range(0, 0);
      CaughtUpInOrder(0, 0, 0, h);
    } else {
      assert handed == Range(0, 0);
      CaughtUpInOrder(0, line[0], line[0] + |line|, h);
    }
  }

  lemma WatcherCatchesUp(due: Option<nat>, w: Watcher, p: Phase, handed: seq<nat>, line: seq<nat>, lost: bool)
    requires Waits(p) && InOrder(due, true, w, p, handed, line, lost) && w.Reading? && Joins(due, w.snapshot)
    ensures var caught := Missed(handed, w.snapshot) + Newer(line, w.snapshot);
      InOrder(due, true, Catching(w.change, false), p, handed, caught, lost)
  {
    CaughtUpLeaves(p, handed, line, w.snapshot);
    var caught := Missed(handed, w.snapshot) + Newer(line, w.snapshot);
    if !Settled(p) {
      assert handed + caught == caught;
      FromStart(due, w, p, caught, lost);
    }
  }

  lemma FromStart(due: Option<nat>, w: Watcher, p: Phase, line: seq<nat>, lost: bool)
    requires w.Reading? && line == Range(0, |line|) && w.snapshot <= |line| && Joins(due, w.snapshot)
    ensures UnsettledOk(due, true, Catching(w.change, false), p, line, lost)
  {
  }

  lemma FirstCatchesUp(due: Option<nat>, live: bool, w: Watcher, p: Phase, handed: seq<nat>, line: seq<nat>, lost: bool)
    requires p.First? && p.snapshot.Some? && InOrder(due, live, w, p, handed, line, lost)
    ensures var h := p.snapshot.value;
            InOrder(due, live, w, Streaming, handed, Missed(handed, h) + Newer(line, h), lost)
  {
    CaughtUpLeaves(p, handed, line, p.snapshot.value);
  }

  lemma StreamCatchesUp(due: Option<nat>, live: bool, w: Watcher, handed: seq<nat>, line: seq<nat>, lost: bool, h: nat)
    requires InOrder(due, live, w, Streaming, handed, line, lost)
    ensures InOrder(due, live, w, Streaming, handed, Missed(handed, h) + Newer(line, h), lost)
  {
    CaughtUpLeaves(Streaming, handed, line, h);
  }

  // ------------------------------------------------------------------ steps

  lemma LineHolds(s: Slot, handed: seq<nat>, hist: nat, n: nat)
    requires s.queue.Some? && Accounted(hist, s, handed) && !Lost(s)
    ensures n in s.routed <==> n in handed + Line(s)
  {
    assert All(s, handed) == handed + Line(s);
  }

  lemma IdleInOrder(due: Option<nat>, w: Watcher, p: Phase, handed: seq<nat>, line: seq<nat>, lost: bool)
    requires !Todo(w) && InOrder(due, true, w, p, handed, line, lost)
    ensures InOrder(due, true, Idle, p, handed, line, lost)
  {
  }

  lemma EventInOrder(hist: nat, n: nat, due: Option<nat>, w: Watcher, s: Slot, p: Phase, handed: seq<nat>)
    requires Waits(p) && !Todo(w) && s.queue.Some? && Accounted(hist, s, handed) && (due.Some? ==> due.value == n + 1)
    requires InOrder(Some(n), true, w, p, handed, Line(s), Lost(s))
    ensures InOrder(due, true, Idle, p, handed, Line(Routed(s, n)), Lost(Routed(s, n)))
  {
    if !Lost(s) { LineHolds(s, handed, hist, n); }
    if n !in s.routed { RoutedLine(s, n, handed); }
    RoutedInOrder(n, due, w, p, handed, Line(s), Lost(s), n in s.routed);
  }

  /** A change is handled: `w` is the watcher that took it, `due` what the feed brings after it. */
  lemma HandledInOrder(hist: nat, c: Change, due: Option<nat>, w: Watcher, s: Slot, p: Phase, handed: seq<nat>)
    requires Waits(p) && !Todo(w) && s.queue.Some? && Accounted(hist, s, handed)
    requires c.Ours? && due.Some? ==> due.value == c.n + 1
    requires InOrder(if c.Ours? then Some(c.n) else due, true, w, p, handed, Line(s), Lost(s))
    ensures InOrder(due, true, Idle, p, handed, Line(HandledSlot(s, c)), Lost(HandledSlot(s, c)))
  {
    if c.Ours? {
      EventInOrder(hist, c.n, due, w, s, p, handed);
    } else {
      IdleInOrder(due, w, p, handed, Line(s), Lost(s));
      if c.Created? { BoundLine(s, handed); }
    }
  }

  lemma HandOnKept(s: Sys)
    requires Can(s, HandOn) && FeedIsOk(s) && SlotOk(s) && Orderly(s) && Waits(s.phase)
    ensures Orderly(Do(s, HandOn))
  {
    var f, last :| f == s.feed && FeedOk(s.hist, s.created, f, s.live, s.watcher, last);
    var c, t := s.watcher.change, Do(s, HandOn);
    DueAfterHandled(s.hist, f, s.watcher, c, f.wire, t.feed.next, last);
    HandledInOrder(s.hist, c, Due(t), s.watcher, s.slot, s.phase, s.handed);
  }

  /** The first change on a feed: it is held back until the call is caught up, if the call is bound by then. */
  lemma HoldBackKept(s: Sys)
    requires Can(s, Take) && !s.live && SlotOk(s) && Orderly(s) && Waits(s.phase)
    ensures Orderly(Do(s, Take))
  {
    var f, t := s.feed, Do(s, Take);
    assert f.wire == [f.wire[0]] + f.wire[1..];
    HeldBackInOrder(Due(s), Due(t), t.watcher, s.phase, s.handed, Line(s.slot), Lost(s.slot), s.slot.bound);
  }

  lemma HeldBackInOrder(due: Option<nat>, left: Option<nat>, w: Watcher, p: Phase, handed: seq<nat>, line: seq<nat>,
                        lost: bool, bound: bool)
    requires Waits(p) && InOrder(due, false, Idle, p, handed, line, lost) && w.Catching? && w.todo == bound
    requires !p.Assigning? ==> bound
    ensures InOrder(left, true, w, p, handed, line, lost)
  {
  }

  lemma TakeKept(s: Sys)
    requires Can(s, Take) && s.live && FeedIsOk(s) && SlotOk(s) && Orderly(s) && Waits(s.phase)
    ensures Orderly(Do(s, Take))
  {
    var f, last :| f == s.feed && FeedOk(s.hist, s.created, f, s.live, s.watcher, last);
    var c, rest, t := f.wire[0], f.wire[1..], Do(s, Take);
    assert f.wire == [c] + rest;
    DueAfterHandled(s.hist, f, s.watcher, c, rest, t.feed.next, last);
    HandledInOrder(s.hist, c, Due(t), s.watcher, s.slot, s.phase, s.handed);
  }

  lemma WatchAnswerKept(s: Sys)
    requires Can(s, WatchAnswer) && FeedIsOk(s) && SlotOk(s) && Orderly(s) && Waits(s.phase)
    ensures Orderly(Do(s, WatchAnswer))
  {
    var last :| FeedOk(s.hist, s.created, s.feed, s.live, s.watcher, last);
    CaughtUpLine(s.slot, s.watcher.snapshot, s.handed, s.hist);
    DueIsNext(s);
    WatcherCatchesUp(Due(s), s.watcher, s.phase, s.handed, Line(s.slot), Lost(s.slot));
  }

  lemma FirstAnswerKept(s: Sys)
    requires Can(s, FirstAnswer) && SlotOk(s) && Orderly(s)
    ensures Orderly(Do(s, FirstAnswer))
  {
    CaughtUpLine(s.slot, s.phase.snapshot.value, s.handed, s.hist);
    FirstCatchesUp(Due(s), s.live, s.watcher, s.phase, s.handed, Line(s.slot), Lost(s.slot));
  }

  lemma MoreReadKept(s: Sys, h: nat)
    requires Can(s, MoreRead(h)) && SlotOk(s) && Orderly(s)
    ensures Orderly(Do(s, MoreRead(h)))
  {
    CaughtUpLine(s.slot, h, s.handed, s.hist);
    StreamCatchesUp(Due(s), s.live, s.watcher, s.handed, Line(s.slot), Lost(s.slot), h);
  }

  lemma GetKept(s: Sys)
    requires Can(s, Get) && SlotOk(s) && Orderly(s)
    ensures Waits(Do(s, Get).phase) ==> Orderly(Do(s, Get))
  {
    var i, t := s.slot.queue.value[0], Do(s, Get);
    if i.Event? {
      NextLine(s.slot, s.handed);
      Assoc(s.handed, [i.n], Line(t.slot));
    }
  }

  lemma DiedKept(s: Sys)
    requires Can(s, Died) && SlotOk(s) && Orderly(s) && Waits(s.phase)
    ensures Orderly(Do(s, Died))
  {
    LostLine(s.slot, s.handed);
    LostInOrder(Due(s), s.live, s.phase, s.handed, Line(s.slot), Lost(s.slot), Due(Do(s, Died)),
          Line(Do(s, Died).slot));
  }

  lemma LostInOrder(due: Option<nat>, live: bool, p: Phase, handed: seq<nat>, line: seq<nat>, lost: bool,
                    left: Option<nat>, rest: seq<nat>)
    requires Waits(p) && InOrder(due, live, Idle, p, handed, line, lost) && rest <= line
    ensures InOrder(left, false, Idle, p, handed, rest, true)
  {
    if Settled(p) { assert handed + rest == (handed + line)[..|handed| + |rest|]; }
  }

  lemma AnswerKept(s: Sys)
    requires Can(s, Answer) && SlotOk(s) && Orderly(s)
    ensures Orderly(Do(s, Answer))
  {
    BoundLine(s.slot, s.handed);
  }

  lemma DueElsewhere(s: Sys, e: Step)
    requires Can(s, e) && Elsewhere(e) && !e.Subscribe? && !e.StartFeed?
    ensures Due(Do(s, e)) == Due(s) || Due(Do(s, e)) == None
  {
    match e
    case Report => DueAfterSent(s.hist, s.feed, s.watcher, Ours(s.hist));
    case Create => DueAfterSent(s.hist, s.feed, s.watcher, Created);
    case OtherChange => DueAfterSent(s.hist, s.feed, s.watcher, Change.Other);
    case _ =>
  }

  /** Steps that leave the call's queue alone. */
  lemma StillInOrder(s: Sys, e: Step, line: seq<nat>, due: Option<nat>)
    requires Can(s, e) && Elsewhere(e) && Harmless(s, e) && Waits(s.phase) && Waits(Do(s, e).phase)
    requires line == Line(s.slot) && (line != [] ==> line[0] < s.hist) && (s.phase.First? ==> s.slot.bound)
    requires (s.live ==> s.feed.subscribed && (due == Due(s) || due == None))
             && (Due(s).Some? ==> Due(s).value <= s.hist)
    requires InOrder(Due(s), s.live, s.watcher, s.phase, s.handed, line, Lost(s.slot))
    ensures var t := Do(s, e); InOrder(due, t.live, t.watcher, t.phase, t.handed, line, Lost(s.slot))
  {
    if e.FirstFails? { assert s.handed + line == line; }
  }

  lemma ElsewhereKept(s: Sys, e: Step)
    requires Can(s, e) && Elsewhere(e) && Harmless(s, e) && Waits(s.phase) && Waits(Do(s, e).phase)
    requires FeedIsOk(s) && SlotOk(s) && Orderly(s)
    ensures Orderly(Do(s, e))
  {
    var last :| FeedOk(s.hist, s.created, s.feed, s.live, s.watcher, last);
    LineBounded(s.slot, s.handed, s.hist);
    DueIsNext(s);
    if s.live { DueElsewhere(s, e); }
    StillInOrder(s, e, Line(s.slot), Due(Do(s, e)));
  }

  lemma WaitsKept(s: Sys, e: Step)
    requires Can(s, e) && Harmless(s, e) && Waits(s.phase) && Waits(Do(s, e).phase)
    requires FeedIsOk(s) && SlotOk(s) && Orderly(s)
    ensures Orderly(Do(s, e))
  {
    if e.Take? { if s.live { TakeKept(s); } else { HoldBackKept(s); } }
    else if e.HandOn? { HandOnKept(s); }
    else if e.WatchAnswer? { WatchAnswerKept(s); }
    else if e.FirstAnswer? { FirstAnswerKept(s); }
    else if e.MoreRead? { MoreReadKept(s, e.h); }
    else if e.Get? { GetKept(s); }
    else if e.Died? { DiedKept(s); }
    else if e.Answer? { AnswerKept(s); }
    else { ElsewhereKept(s, e); }
  }

  lemma RegisterKept(s: Sys)
    requires Can(s, Register) && FeedIsOk(s) && NotYetOk(s)
    ensures Orderly(Do(s, Register))
  {
    DueIsNext(s);
    var last :| FeedOk(s.hist, s.created, s.feed, s.live, s.watcher, last);
    assert Range(0, 0) == [];
  }

  lemma StepKept(s: Sys, e: Step)
    requires Inv(s) && Can(s, e) && Harmless(s, e)
    ensures Inv(Do(s, e))
  {
    StepSound(s, e);
    if s.phase.NotYet? {
      NotYetKept(s, e);
      if e.Register? { RegisterKept(s); }
    } else {
      PhaseBefore(s, e);
      if Waits(Do(s, e).phase) { WaitsKept(s, e); }
    }
  }

  lemma {:induction false} RunKept(s: Sys, steps: seq<Step>, t: Sys)
    requires Inv(s) && Run(s, steps, t)
    ensures Inv(t)
    decreases |steps|
  {
    if steps != [] {
      StepKept(s, steps[0]);
      RunKept(Do(s, steps[0]), steps[1..], t);
    }
  }

  lemma Reached(steps: seq<Step>, t: Sys)
    requires Run(BEGIN, steps, t)
    ensures Inv(t)
  {
    BeginSound();
    RunKept(BEGIN, steps, t);
  }
}
