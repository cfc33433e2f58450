/** The merge's main results, and exactly which failed reads can leave a gap. */
module WatchGap {
  import opened Frames
  import opened Merge
  import opened Watch
  import opened WatchSound
  import opened WatchProof

  /**
   * What a call was handed, and then what waits for it before the feed is lost, are its task's first events, in
   * order.
   */
  ghost predicate Gapless(t: Sys) {
    t.phase.Streaming? ==> exists k :: 0 <= k <= t.hist && t.handed + Front(OnQueue(t)) == Range(0, k)
  }

  lemma LineIsFront(t: Sys)
    requires t.slot.queue.Some? && t.slot.orphans == []
    ensures Line(t.slot) == Front(OnQueue(t))
    ensures !Lost(t.slot) ==> Line(t.slot) == Numbers(OnQueue(t))
  {
    var q := OnQueue(t);
    if !Marked(q) {
      Unmarked(q);
      assert Numbers(q) + [] == Numbers(q);
    }
  }

  lemma InvIsGapless(t: Sys)
    requires Inv(t)
    ensures Gapless(t)
  {
    if t.phase.Streaming? {
      LineIsFront(t);
      var got := t.handed + Front(OnQueue(t));
      LastBounded(t, got);
      assert got == Range(0, |got|);
    }
  }

  lemma LastBounded(t: Sys, got: seq<nat>)
    requires SlotOk(t) && got == t.handed + Front(OnQueue(t)) && got == Range(0, |got|)
    ensures |got| <= t.hist
  {
    var k := |got|;
    if k > 0 {
      FrontFirst(OnQueue(t));
      var all := All(t.slot, t.handed);
      assert got <= all && got[k - 1] == k - 1;
      assert all[k - 1] == k - 1;
      assert k - 1 in t.slot.routed;
    }
  }

  /**
   * Whatever the feed, the reads and the assign's answer do, and in whatever order: as long as no failed read does
   * harm, a call gets its task's events in order and without a gap.
   */
  lemma EachOnceInOrder(steps: seq<Step>, t: Sys)
    requires Run(BEGIN, steps, t)
    ensures Gapless(t)
  {
    Reached(steps, t);
    InvIsGapless(t);
  }

  lemma {:induction false} PathIsRun(s: Sys, steps: seq<Step>, t: Sys)
    requires Path(s, steps, t) && ReadsSucceed(steps)
    ensures Run(s, steps, t)
    decreases |steps|
  {
    if steps != [] {
      assert steps[0] in steps;
      assert forall e <- steps[1..] :: e in steps;
      PathIsRun(Do(s, steps[0]), steps[1..], t);
    }
  }

  /** When no read fails, nothing is missing, doubled or out of order. */
  lemma NoFailedReadNoGap(steps: seq<Step>, t: Sys)
    requires Path(BEGIN, steps, t) && ReadsSucceed(steps)
    ensures Gapless(t)
  {
    PathIsRun(BEGIN, steps, t);
    EachOnceInOrder(steps, t);
  }

  /** Once a live feed has brought what it has, nothing is missing. */
  lemma NothingMissing(steps: seq<Step>, t: Sys)
    requires Run(BEGIN, steps, t) && t.phase.Streaming? && FeedLost !in OnQueue(t)
    requires t.live && !t.feed.cut && t.feed.wire == [] && t.watcher.Idle?
    ensures t.handed + Numbers(OnQueue(t)) == Range(0, t.hist)
  {
    Reached(steps, t);
    LineIsFront(t);
    LastBounded(t, t.handed + Front(OnQueue(t)));
    var last :| FeedOk(t.hist, t.created, t.feed, t.live, t.watcher, last);
    assert Due(t) == Some(t.hist);
  }

  predicate ReadsAll(t: Sys, e: Step) {
    || (e == MoreRead(t.hist) && t.phase.Streaming?)
    || (e == FirstAnswer && t.phase == First(Some(t.hist)))
    || (e == WatchAnswer && t.phase.Streaming? && t.watcher.Reading? && t.watcher.snapshot == t.hist)
  }

  /**
   * A successful read of a history that has ended leaves no event out, whatever reads failed before, even if the
   * feed never brings anything: each of the task's events was handed on or waits on the queue, once.
   */
  lemma CatchUpLeavesNoneOut(steps: seq<Step>, t: Sys, e: Step, n: nat)
    requires Path(BEGIN, steps, t) && ReadsAll(t, e) && n < t.hist
    ensures var u := Do(t, e); multiset(u.handed + Numbers(OnQueue(u)))[n] == 1
  {
    var u := Do(t, e);
    BeginSound();
    PathSound(BEGIN, steps, t);
    SnapshotBounded(t, e);
    PathMore(BEGIN, steps, t, e);
    NeverDropped(steps, t, e, n, [], u);
    AtMostOnce(steps + [e], u, n);
    assert n in multiset(u.handed + Numbers(OnQueue(u)));
  }

  /** And in order, when no failed read did harm: then what the call has is the whole history. */
  lemma CatchUpCompletes(steps: seq<Step>, t: Sys, e: Step)
    requires Run(BEGIN, steps, t) && ReadsAll(t, e)
    ensures var u := Do(t, e); u.handed + Front(OnQueue(u)) == Range(0, u.hist)
  {
    Reached(steps, t);
    StepKept(t, e);
    SnapshotBounded(t, e);
    CaughtUpReaches(t.slot, t.handed, t.hist, t.phase);
    WholeHistory(Do(t, e));
  }

  lemma WholeHistory(u: Sys)
    requires Inv(u) && u.phase.Streaming? && |u.handed + Line(u.slot)| >= u.hist
    ensures u.handed + Front(OnQueue(u)) == Range(0, u.hist)
  {
    LineIsFront(u);
    LastBounded(u, u.handed + Front(OnQueue(u)));
  }

  lemma CaughtUpReaches(s: Slot, handed: seq<nat>, h: nat, p: Phase)
    requires s.bound && s.queue.Some? && Accounted(h, s, handed)
    requires if Settled(p) then handed + Line(s) == Range(0, |handed| + |Line(s)|)
             else handed == [] && Smooth(Line(s)) && (Line(s) != [] ==> Line(s)[0] <= h)
    ensures |handed + Line(CaughtUp(s, Range(0, h)))| >= h
  {
    CaughtUpLine(s, h, handed, h);
    CaughtUpLeaves(p, handed, Line(s), h);
  }

  // ------------------------------------------------------------------ which failures do harm

  /** From here on, as long as no more reads fail, the call gets its task's events in order and without a gap. */
  ghost predicate Unharmed(s: Sys) {
    forall more, t :: Path(s, more, t) && ReadsSucceed(more) ==> Gapless(t)
  }

  lemma {:induction false} RunStays(s: Sys, steps: seq<Step>, t: Sys)
    requires Inv(s) && Path(s, steps, t) && ReadsSucceed(steps)
    ensures Gapless(t)
  {
    PathIsRun(s, steps, t);
    RunKept(s, steps, t);
    InvIsGapless(t);
  }

  lemma {:induction false} PathMore(s: Sys, steps: seq<Step>, t: Sys, e: Step)
    requires Path(s, steps, t) && Can(t, e)
    ensures Path(s, steps + [e], Do(t, e))
    decreases |steps|
  {
    if steps == [] {
      assert steps + [e] == [e];
      assert Path(Do(t, e), [e][1..], Do(t, e));
    } else {
      assert (steps + [e])[0] == steps[0] && (steps + [e])[1..] == steps[1..] + [e];
      PathMore(Do(s, steps[0]), steps[1..], t, e);
    }
  }

  lemma Then(steps: seq<Step>, s: Sys, e: Step) returns (more: seq<Step>, t: Sys)
    requires Path(BEGIN, steps, s) && Can(s, e)
    ensures Path(BEGIN, more, t) && t == Do(s, e)
  {
    more, t := steps + [e], Do(s, e);
    PathMore(BEGIN, steps, s, e);
  }

  /** The feed is subscribed after event 0 was reported, and goes live before the assign is answered. */
  lemma SubscribedLate() returns (steps: seq<Step>, s: Sys)
    ensures Path(BEGIN, steps, s)
    ensures s == Sys(1, true, Feed(true, true, false, [], 1), true, Idle, Slot(false, Some([]), [], {}),
              Assigning(false), [])
  {
    steps, s := Then([], BEGIN, StartFeed);
    steps, s := Then(steps, s, Register);
    steps, s := Then(steps, s, Create);
    steps, s := Then(steps, s, Step.Report);
    steps, s := Then(steps, s, Subscribe);
    steps, s := GoesLive(steps, s);
  }

  lemma GoesLive(steps: seq<Step>, s: Sys) returns (more: seq<Step>, t: Sys)
    requires Path(BEGIN, steps, s) && s.feed.subscribed && !s.feed.cut && s.feed.wire == [] && s.watcher == Idle
             && !s.live && !s.slot.bound
    ensures Path(BEGIN, more, t) && t == s.(live := true)
  {
    more, t := Then(steps, s, OtherChange);
    assert t == s.(feed := s.feed.(wire := [Change.Other])) && [Change.Other][1..] == [];
    more, t := Then(more, t, Take);
    assert t == s.(live := true, watcher := Catching(Change.Other, false));
    more, t := Then(more, t, HandOn);
  }

  lemma BoundAgain(s: Slot)
    requires s.bound && s.queue.Some? && s.orphans == []
    ensures Bound(s) == s
  {
    assert s.queue.value + Events([]) == s.queue.value;
  }

  predicate Handing(u: Sys) {
    u.live && !Todo(u.watcher) && u.phase.Streaming?
  }

  /** The watcher handles the next change. */
  lemma NextChange(u: Sys) returns (e: Step)
    requires Sound(u) && Handing(u) && Coming(u.watcher, u.feed.wire) != []
    ensures Can(u, e) && !Fails(e) && Sound(Do(u, e)) && Handing(Do(u, e)) && Do(u, e).handed == u.handed
    ensures Do(u, e).slot == HandledSlot(u.slot, Coming(u.watcher, u.feed.wire)[0])
    ensures Coming(Do(u, e).watcher, Do(u, e).feed.wire) == Coming(u.watcher, u.feed.wire)[1..]
  {
    e := if u.watcher.Idle? then Take else HandOn;
    StepSound(u, e);
  }

  lemma Before(u: Sys, e: Step, more: seq<Step>, t: Sys)
    requires Can(u, e) && !Fails(e) && Path(Do(u, e), more, t) && ReadsSucceed(more)
    ensures Path(u, [e] + more, t) && ReadsSucceed([e] + more)
  {
    assert ([e] + more)[1..] == more;
  }

  /** What is on its way to a call arrives: everything up to the first of its events is handled. */
  lemma WireBrings(u: Sys) returns (more: seq<Step>, t: Sys)
    requires Sound(u) && Handing(u) && FirstOurs(Coming(u.watcher, u.feed.wire)).Some?
    ensures Path(u, more, t) && ReadsSucceed(more) && t.phase.Streaming? && t.handed == u.handed && SlotOk(t)
    ensures t.slot == Routed(u.slot, FirstOurs(Coming(u.watcher, u.feed.wire)).value)
    decreases |Coming(u.watcher, u.feed.wire)|
  {
    var e := NextChange(u);
    if Coming(u.watcher, u.feed.wire)[0].Ours? {
      more, t := [], Do(u, e);
    } else {
      BoundAgain(u.slot);
      more, t := WireBrings(Do(u, e));
    }
    Before(u, e, more, t);
    more := [e] + more;
  }

  /** If the feed brings another of the call's events, it can bring it before anything else reaches the call. */
  lemma FeedBrings(u: Sys) returns (more: seq<Step>, t: Sys)
    requires Sound(u) && Handing(u) && Due(u).Some?
    ensures Path(u, more, t) && ReadsSucceed(more) && t.phase.Streaming? && t.handed == u.handed && SlotOk(t)
    ensures t.slot == Routed(u.slot, Due(u).value)
  {
    if FirstOurs(Coming(u.watcher, u.feed.wire)).Some? {
      more, t := WireBrings(u);
    } else {
      var v := Do(u, Step.Report);
      StepSound(u, Step.Report);
      FirstOursMore(Coming(u.watcher, u.feed.wire), Ours(u.hist));
      assert Coming(v.watcher, v.feed.wire) == Coming(u.watcher, u.feed.wire) + [Ours(u.hist)];
      more, t := WireBrings(v);
      Before(u, Step.Report, more, t);
      more := [Step.Report] + more;
    }
  }

  /** A call whose next event skips some is harmed. */
  lemma SkippedIsHarm(u: Sys)
    requires Sound(u) && Handing(u) && !Lost(u.slot) && Due(u).Some? && Due(u).value > |u.handed + Line(u.slot)|
    requires u.handed + Line(u.slot) == Range(0, |u.handed + Line(u.slot)|)
    ensures !Unharmed(u)
  {
    var n := Due(u).value;
    var more, t := FeedBrings(u);
    LineHolds(u.slot, u.handed, u.hist, n);
    RoutedLine(u.slot, n, u.handed);
    LineIsFront(t);
    NoRange(u.handed, Line(u.slot), n);
    assert !Gapless(t);
  }

  lemma NoRange(handed: seq<nat>, line: seq<nat>, n: nat)
    requires n > |handed + line|
    ensures forall k: nat :: handed + (line + [n]) != Range(0, k)
  {
    assert (handed + (line + [n]))[|handed + line|] == n;
  }

  lemma StartsLateIsHarm(u: Sys)
    requires SlotOk(u) && u.phase.Streaming? && u.handed == [] && Line(u.slot) != [] && Line(u.slot)[0] != 0
    ensures !Unharmed(u)
  {
    LineIsFront(u);
    assert (u.handed + Front(OnQueue(u)))[0] != 0;
    assert Path(u, [], u) && !Gapless(u);
  }

  lemma FirstFailureHarms(s: Sys)
    requires Inv(s) && Can(s, FirstFails) && !Harmless(s, FirstFails)
    ensures !Unharmed(Do(s, FirstFails))
  {
    var u := Do(s, FirstFails);
    StepSound(s, FirstFails);
    if Line(s.slot) != [] {
      StartsLateIsHarm(u);
    } else {
      assert u.handed + Line(u.slot) == [] == Range(0, 0);
      SkippedIsHarm(u);
    }
  }

  lemma WatchFailureHarms(s: Sys)
    requires Inv(s) && Can(s, WatchFails) && !Harmless(s, WatchFails)
    ensures !Unharmed(Do(s, WatchFails))
  {
    var u := Do(s, WatchFails);
    StepSound(s, WatchFails);
    assert Due(u) == Due(s);
    if s.phase.Streaming? {
      SkippedIsHarm(u);
    } else {
      FirstReadTooOld(u, s.phase.snapshot.value);
    }
  }

  /** The first read under way ends before what the feed brings next. */
  lemma FirstReadTooOld(u: Sys, h: nat)
    requires Sound(u) && u.live && !Todo(u.watcher) && u.phase == First(Some(h)) && !Lost(u.slot) && u.handed == []
    requires Line(u.slot) == [] && Due(u).Some? && Due(u).value > h
    ensures !Unharmed(u)
  {
    var v := Do(u, FirstAnswer);
    StepSound(u, FirstAnswer);
    CaughtUpLine(u.slot, h, [], u.hist);
    CaughtUpLeaves(u.phase, [], [], h);
    assert [] + Line(v.slot) == Range(0, h);
    SkippedIsHarm(v);
    var more, t :| Path(v, more, t) && ReadsSucceed(more) && !Gapless(t);
    Before(u, FirstAnswer, more, t);
  }

  /** A call that has not begun to hand events on, as if its first read had not been answered by the server yet. */
  function Forgetful(s: Sys): Sys {
    if s.phase.First? then s.(phase := First(None)) else s
  }

  /** Before a call hands events on, only the snapshot of its first read can be too old. */
  ghost predicate Early(s: Sys) {
    Waits(s.phase) && !s.phase.Streaming? ==> Orderly(Forgetful(s))
  }

  lemma ForgetfulStep(s: Sys, e: Step)
    requires Can(s, e) && s.phase.First? && Do(s, e).phase.First? && !e.FirstRead?
    ensures var f := Forgetful(s);
      Can(f, e) && Harmless(f, e) && Do(f, e) == Forgetful(Do(s, e))
  {
  }

  lemma FirstStaysEarly(s: Sys, e: Step)
    requires SlotOk(s) && FeedIsOk(s) && Early(s) && Can(s, e) && s.phase.First? && Do(s, e).phase.First?
    ensures Early(Do(s, e))
  {
    var f := Forgetful(s);
    if !e.FirstRead? {
      ForgetfulStep(s, e);
      WaitsKept(f, e);
    }
  }

  lemma StaysEarly(s: Sys, e: Step)
    requires Sound(s) && Early(s) && Can(s, e)
    ensures Early(Do(s, e))
  {
    if s.phase.NotYet? {
      NotYetKept(s, e);
      if e.Register? { RegisterKept(s); }
    } else if s.phase.Assigning? {
      if Waits(Do(s, e).phase) { WaitsKept(s, e); }
    } else if s.phase.First? && Do(s, e).phase.First? {
      FirstStaysEarly(s, e);
    }
  }

  lemma {:induction false} PathEarly(s: Sys, steps: seq<Step>, t: Sys)
    requires Sound(s) && Early(s) && Path(s, steps, t)
    ensures Sound(t) && Early(t)
    decreases |steps|
  {
    if steps != [] {
      StepSound(s, steps[0]);
      StaysEarly(s, steps[0]);
      PathEarly(Do(s, steps[0]), steps[1..], t);
    }
  }

  lemma StreamingUnharmed(s: Sys)
    requires Sound(s) && s.phase.Streaming? && Unharmed(s)
    ensures Orderly(s)
  {
    assert Path(s, [], s);
    LineIsFront(s);
    var k :| 0 <= k <= s.hist && s.handed + Front(OnQueue(s)) == Range(0, k);
    if !Lost(s.slot) && s.live && !Todo(s.watcher) && !Joins(Due(s), k) { SkippedIsHarm(s); }
  }

  lemma SkipsOne(v: Sys, h: nat, line: seq<nat>)
    requires v.phase.Streaming? && v.slot.queue.Some? && v.slot.orphans == [] && line != [] && line[0] > h
    requires v.handed == [] && Line(v.slot) == Range(0, h) + line
    ensures !Gapless(v)
  {
    LineIsFront(v);
    assert (v.handed + Front(OnQueue(v)))[h] == line[0];
  }

  lemma TooShort(s: Sys, h: nat)
    requires SlotOk(s) && s.phase == First(Some(h)) && s.handed == [] && Line(s.slot) != []
    requires Smooth(Line(s.slot)) && Line(s.slot)[0] > h
    ensures Line(CaughtUp(s.slot, Range(0, h))) == Range(0, h) + Line(s.slot)
  {
    var line := Line(s.slot);
    CaughtUpLine(s.slot, h, [], s.hist);
    MissedIs(0, h);
    NewerIs(line[0], line[0] + |line|, h);
    assert Range(0, 0) == [];
  }

  /** The first read under way ends before what waits on the queue. */
  lemma FirstReadTooShort(s: Sys, h: nat)
    requires Sound(s) && s.phase == First(Some(h)) && s.handed == [] && Line(s.slot) != []
    requires Smooth(Line(s.slot)) && Line(s.slot)[0] > h
    ensures !Unharmed(s)
  {
    var v, line := Do(s, FirstAnswer), Line(s.slot);
    StepSound(s, FirstAnswer);
    TooShort(s, h);
    SkipsOne(v, h, line);
    assert Path(v, [], v);
    Before(s, FirstAnswer, [], v);
  }

  lemma FirstUnharmed(s: Sys, h: nat)
    requires Sound(s) && Early(s) && s.phase == First(Some(h)) && Unharmed(s)
    ensures Orderly(s)
  {
    var line := Line(s.slot);
    if line != [] && line[0] > h { FirstReadTooShort(s, h); }
    if line == [] && !Lost(s.slot) && s.live && !Todo(s.watcher) && !Joins(Due(s), h) { FirstReadTooOld(s, h); }
  }

  /** The invariant describes exactly the states from which a call can still be handed everything. */
  lemma UnharmedIsInv(steps: seq<Step>, s: Sys)
    requires Path(BEGIN, steps, s)
    ensures Unharmed(s) <==> Inv(s)
  {
    BeginSound();
    PathEarly(BEGIN, steps, s);
    if Unharmed(s) {
      if s.phase.Streaming? { StreamingUnharmed(s); }
      if s.phase.First? && s.phase.snapshot.Some? { FirstUnharmed(s, s.phase.snapshot.value); }
    }
    if Inv(s) {
      forall more, t | Path(s, more, t) && ReadsSucceed(more) ensures Gapless(t) {
        RunStays(s, more, t);
      }
    }
  }

  /**
   * In any run, whatever reads failed before: as long as the call is unharmed, the next failed read harms it, now or in
   * some continuation in which no more reads fail, exactly when that read is not `Harmless`.
   */
  lemma HarmlessIsExact(steps: seq<Step>, s: Sys, e: Step)
    requires Path(BEGIN, steps, s) && Unharmed(s) && Can(s, e) && Fails(e)
    ensures Harmless(s, e) <==> Unharmed(Do(s, e))
  {
    UnharmedIsInv(steps, s);
    if Harmless(s, e) {
      StepKept(s, e);
      PathMore(BEGIN, steps, s, e);
      UnharmedIsInv(steps + [e], Do(s, e));
    } else if e.FirstFails? {
      FirstFailureHarms(s);
    } else {
      WatchFailureHarms(s);
    }
  }

  /** A run whose failed reads were harmless leaves the call unharmed. */
  lemma HarmlessRunIsUnharmed(steps: seq<Step>, s: Sys)
    requires Run(BEGIN, steps, s)
    ensures Path(BEGIN, steps, s) && Unharmed(s)
  {
    RunIsPath(BEGIN, steps, s);
    Reached(steps, s);
    UnharmedIsInv(steps, s);
  }

  lemma {:induction false} RunIsPath(s: Sys, steps: seq<Step>, t: Sys)
    requires Run(s, steps, t)
    ensures Path(s, steps, t)
    decreases |steps|
  {
    if steps != [] { RunIsPath(Do(s, steps[0]), steps[1..], t); }
  }

  /** A first read that fails before the feed shows anything does no harm: the watcher still catches the call up. */
  lemma EarlyFailureIsHarmless(steps: seq<Step>, s: Sys)
    requires Path(BEGIN, steps, s) && Unharmed(s) && Can(s, FirstFails) && !s.live && FeedLost !in OnQueue(s)
    ensures Unharmed(Do(s, FirstFails))
  {
    UnharmedIsInv(steps, s);
    HarmlessIsExact(steps, s, FirstFails);
  }

  lemma Answered(steps: seq<Step>, s: Sys) returns (more: seq<Step>, t: Sys)
    requires Path(BEGIN, steps, s) && s.phase == Assigning(false) && s.created
    requires s.slot == Slot(false, Some([]), [], {})
    ensures Path(BEGIN, more, t) && t == s.(phase := First(None), slot := Slot(true, Some([]), [], {}))
  {
    assert [] + Events([]) == [];
    more, t := Then(steps, s, Answer);
  }

  /** When a read fails, events can be missing: here the call's first read fails, and its first event is event 1. */
  lemma FailedReadLeavesGap() returns (steps: seq<Step>, t: Sys)
    ensures Path(BEGIN, steps, t) && t.phase.Streaming? && t.hist == 2 && t.handed == [1]
  {
    steps, t := SubscribedLate();
    steps, t := Answered(steps, t);
    steps, t := Then(steps, t, FirstFails);
    steps, t := ReportedAndHanded(steps, t);
  }

  lemma ReportedAndHanded(steps: seq<Step>, s: Sys) returns (more: seq<Step>, t: Sys)
    requires Path(BEGIN, steps, s) && s == Sys(1, true, Feed(true, true, false, [], 1), true, Idle,
                                               Slot(true, Some([]), [], {}), Streaming, [])
    ensures Path(BEGIN, more, t) && t.phase.Streaming? && t.hist == 2 && t.handed == [1]
  {
    more, t := Then(steps, s, Step.Report);
    assert t.feed.wire == [Ours(1)];
    more, t := Then(more, t, Take);
    assert t.slot.queue.value == [Event(1)];
    more, t := Then(more, t, Get);
  }

  // ------------------------------------------------------------------ what can always happen

  lemma HandsOne(s: Sys)
    requires s.phase.Streaming? && OnQueue(s) != []
    ensures var v, q := Do(s, Get), OnQueue(s);
      && v.hist == s.hist && (Marked(q) <==> q[0].FeedLost? || Marked(q[1..]))
      && if q[0].FeedLost? then v.phase.Over? && v.handed == s.handed + Front(q)
         else v.phase.Streaming? && v.slot.queue == Some(q[1..]) && v.handed + Front(q[1..]) == s.handed + Front(q)
  {
    var q := OnQueue(s);
    assert q == [q[0]] + q[1..];
    Cons(q[0], q[1..]);
    if q[0].Event? { Assoc(s.handed, [q[0].n], Front(q[1..])); }
  }

  /** What waits is handed on, up to a mark, which ends the call. */
  lemma {:induction false} HandsOn(s: Sys) returns (more: seq<Step>, u: Sys)
    requires s.phase.Streaming? && s.slot.queue.Some?
    ensures Path(s, more, u) && ReadsSucceed(more) && u.handed == s.handed + Front(OnQueue(s)) && u.hist == s.hist
    ensures if Marked(OnQueue(s)) then u.phase.Over? else u.phase.Streaming? && u.slot.queue == Some([])
    decreases |OnQueue(s)|
  {
    var q := OnQueue(s);
    if q == [] {
      more, u := [], s;
    } else {
      var v := Do(s, Get);
      HandsOne(s);
      if q[0].FeedLost? { more, u := [], v; } else { more, u := HandsOn(v); }
      Before(s, Get, more, u);
      more := [Get] + more;
    }
  }

  /** In no state of any run is a call stuck on a lost feed: it is handed what waits before the mark, and ends. */
  lemma LostFeedEnds(steps: seq<Step>, t: Sys) returns (more: seq<Step>, u: Sys)
    requires Path(BEGIN, steps, t) && t.phase.Streaming? && FeedLost in OnQueue(t)
    ensures Path(t, more, u) && ReadsSucceed(more) && u.phase.Over? && u.handed == t.handed + Front(OnQueue(t))
  {
    BeginSound();
    PathSound(BEGIN, steps, t);
    more, u := HandsOn(t);
  }

  /**
   * From every state of any run in which a call hands events on and its feed is not lost, whatever reads failed
   * before, one more read lets it be handed every event its task has reported, each once; and in order if unharmed.
   */
  lemma AllCanBeHanded(steps: seq<Step>, t: Sys) returns (more: seq<Step>, u: Sys)
    requires Path(BEGIN, steps, t) && t.phase.Streaming? && FeedLost !in OnQueue(t)
    ensures Path(t, more, u) && u.phase.Streaming? && u.hist == t.hist && u.slot.queue == Some([])
    ensures forall n: nat :: multiset(u.handed)[n] == if n < t.hist then 1 else 0
    ensures Unharmed(t) ==> u.handed == Range(0, t.hist)
  {
    var e := MoreRead(t.hist);
    var v := Do(t, e);
    ReadStaysUnmarked(steps, t);
    more, u := HandsOn(v);
    Unmarked(OnQueue(v));
    forall n: nat ensures multiset(u.handed)[n] == if n < t.hist then 1 else 0 {
      HandedAll(steps, t, n);
    }
    Before(t, e, more, u);
    more := [e] + more;
    if Unharmed(t) { UnharmedCatchesUp(steps, t); }
  }

  lemma ReadStaysUnmarked(steps: seq<Step>, t: Sys)
    requires Path(BEGIN, steps, t) && t.phase.Streaming? && FeedLost !in OnQueue(t)
    ensures var v := Do(t, MoreRead(t.hist)); v.slot.queue.Some? && FeedLost !in OnQueue(v)
  {
    BeginSound();
    PathSound(BEGIN, steps, t);
    MarkStaysBehind(OnQueue(t), t.slot.routed, Range(0, t.hist), 0);
  }

  lemma UnharmedCatchesUp(steps: seq<Step>, t: Sys)
    requires Path(BEGIN, steps, t) && t.phase.Streaming? && Unharmed(t)
    ensures var v := Do(t, MoreRead(t.hist)); v.handed + Front(OnQueue(v)) == Range(0, t.hist)
  {
    UnharmedIsInv(steps, t);
    StepKept(t, MoreRead(t.hist));
    SnapshotBounded(t, MoreRead(t.hist));
    CaughtUpReaches(t.slot, t.handed, t.hist, t.phase);
    WholeHistory(Do(t, MoreRead(t.hist)));
  }

  lemma HandedAll(steps: seq<Step>, t: Sys, n: nat)
    requires Path(BEGIN, steps, t) && t.phase.Streaming?
    ensures var v := Do(t, MoreRead(t.hist));
      multiset(v.handed + Numbers(OnQueue(v)))[n] == if n < t.hist then 1 else 0
  {
    var e := MoreRead(t.hist);
    var v := Do(t, e);
    if n < t.hist {
      CatchUpLeavesNoneOut(steps, t, e, n);
    } else {
      BeginSound();
      PathSound(BEGIN, steps, t);
      PathMore(BEGIN, steps, t, e);
      PathSound(BEGIN, steps + [e], v);
      AtMostOnce(steps + [e], v, n);
      assert Places(v) == v.handed + Numbers(OnQueue(v)) && n !in Places(v);
    }
  }

  /** A call that has ended is handed nothing more. */
  lemma {:induction false} OverForGood(s: Sys, steps: seq<Step>, t: Sys)
    requires s.phase.Over? && Path(s, steps, t)
    ensures t.phase.Over? && t.handed == s.handed
    decreases |steps|
  {
    if steps != [] { OverForGood(Do(s, steps[0]), steps[1..], t); }
  }

  lemma EndsForGood(s: Sys, steps: seq<Step>, t: Sys)
    requires Can(s, End) && Path(Do(s, End), steps, t)
    ensures t.phase.Over? && t.handed == s.handed
  {
    OverForGood(Do(s, End), steps, t);
  }

  /** A call whose feed was known to be live when it began needs no read; any other begins with one. */
  lemma ReadsUnlessLive(s: Sys)
    requires s.phase.NotYet? && s.feed.watching
    ensures Can(s, Register)
    ensures forall steps, t :: Path(Do(s, Register), steps, t) && Can(t, Answer) ==>
              Do(t, Answer).phase == if s.live then Streaming else First(None)
  {
    forall steps, t | Path(Do(s, Register), steps, t) && Can(t, Answer)
      ensures Do(t, Answer).phase == if s.live then Streaming else First(None)
    {
      AssigningKeeps(Do(s, Register), steps, t, s.live);
    }
  }

  lemma {:induction false} AssigningKeeps(s: Sys, steps: seq<Step>, t: Sys, wasLive: bool)
    requires Path(s, steps, t) && t.phase.Assigning? && !s.phase.NotYet?
    requires s.phase.Assigning? ==> s.phase.wasLive == wasLive
    ensures s.phase.Assigning? && t.phase.wasLive == wasLive
    decreases |steps|
  {
    if steps != [] { AssigningKeeps(Do(s, steps[0]), steps[1..], t, wasLive); }
  }

  /** The server may close the feed at any time; then the feed is lost, and a call is told so. */
  lemma AnyFeedCanDie(s: Sys, c: Change)
    requires s.feed.subscribed && s.feed.watching && s.watcher.Idle?
    ensures Can(s, Cut) && Can(Do(s, Cut), Died) && Sent(Do(s, Cut).feed, c) == Do(s, Cut).feed
    ensures var t := Do(Do(s, Cut), Died);
      && !t.feed.watching && !t.live && Can(t, StartFeed) && t.handed == s.handed && t.phase == s.phase
      && (Waits(s.phase) && s.slot.queue.Some? ==> t.slot == s.slot.(queue := Some(s.slot.queue.value + [FeedLost])))
  {
  }

  /** A change that creates the task binds the call before its assign is answered. */
  lemma CreationBinds() returns (steps: seq<Step>, s: Sys)
    ensures Path(BEGIN, steps, s) && s.phase.Assigning? && s.slot.bound && s.slot.queue == Some([])
  {
    steps, s := Then([], BEGIN, StartFeed);
    steps, s := Then(steps, s, Subscribe);
    steps, s := Then(steps, s, Register);
    steps, s := Then(steps, s, Create);
    steps, s := CreatedIsHandled(steps, s);
  }

  lemma CreatedIsHandled(steps: seq<Step>, s: Sys) returns (more: seq<Step>, t: Sys)
    requires Path(BEGIN, steps, s) && s == Sys(0, true, Feed(true, true, false, [Created], 0), false, Idle,
                                               Slot(false, Some([]), [], {}), Assigning(false), [])
    ensures Path(BEGIN, more, t) && t.phase.Assigning? && t.slot.bound && t.slot.queue == Some([])
  {
    more, t := Then(steps, s, Take);
    assert t.watcher == Catching(Created, false);
    more, t := Then(more, t, HandOn);
    assert [] + Events([]) == [];
  }
}
