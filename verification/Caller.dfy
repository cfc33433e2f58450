/** The postman that calls over the agent's socket: what a call is handed of what arrives for its task. */
module Caller {
  import opened Frames

  datatype Mirror =
    | Yield(result: string)
    | Completed
    | Failed(error: string, code: string)
    | Critical(error: string)
    | Lost(started: bool, lastProgress: int, effects: seq<string>, reason: string)
    | Held(title: Option<string>)
    | Denied(answer: string)
    | Cancelled
    | Interrupted
    | Bookkeeping

  /** A mirror of a task's event. Which mirrors end a stream is up to the message definitions. */
  datatype Event = Event(task: string, number: int, mirror: Mirror, terminal: bool)

  datatype Kind = YIELD | COMPLETED | FAILED | CRITICAL | LOST | HELD | DENIED

  datatype Value = Code(code: string) | Known(started: bool, lastProgress: int, effects: seq<string>, reason: string)

  datatype CallerTaskEvent = CallerTaskEvent(kind: Kind, message: Option<string>, result: Option<string>,
                                             value: Option<Value>, task: Option<string>)

  /** `_adapt` */
  function Adapt(e: Event): Option<CallerTaskEvent> {
    match e.mirror
    case Yield(result) => Some(CallerTaskEvent(YIELD, None, Some(result), None, None))
    case Completed => Some(CallerTaskEvent(COMPLETED, None, None, None, None))
    case Failed(error, code) =>
      Some(CallerTaskEvent(FAILED, Some(error), None, if code != "" then Some(Code(code)) else None, Some(e.task)))
    case Critical(error) => Some(CallerTaskEvent(CRITICAL, Some(error), None, None, None))
    case Lost(started, progress, effects, reason) =>
      Some(CallerTaskEvent(LOST, Some(reason), None, Some(Known(started, progress, effects, reason)), None))
    case Held(title) => Some(CallerTaskEvent(HELD, title, None, None, Some(e.task)))
    case Denied(answer) => Some(CallerTaskEvent(DENIED, Some(answer), None, None, Some(e.task)))
    case Cancelled => Some(KILLED)
    case Interrupted => Some(KILLED)
    case Bookkeeping => None
  }

  const KILLED := CallerTaskEvent(CRITICAL,
        Some("The delegated task was cancelled or interrupted before completion."), None, None, None)

  function Shown(e: Event): seq<CallerTaskEvent> {
    var a := Adapt(e);
    if a.Some? then [a.value] else []
  }

  /** What a caller sees of `events`. */
  function Surfaced(events: seq<Event>): seq<CallerTaskEvent> {
    if events == [] then [] else Surfaced(events[..|events| - 1]) + Shown(events[|events| - 1])
  }

  function Numbers(events: seq<Event>): set<int> {
    set e | e in events :: e.number
  }

  /** Of the events with the same number, the first. */
  function Fresh(events: seq<Event>): seq<Event> {
    if events == [] then [] else
    var rest, e := events[..|events| - 1], events[|events| - 1];
    Fresh(rest) + (if e.number in Numbers(rest) then [] else [e])
  }

  /** Everything up to the first event that ends the stream, and that event. */
  function Cut(events: seq<Event>): seq<Event> {
    if events == [] then [] else if events[0].terminal then [events[0]] else [events[0]] + Cut(events[1..])
  }

  predicate Ends(events: seq<Event>) {
    events != [] && (events[0].terminal || Ends(events[1..]))
  }

  /** What a call is to be handed when `arrived` is what came for its task. */
  function Due(arrived: seq<Event>): seq<CallerTaskEvent> {
    Surfaced(Cut(Fresh(arrived)))
  }

  lemma FreshMore(events: seq<Event>, e: Event)
    ensures Fresh(events + [e]) == if e.number in Numbers(events) then Fresh(events) else Fresh(events) + [e]
  {
    assert (events + [e])[..|events|] == events;
  }

  lemma SurfacedMore(events: seq<Event>, e: Event)
    ensures Surfaced(events + [e]) == Surfaced(events) + Shown(e)
  {
    assert (events + [e])[..|events|] == events;
  }

  lemma NumbersMore(events: seq<Event>, e: Event)
    ensures Numbers(events + [e]) == Numbers(events) + {e.number}
  {
    assert forall x :: x in events + [e] <==> x in events || x == e;
  }

  lemma CutCons(e: Event, a: seq<Event>)
    ensures Cut([e] + a) == if e.terminal then [e] else [e] + Cut(a)
    ensures Ends([e] + a) <==> e.terminal || Ends(a)
  {
    assert ([e] + a)[1..] == a;
  }

  lemma {:induction false} CutConcat(a: seq<Event>, b: seq<Event>)
    ensures Cut(a + b) == if Ends(a) then Cut(a) else a + Cut(b)
    ensures Ends(a + b) <==> Ends(a) || Ends(b)
    decreases |a|
  {
    if a == [] {
      assert a + b == b;
    } else {
      var e, rest := a[0], a[1..];
      assert a == [e] + rest;
      CutConcat(rest, b);
      Assoc([e], rest, b);
      CutCons(e, rest + b);
      CutCons(e, rest);
      Assoc([e], rest, Cut(b));
    }
  }

  lemma {:induction false} FreshConcat(a: seq<Event>, b: seq<Event>)
    ensures Fresh(a) <= Fresh(a + b)
    decreases |b|
  {
    if b == [] {
      assert a + b == a;
    } else {
      var rest, e := b[..|b| - 1], b[|b| - 1];
      FreshConcat(a, rest);
      FreshMore(a + rest, e);
      assert a + b == (a + rest) + [e];
    }
  }

  lemma FreshSplit(a: seq<Event>, b: seq<Event>) returns (more: seq<Event>)
    ensures Fresh(a + b) == Fresh(a) + more
  {
    FreshConcat(a, b);
    more := Fresh(a + b)[|Fresh(a)|..];
  }

  lemma SurfacedConcatMore(a: seq<Event>, b: seq<Event>, e: Event)
    requires Surfaced(a + b) == Surfaced(a) + Surfaced(b)
    ensures Surfaced(a + (b + [e])) == Surfaced(a) + Surfaced(b + [e])
  {
    Assoc(a, b, [e]);
    SurfacedMore(a + b, e);
    SurfacedMore(b, e);
    Assoc(Surfaced(a), Surfaced(b), Shown(e));
  }

  lemma {:induction false} SurfacedConcat(a: seq<Event>, b: seq<Event>)
    ensures Surfaced(a + b) == Surfaced(a) + Surfaced(b)
    decreases |b|
  {
    if b == [] {
      assert a + b == a;
      assert Surfaced(a) + Surfaced(b) == Surfaced(a);
    } else {
      var rest, e := b[..|b| - 1], b[|b| - 1];
      assert b == rest + [e];
      SurfacedConcat(a, rest);
      SurfacedConcatMore(a, rest, e);
    }
  }

  predicate Distinct(events: seq<Event>) {
    forall i, j :: 0 <= i < j < |events| ==> events[i].number != events[j].number
  }

  lemma DistinctMore(events: seq<Event>, e: Event)
    requires Distinct(events) && e.number !in Numbers(events)
    ensures Distinct(events + [e])
  {
    forall i | 0 <= i < |events| ensures events[i].number != e.number { assert events[i] in events; }
  }

  /** Each number is shown once, and no number that arrived is left out. */
  lemma {:induction false} FreshOnce(events: seq<Event>)
    ensures Numbers(Fresh(events)) == Numbers(events) && Distinct(Fresh(events))
    decreases |events|
  {
    if events != [] {
      var rest, e := events[..|events| - 1], events[|events| - 1];
      FreshOnce(rest);
      assert events == rest + [e];
      FreshMore(rest, e);
      NumbersMore(rest, e);
      NumbersMore(Fresh(rest), e);
      if e.number !in Numbers(rest) { DistinctMore(Fresh(rest), e); }
    }
  }

  /** What is due only grows as events arrive, and no longer once the stream has ended. */
  lemma DueGrows(a: seq<Event>, b: seq<Event>)
    ensures Due(a) <= Due(a + b)
    ensures Ends(Fresh(a)) ==> Due(a + b) == Due(a)
  {
    var more := FreshSplit(a, b);
    CutConcat(Fresh(a), more);
    CutConcat(Fresh(a), []);
    assert Fresh(a) + [] == Fresh(a);
    if !Ends(Fresh(a)) { SurfacedConcat(Fresh(a), Cut(more)); }
  }

  /** Where a task's events wait: on its queue, or for the answer that names the task. */
  datatype Mailbox = Mailbox(queue: Option<seq<Event>>, orphans: seq<Event>)

  /** `_ensure_queue` */
  function Ensured(m: Mailbox): Mailbox {
    Mailbox(Some((if m.queue.Some? then m.queue.value else []) + m.orphans), [])
  }

  function Arrived(m: Mailbox, e: Event): Mailbox {
    if m.queue.Some? then m.(queue := Some(m.queue.value + [e])) else m.(orphans := m.orphans + [e])
  }

  /** A call at each of its waits: for the answer, for its turn after the answer, for the next event; or ended. */
  datatype Phase = Waiting | Answered | Streaming(seen: set<int>) | Over

  /** One task and the call for it. `arrived` is all that came for the task. */
  datatype Call = Call(mailbox: Mailbox, phase: Phase, taken: nat, yielded: seq<CallerTaskEvent>, arrived: seq<Event>)

  datatype Step = Arrive(e: Event) | Respond | Resume | Turn | Stop

  predicate Can(c: Call, s: Step) {
    match s
    case Arrive(_) => true
    case Respond => true
    case Resume => c.phase.Answered?
    case Turn => c.phase.Streaming? && c.mailbox.queue.Some? && c.mailbox.queue.value != []
    case Stop => true
  }

  const NO_MAIL := Mailbox(None, [])

  /** One turn of the loop that hands events on. */
  function Turned(c: Call): Call
    requires Can(c, Turn)
  {
    var q := c.mailbox.queue.value;
    var e, c := q[0], c.(mailbox := c.mailbox.(queue := Some(q[1..])), taken := c.taken + 1);
    if e.number in c.phase.seen then c
    else if e.terminal then c.(phase := Over, yielded := c.yielded + Shown(e), mailbox := NO_MAIL)
    else c.(phase := Streaming(c.phase.seen + {e.number}), yielded := c.yielded + Shown(e))
  }

  function Do(c: Call, s: Step): Call
    requires Can(c, s)
  {
    match s
    case Arrive(e) => c.(mailbox := Arrived(c.mailbox, e), arrived := c.arrived + [e])
    case Respond => c.(mailbox := Ensured(c.mailbox), phase := if c.phase.Waiting? then Answered else c.phase)
    case Resume => c.(mailbox := Ensured(c.mailbox), phase := Streaming({}))
    case Turn => Turned(c)
    case Stop => c.(phase := Over, mailbox := NO_MAIL)
  }

  const BEGIN := Call(NO_MAIL, Waiting, 0, [], [])

  predicate Run(c: Call, steps: seq<Step>, d: Call)
    decreases |steps|
  {
    if steps == [] then c == d else Can(c, steps[0]) && Run(Do(c, steps[0]), steps[1..], d)
  }

  function Waits(m: Mailbox): seq<Event> {
    (if m.queue.Some? then m.queue.value else []) + m.orphans
  }

  ghost predicate Inv(c: Call) {
    && c.taken <= |c.arrived|
    && (!c.phase.Over? ==> Waits(c.mailbox) == c.arrived[c.taken..] && !Ends(Fresh(c.arrived[..c.taken])))
    && (c.mailbox.queue.Some? ==> c.mailbox.orphans == [])
    && (c.phase.Waiting? || c.phase.Answered? ==> c.taken == 0)
    && (c.phase.Streaming? ==> c.mailbox.queue.Some? && c.phase.seen == Numbers(c.arrived[..c.taken]))
    && c.yielded == Due(c.arrived[..c.taken])
  }

  lemma DueMore(events: seq<Event>, e: Event)
    requires !Ends(Fresh(events))
    ensures Due(events + [e]) == Due(events) + (if e.number in Numbers(events) then [] else Shown(e))
    ensures Ends(Fresh(events + [e])) <==> e.number !in Numbers(events) && e.terminal
  {
    FreshMore(events, e);
    var f := Fresh(events);
    CutConcat(f, []);
    CutConcat(f, [e]);
    assert f + [] == f && Cut([e]) == [e];
    SurfacedMore(f, e);
  }

  /** A turn takes the next event that arrived. */
  lemma TurnTakes(c: Call)
    requires Inv(c) && Can(c, Turn)
    ensures var q := c.mailbox.queue.value;
      && c.taken < |c.arrived| && c.mailbox.orphans == []
      && c.arrived[..c.taken + 1] == c.arrived[..c.taken] + [q[0]]
      && q[1..] + [] == c.arrived[c.taken + 1..]
  {
    assert Waits(c.mailbox) == c.mailbox.queue.value;
    assert c.mailbox.queue.value[1..] == c.arrived[c.taken..][1..] == c.arrived[c.taken + 1..];
  }

  lemma TurnKept(c: Call)
    requires Inv(c) && Can(c, Turn)
    ensures Inv(Turned(c))
  {
    TurnTakes(c);
    DueMore(c.arrived[..c.taken], c.mailbox.queue.value[0]);
    NumbersMore(c.arrived[..c.taken], c.mailbox.queue.value[0]);
  }

  lemma StepKept(c: Call, s: Step)
    requires Inv(c) && Can(c, s)
    ensures Inv(Do(c, s))
  {
    match s
    case Arrive(e) =>
      assert (c.arrived + [e])[..c.taken] == c.arrived[..c.taken];
      assert (c.arrived + [e])[c.taken..] == c.arrived[c.taken..] + [e];
      if c.mailbox.queue.Some? {
        var q := c.mailbox.queue.value;
        assert q + [e] + [] == q + [] + [e];
      } else {
        assert [] + (c.mailbox.orphans + [e]) == [] + c.mailbox.orphans + [e];
      }
    case Turn => TurnKept(c);
    case _ => assert Waits(Ensured(c.mailbox)) == Waits(c.mailbox);
  }

  lemma {:induction false} RunKept(c: Call, steps: seq<Step>, d: Call)
    requires Inv(c) && Run(c, steps, d)
    ensures Inv(d)
    decreases |steps|
  {
    if steps != [] {
      StepKept(c, steps[0]);
      RunKept(Do(c, steps[0]), steps[1..], d);
    }
  }

  lemma Reached(steps: seq<Step>, d: Call)
    requires Run(BEGIN, steps, d)
    ensures Inv(d)
  {
    RunKept(BEGIN, steps, d);
  }

  /**
   * A call is handed what is due of all that arrived for its task, before its answer or after it, and nothing else: a
   * beginning of it while events wait, and all of it once none waits or the stream has ended.
   */
  lemma StreamRefines(steps: seq<Step>, c: Call)
    requires Run(BEGIN, steps, c)
    ensures c.yielded <= Due(c.arrived)
    ensures c.phase.Streaming? && c.mailbox.queue == Some([]) ==> c.yielded == Due(c.arrived)
  {
    Reached(steps, c);
    var taken, rest := c.arrived[..c.taken], c.arrived[c.taken..];
    assert c.arrived == taken + rest;
    DueGrows(taken, rest);
    if c.phase.Streaming? && c.mailbox.queue == Some([]) {
      assert rest == Waits(c.mailbox) == [];
      assert taken == c.arrived;
    }
  }

  /** A stream that ended by itself handed on all that is due, whatever arrives afterwards. */
  lemma StreamEnds(steps: seq<Step>, c: Call, more: seq<Event>)
    requires Run(BEGIN, steps, c) && Can(c, Turn) && Turned(c).phase.Over?
    ensures Turned(c).yielded == Due(c.arrived + more)
  {
    Reached(steps, c);
    TurnedDue(c);
    var rest := c.arrived[c.taken + 1..];
    EndedBy(c.arrived[..c.taken], c.mailbox.queue.value[0], rest + more, c);
    Assoc(c.arrived[..c.taken + 1], rest, more);
  }

  lemma TurnedDue(c: Call)
    requires Inv(c) && Can(c, Turn)
    ensures c.taken < |c.arrived| && Turned(c).yielded == Due(c.arrived[..c.taken + 1])
    ensures c.arrived[..c.taken + 1] + c.arrived[c.taken + 1..] == c.arrived
  {
    TurnKept(c);
  }

  lemma EndedBy(events: seq<Event>, e: Event, rest: seq<Event>, c: Call)
    requires Inv(c) && Can(c, Turn) && Turned(c).phase.Over? && events == c.arrived[..c.taken]
             && e == c.mailbox.queue.value[0]
    ensures c.taken < |c.arrived| && Due(c.arrived[..c.taken + 1] + rest) == Due(c.arrived[..c.taken + 1])
  {
    assert Waits(c.mailbox)[0] == c.arrived[c.taken] == e;
    assert c.arrived[..c.taken + 1] == events + [e];
    DueMore(events, e);
    DueGrows(events + [e], rest);
  }

  /** A call whose task was cancelled or interrupted under it fails loudly: the last event it gets is a CRITICAL. */
  lemma KilledIsCritical(steps: seq<Step>, c: Call)
    requires Run(BEGIN, steps, c) && Can(c, Turn) && Turned(c).phase.Over?
    requires c.mailbox.queue.value[0].mirror.Cancelled? || c.mailbox.queue.value[0].mirror.Interrupted?
    ensures var due := Due(c.arrived); due != [] && due[|due| - 1].kind == CRITICAL
  {
    StreamEnds(steps, c, []);
    assert c.arrived + [] == c.arrived;
  }

  lemma {:induction false} RunMore(c: Call, steps: seq<Step>, d: Call, s: Step)
    requires Run(c, steps, d) && Can(d, s)
    ensures Run(c, steps + [s], Do(d, s))
    decreases |steps|
  {
    if steps == [] {
      assert steps + [s] == [s] && [s][1..] == [];
      assert Run(Do(d, s), [], Do(d, s));
    } else {
      assert (steps + [s])[0] == steps[0] && (steps + [s])[1..] == steps[1..] + [s];
      RunMore(Do(c, steps[0]), steps[1..], d, s);
    }
  }

  /** From every state of any run, the loop's turns alone bring a call all that is due of what arrived. */
  lemma {:induction false} AllIsHandedOn(steps: seq<Step>, c: Call) returns (more: seq<Step>, d: Call)
    requires Run(BEGIN, steps, c) && (c.phase.Streaming? || c.phase.Answered?)
    ensures Run(BEGIN, steps + more, d) && d.arrived == c.arrived && d.yielded == Due(c.arrived)
    ensures d.phase.Over? || (d.phase.Streaming? && d.mailbox.queue == Some([]))
    decreases c.phase.Answered?, |Waits(c.mailbox)|
  {
    Reached(steps, c);
    if c.phase.Answered? {
      RunMore(BEGIN, steps, c, Resume);
      var rest: seq<Step>;
      rest, d := AllIsHandedOn(steps + [Resume], Do(c, Resume));
      more := [Resume] + rest;
      Assoc(steps, [Resume], rest);
    } else if c.mailbox.queue.value == [] {
      more, d := [], c;
      StreamRefines(steps, c);
      assert steps + [] == steps;
    } else {
      more, d := OneTurn(steps, c);
    }
  }

  lemma OneTurn(steps: seq<Step>, c: Call) returns (more: seq<Step>, d: Call)
    requires Run(BEGIN, steps, c) && c.phase.Streaming? && Can(c, Turn)
    ensures Run(BEGIN, steps + more, d) && d.arrived == c.arrived && d.yielded == Due(c.arrived)
    ensures d.phase.Over? || (d.phase.Streaming? && d.mailbox.queue == Some([]))
    decreases false, |Waits(c.mailbox)|, 0
  {
    Reached(steps, c);
    RunMore(BEGIN, steps, c, Turn);
    var next := Turned(c);
    if next.phase.Over? {
      StreamEnds(steps, c, []);
      assert c.arrived + [] == c.arrived;
      more, d := [Turn], next;
    } else {
      var rest: seq<Step>;
      rest, d := AllIsHandedOn(steps + [Turn], next);
      more := [Turn] + rest;
      Assoc(steps, [Turn], rest);
    }
  }

  /** A call that was stopped, or has ended, yields nothing more. */
  lemma {:induction false} OverForGood(c: Call, steps: seq<Step>, d: Call)
    requires c.phase.Over? && Run(c, steps, d)
    ensures d.phase.Over? && d.yielded == c.yielded && d.taken == c.taken
    decreases |steps|
  {
    if steps != [] { OverForGood(Do(c, steps[0]), steps[1..], d); }
  }

  lemma StopsForGood(c: Call, steps: seq<Step>, d: Call)
    requires Run(Do(c, Stop), steps, d)
    ensures Do(c, Stop).mailbox == Mailbox(None, []) && d.phase.Over? && d.yielded == c.yielded
  {
    OverForGood(Do(c, Stop), steps, d);
  }

  /** What the loop has, after it took `past`. */
  ghost predicate Streamed(past: seq<Event>, seen: set<int>, yielded: seq<CallerTaskEvent>, over: bool) {
    yielded == Due(past) && over == Ends(Fresh(past)) && (!over ==> seen == Numbers(past))
  }

  lemma StreamedMore(past: seq<Event>, seen: set<int>, yielded: seq<CallerTaskEvent>, e: Event)
    requires Streamed(past, seen, yielded, false)
    ensures if e.number in seen then Streamed(past + [e], seen, yielded, false)
            else Streamed(past + [e], seen + {e.number}, yielded + Shown(e), e.terminal)
  {
    DueMore(past, e);
    NumbersMore(past, e);
  }

  lemma NothingMore(queue: seq<Event>, past: seq<Event>, seen: set<int>, yielded: seq<CallerTaskEvent>, over: bool)
    requires past <= queue && (past == queue || over) && Streamed(past, seen, yielded, over)
    ensures yielded == Due(queue) && over == Ends(Fresh(queue))
  {
    assert queue == past + queue[|past|..];
    DueGrows(past, queue[|past|..]);
    EndsGrows(past, queue[|past|..]);
  }

  /** No event with the same number came before this one. */
  predicate IsNew(queue: seq<Event>, j: nat)
    requires j < |queue|
  {
    forall i :: 0 <= i < j ==> queue[i].number != queue[j].number
  }

  /** No event before this one ended the stream. */
  predicate IsOpen(queue: seq<Event>, j: nat)
    requires j <= |queue|
  {
    forall i :: 0 <= i < j ==> !(queue[i].terminal && IsNew(queue, i))
  }

  predicate IsShown(queue: seq<Event>, j: nat)
    requires j < |queue|
  {
    IsNew(queue, j) && IsOpen(queue, j) && !queue[j].mirror.Bookkeeping?
  }

  /** `places` are those of the events that are shown. */
  ghost predicate Places(queue: seq<Event>, places: seq<nat>) {
    && (forall i :: 0 <= i < |places| ==> places[i] < |queue|)
    && (forall i, k :: 0 <= i < k < |places| ==> places[i] < places[k])
    && (forall j: nat :: j in places <==> j < |queue| && IsShown(queue, j))
  }

  lemma PrefixSame(queue: seq<Event>, e: Event)
    ensures forall j :: 0 <= j < |queue| ==> IsNew(queue + [e], j) == IsNew(queue, j)
    ensures forall j :: 0 <= j <= |queue| ==> IsOpen(queue + [e], j) == IsOpen(queue, j)
    ensures IsNew(queue + [e], |queue|) <==> e.number !in Numbers(queue)
  {
    assert forall j :: 0 <= j < |queue| ==> (queue + [e])[j] == queue[j];
    forall j | 0 <= j < |queue| ensures IsNew(queue + [e], j) == IsNew(queue, j) {
      assert forall i :: 0 <= i < j ==> (queue + [e])[i] == queue[i];
    }
    forall j | 0 <= j <= |queue| ensures IsOpen(queue + [e], j) == IsOpen(queue, j) {
      assert forall i :: 0 <= i < j ==> IsNew(queue + [e], i) == IsNew(queue, i);
    }
    if IsNew(queue + [e], |queue|) {
      forall x | x in queue ensures x.number != e.number {
        var i :| 0 <= i < |queue| && queue[i] == x;
        assert (queue + [e])[i] == x;
      }
    }
  }

  lemma PlacesMore(queue: seq<Event>, e: Event, places: seq<nat>)
    requires Places(queue, places)
    ensures Places(queue + [e], if IsShown(queue + [e], |queue|) then places + [|queue|] else places)
  {
    var all, n := queue + [e], |queue|;
    PrefixSame(queue, e);
    forall j: nat | j < n ensures IsShown(all, j) == IsShown(queue, j) { assert all[j] == queue[j]; }
    assert forall j: nat :: j in places + [n] <==> j in places || j == n;
  }

  /** What the events at `places` tell. */
  ghost predicate ToldAt(queue: seq<Event>, places: seq<nat>, told: seq<CallerTaskEvent>) {
    && Places(queue, places) && |places| == |told|
    && forall i :: 0 <= i < |places| ==> Adapt(queue[places[i]]) == Some(told[i])
  }

  lemma ToldMore(queue: seq<Event>, e: Event, places: seq<nat>, told: seq<CallerTaskEvent>, shown: bool)
    requires ToldAt(queue, places, told) && (shown ==> !e.mirror.Bookkeeping?)
    requires Places(queue + [e], if shown then places + [|queue|] else places)
    ensures ToldAt(queue + [e], if shown then places + [|queue|] else places, told + if shown then Shown(e) else [])
  {
    assert forall i :: 0 <= i < |places| ==> (queue + [e])[places[i]] == queue[places[i]];
    assert told + [] == told;
  }

  lemma DueStep(queue: seq<Event>, e: Event, open: bool)
    requires open == !Ends(Fresh(queue))
    ensures Due(queue + [e]) == Due(queue) + if open && e.number !in Numbers(queue) then Shown(e) else []
    ensures Ends(Fresh(queue + [e])) <==> !open || (e.number !in Numbers(queue) && e.terminal)
  {
    if open {
      DueMore(queue, e);
    } else {
      DueGrows(queue, [e]);
      EndsGrows(queue, [e]);
    }
  }

  lemma ShownStep(queue: seq<Event>, e: Event)
    ensures IsShown(queue + [e], |queue|) <==>
            e.number !in Numbers(queue) && IsOpen(queue, |queue|) && !e.mirror.Bookkeeping?
    ensures IsOpen(queue + [e], |queue| + 1) <==> IsOpen(queue, |queue|) && !(e.terminal && e.number !in Numbers(queue))
  {
    PrefixSame(queue, e);
  }

  lemma BookkeepingShowsNothing(e: Event)
    ensures e.mirror.Bookkeeping? <==> Shown(e) == []
  {
  }

  /** The events that are due, by their places on the queue. */
  lemma {:induction false} DueAt(queue: seq<Event>) returns (places: seq<nat>)
    ensures ToldAt(queue, places, Due(queue)) && (Ends(Fresh(queue)) <==> !IsOpen(queue, |queue|))
    decreases |queue|
  {
    if queue == [] {
      places := [];
    } else {
      var n := |queue| - 1;
      var rest, e := queue[..n], queue[n];
      var shown := IsShown(rest + [e], n);
      var before := DueAt(rest);
      ShownStep(rest, e);
      DueStep(rest, e, IsOpen(rest, n));
      PlacesMore(rest, e, before);
      BookkeepingShowsNothing(e);
      ToldMore(rest, e, before, Due(rest), shown);
      assert Due(rest + [e]) == Due(rest) + if shown then Shown(e) else [];
      places := if shown then before + [n] else before;
      assert queue == rest + [e];
    }
  }

  lemma EndedAt(queue: seq<Event>, n: nat)
    requires n < |queue| && queue[n].terminal && queue[n].number !in Numbers(queue[..n]) && !Ends(Fresh(queue[..n]))
    ensures IsNew(queue, n) && IsOpen(queue, n)
  {
    forall i | 0 <= i < n ensures queue[i].number != queue[n].number { assert queue[i] in queue[..n]; }
    var _ := DueAt(queue[..n]);
    forall i | 0 <= i < n ensures !(queue[i].terminal && IsNew(queue, i)) {
      assert !(queue[..n][i].terminal && IsNew(queue[..n], i));
    }
  }

  lemma OpenIs(queue: seq<Event>)
    ensures forall j: nat :: j < |queue| ==>
              (IsOpen(queue, j) <==> forall k :: 0 <= k < j && queue[k].terminal ==>
                                       exists i :: 0 <= i < k && queue[i].number == queue[k].number)
  {
    forall j: nat | j < |queue|
      ensures IsOpen(queue, j) <==> forall k :: 0 <= k < j && queue[k].terminal ==>
                                      exists i :: 0 <= i < k && queue[i].number == queue[k].number
    {
      assert forall k :: 0 <= k < j ==>
          IsNew(queue, k) == forall i :: 0 <= i < k ==> queue[i].number != queue[k].number;
    }
  }

  /** `seen` grows, and the first event that ends the stream ends the loop. */
  method StreamLoop(queue: seq<Event>) returns (yielded: seq<CallerTaskEvent>, taken: nat, over: bool)
    ensures yielded == Due(queue)
    ensures taken <= |queue| && over == Ends(Fresh(queue)) && (!over ==> taken == |queue|)
    ensures over ==> taken > 0 && queue[taken - 1].terminal && queue[taken - 1].number !in Numbers(queue[..taken - 1])
                     && !Ends(Fresh(queue[..taken - 1]))
  {
    var seen: set<int> := {};
    yielded, taken, over := [], 0, false;
    ghost var past: seq<Event> := [];
    while taken < |queue| && !over
      invariant taken <= |queue| && past == queue[..taken] && Streamed(past, seen, yielded, over)
      invariant over ==> taken > 0 && queue[taken - 1].terminal
                         && queue[taken - 1].number !in Numbers(queue[..taken - 1])
      invariant over ==> !Ends(Fresh(queue[..taken - 1]))
      decreases |queue| - taken
    {
      var e := queue[taken];
      StreamedMore(past, seen, yielded, e);
      past := past + [e];
      assert past == queue[..taken + 1];
      taken := taken + 1;
      if e.number in seen { continue; }
      seen := seen + {e.number};
      var adapted := Adapt(e);
      yielded := if adapted.Some? then yielded + [adapted.value] else yielded;
      over := e.terminal;
    }
    NothingMore(queue, past, seen, yielded, over);
  }

  /**
   * The loop of `_astream`, over what is on its queue. Every new event, up to the first that ends the stream, tells the
   * caller what its mirror says, in the order they came.
   */
  method AStream(queue: seq<Event>)
    returns (yielded: seq<CallerTaskEvent>, taken: nat, over: bool, ghost places: seq<nat>)
    ensures yielded == Due(queue)
    ensures taken <= |queue| && over == Ends(Fresh(queue)) && (!over ==> taken == |queue|)
    ensures over <==> exists j :: 0 <= j < |queue| && queue[j].terminal && IsNew(queue, j)
    ensures over ==> taken > 0 && queue[taken - 1].terminal && IsNew(queue, taken - 1) && IsOpen(queue, taken - 1)
    ensures |places| == |yielded| && forall i, k :: 0 <= i < k < |places| ==> places[i] < places[k]
    ensures forall j: nat :: j in places <==>
              && j < |queue| && !queue[j].mirror.Bookkeeping?
              && (forall i :: 0 <= i < j ==> queue[i].number != queue[j].number)
              && (forall k :: 0 <= k < j && queue[k].terminal ==>
                    exists i :: 0 <= i < k && queue[i].number == queue[k].number)
    ensures forall i :: 0 <= i < |yielded| ==>
              (&& places[i] < |queue|
               && var e, told := queue[places[i]], yielded[i];
                  match e.mirror {
                    case Yield(result) => told == CallerTaskEvent(YIELD, None, Some(result), None, None)
                    case Completed => told == CallerTaskEvent(COMPLETED, None, None, None, None)
                    case Failed(error, code) =>
                      && told.kind == FAILED && told.message == Some(error) && told.result == None
                      && told.task == Some(e.task) && told.value == (if code == "" then None else Some(Code(code)))
                    case Critical(error) => told == CallerTaskEvent(CRITICAL, Some(error), None, None, None)
                    case Lost(started, progress, effects, reason) =>
                      && told.kind == LOST && told.message == Some(reason) && told.result == None && told.task == None
                      && told.value == Some(Known(started, progress, effects, reason))
                    case Held(title) => told == CallerTaskEvent(HELD, title, None, None, Some(e.task))
                    case Denied(answer) => told == CallerTaskEvent(DENIED, Some(answer), None, None, Some(e.task))
                    case Cancelled | Interrupted =>
                      && told.kind == CRITICAL && told.result == None && told.value == None && told.task == None
                      && told.message == Some("The delegated task was cancelled or interrupted before completion.")
                    case Bookkeeping => false
                  })
  {
    yielded, taken, over := StreamLoop(queue);
    places := DueAt(queue);
    OpenIs(queue);
    if over { EndedAt(queue, taken - 1); }
  }

  lemma EndsGrows(a: seq<Event>, b: seq<Event>)
    ensures Ends(Fresh(a)) ==> Ends(Fresh(a + b))
  {
    var more := FreshSplit(a, b);
    CutConcat(Fresh(a), more);
  }

  /** The answer to a request: a task or a probe, or an error. */
  datatype Response = Response(request: string, id: Option<string>, error: Option<string>)

  datatype Assigned = Task(task: string) | NonDeterministic(error: string) | Refused(error: string)

  const NONDETERMINISTIC := "Nondeterministic workflow"
  const NO_ID := "The backend acked the request without an id and without an error."

  predicate Given(s: Option<string>) {
    s.Some? && s.value != ""
  }

  /** The postman of all calls. Each call's mailbox is its own. */
  // ------------------------------------------------------------------ the mailboxes of all tasks

  /** `_task_queues` and `_orphans_by_task` */
  datatype Mail = Mail(taskQueues: map<string, seq<Event>>, orphansByTask: map<string, seq<Event>>)

  function Kept(m: map<string, seq<Event>>, task: string): seq<Event> {
    if task in m then m[task] else []
  }

  function Queue(m: Mail, task: string): seq<Event> {
    Kept(m.taskQueues, task)
  }

  /** The task has a queue, and the events that came before it had one. */
  function Queued(m: Mail, task: string): Mail {
    Mail(m.taskQueues[task := Queue(m, task) + Kept(m.orphansByTask, task)], m.orphansByTask - {task})
  }

  /** An event is put where its task is looked up. */
  function Put(m: Mail, e: Event): Mail {
    if e.task in m.taskQueues then m.(taskQueues := m.taskQueues[e.task := m.taskQueues[e.task] + [e]])
    else m.(orphansByTask := m.orphansByTask[e.task := Kept(m.orphansByTask, e.task) + [e]])
  }

  function Popped(m: Mail, task: string): Mail
    requires Queue(m, task) != []
  {
    m.(taskQueues := m.taskQueues[task := m.taskQueues[task][1..]])
  }

  function Dropped(m: Mail, task: string): Mail {
    Mail(m.taskQueues - {task}, m.orphansByTask - {task})
  }

  function MailboxIn(m: Mail, task: string): Mailbox {
    Mailbox(if task in m.taskQueues then Some(m.taskQueues[task]) else None, Kept(m.orphansByTask, task))
  }

  class AgentPostman {
    var taskQueues: map<string, seq<Event>>
    var orphansByTask: map<string, seq<Event>>
    var pendingResponses: map<string, Option<Response>>
    var referenceToTask: map<string, string>

    ghost function Mails(): Mail
      reads this
    {
      Mail(taskQueues, orphansByTask)
    }

    ghost function MailboxOf(task: string): Mailbox
      reads this
    {
      MailboxIn(Mails(), task)
    }

    twostate predicate OtherMailboxes(task: string)
      reads this
    {
      forall t: string :: t != task ==> MailboxOf(t) == old(MailboxOf(t))
    }

    /** `_ensure_queue` */
    method EnsureQueue(task: string)
      modifies `taskQueues, `orphansByTask
      ensures Mails() == Queued(old(Mails()), task)
      ensures MailboxOf(task) == Ensured(old(MailboxOf(task))) && OtherMailboxes(task)
    {
      if task !in taskQueues { taskQueues := taskQueues[task := []]; }
      var orphans := if task in orphansByTask then orphansByTask[task] else [];
      orphansByTask := orphansByTask - {task};
      ghost var q := taskQueues[task];
      assert q + orphans[..0] == q;
      for i := 0 to |orphans|
        invariant task in taskQueues && taskQueues[task] == q + orphans[..i]
        invariant forall t :: t != task ==>
                    (t in taskQueues <==> t in old(taskQueues))
                          && (t in taskQueues ==> taskQueues[t] == old(taskQueues)[t])
        invariant orphansByTask == old(orphansByTask) - {task}
      {
        assert q + orphans[..i] + [orphans[i]] == q + orphans[..i + 1];
        taskQueues := taskQueues[task := taskQueues[task] + [orphans[i]]];
      }
      assert orphans[..|orphans|] == orphans;
    }

    /** `handle_execution_event` */
    method HandleExecutionEvent(e: Event)
      modifies `taskQueues, `orphansByTask
      ensures Mails() == Put(old(Mails()), e)
      ensures MailboxOf(e.task) == Arrived(old(MailboxOf(e.task)), e) && OtherMailboxes(e.task)
    {
      if e.task in taskQueues {
        taskQueues := taskQueues[e.task := taskQueues[e.task] + [e]];
      } else {
        orphansByTask := orphansByTask[e.task := (if e.task in orphansByTask then orphansByTask[e.task] else []) + [e]];
      }
    }

    /**
     * `handle_response`: the task's events that came first are kept, and the first answer to a request is its answer.
     */
    method HandleResponse(m: Response)
      modifies `taskQueues, `orphansByTask, `pendingResponses
      ensures Mails() == if Given(m.id) && !Given(m.error) then Queued(old(Mails()), m.id.value) else old(Mails())
      ensures if Given(m.id) && !Given(m.error)
              then MailboxOf(m.id.value) == Ensured(old(MailboxOf(m.id.value))) && OtherMailboxes(m.id.value)
              else unchanged(`taskQueues, `orphansByTask)
      ensures pendingResponses ==
                if m.request in old(pendingResponses) && old(pendingResponses)[m.request].None?
                then old(pendingResponses)[m.request := Some(m)] else old(pendingResponses)
    {
      if Given(m.id) && !Given(m.error) { EnsureQueue(m.id.value); }
      if m.request in pendingResponses && pendingResponses[m.request].None? {
        pendingResponses := pendingResponses[m.request := Some(m)];
      }
    }

    /** `_astream`, once its answer is there. */
    method Accept(reference: string, m: Response) returns (r: Assigned)
      modifies `taskQueues, `orphansByTask, `referenceToTask
      ensures r.Task? <==> !Given(m.error) && Given(m.id)
      ensures r.NonDeterministic? <==> Given(m.error) && "Nondeterministic workflow" <= m.error.value
      ensures r.Task? <==> (m.error.None? || m.error.value == "") && m.id.Some? && m.id.value != ""
      ensures match r
              case Task(task) => Some(task) == m.id && MailboxOf(task) == Ensured(old(MailboxOf(task)))
                    && OtherMailboxes(task)
              case NonDeterministic(error) => Some(error) == m.error && unchanged(this)
              case Refused(_) => unchanged(this)
      ensures r.Refused? ==> r.error == if m.error.Some? && m.error.value != "" then m.error.value
                             else "The backend acked the request without an id and without an error."
      ensures Mails() == if r.Task? then Queued(old(Mails()), r.task) else old(Mails())
      ensures r.Task? ==> referenceToTask == old(referenceToTask)[reference := r.task]
    {
      if Given(m.error) {
        return if NONDETERMINISTIC <= m.error.value then NonDeterministic(m.error.value) else Refused(m.error.value);
      }
      if !Given(m.id) { return Refused(NO_ID); }
      referenceToTask := referenceToTask[reference := m.id.value];
      EnsureQueue(m.id.value);
      r := Task(m.id.value);
    }

    /** The end of `_astream`: what was kept for the call goes, and no other task's mailbox changes. */
    method Finish(request: string, reference: string, task: Option<string>)
      modifies this
      ensures pendingResponses == old(pendingResponses) - {request}
              && referenceToTask == old(referenceToTask) - {reference}
      ensures Mails() == if task.Some? then Dropped(old(Mails()), task.value) else old(Mails())
      ensures if task.Some? then MailboxOf(task.value) == NO_MAIL && OtherMailboxes(task.value)
              else unchanged(`taskQueues, `orphansByTask)
    {
      pendingResponses := pendingResponses - {request};
      if task.Some? {
        taskQueues := taskQueues - {task.value};
        orphansByTask := orphansByTask - {task.value};
      }
      referenceToTask := referenceToTask - {reference};
    }
  }
}
