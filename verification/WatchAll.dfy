/** Many calls over GraphQL at once: one feed, one watcher, and the postman's maps, which all calls share. */
module WatchAll {
  import opened Frames
  import opened Merge
  import opened Postman
  import Watch
  import WatchSound
  import WatchGap

  /** A change on the feed: a task's event, a task's creation, or anything else. */
  datatype Note = Reported(task: string, n: nat) | Made(task: string) | Foreign

  datatype Stream = Stream(watching: bool, subscribed: bool, cut: bool, wire: seq<Note>)

  /** `watch_tasks`, with the calls that it still has to catch up before it hands its first change on. */
  datatype Minder =
    | Idle
    | Catching(note: Note, todo: set<string>)
    | Reading(note: Note, todo: set<string>, task: string, snapshot: nat)

  /** A task, and what only the call for it knows. `last` is what was kept for the call when it ended. */
  datatype Local = Local(hist: nat, created: bool, next: nat, phase: Watch.Phase, handed: seq<nat>, last: Slot)

  const NO_SLOT := Slot(false, None, [], {})
  const NEW := Local(0, false, 0, Watch.NotYet, [], NO_SLOT)

  /** `references` are those that the calls' tasks are created with. */
  datatype State = State(post: Post, references: map<string, string>, calls: map<string, Local>, stream: Stream,
                         live: bool, minder: Minder)

  const EMPTY := State(Post(map[], map[], map[], map[], map[]), map[], map[], Stream(false, false, false, []), false,
                       Idle)

  /** A move of the feed, of one call, or of the watcher for one call; a new call has a new reference. */
  datatype Move = Shared(e: Watch.Step) | Enter(task: string, reference: string) | Own(task: string, e: Watch.Step)

  function LocalOf(s: State, task: string): Local {
    if task in s.calls then s.calls[task] else NEW
  }

  /** What the postman keeps for the call whose task this is, or will be. */
  function SlotAt(p: Post, references: map<string, string>, task: string): Slot {
    if task in references then SlotIn(p, task, references[task])
    else Slot(false, None, Orphans(p, task), RoutedIds(p, task))
  }

  function SlotFor(s: State, task: string): Slot {
    SlotAt(s.post, s.references, task)
  }

  function WithLocal(s: State, task: string, l: Local): State {
    s.(calls := s.calls[task := l])
  }

  function Sent(f: Stream, n: Note): Stream {
    if f.subscribed && !f.cut then f.(wire := f.wire + [n]) else f
  }

  /** What a change does once the feed is known to be live: its task, or its reference, says which call it is for. */
  function Handled(s: State, n: Note): State {
    match n
    case Reported(t, i) => WithLocal(s, t, LocalOf(s, t).(next := i + 1)).(post := RoutedIn(s.post, t, i))
    case Made(t) => if t in s.references then s.(post := BoundTo(s.post, t, s.references[t])) else s
    case Foreign => s
  }

  /** The calls that wait when the feed turns out to be live: of those that are bound. */
  function Waiting(s: State): set<string> {
    set t | t in s.post.taskToReference && SlotFor(s, t).bound && Watch.Waits(LocalOf(s, t).phase)
  }

  function Taken(s: State): State
    requires s.stream.wire != []
  {
    var n, s := s.stream.wire[0], s.(stream := s.stream.(wire := s.stream.wire[1..]));
    if s.live then Handled(s, n) else s.(live := true, minder := Catching(n, Waiting(s)))
  }

  predicate CanShare(s: State, e: Watch.Step) {
    match e
    case StartFeed => !s.stream.watching
    case Subscribe => s.stream.watching && !s.stream.subscribed
    case OtherChange => true
    case Cut => s.stream.subscribed
    case Died => s.stream.watching && (s.stream.subscribed ==> s.stream.cut) && s.minder.Idle?
    case Take => s.minder.Idle? && s.stream.wire != []
    case HandOn => s.minder.Catching? && s.minder.todo == {}
    case _ => false
  }

  predicate CanOwn(s: State, t: string, e: Watch.Step) {
    var l := LocalOf(s, t);
    match e
    case Create => l.phase.Assigning? && !l.created
    case Report => l.created
    case WatchRead => s.minder.Catching? && t in s.minder.todo
    case WatchAnswer => s.minder.Reading? && s.minder.task == t
    case WatchFails =>
      (s.minder.Catching? && t in s.minder.todo) || (s.minder.Reading? && s.minder.task == t)
    case Answer => l.phase.Assigning? && l.created
    case FirstRead => l.phase == Watch.First(None)
    case FirstAnswer => l.phase.First? && l.phase.snapshot.Some?
    case FirstFails => l.phase.First?
    case MoreRead(h) => l.phase.Streaming? && h <= l.hist
    case Get => l.phase.Streaming? && SlotFor(s, t).queue.Some? && SlotFor(s, t).queue.value != []
    case End => Watch.Waits(l.phase)
    case _ => false
  }

  predicate CanMove(s: State, m: Move) {
    match m
    case Shared(e) => CanShare(s, e)
    case Enter(t, r) => LocalOf(s, t).phase.NotYet? && s.stream.watching && r !in s.references.Values
    case Own(t, e) => t in s.references && CanOwn(s, t, e)
  }

  function MovedShared(s: State, e: Watch.Step): State
    requires CanShare(s, e)
  {
    match e
    case StartFeed => s.(stream := Stream(true, false, false, []))
    case Subscribe =>
      s.(stream := Stream(true, true, false, []),
         calls := map t | t in s.calls :: s.calls[t].(next := s.calls[t].hist))
    case OtherChange => s.(stream := Sent(s.stream, Foreign))
    case Cut => s.(stream := s.stream.(cut := true))
    case Died => s.(stream := Stream(false, false, false, []), live := false, post := AllMarked(s.post))
    case Take => Taken(s)
    case HandOn => Handled(s.(minder := Idle), s.minder.note)
  }

  /** A call ends, and what was kept for it goes. */
  function Ended(s: State, t: string): State
    requires t in s.references
  {
    WithLocal(s, t, LocalOf(s, t).(phase := Watch.Over, last := SlotFor(s, t)))
    .(post := Cleaned(s.post, s.references[t]))
  }

  function CaughtUpFor(s: State, t: string, h: nat): Post {
    CaughtUpIn(s.post, t, Range(0, h))
  }

  function MovedOwn(s: State, t: string, e: Watch.Step): State
    requires t in s.references && CanOwn(s, t, e)
  {
    var l, r := LocalOf(s, t), s.references[t];
    match e
    case Create => WithLocal(s, t, l.(created := true)).(stream := Sent(s.stream, Made(t)))
    case Report => WithLocal(s, t, l.(hist := l.hist + 1)).(stream := Sent(s.stream, Reported(t, l.hist)))
    case WatchRead => s.(minder := Reading(s.minder.note, s.minder.todo - {t}, t, l.hist))
    case WatchAnswer => s.(minder := Catching(s.minder.note, s.minder.todo - {t}),
                           post := CaughtUpFor(s, t, s.minder.snapshot))
    case WatchFails => s.(minder := Catching(s.minder.note, s.minder.todo - {t}))
    case Answer => WithLocal(s, t, l.(phase := if l.phase.wasLive then Watch.Streaming else Watch.First(None)))
                   .(post := BoundTo(s.post, t, r))
    case FirstRead => WithLocal(s, t, l.(phase := Watch.First(Some(l.hist))))
    case FirstAnswer => WithLocal(s, t, l.(phase := Watch.Streaming))
                        .(post := CaughtUpFor(s, t, l.phase.snapshot.value))
    case FirstFails => WithLocal(s, t, l.(phase := Watch.Streaming))
    case MoreRead(h) => s.(post := CaughtUpFor(s, t, h))
    case Get =>
      var q := s.post.queues[r];
      if q[0].FeedLost? then Ended(s, t)
      else WithLocal(s, t, l.(handed := l.handed + [q[0].n])).(post := s.post.(queues := s.post.queues[r := q[1..]]))
    case End => Ended(s, t)
  }

  function Moved(s: State, m: Move): State
    requires CanMove(s, m)
  {
    match m
    case Shared(e) => MovedShared(s, e)
    case Enter(t, r) =>
      WithLocal(s, t, LocalOf(s, t).(phase := Watch.Assigning(s.live)))
      .(references := s.references[t := r], post := WithQueue(s.post, r))
    case Own(t, e) => MovedOwn(s, t, e)
  }

  predicate Runs(s: State, moves: seq<Move>, t: State)
    decreases |moves|
  {
    if moves == [] then s == t else CanMove(s, moves[0]) && Runs(Moved(s, moves[0]), moves[1..], t)
  }

  // ------------------------------------------------------------------ one call, as it would be alone

  function Seen(n: Note, task: string): Watch.Change {
    match n
    case Reported(t, i) => if t == task then Watch.Ours(i) else Watch.Change.Other
    case Made(t) => if t == task then Watch.Created else Watch.Change.Other
    case Foreign => Watch.Change.Other
  }

  function SeenAll(wire: seq<Note>, task: string): seq<Watch.Change> {
    seq(|wire|, i requires 0 <= i < |wire| => Seen(wire[i], task))
  }

  function SeenWatcher(m: Minder, task: string): Watch.Watcher {
    match m
    case Idle => Watch.Idle
    case Catching(n, todo) => Watch.Catching(Seen(n, task), task in todo)
    case Reading(n, todo, t, snapshot) =>
      if t == task then Watch.Reading(Seen(n, task), snapshot) else Watch.Catching(Seen(n, task), task in todo)
  }

  function Alone(s: State, task: string): Watch.Sys {
    var l, f := LocalOf(s, task), s.stream;
    Watch.Sys(l.hist, l.created, Watch.Feed(f.watching, f.subscribed, f.cut, SeenAll(f.wire, task), l.next), s.live,
              SeenWatcher(s.minder, task), if l.phase.Over? then l.last else SlotFor(s, task), l.phase, l.handed)
  }

  function Pending(s: State): seq<Note> {
    (if s.minder.Idle? then [] else [s.minder.note]) + s.stream.wire
  }

  /** Each call has its own reference, and the maps bind tasks and references to one another. */
  ghost predicate Bijective(p: Post, references: map<string, string>) {
    && (forall a <- references, b <- references :: references[a] == references[b] ==> a == b)
    && (forall t <- p.taskToReference :: t in references && p.taskToReference[t] == references[t])
    && (forall r <- p.referenceToTask ::
          p.referenceToTask[r] in references && references[p.referenceToTask[r]] == r)
  }

  ghost predicate Ok(s: State) {
    && Bijective(s.post, s.references)
    && (forall t <- s.references :: !LocalOf(s, t).phase.NotYet?)
    && (forall t <- s.calls :: Watch.Waits(s.calls[t].phase) ==> t in s.references)
    && (forall n <- Pending(s) :: n.Made? ==> n.task in s.references)
  }

  lemma RoutedBijective(p: Post, references: map<string, string>, t: string, n: nat)
    requires Bijective(p, references)
    ensures Bijective(RoutedIn(p, t, n), references)
  {
    RoutedBinds(p, t, n);
  }

  lemma RoutedAt(p: Post, references: map<string, string>, t: string, n: nat, task: string)
    requires Bijective(p, references)
    ensures SlotAt(RoutedIn(p, t, n), references, task) ==
            if t == task then Routed(SlotAt(p, references, task), n) else SlotAt(p, references, task)
  {
    RoutedSlots(p, t, n);
  }

  lemma BoundAt(p: Post, references: map<string, string>, t: string, task: string)
    requires Bijective(p, references) && t in references
    ensures Bijective(BoundTo(p, t, references[t]), references)
    ensures SlotAt(BoundTo(p, t, references[t]), references, task) ==
            if t == task then Bound(SlotAt(p, references, task)) else SlotAt(p, references, task)
  {
    BoundSlots(p, t, references[t]);
  }

  lemma CaughtUpAt(p: Post, references: map<string, string>, t: string, history: seq<nat>, task: string)
    requires Bijective(p, references) && t in references
    ensures Bijective(CaughtUpIn(p, t, history), references)
    ensures SlotAt(CaughtUpIn(p, t, history), references, task) ==
            if t == task then CaughtUp(SlotAt(p, references, task), history) else SlotAt(p, references, task)
  {
    CaughtUpSlots(p, t, history);
  }

  lemma CleanedBijective(p: Post, references: map<string, string>, reference: string)
    requires Bijective(p, references)
    ensures Bijective(Cleaned(p, reference), references)
  {
  }

  lemma CleanedAt(p: Post, references: map<string, string>, t: string, task: string)
    requires Bijective(p, references) && t in references && t != task
    ensures SlotAt(Cleaned(p, references[t]), references, task) == SlotAt(p, references, task)
  {
    CleanedSlots(p, references[t], task);
  }

  lemma MarkedAt(p: Post, references: map<string, string>, task: string)
    requires Bijective(p, references)
    ensures Bijective(AllMarked(p), references)
    ensures var s := SlotAt(p, references, task);
      SlotAt(AllMarked(p), references, task) ==
        if s.queue.Some? then s.(queue := Some(s.queue.value + [FeedLost])) else s
  {
  }

  lemma SeenMore(f: Stream, n: Note, task: string)
    ensures SeenAll(f.wire + [n], task) == SeenAll(f.wire, task) + [Seen(n, task)]
  {
  }

  lemma SeenRest(wire: seq<Note>, task: string)
    requires wire != []
    ensures SeenAll(wire, task)[1..] == SeenAll(wire[1..], task) && SeenAll(wire, task)[0] == Seen(wire[0], task)
  {
  }

  /** Handling a change is, for every call, handling what it sees of it. */
  lemma HandledAlone(s: State, n: Note, task: string)
    requires Bijective(s.post, s.references) && (n.Made? ==> n.task in s.references)
    ensures Alone(Handled(s, n), task) == Watch.Handled(Alone(s, task), Seen(n, task))
  {
    match n
    case Reported(t, i) => RoutedAt(s.post, s.references, t, i, task);
    case Made(t) => BoundAt(s.post, s.references, t, task);
    case Foreign =>
  }

  lemma LiveAlone(s: State, n: Note, task: string)
    ensures Alone(s.(live := true, minder := Catching(n, Waiting(s))), task) ==
            var u := Alone(s, task);
            u.(live := true, watcher := Watch.Catching(Seen(n, task), u.slot.bound && Watch.Waits(u.phase)))
  {
    var l := LocalOf(s, task);
    assert task in Waiting(s) <==> SlotFor(s, task).bound && Watch.Waits(l.phase);
  }

  lemma TakenAlone(s: State, task: string)
    requires Ok(s) && CanShare(s, Watch.Take)
    ensures Alone(Taken(s), task) == Watch.Taken(Alone(s, task))
  {
    var n, rest := s.stream.wire[0], s.(stream := s.stream.(wire := s.stream.wire[1..]));
    SeenRest(s.stream.wire, task);
    assert n in Pending(s);
    if s.live { HandledAlone(rest, n, task); } else { LiveAlone(rest, n, task); }
  }

  lemma SentAlone(s: State, n: Note, task: string)
    ensures Alone(s.(stream := Sent(s.stream, n)), task) ==
            var u := Alone(s, task); u.(feed := Watch.Sent(u.feed, Seen(n, task)))
  {
    SeenMore(s.stream, n, task);
  }

  lemma SharedIsStep(s: State, e: Watch.Step, task: string)
    requires Ok(s) && CanShare(s, e)
    ensures Watch.Can(Alone(s, task), e) && Alone(MovedShared(s, e), task) == Watch.Do(Alone(s, task), e)
  {
    if e.Take? || e.HandOn? { BringsIsStep(s, e, task); } else { FeedIsStep(s, e, task); }
  }

  lemma BringsIsStep(s: State, e: Watch.Step, task: string)
    requires Ok(s) && CanShare(s, e) && (e.Take? || e.HandOn?)
    ensures Watch.Can(Alone(s, task), e) && Alone(MovedShared(s, e), task) == Watch.Do(Alone(s, task), e)
  {
    if e.Take? {
      SeenRest(s.stream.wire, task);
      TakenAlone(s, task);
    } else {
      assert s.minder.note in Pending(s);
      HandledAlone(s.(minder := Idle), s.minder.note, task);
    }
  }

  lemma FeedIsStep(s: State, e: Watch.Step, task: string)
    requires Bijective(s.post, s.references) && CanShare(s, e) && !e.Take? && !e.HandOn?
    requires task in s.references ==> !LocalOf(s, task).phase.NotYet?
    ensures Watch.Can(Alone(s, task), e) && Alone(MovedShared(s, e), task) == Watch.Do(Alone(s, task), e)
  {
    if e.OtherChange? { SentAlone(s, Foreign, task); }
    MarkedAt(s.post, s.references, task);
  }

  lemma EndedAlone(s: State, t: string)
    requires t in s.references
    ensures Alone(Ended(s, t), t) == Alone(s, t).(phase := Watch.Over, slot := SlotFor(s, t))
  {
  }

  lemma PoppedAt(p: Post, references: map<string, string>, t: string, rest: seq<Item>, task: string)
    requires Bijective(p, references) && t in references && references[t] in p.queues
    ensures var q := p.(queues := p.queues[references[t] := rest]);
      && Bijective(q, references)
      && SlotAt(q, references, task) ==
           if t == task then SlotAt(p, references, t).(queue := Some(rest)) else SlotAt(p, references, task)
  {
  }

  /** A move of a call is a step of it. */
  lemma OwnIsStep(s: State, t: string, e: Watch.Step)
    requires Ok(s) && CanMove(s, Own(t, e))
    ensures Watch.Can(Alone(s, t), e) && Alone(MovedOwn(s, t, e), t) == Watch.Do(Alone(s, t), e)
  {
    if e.Create? || e.Report? { SendsIsStep(s, t, e); }
    else if e.Get? || e.End? { LeavesIsStep(s, t, e); }
    else if e.WatchRead? || e.WatchAnswer? || e.WatchFails? { WatchIsStep(s, t, e); }
    else { CallIsStep(s, t, e); }
  }

  lemma SendsIsStep(s: State, t: string, e: Watch.Step)
    requires t in s.references && CanOwn(s, t, e) && (e.Create? || e.Report?)
    ensures Watch.Can(Alone(s, t), e) && Alone(MovedOwn(s, t, e), t) == Watch.Do(Alone(s, t), e)
  {
    var l := LocalOf(s, t);
    if e.Create? {
      SentAlone(WithLocal(s, t, l.(created := true)), Made(t), t);
    } else {
      SentAlone(WithLocal(s, t, l.(hist := l.hist + 1)), Reported(t, l.hist), t);
    }
  }

  lemma LeavesIsStep(s: State, t: string, e: Watch.Step)
    requires Bijective(s.post, s.references) && t in s.references && CanOwn(s, t, e) && (e.Get? || e.End?)
    ensures Watch.Can(Alone(s, t), e) && Alone(MovedOwn(s, t, e), t) == Watch.Do(Alone(s, t), e)
  {
    EndedAlone(s, t);
    if e.Get? { PoppedAt(s.post, s.references, t, SlotFor(s, t).queue.value[1..], t); }
  }

  /** A call that has ended has no queue, and what is kept for it is no longer looked at. */
  lemma WatchIsStep(s: State, t: string, e: Watch.Step)
    requires Bijective(s.post, s.references) && t in s.references && CanOwn(s, t, e)
    requires !LocalOf(s, t).phase.NotYet? && (e.WatchRead? || e.WatchAnswer? || e.WatchFails?)
    ensures Watch.Can(Alone(s, t), e) && Alone(MovedOwn(s, t, e), t) == Watch.Do(Alone(s, t), e)
  {
    if e.WatchAnswer? { CaughtUpAt(s.post, s.references, t, Range(0, s.minder.snapshot), t); }
  }

  lemma CallIsStep(s: State, t: string, e: Watch.Step)
    requires Bijective(s.post, s.references) && t in s.references && CanOwn(s, t, e)
    requires e.Answer? || e.FirstRead? || e.FirstAnswer? || e.FirstFails? || e.MoreRead?
    ensures Watch.Can(Alone(s, t), e) && Alone(MovedOwn(s, t, e), t) == Watch.Do(Alone(s, t), e)
  {
    var l := LocalOf(s, t);
    match e
    case Answer => BoundAt(s.post, s.references, t, t);
    case FirstAnswer => CaughtUpAt(s.post, s.references, t, Range(0, l.phase.snapshot.value), t);
    case MoreRead(h) => CaughtUpAt(s.post, s.references, t, Range(0, h), t);
    case _ =>
  }

  /** And no step of any other call, for which it is at most a change of another task. */
  lemma OwnIsNoOther(s: State, t: string, e: Watch.Step, task: string)
    requires Ok(s) && CanMove(s, Own(t, e)) && t != task
    ensures Alone(MovedOwn(s, t, e), task) ==
            if e.Create? || e.Report? then Watch.Do(Alone(s, task), Watch.OtherChange) else Alone(s, task)
  {
    if e.Create? || e.Report? { SendsNoOther(s, t, e, task); }
    else if e.Get? || e.End? { LeavesNoOther(s, t, e, task); }
    else if !e.Answer? { ReadsNoOther(s, t, e, task); }
    else { BoundAt(s.post, s.references, t, task); }
  }

  lemma SendsNoOther(s: State, t: string, e: Watch.Step, task: string)
    requires t in s.references && CanOwn(s, t, e) && t != task && (e.Create? || e.Report?)
    ensures Alone(MovedOwn(s, t, e), task) == Watch.Do(Alone(s, task), Watch.OtherChange)
  {
    var l := LocalOf(s, t);
    if e.Create? {
      SentAlone(WithLocal(s, t, l.(created := true)), Made(t), task);
    } else {
      SentAlone(WithLocal(s, t, l.(hist := l.hist + 1)), Reported(t, l.hist), task);
    }
  }

  lemma EndedNoOther(s: State, t: string, task: string)
    requires Bijective(s.post, s.references) && t in s.references && t != task
    ensures Alone(Ended(s, t), task) == Alone(s, task)
  {
    CleanedAt(s.post, s.references, t, task);
  }

  lemma LeavesNoOther(s: State, t: string, e: Watch.Step, task: string)
    requires Bijective(s.post, s.references) && t in s.references && CanOwn(s, t, e) && t != task && (e.Get? || e.End?)
    ensures Alone(MovedOwn(s, t, e), task) == Alone(s, task)
  {
    EndedNoOther(s, t, task);
    if e.Get? { PoppedAt(s.post, s.references, t, SlotFor(s, t).queue.value[1..], task); }
  }

  lemma ReadsNoOther(s: State, t: string, e: Watch.Step, task: string)
    requires Bijective(s.post, s.references) && t in s.references && CanOwn(s, t, e) && t != task
    requires !e.Create? && !e.Report? && !e.Get? && !e.End? && !e.Answer?
    ensures Alone(MovedOwn(s, t, e), task) == Alone(s, task)
  {
    match e
    case WatchAnswer => CaughtUpAt(s.post, s.references, t, Range(0, s.minder.snapshot), task);
    case FirstAnswer => CaughtUpAt(s.post, s.references, t, Range(0, LocalOf(s, t).phase.snapshot.value), task);
    case MoreRead(h) => CaughtUpAt(s.post, s.references, t, Range(0, h), task);
    case _ =>
  }

  lemma EnterAlone(s: State, t: string, reference: string, task: string)
    requires Ok(s) && CanMove(s, Enter(t, reference))
    ensures var u := Moved(s, Enter(t, reference));
      if t == task then Watch.Can(Alone(s, t), Watch.Register) && Alone(u, t) == Watch.Do(Alone(s, t), Watch.Register)
      else Alone(u, task) == Alone(s, task)
  {
  }

  // ------------------------------------------------------------------ what every run keeps

  /** The notes of calls that were entered, and one of another. */
  lemma SentOk(s: State, n: Note)
    requires Ok(s) && (n.Made? ==> n.task in s.references)
    ensures Ok(s.(stream := Sent(s.stream, n)))
  {
    forall m | m in Pending(s.(stream := Sent(s.stream, n))) ensures m.Made? ==> m.task in s.references {
      assert m in Pending(s) || m == n;
    }
  }

  lemma HandledOk(s: State, n: Note)
    requires Ok(s) && (n.Made? ==> n.task in s.references)
    ensures Ok(Handled(s, n))
  {
    assert Pending(Handled(s, n)) == Pending(s);
    if n.Reported? { RoutedBijective(s.post, s.references, n.task, n.n); }
    if n.Made? { BoundAt(s.post, s.references, n.task, n.task); }
  }

  lemma TakenOk(s: State)
    requires Ok(s) && CanShare(s, Watch.Take)
    ensures Ok(Taken(s))
  {
    var n, rest := s.stream.wire[0], s.(stream := s.stream.(wire := s.stream.wire[1..]));
    assert n in Pending(s) && forall m <- Pending(rest) :: m in Pending(s);
    if s.live {
      HandledOk(rest, n);
    } else {
      assert forall m <- Pending(Taken(s)) :: m in Pending(s);
    }
  }

  lemma SharedOk(s: State, e: Watch.Step)
    requires Ok(s) && CanShare(s, e)
    ensures Ok(MovedShared(s, e))
  {
    if e.Take? {
      TakenOk(s);
    } else if e.HandOn? {
      assert s.minder.note in Pending(s) && forall m <- Pending(s.(minder := Idle)) :: m in Pending(s);
      HandledOk(s.(minder := Idle), s.minder.note);
    } else if e.OtherChange? {
      SentOk(s, Foreign);
    } else {
      MarkedAt(s.post, s.references, "");
      assert forall m <- Pending(MovedShared(s, e)) :: m in Pending(s);
    }
  }

  /** A call that was entered goes on; nothing else of what is kept changes. */
  lemma StaysOk(s: State, u: State, t: string)
    requires Ok(s) && t in s.references && u.references == s.references && Bijective(u.post, s.references)
    requires Pending(u) == Pending(s) && !LocalOf(u, t).phase.NotYet?
    requires u.calls == s.calls || u.calls == s.calls[t := LocalOf(u, t)]
    ensures Ok(u)
  {
  }

  lemma OwnOk(s: State, t: string, e: Watch.Step)
    requires Ok(s) && CanMove(s, Own(t, e))
    ensures Ok(MovedOwn(s, t, e))
  {
    var l := LocalOf(s, t);
    if e.Create? {
      var u := WithLocal(s, t, l.(created := true));
      StaysOk(s, u, t);
      SentOk(u, Made(t));
    } else if e.Report? {
      var u := WithLocal(s, t, l.(hist := l.hist + 1));
      StaysOk(s, u, t);
      SentOk(u, Reported(t, l.hist));
    } else {
      PostOk(s, t, e);
      OwnStays(s, t, e);
      StaysOk(s, MovedOwn(s, t, e), t);
    }
  }

  lemma OwnStays(s: State, t: string, e: Watch.Step)
    requires t in s.references && CanOwn(s, t, e) && !e.Create? && !e.Report? && !LocalOf(s, t).phase.NotYet?
    ensures var u := MovedOwn(s, t, e);
      && u.references == s.references && Pending(u) == Pending(s) && !LocalOf(u, t).phase.NotYet?
      && (u.calls == s.calls || u.calls == s.calls[t := LocalOf(u, t)])
  {
  }

  lemma PostOk(s: State, t: string, e: Watch.Step)
    requires Bijective(s.post, s.references) && t in s.references && CanOwn(s, t, e)
    ensures Bijective(MovedOwn(s, t, e).post, s.references)
  {
    match e
    case WatchAnswer => CaughtUpAt(s.post, s.references, t, Range(0, s.minder.snapshot), t);
    case Answer => BoundAt(s.post, s.references, t, t);
    case FirstAnswer => CaughtUpAt(s.post, s.references, t, Range(0, LocalOf(s, t).phase.snapshot.value), t);
    case MoreRead(h) => CaughtUpAt(s.post, s.references, t, Range(0, h), t);
    case Get =>
      PoppedAt(s.post, s.references, t, SlotFor(s, t).queue.value[1..], t);
      CleanedBijective(s.post, s.references, s.references[t]);
    case End => CleanedBijective(s.post, s.references, s.references[t]);
    case _ =>
  }

  lemma MoveOk(s: State, m: Move)
    requires Ok(s) && CanMove(s, m)
    ensures Ok(Moved(s, m))
  {
    match m
    case Shared(e) => SharedOk(s, e);
    case Enter(t, r) => assert Pending(Moved(s, m)) == Pending(s);
    case Own(t, e) => OwnOk(s, t, e);
  }

  // ------------------------------------------------------------------ every call runs as if it were alone

  function StepsOf(m: Move, task: string): seq<Watch.Step> {
    match m
    case Shared(e) => [e]
    case Enter(t, _) => if t == task then [Watch.Register] else []
    case Own(t, e) => if t == task then [e] else if e.Create? || e.Report? then [Watch.OtherChange] else []
  }

  lemma MoveAlone(s: State, m: Move, task: string)
    requires Ok(s) && CanMove(s, m)
    ensures Watch.Path(Alone(s, task), StepsOf(m, task), Alone(Moved(s, m), task))
  {
    match m
    case Shared(e) => SharedIsStep(s, e, task);
    case Enter(t, r) => EnterAlone(s, t, r, task);
    case Own(t, e) => if t == task { OwnIsStep(s, t, e); } else { OwnIsNoOther(s, t, e, task); }
    if StepsOf(m, task) != [] {
      var e := StepsOf(m, task)[0];
      assert StepsOf(m, task) == [e] && Watch.Path(Watch.Do(Alone(s, task), e), [], Alone(Moved(s, m), task));
    }
  }

  /** No read of this task's history fails. */
  predicate ReadsSucceed(moves: seq<Move>, task: string) {
    forall m <- moves :: !(m.Own? && m.task == task && Watch.Fails(m.e))
  }

  /** At most one step, and then the rest of a run. */
  lemma OneThen(s: Watch.Sys, first: seq<Watch.Step>, t: Watch.Sys, rest: seq<Watch.Step>, u: Watch.Sys)
    requires |first| <= 1 && Watch.Path(s, first, t) && Watch.Path(t, rest, u)
    ensures Watch.Path(s, first + rest, u)
  {
    if first == [] {
      assert first + rest == rest;
    } else {
      assert first[1..] == [] && (first + rest)[1..] == rest;
    }
  }

  lemma MoveThen(s: State, m: Move, task: string, steps: seq<Watch.Step>, u: Watch.Sys)
    requires Ok(s) && CanMove(s, m) && Watch.Path(Alone(Moved(s, m), task), steps, u)
    ensures Ok(Moved(s, m)) && Watch.Path(Alone(s, task), StepsOf(m, task) + steps, u)
  {
    MoveOk(s, m);
    MoveAlone(s, m, task);
    OneThen(Alone(s, task), StepsOf(m, task), Alone(Moved(s, m), task), steps, u);
  }

  lemma StepSucceeds(s: State, m: Move, task: string, steps: seq<Watch.Step>)
    requires CanMove(s, m) && ReadsSucceed([m], task) && Watch.ReadsSucceed(steps)
    ensures Watch.ReadsSucceed(StepsOf(m, task) + steps)
  {
    assert m in [m];
  }

  lemma FirstSucceeds(moves: seq<Move>, task: string)
    requires moves != []
    ensures ReadsSucceed(moves, task) <==> ReadsSucceed([moves[0]], task) && ReadsSucceed(moves[1..], task)
  {
    assert forall m :: m in moves <==> m in [moves[0]] || m in moves[1..];
  }

  /** A run of many calls is, for each of them, a run of it alone, in which only its own reads fail. */
  lemma {:induction false} RunAlone(s: State, moves: seq<Move>, t: State, task: string)
    returns (steps: seq<Watch.Step>)
    requires Ok(s) && Runs(s, moves, t)
    ensures Ok(t) && Watch.Path(Alone(s, task), steps, Alone(t, task))
    ensures ReadsSucceed(moves, task) ==> Watch.ReadsSucceed(steps)
    decreases |moves|
  {
    steps := [];
    if moves != [] {
      var m := moves[0];
      MoveOk(s, m);
      var rest := RunAlone(Moved(s, m), moves[1..], t, task);
      MoveThen(s, m, task, rest, Alone(t, task));
      FirstSucceeds(moves, task);
      if ReadsSucceed(moves, task) { StepSucceeds(s, m, task, rest); }
      steps := StepsOf(m, task) + rest;
    }
  }

  /**
   * Nothing crosses between calls that share the feed, the watcher and the postman's maps. Whatever the other calls do
   * and whatever reads fail, a waiting call has each of its own task's events in at most one place, once, and no other
   * event, and it waits on a live watcher or on the mark. If none of its own reads fails, whichever of the others do,
   * it gets its task's events in order and without a gap.
   */
  lemma NothingCrosses(moves: seq<Move>, s: State, task: string, n: nat)
    requires Runs(EMPTY, moves, s)
    ensures var u := Alone(s, task);
      && (Watch.Waits(u.phase) ==>
            && multiset(WatchSound.Places(u))[n] <= 1 && (n in WatchSound.Places(u) ==> n < u.hist)
            && (u.feed.watching || FeedLost in WatchSound.OnQueue(u)))
      && (ReadsSucceed(moves, task) ==> WatchGap.Gapless(u))
  {
    var u := Alone(s, task);
    var steps := RunAlone(EMPTY, moves, s, task);
    assert Alone(EMPTY, task) == Watch.BEGIN;
    if Watch.Waits(u.phase) {
      WatchSound.AtMostOnce(steps, u, n);
      WatchSound.NoDeadFeed(steps, u);
    }
    if ReadsSucceed(moves, task) { WatchGap.NoFailedReadNoGap(steps, u); }
  }

  /** A call that ends leaves no queue in the maps, and once it was bound, no binding and no event. */
  lemma EndLeavesNothing(s: State, task: string)
    requires Ok(s) && CanMove(s, Own(task, Watch.End))
    ensures var p, q, r := s.post, Moved(s, Own(task, Watch.End)).post, s.references[task];
      && r !in q.queues && r !in q.referenceToTask
      && (r in p.referenceToTask ==>
            task !in q.taskToReference && task !in q.orphanEvents && task !in q.routedIds)
      && (forall other :: other != r && other in p.queues ==> other in q.queues && q.queues[other] == p.queues[other])
  {
  }
}
