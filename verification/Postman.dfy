/** The postman that calls over GraphQL, with one slot per call. */
module Postman {
  import opened Frames
  import opened Merge

  lemma EventsMore(ns: seq<nat>, i: nat)
    requires i < |ns|
    ensures Events(ns[..i + 1]) == Events(ns[..i]) + [Event(ns[i])]
  {
  }

  lemma {:induction false} WithoutMore(ns: seq<nat>, n: nat, gone: set<nat>)
    ensures Without(ns + [n], gone) == if n in gone then Without(ns, gone) else Without(ns, gone) + [n]
    decreases |ns|
  {
    if ns == [] {
      assert ns + [n] == [n];
    } else {
      assert (ns + [n])[0] == ns[0] && (ns + [n])[1..] == ns[1..] + [n];
      WithoutMore(ns[1..], n, gone);
    }
  }

  /** One more event of a history, when those in `taken`, all of them routed, are left out. */
  lemma RefillMore(history: seq<nat>, i: nat, taken: set<nat>, routed: set<nat>)
    requires i < |history| && taken <= routed
    ensures var n, ids, back := history[i], routed + Elements(history[..i]), Events(Without(history[..i], taken));
      if n in taken then
        routed + Elements(history[..i + 1]) == ids && Events(Without(history[..i + 1], taken)) == back
      else
        routed + Elements(history[..i + 1]) == ids + {n}
              && Events(Without(history[..i + 1], taken)) == back + [Event(n)]
  {
    assert history[..i + 1] == history[..i] + [history[i]];
    WithoutMore(history[..i], history[i], taken);
    assert Elements(history[..i + 1]) == Elements(history[..i]) + {history[i]};
  }

  lemma {:induction false} LaterMore(q: seq<Item>, i: Item, read: set<nat>)
    ensures Later(q + [i], read) == if i.Event? && i.n in read then Later(q, read) else Later(q, read) + [i]
    decreases |q|
  {
    if q == [] {
      assert q + [i] == [i] + [];
      LaterCons(i, [], read);
    } else {
      assert q + [i] == [q[0]] + (q[1..] + [i]);
      LaterCons(q[0], q[1..] + [i], read);
      LaterMore(q[1..], i, read);
    }
  }

  /** One more waiting item, behind what was missed. */
  lemma PutBackMore(missed: seq<Item>, waiting: seq<Item>, i: nat, read: set<nat>)
    requires i < |waiting|
    ensures missed + Later(waiting[..i + 1], read) ==
            if waiting[i].Event? && waiting[i].n in read then missed + Later(waiting[..i], read)
            else missed + Later(waiting[..i], read) + [waiting[i]]
  {
    LaterMore(waiting[..i], waiting[i], read);
    assert waiting[..i + 1] == waiting[..i] + [waiting[i]];
    Assoc(missed, Later(waiting[..i], read), [waiting[i]]);
  }

  lemma {:induction false} NumbersIn(q: seq<Item>, n: nat)
    ensures n in Numbers(q) <==> Event(n) in q
    decreases |q|
  {
    if q != [] { NumbersIn(q[1..], n); }
  }

  lemma IdsAre(q: seq<Item>)
    ensures (set i | i in q && i.Event? :: i.n) == Elements(Numbers(q))
  {
    var ids := set i | i in q && i.Event? :: i.n;
    forall n ensures n in ids <==> n in Numbers(q) {
      NumbersIn(q, n);
      assert n in ids <==> Event(n) in q;
    }
  }

  // ------------------------------------------------------------------ the maps that all calls share

  datatype Post = Post(queues: map<string, seq<Item>>, taskToReference: map<string, string>,
                       referenceToTask: map<string, string>, orphanEvents: map<string, seq<nat>>,
                       routedIds: map<string, set<nat>>)

  function Orphans(p: Post, task: string): seq<nat> {
    if task in p.orphanEvents then p.orphanEvents[task] else []
  }

  function RoutedIds(p: Post, task: string): set<nat> {
    if task in p.routedIds then p.routedIds[task] else {}
  }

  /** The task's events reach a queue. */
  predicate Reaches(p: Post, task: string) {
    task in p.taskToReference && p.taskToReference[task] in p.queues
  }

  function WithQueue(p: Post, reference: string): Post {
    p.(queues := p.queues[reference := []])
  }

  /** `_bind` */
  function BoundTo(p: Post, task: string, reference: string): Post {
    p.(taskToReference := p.taskToReference[task := reference], referenceToTask := p.referenceToTask[reference := task],
       orphanEvents := p.orphanEvents - {task},
       queues := if reference in p.queues
             then p.queues[reference := p.queues[reference] + Events(Orphans(p, task))] else p.queues)
  }

  /** `_route` */
  function RoutedIn(p: Post, task: string, n: nat): Post {
    var ids := RoutedIds(p, task);
    var r := p.(routedIds := p.routedIds[task := ids + {n}]);
    if n in ids then p.(routedIds := p.routedIds[task := ids])
    else if Reaches(p, task) then
      var to := p.taskToReference[task];
      r.(queues := p.queues[to := p.queues[to] + [Event(n)]])
    else r.(orphanEvents := p.orphanEvents[task := Orphans(p, task) + [n]])
  }

  /** `_acatch_up`, once the history is read. */
  function CaughtUpIn(p: Post, task: string, history: seq<nat>): Post {
    if Reaches(p, task) then
      var r := p.taskToReference[task];
      p.(queues := p.queues[r := Refilled(p.queues[r], RoutedIds(p, task), history)],
         routedIds := p.routedIds[task := RoutedIds(p, task) + Elements(history)])
    else p
  }

  /** `_fail_pending` */
  function AllMarked(p: Post): Post {
    p.(queues := map r | r in p.queues :: p.queues[r] + [FeedLost])
  }

  /** `_cleanup_reference` */
  function Cleaned(p: Post, reference: string): Post {
    var q := p.(queues := p.queues - {reference});
    if reference in p.referenceToTask then
      var task := p.referenceToTask[reference];
      q.(referenceToTask := p.referenceToTask - {reference}, taskToReference := p.taskToReference - {task},
         orphanEvents := p.orphanEvents - {task}, routedIds := p.routedIds - {task})
    else q
  }

  /** What is kept for the call with this task and this reference. */
  function SlotIn(p: Post, task: string, reference: string): Slot {
    Slot(task in p.taskToReference && p.taskToReference[task] == reference,
         if reference in p.queues then Some(p.queues[reference]) else None,
         Orphans(p, task), RoutedIds(p, task))
  }

  /** The task is bound to no reference but this one. */
  predicate Names(p: Post, task: string, reference: string) {
    task in p.taskToReference ==> p.taskToReference[task] == reference
  }

  /** A call other than the one that `task` is bound to. */
  predicate Apart(p: Post, task: string, t: string, r: string) {
    t != task && !(task in p.taskToReference && p.taskToReference[task] == r)
  }

  lemma BoundSlots(p: Post, task: string, reference: string)
    ensures SlotIn(BoundTo(p, task, reference), task, reference) == Bound(SlotIn(p, task, reference))
    ensures forall t: string, r: string :: t != task && r != reference ==>
              SlotIn(BoundTo(p, task, reference), t, r) == SlotIn(p, t, r)
  {
  }

  lemma RoutedBinds(p: Post, task: string, n: nat)
    ensures RoutedIn(p, task, n).taskToReference == p.taskToReference
    ensures RoutedIn(p, task, n).referenceToTask == p.referenceToTask
  {
  }

  lemma RoutedSlots(p: Post, task: string, n: nat)
    ensures forall r :: Names(p, task, r) ==> SlotIn(RoutedIn(p, task, n), task, r) == Routed(SlotIn(p, task, r), n)
    ensures forall t, r :: Apart(p, task, t, r) ==> SlotIn(RoutedIn(p, task, n), t, r) == SlotIn(p, t, r)
  {
  }

  lemma CaughtUpSlots(p: Post, task: string, history: seq<nat>)
    ensures forall r :: Names(p, task, r) ==>
              SlotIn(CaughtUpIn(p, task, history), task, r) == CaughtUp(SlotIn(p, task, r), history)
    ensures forall t, r :: Apart(p, task, t, r) ==> SlotIn(CaughtUpIn(p, task, history), t, r) == SlotIn(p, t, r)
  {
  }

  /** The call, if any, whose task the reference is bound to. */
  predicate Frees(p: Post, reference: string, t: string) {
    reference in p.referenceToTask && p.referenceToTask[reference] == t
  }

  lemma CleanedSlots(p: Post, reference: string, t: string)
    requires !Frees(p, reference, t)
    ensures Orphans(Cleaned(p, reference), t) == Orphans(p, t) && RoutedIds(Cleaned(p, reference), t) == RoutedIds(p, t)
    ensures forall r: string :: r != reference ==> SlotIn(Cleaned(p, reference), t, r) == SlotIn(p, t, r)
  {
  }

  class GraphQLPostman {
    var queues: map<string, seq<Item>>
    var taskToReference: map<string, string>
    var referenceToTask: map<string, string>
    var orphanEvents: map<string, seq<nat>>
    var routedIds: map<string, set<nat>>
    var feedLive: bool
    var watching: bool

    ghost function Maps(): Post
      reads this
    {
      Post(queues, taskToReference, referenceToTask, orphanEvents, routedIds)
    }

    /** What this postman keeps for the call with this task and this reference. */
    ghost function SlotOf(task: string, reference: string): Slot
      reads this
    {
      SlotIn(Maps(), task, reference)
    }

    /** Every call keeps its slot, except the one with this task or this reference. */
    twostate predicate Others(task: string, reference: string)
      reads this
    {
      forall t: string, r: string :: t != task && r != reference ==> SlotOf(t, r) == old(SlotOf(t, r))
    }

    /** `aassign`, before the task is created. */
    method Register(reference: string) returns (feedWasLive: bool)
      modifies this
      ensures Maps() == WithQueue(old(Maps()), reference)
      ensures feedWasLive == feedLive == old(feedLive) && watching == old(watching)
      ensures forall t :: SlotOf(t, reference) == old(SlotOf(t, reference)).(queue := Some([]))
      ensures forall t: string, r: string :: r != reference ==> SlotOf(t, r) == old(SlotOf(t, r))
    {
      queues := queues[reference := []];
      feedWasLive := feedLive;
    }

    /** `_bind` */
    method Bind(task: string, reference: string)
      modifies this
      ensures Maps() == BoundTo(old(Maps()), task, reference)
      ensures SlotOf(task, reference) == Bound(old(SlotOf(task, reference)))
      ensures Others(task, reference) && feedLive == old(feedLive) && watching == old(watching)
    {
      BoundSlots(Maps(), task, reference);
      taskToReference := taskToReference[task := reference];
      referenceToTask := referenceToTask[reference := task];
      var orphans := if task in orphanEvents then orphanEvents[task] else [];
      orphanEvents := orphanEvents - {task};
      if reference in queues { Flush(reference, orphans); }
    }

    method Flush(reference: string, orphans: seq<nat>)
      requires reference in queues
      modifies `queues
      ensures queues == old(queues)[reference := old(queues)[reference] + Events(orphans)]
    {
      ghost var q := queues[reference];
      assert q + Events(orphans[..0]) == q;
      assert queues == queues[reference := q];
      for i := 0 to |orphans|
        invariant queues == old(queues)[reference := q + Events(orphans[..i])]
      {
        EventsMore(orphans, i);
        assert q + Events(orphans[..i]) + [Event(orphans[i])] == q + Events(orphans[..i + 1]);
        queues := queues[reference := queues[reference] + [Event(orphans[i])]];
      }
      assert orphans[..|orphans|] == orphans;
    }

    /** `_route` */
    method Route(task: string, n: nat)
      modifies this
      ensures Maps() == RoutedIn(old(Maps()), task, n)
      ensures forall r :: Names(old(Maps()), task, r) ==> SlotOf(task, r) == Routed(old(SlotOf(task, r)), n)
      ensures forall t, r :: Apart(old(Maps()), task, t, r) ==> SlotOf(t, r) == old(SlotOf(t, r))
      ensures feedLive == old(feedLive) && watching == old(watching)
    {
      RoutedSlots(Maps(), task, n);
      var routed := if task in routedIds then routedIds[task] else {};
      routedIds := routedIds[task := routed];
      if n in routed { return; }
      routedIds := routedIds[task := routed + {n}];
      Deliver(task, n);
      assert routedIds == old(routedIds)[task := routed + {n}];
    }

    /** To the queue of the call that the task is bound to, or to the events that came too early. */
    method Deliver(task: string, n: nat)
      modifies `queues, `orphanEvents
      ensures queues == if !old(Reaches(Maps(), task)) then old(queues) else
                old(queues)[taskToReference[task] := old(queues)[taskToReference[task]] + [Event(n)]]
      ensures orphanEvents == if old(Reaches(Maps(), task)) then old(orphanEvents) else
                old(orphanEvents)[task := old(Orphans(Maps(), task)) + [n]]
    {
      if task in taskToReference && taskToReference[task] in queues {
        var reference := taskToReference[task];
        queues := queues[reference := queues[reference] + [Event(n)]];
      } else {
        orphanEvents := orphanEvents[task := (if task in orphanEvents then orphanEvents[task] else []) + [n]];
      }
    }

    /**
     * `_acatch_up`, once the history is read: drain the queue, put the missed events back in front, and the newer
     * ones behind.
     */
    method CatchUp(task: string, history: seq<nat>)
      modifies this
      ensures Maps() == CaughtUpIn(old(Maps()), task, history)
      ensures forall r :: Names(old(Maps()), task, r) ==> SlotOf(task, r) == CaughtUp(old(SlotOf(task, r)), history)
      ensures forall t, r :: Apart(old(Maps()), task, t, r) ==> SlotOf(t, r) == old(SlotOf(t, r))
      ensures feedLive == old(feedLive) && watching == old(watching)
    {
      CaughtUpSlots(Maps(), task, history);
      if task !in taskToReference || taskToReference[task] !in queues { return; }
      MergeHistory(task, taskToReference[task], history);
    }

    method MergeHistory(task: string, reference: string, history: seq<nat>)
      requires reference in queues
      modifies `queues, `routedIds
      ensures queues ==
              old(queues)[reference := Refilled(old(queues)[reference], old(RoutedIds(Maps(), task)), history)]
      ensures routedIds == old(routedIds)[task := old(RoutedIds(Maps(), task)) + Elements(history)]
    {
      var waiting := Drain(reference);
      var routed := if task in routedIds then routedIds[task] else {};
      var waitingIds := set i | i in waiting && i.Event? :: i.n;
      var taken := routed - waitingIds;
      var read := set n | n in history;
      IdsAre(waiting);
      Refill(task, reference, routed, history, taken);
      PutBack(reference, waiting, read);
      assert queues == old(queues)[reference := Events(Without(history, taken)) + Later(waiting, read)];
    }

    method PutBack(reference: string, waiting: seq<Item>, read: set<nat>)
      requires reference in queues
      modifies `queues
      ensures queues == old(queues)[reference := old(queues)[reference] + Later(waiting, read)]
    {
      ghost var missed := queues[reference];
      assert missed + Later(waiting[..0], read) == missed;
      assert queues == queues[reference := missed];
      for i := 0 to |waiting|
        invariant queues == old(queues)[reference := missed + Later(waiting[..i], read)]
      {
        PutBackMore(missed, waiting, i, read);
        if waiting[i].FeedLost? || waiting[i].n !in read {
          queues := queues[reference := queues[reference] + [waiting[i]]];
        }
      }
      assert waiting[..|waiting|] == waiting;
    }

    method Drain(reference: string) returns (waiting: seq<Item>)
      requires reference in queues
      modifies `queues
      ensures waiting == old(queues)[reference] && queues == old(queues)[reference := []]
    {
      waiting := [];
      while queues[reference] != []
        invariant reference in queues && waiting + queues[reference] == old(queues)[reference]
        invariant queues == old(queues)[reference := queues[reference]]
        decreases |queues[reference]|
      {
        waiting := waiting + [queues[reference][0]];
        queues := queues[reference := queues[reference][1..]];
      }
    }

    method Refill(task: string, reference: string, routed: set<nat>, history: seq<nat>, taken: set<nat>)
      requires reference in queues && queues[reference] == [] && taken <= routed
      modifies `queues, `routedIds
      ensures queues == old(queues)[reference := Events(Without(history, taken))]
      ensures routedIds == old(routedIds)[task := routed + Elements(history)]
    {
      routedIds := routedIds[task := routed];
      assert queues == queues[reference := []] && history[..0] == [] && Events([]) == []
             && routed + Elements([]) == routed;
      for i := 0 to |history|
        invariant queues == old(queues)[reference := Events(Without(history[..i], taken))]
        invariant routedIds == old(routedIds)[task := routed + Elements(history[..i])]
      {
        RefillMore(history, i, taken, routed);
        if history[i] !in taken {
          routedIds := routedIds[task := routedIds[task] + {history[i]}];
          queues := queues[reference := queues[reference] + [Event(history[i])]];
        }
      }
      assert history[..|history|] == history;
    }

    /** `_fail_pending`: every queue gets a mark behind what waits on it, and the next call starts a feed of its own. */
    method FailPending()
      modifies this
      ensures !watching && !feedLive && Maps() == AllMarked(old(Maps()))
      ensures forall t, r :: SlotOf(t, r) == old(SlotOf(t, r)).(queue :=
                if r in old(queues) then Some(old(queues)[r] + [FeedLost]) else None)
    {
      watching, feedLive := false, false;
      MarkQueues();
    }

    method MarkQueues()
      modifies `queues
      ensures queues == AllMarked(old(Maps())).queues
    {
      var left := queues.Keys;
      while left != {}
        invariant left <= old(queues).Keys && queues.Keys == old(queues).Keys
        invariant forall r <- queues :: queues[r] == if r in left then old(queues)[r] else old(queues)[r] + [FeedLost]
        decreases |left|
      {
        var r :| r in left;
        queues := queues[r := queues[r] + [FeedLost]];
        left := left - {r};
      }
    }

    /** `_cleanup_reference`: what was kept for the call goes, and nothing of any other call. */
    method CleanupReference(reference: string)
      modifies this
      ensures Maps() == Cleaned(old(Maps()), reference)
      ensures reference !in queues && reference !in referenceToTask
      ensures reference in old(referenceToTask) ==>
                var task := old(referenceToTask)[reference];
                SlotOf(task, reference) == Slot(false, None, [], {}) && Others(task, reference)
      ensures reference !in old(referenceToTask) ==>
                forall t: string, r: string :: r != reference ==> SlotOf(t, r) == old(SlotOf(t, r))
    {
      if reference in referenceToTask {
        var task := referenceToTask[reference];
        referenceToTask := referenceToTask - {reference};
        taskToReference := taskToReference - {task};
        orphanEvents := orphanEvents - {task};
        routedIds := routedIds - {task};
      }
      queues := queues - {reference};
    }
  }
}
