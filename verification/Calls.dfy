/** Many calls at once, each for a task of its own, over the maps that they share. */
module Calls {
  import opened Frames
  import opened Caller

  /** What the loop of one call knows. */
  datatype Local = Local(phase: Phase, taken: nat, yielded: seq<CallerTaskEvent>)

  const NEW := Local(Waiting, 0, [])

  /** The postman's maps, by task; the calls; and all that arrived so far. */
  datatype State = State(mail: Mail, calls: map<string, Local>, arrived: seq<Event>)

  datatype Move =
    | Arrives(e: Event)
    | Answers(task: string)
    | Resumes(task: string)
    | Turns(task: string)
    | Stops(task: string)

  function TaskOf(m: Move): string {
    if m.Arrives? then m.e.task else m.task
  }

  function StepOf(m: Move): Step {
    match m
    case Arrives(e) => Arrive(e)
    case Answers(_) => Respond
    case Resumes(_) => Resume
    case Turns(_) => Turn
    case Stops(_) => Stop
  }

  function LocalOf(s: State, task: string): Local {
    if task in s.calls then s.calls[task] else NEW
  }

  /** The events of one task, in the order they arrived. */
  function About(events: seq<Event>, task: string): seq<Event> {
    if events == [] then [] else
    var rest, e := About(events[..|events| - 1], task), events[|events| - 1];
    if e.task == task then rest + [e] else rest
  }

  function WithLocal(s: State, task: string, l: Local): State {
    s.(calls := s.calls[task := l])
  }

  predicate CanMove(s: State, m: Move) {
    match m
    case Resumes(t) => LocalOf(s, t).phase.Answered?
    case Turns(t) => LocalOf(s, t).phase.Streaming? && Queue(s.mail, t) != []
    case _ => true
  }

  /** The postman looks an event's task up in its maps; each call takes from its own queue. */
  function Moved(s: State, m: Move): State
    requires CanMove(s, m)
  {
    match m
    case Arrives(e) => s.(mail := Put(s.mail, e), arrived := s.arrived + [e])
    case Answers(t) =>
      var l := LocalOf(s, t);
      WithLocal(s, t, if l.phase.Waiting? then l.(phase := Answered) else l).(mail := Queued(s.mail, t))
    case Resumes(t) => WithLocal(s, t, LocalOf(s, t).(phase := Streaming({}))).(mail := Queued(s.mail, t))
    case Turns(t) => TakenFrom(s, t)
    case Stops(t) => WithLocal(s, t, LocalOf(s, t).(phase := Over)).(mail := Dropped(s.mail, t))
  }

  function TakenFrom(s: State, task: string): State
    requires CanMove(s, Turns(task))
  {
    var e, rest, l := Queue(s.mail, task)[0], Popped(s.mail, task), LocalOf(s, task);
    if e.number in l.phase.seen then WithLocal(s, task, l.(taken := l.taken + 1)).(mail := rest)
    else
      var phase := if e.terminal then Over else Streaming(l.phase.seen + {e.number});
      WithLocal(s, task, Local(phase, l.taken + 1, l.yielded + Shown(e)))
      .(mail := if e.terminal then Dropped(rest, task) else rest)
  }

  const EMPTY := State(Mail(map[], map[]), map[], [])

  predicate Runs(s: State, moves: seq<Move>, t: State)
    decreases |moves|
  {
    if moves == [] then s == t else CanMove(s, moves[0]) && Runs(Moved(s, moves[0]), moves[1..], t)
  }

  /** One call, as it would be alone. */
  function Alone(s: State, task: string): Call {
    var l := LocalOf(s, task);
    Call(MailboxIn(s.mail, task), l.phase, l.taken, l.yielded, About(s.arrived, task))
  }

  lemma AboutMore(events: seq<Event>, e: Event, task: string)
    ensures About(events + [e], task) == if e.task == task then About(events, task) + [e] else About(events, task)
  {
    assert (events + [e])[..|events|] == events;
  }

  /** A move is a step of its own task's call. */
  lemma MoveIsStep(s: State, m: Move)
    requires CanMove(s, m)
    ensures Can(Alone(s, TaskOf(m)), StepOf(m)) && Alone(Moved(s, m), TaskOf(m)) == Do(Alone(s, TaskOf(m)), StepOf(m))
  {
    match m
    case Arrives(e) => AboutMore(s.arrived, e, e.task);
    case _ =>
  }

  /** And no step of any other's. */
  lemma MoveIsNoOther(s: State, m: Move, task: string)
    requires CanMove(s, m) && TaskOf(m) != task
    ensures Alone(Moved(s, m), task) == Alone(s, task)
  {
    if m.Arrives? { AboutMore(s.arrived, m.e, task); }
  }

  /** A run of many calls is, for each of them, a run of it alone. */
  lemma {:induction false} RunAlone(s: State, moves: seq<Move>, t: State, task: string) returns (steps: seq<Step>)
    requires Runs(s, moves, t)
    ensures Run(Alone(s, task), steps, Alone(t, task))
    decreases |moves|
  {
    steps := [];
    if moves != [] {
      steps := RunAlone(Moved(s, moves[0]), moves[1..], t, task);
      if TaskOf(moves[0]) == task {
        MoveIsStep(s, moves[0]);
        assert ([StepOf(moves[0])] + steps)[1..] == steps;
        steps := [StepOf(moves[0])] + steps;
      } else {
        MoveIsNoOther(s, moves[0], task);
      }
    }
  }

  /**
   * Nothing crosses between calls: whatever the others do, a call is handed a beginning of what is due of its own
   * task's events, and all of it once none waits on its queue.
   */
  lemma NothingCrosses(moves: seq<Move>, t: State, task: string)
    requires Runs(EMPTY, moves, t)
    ensures LocalOf(t, task).yielded <= Due(About(t.arrived, task))
    ensures LocalOf(t, task).phase.Streaming? && Queue(t.mail, task) == [] ==>
              LocalOf(t, task).yielded == Due(About(t.arrived, task))
  {
    var steps := RunAlone(EMPTY, moves, t, task);
    assert Alone(EMPTY, task) == BEGIN;
    Reached(steps, Alone(t, task));
    StreamRefines(steps, Alone(t, task));
  }
}
