/**
 * How an agent persists the states that ask for it. A value is known by its revision, which grows with every change.
 */
module StateFlush {
  import opened Frames

  datatype Policy = Synchronous | Periodic

  /** What an agent knows of one state. */
  datatype Cell = Cell(policy: Option<Policy>, current: Option<nat>, dirty: bool, stored: Option<nat>)

  /** `_take_dirty_state`: a value to write, and the state that is left. */
  function Taken(c: Cell): (r: (Option<nat>, Cell)) {
    if c.dirty then (c.current, c.(dirty := false)) else (None, c)
  }

  function Written(c: Cell, value: Option<nat>): Cell {
    if value.Some? then c.(stored := value) else c
  }

  /** `_note_state_change`, for one state. */
  function Noted(c: Cell): Cell {
    match c.policy
    case None => c
    case Some(Synchronous) => var (value, left) := Taken(c.(dirty := true)); Written(left, value)
    case Some(Periodic) => c.(dirty := true)
  }

  /** `_aflush_state_loop` at each of its waits: not begun, for its period, for a write; or ended. */
  datatype Flusher = Starting | Waiting | Writing(value: nat) | Ended

  /** `taken` and `writes` are the values taken and the values written so far. */
  datatype Sys = Sys(cell: Cell, flusher: Flusher, stop: bool, closed: bool, taken: seq<nat>, writes: seq<nat>)

  datatype Step = Change | Note | Begin | Wake | Lands | Stop | Close

  function Start(policy: Policy, stored: Option<nat>): Sys {
    Sys(Cell(Some(policy), None, false, stored), if policy.Periodic? then Starting else Ended, false, false, [], [])
  }

  predicate Can(s: Sys, e: Step) {
    match e
    case Begin => s.flusher.Starting?
    case Wake => s.flusher.Waiting?
    case Lands => s.flusher.Writing?
    case Close => s.stop && s.flusher.Ended?
    case _ => true
  }

  function Next(s: Sys): Flusher {
    if s.stop then Ended else Waiting
  }

  function Revised(c: Cell): Cell {
    c.(current := Some(if c.current.Some? then c.current.value + 1 else 0))
  }

  /** A change is noted in the step that makes it; once the store is closed nothing is noted. */
  function Do(s: Sys, e: Step): Sys
    requires Can(s, e)
  {
    match e
    case Change => if s.closed then s.(cell := Revised(s.cell)) else Recorded(s.(cell := Revised(s.cell)))
    case Note => if s.closed then s else Recorded(s)
    case Begin => s.(flusher := Next(s))
    case Wake =>
      var (value, left) := Taken(s.cell);
      if value.Some? then s.(cell := left, flusher := Writing(value.value), taken := s.taken + [value.value])
      else s.(cell := left, flusher := Next(s))
    case Lands => s.(cell := Written(s.cell, Some(s.flusher.value)), flusher := Next(s),
          writes := s.writes + [s.flusher.value])
    case Stop => s.(stop := true)
    case Close => s.(closed := true)
  }

  function Recorded(s: Sys): Sys {
    var s := s.(cell := Noted(s.cell));
    if s.cell.policy == Some(Synchronous) && s.cell.current.Some?
    then s.(taken := s.taken + [s.cell.current.value], writes := s.writes + [s.cell.current.value])
    else s
  }

  /** Is the value changed since it was last taken? */
  function Untaken(s: Sys, e: Step, untaken: bool): bool
    requires Can(s, e)
  {
    match e
    case Change => s.closed || s.cell.policy != Some(Synchronous)
    case Note => untaken && (s.closed || s.cell.policy != Some(Synchronous))
    case Wake => untaken && !s.cell.dirty
    case _ => untaken
  }

  /** A run, and whether the value is changed since it was last taken, before and after it. */
  predicate Run(s: Sys, was: bool, steps: seq<Step>, t: Sys, untaken: bool)
    decreases |steps|
  {
    if steps == [] then s == t && was == untaken
    else Can(s, steps[0]) && Run(Do(s, steps[0]), Untaken(s, steps[0], was), steps[1..], t, untaken)
  }

  predicate Rising(ns: seq<nat>) {
    forall i, j :: 0 <= i < j < |ns| ==> ns[i] <= ns[j]
  }

  function InHand(f: Flusher): seq<nat> {
    if f.Writing? then [f.value] else []
  }

  function Last(ns: seq<nat>, d: Option<nat>): Option<nat> {
    if ns == [] then d else Some(ns[|ns| - 1])
  }

  /** Values are taken in order, written in the order they were taken, and none is newer than the current one. */
  predicate Logged(s: Sys, first: Option<nat>) {
    && s.taken == s.writes + InHand(s.flusher) && Rising(s.taken)
    && (s.taken != [] ==> s.cell.current.Some? && s.taken[|s.taken| - 1] <= s.cell.current.value)
    && s.cell.stored == Last(s.writes, first)
    && (s.cell.policy == Some(Synchronous) ==> s.flusher.Ended?)
    && s.cell.policy.Some?
  }

  predicate Tracked(s: Sys, untaken: bool) {
    var c, last := s.cell, Last(s.taken, None);
    && (c.policy == Some(Synchronous) ==> !c.dirty)
    && (s.closed ==> s.flusher.Ended?)
    && (untaken ==> c.current.Some? && (last.Some? ==> last.value < c.current.value) && (c.dirty || s.closed))
    && (!untaken && c.current.Some? ==> last == c.current)
  }

  predicate Inv(s: Sys, untaken: bool, first: Option<nat>) {
    Logged(s, first) && Tracked(s, untaken)
  }

  lemma TakenMore(ns: seq<nat>, n: nat)
    requires Rising(ns) && (ns != [] ==> ns[|ns| - 1] <= n)
    ensures Rising(ns + [n]) && (ns + [n])[|ns + [n]| - 1] == n
  {
  }

  lemma RecordedLogged(s: Sys, first: Option<nat>)
    requires Logged(s, first)
    ensures Logged(Recorded(s), first)
  {
    if s.cell.policy == Some(Synchronous) && s.cell.current.Some? {
      var v := s.cell.current.value;
      TakenMore(s.taken, v);
      assert s.taken == s.writes && InHand(s.flusher) == [];
      assert Last(s.writes + [v], first) == Some(v);
      assert s.writes + [v] + [] == s.writes + [v];
    }
  }

  lemma RevisedLogged(s: Sys, first: Option<nat>)
    requires Logged(s, first)
    ensures Logged(s.(cell := Revised(s.cell)), first)
  {
  }

  lemma WakeLogged(s: Sys, first: Option<nat>)
    requires Logged(s, first) && Can(s, Wake)
    ensures Logged(Do(s, Wake), first)
  {
    assert s.taken == s.writes && s.writes + [] == s.writes;
    if s.cell.dirty && s.cell.current.Some? {
      var v := s.cell.current.value;
      TakenMore(s.taken, v);
      assert Do(s, Wake).taken == s.writes + [v] && InHand(Do(s, Wake).flusher) == [v];
    }
  }

  lemma LandsLogged(s: Sys, first: Option<nat>)
    requires Logged(s, first) && Can(s, Lands)
    ensures Logged(Do(s, Lands), first)
  {
    assert s.writes + [s.flusher.value] + [] == s.writes + [s.flusher.value];
  }

  lemma LoggedKept(s: Sys, e: Step, first: Option<nat>)
    requires Logged(s, first) && Can(s, e)
    ensures Logged(Do(s, e), first)
  {
    match e
    case Change =>
      RevisedLogged(s, first);
      RecordedLogged(s.(cell := Revised(s.cell)), first);
    case Note => RecordedLogged(s, first);
    case Wake => WakeLogged(s, first);
    case Lands => LandsLogged(s, first);
    case _ =>
  }

  lemma LastMore(ns: seq<nat>, n: nat)
    ensures Last(ns + [n], None) == Some(n)
  {
  }

  lemma ChangeTracked(s: Sys, untaken: bool)
    requires s.cell.policy.Some? && Tracked(s, untaken)
    requires Last(s.taken, None).Some? ==> s.cell.current.Some? && s.taken[|s.taken| - 1] <= s.cell.current.value
    ensures Tracked(Do(s, Change), Untaken(s, Change, untaken))
  {
    LastMore(s.taken, Revised(s.cell).current.value);
  }

  lemma NoteTracked(s: Sys, untaken: bool)
    requires s.cell.policy.Some? && Tracked(s, untaken)
    ensures Tracked(Do(s, Note), Untaken(s, Note, untaken))
  {
    if s.cell.current.Some? { LastMore(s.taken, s.cell.current.value); }
  }

  lemma WakeTracked(s: Sys, untaken: bool)
    requires Tracked(s, untaken) && Can(s, Wake)
    ensures Tracked(Do(s, Wake), Untaken(s, Wake, untaken))
  {
    if s.cell.current.Some? { LastMore(s.taken, s.cell.current.value); }
  }

  lemma TrackedKept(s: Sys, e: Step, untaken: bool, first: Option<nat>)
    requires Logged(s, first) && Tracked(s, untaken) && Can(s, e)
    ensures Tracked(Do(s, e), Untaken(s, e, untaken))
  {
    match e
    case Change => ChangeTracked(s, untaken);
    case Note => NoteTracked(s, untaken);
    case Wake => WakeTracked(s, untaken);
    case _ =>
  }

  lemma StepKept(s: Sys, e: Step, untaken: bool, first: Option<nat>)
    requires Inv(s, untaken, first) && Can(s, e)
    ensures Inv(Do(s, e), Untaken(s, e, untaken), first)
  {
    LoggedKept(s, e, first);
    TrackedKept(s, e, untaken, first);
  }

  lemma {:induction false} RunKept(s: Sys, was: bool, steps: seq<Step>, t: Sys, untaken: bool, first: Option<nat>)
    requires Inv(s, was, first) && Run(s, was, steps, t, untaken)
    ensures Inv(t, untaken, first)
    decreases |steps|
  {
    if steps != [] {
      StepKept(s, steps[0], was, first);
      RunKept(Do(s, steps[0]), Untaken(s, steps[0], was), steps[1..], t, untaken, first);
    }
  }

  /** Writes land in the order their values were taken, and so a stored value never goes back to an older one. */
  lemma WritesInOrder(policy: Policy, first: Option<nat>, steps: seq<Step>, t: Sys, untaken: bool)
    requires Run(Start(policy, first), false, steps, t, untaken)
    ensures t.taken == t.writes + InHand(t.flusher) && Rising(t.writes) && t.cell.stored == Last(t.writes, first)
  {
    RunKept(Start(policy, first), false, steps, t, untaken, first);
    assert forall i :: 0 <= i < |t.writes| ==> t.writes[i] == t.taken[i];
  }

  /** Until the store is closed, a state is dirty, or its current value is stored or being written. */
  lemma DirtyOrStored(policy: Policy, first: Option<nat>, steps: seq<Step>, t: Sys, untaken: bool)
    requires Run(Start(policy, first), false, steps, t, untaken) && t.cell.current.Some? && !t.closed
    ensures t.cell.dirty || t.flusher == Writing(t.cell.current.value)
            || (t.cell.stored == t.cell.current && t.writes != [])
    ensures policy.Synchronous? ==> t.cell.stored == t.cell.current && t.writes != []
  {
    RunKept(Start(policy, first), false, steps, t, untaken, first);
    PolicyStays(Start(policy, first), false, steps, t, untaken);
  }

  lemma {:induction false} PolicyStays(s: Sys, was: bool, steps: seq<Step>, t: Sys, untaken: bool)
    requires Run(s, was, steps, t, untaken)
    ensures t.cell.policy == s.cell.policy
    decreases |steps|
  {
    if steps != [] { PolicyStays(Do(s, steps[0]), Untaken(s, steps[0], was), steps[1..], t, untaken); }
  }

  /** The flushing of a periodic state goes on until it is stopped; a synchronous one has none. */
  ghost predicate Flushing(s: Sys) {
    && (s.cell.policy == Some(Periodic) ==> (s.flusher.Ended? ==> s.stop))
    && (s.cell.policy == Some(Synchronous) ==> s.flusher.Ended?)
  }

  lemma {:induction false} FlushingKept(s: Sys, was: bool, steps: seq<Step>, t: Sys, untaken: bool)
    requires Run(s, was, steps, t, untaken) && Flushing(s)
    ensures Flushing(t)
    decreases |steps|
  {
    if steps != [] { FlushingKept(Do(s, steps[0]), Untaken(s, steps[0], was), steps[1..], t, untaken); }
  }

  /**
   * In no state of a run has the flushing ended without a stop: it can begin, wake after its period, or have its write
   * land. A period with nothing to write leaves the state as it is.
   */
  lemma FlushesUntilStopped(first: Option<nat>, steps: seq<Step>, t: Sys, untaken: bool)
    requires Run(Start(Periodic, first), false, steps, t, untaken)
    ensures t.flusher.Ended? ==> t.stop
    ensures !t.flusher.Ended? ==> Can(t, Begin) || Can(t, Wake) || Can(t, Lands)
    ensures t.flusher.Starting? && !t.stop ==> Do(t, Begin) == t.(flusher := Waiting)
    ensures t.flusher.Waiting? && !t.cell.dirty && !t.stop ==> Do(t, Wake) == t
  {
    FlushingKept(Start(Periodic, first), false, steps, t, untaken);
    PolicyStays(Start(Periodic, first), false, steps, t, untaken);
  }

  /**
   * From every state of a run in which a changed value waits for its period, the period writes it, and the next one
   * is waited for unless the flushing was stopped.
   */
  lemma WrittenInItsPeriod(first: Option<nat>, steps: seq<Step>, t: Sys, untaken: bool) returns (u: Sys, now: bool)
    requires Run(Start(Periodic, first), false, steps, t, untaken)
    requires t.flusher.Waiting? && t.cell.dirty && t.cell.current.Some?
    ensures Run(t, untaken, [Wake, Lands], u, now)
    ensures u.cell == t.cell.(dirty := false, stored := t.cell.current)
    ensures u.writes == t.writes + [t.cell.current.value] && u.stop == t.stop && u.closed == t.closed
    ensures u.flusher == if t.stop then Ended else Waiting
  {
    var w := Do(t, Wake);
    u, now := Do(w, Lands), Untaken(w, Lands, Untaken(t, Wake, untaken));
    assert [Wake, Lands][1..] == [Lands] && [Lands][1..] == [];
    assert Run(u, now, [], u, now);
    assert Run(w, Untaken(t, Wake, untaken), [Lands], u, now);
  }

  /** What a session's start notes of a state that has a value: the mark, or the write. */
  lemma StartIsNoted(policy: Policy, first: Option<nat>, steps: seq<Step>, t: Sys, untaken: bool)
    requires Run(Start(policy, first), false, steps, t, untaken) && !t.closed && t.cell.current.Some?
    ensures var u := Do(t, Note);
      && u.cell.current == t.cell.current && u.flusher == t.flusher && u.stop == t.stop && !u.closed
      && (policy.Periodic? ==> u.cell.dirty && u.cell.stored == t.cell.stored && u.writes == t.writes)
      && (policy.Synchronous? ==> u.cell.stored == u.cell.current && u.writes == t.writes + [u.cell.current.value])
  {
    PolicyStays(Start(policy, first), false, steps, t, untaken);
  }

  /** A change marks a periodic state, and writes a synchronous one at once. */
  lemma ChangeIsNoted(policy: Policy, first: Option<nat>, steps: seq<Step>, t: Sys, untaken: bool)
    requires Run(Start(policy, first), false, steps, t, untaken) && !t.closed
    ensures var u := Do(t, Change);
      && u.cell.current == Some(if t.cell.current.Some? then t.cell.current.value + 1 else 0)
      && u.flusher == t.flusher && u.stop == t.stop && !u.closed
      && (policy.Periodic? ==> u.cell.dirty && u.cell.stored == t.cell.stored && u.writes == t.writes)
      && (policy.Synchronous? ==> u.cell.stored == u.cell.current && u.writes == t.writes + [u.cell.current.value])
  {
    PolicyStays(Start(policy, first), false, steps, t, untaken);
  }

  /** A closed store has a state's last value if and only if the value did not change after it was last taken. */
  lemma CleanExit(policy: Policy, first: Option<nat>, steps: seq<Step>, t: Sys, untaken: bool)
    requires Run(Start(policy, first), false, steps, t, untaken) && t.closed && t.cell.current.Some?
    ensures t.writes != [] && t.writes[|t.writes| - 1] == t.cell.current.value <==> !untaken
  {
    RunKept(Start(policy, first), false, steps, t, untaken, first);
    assert t.taken == t.writes;
  }

  lemma {:induction false} RunMore(s: Sys, was: bool, steps: seq<Step>, t: Sys, untaken: bool, e: Step)
    requires Run(s, was, steps, t, untaken) && Can(t, e)
    ensures Run(s, was, steps + [e], Do(t, e), Untaken(t, e, untaken))
    decreases |steps|
  {
    if steps == [] {
      assert steps + [e] == [e];
      assert Run(Do(t, e), Untaken(t, e, untaken), [e][1..], Do(t, e), Untaken(t, e, untaken));
    } else {
      assert (steps + [e])[0] == steps[0] && (steps + [e])[1..] == steps[1..] + [e];
      RunMore(Do(s, steps[0]), Untaken(s, steps[0], was), steps[1..], t, untaken, e);
    }
  }

  /** A change during a write, then the stop: the write ends the loop, and the last value is never written. */
  lemma LastChangeLost() returns (steps: seq<Step>, t: Sys)
    ensures Run(Start(Periodic, None), false, steps, t, true) && t.closed && t.cell.dirty
    ensures t.cell.current == Some(1) && t.cell.stored == Some(0)
  {
    var s := Start(Periodic, None);
    var untaken := false;
    steps, t := [], s;
    steps, t, untaken := Then(s, steps, t, untaken, Begin);
    steps, t, untaken := Then(s, steps, t, untaken, Change);
    steps, t, untaken := Then(s, steps, t, untaken, Wake);
    steps, t, untaken := Then(s, steps, t, untaken, Change);
    steps, t, untaken := Then(s, steps, t, untaken, Stop);
    steps, t, untaken := Then(s, steps, t, untaken, Lands);
    steps, t, untaken := Then(s, steps, t, untaken, Close);
  }

  lemma Then(s: Sys, steps: seq<Step>, t: Sys, untaken: bool, e: Step) returns (more: seq<Step>, u: Sys, now: bool)
    requires Run(s, false, steps, t, untaken) && Can(t, e)
    ensures Run(s, false, more, u, now) && u == Do(t, e) && now == Untaken(t, e, untaken)
  {
    more, u, now := steps + [e], Do(t, e), Untaken(t, e, untaken);
    RunMore(s, false, steps, t, untaken, e);
  }

  /** The agent's own bookkeeping of its persisted states. */
  class StateKeeper {
    var policies: map<string, Policy>
    var currentStates: map<string, nat>
    var dirtyStates: set<string>
    var store: Option<map<string, nat>>

    ghost function CellOf(state: string): Cell
      reads this
    {
      Cell(if store.Some? && state in policies then Some(policies[state]) else None,
           if state in currentStates then Some(currentStates[state]) else None,
           state in dirtyStates,
           if store.Some? && state in store.value then Some(store.value[state]) else None)
    }

    /** `_take_dirty_state` */
    method TakeDirtyState(state: string) returns (value: Option<nat>)
      modifies `dirtyStates
      ensures (value, CellOf(state)) == Taken(old(CellOf(state)))
      ensures forall i :: i != state ==> CellOf(i) == old(CellOf(i))
    {
      if state !in dirtyStates { return None; }
      dirtyStates := dirtyStates - {state};
      value := if state in currentStates then Some(currentStates[state]) else None;
    }

    /** `_write_state` */
    method WriteState(state: string, value: nat)
      modifies `store
      ensures store.Some? <==> old(store).Some?
      ensures CellOf(state) == if store.Some? then Written(old(CellOf(state)), Some(value)) else old(CellOf(state))
      ensures forall i :: i != state ==> CellOf(i) == old(CellOf(i))
    {
      if store.Some? { store := Some(store.value[state := value]); }
    }

    /** `_note_state_change`: a patch names one state, the start of a session all that are persisted. */
    method NoteStateChange(changed: seq<string>)
      modifies `dirtyStates, `store
      ensures store.Some? <==> old(store).Some?
      ensures forall i :: CellOf(i) == if i in changed then Noted(old(CellOf(i))) else old(CellOf(i))
    {
      if store.None? { return; }
      for n := 0 to |changed|
        invariant store.Some?
        invariant forall i :: CellOf(i) == if i in changed[..n] then Noted(old(CellOf(i))) else old(CellOf(i))
      {
        var state := changed[n];
        assert forall i :: i in changed[..n + 1] <==> i in changed[..n] || i == state;
        if state !in policies { continue; }
        dirtyStates := dirtyStates + {state};
        if policies[state].Synchronous? {
          var value := TakeDirtyState(state);
          if value.Some? { WriteState(state, value.value); }
        }
      }
      assert changed[..|changed|] == changed;
    }
  }
}
