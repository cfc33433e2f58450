/** Completing a resumed task's journal with what a dead process recorded and never delivered. */
module ResumeJournal {
  import opened Frames
  import opened Bookkeeping
  import opened Delivery
  import opened DeliveryProof
  import DeliveryProgress

  predicate Knows(effects: seq<Recorded>, key: string) {
    exists e <- effects :: e.key == key
  }

  predicate Unsent(r: Report, task: string, known: seq<Recorded>) {
    r.body.Effect? && r.task == Some(task) && r.body.key != "" && !Knows(known, r.body.key)
  }

  /** `e` is what the effect report `r`, which the journal lacks, recorded. */
  predicate Records(r: Report, task: string, known: seq<Recorded>, e: Recorded) {
    Unsent(r, task, known) && e == Recorded(r.body.key, r.body.effect, r.body.value)
  }

  ghost predicate Recording(frames: seq<Report>, task: string, known: seq<Recorded>, e: Recorded) {
    exists r <- frames :: Records(r, task, known, e)
  }

  /** The retained effects of the task that the server's journal does not have. */
  function HeldEffects(frames: seq<Report>, task: string, known: seq<Recorded>): seq<Recorded> {
    if frames == [] then [] else
    (if Unsent(frames[0], task, known)
          then [Recorded(frames[0].body.key, frames[0].body.effect, frames[0].body.value)] else [])
    + HeldEffects(frames[1..], task, known)
  }

  /** The task's steps among the retained frames; a step of 0 counts as none. */
  function HeldSteps(frames: seq<Report>, task: string): seq<nat> {
    if frames == [] then [] else
    (if frames[0].task == Some(task) && frames[0].step.Some? && frames[0].step.value != 0
          then [frames[0].step.value] else [])
    + HeldSteps(frames[1..], task)
  }

  function Greatest(n: nat, ns: seq<nat>): nat
    decreases |ns|
  {
    if ns == [] then n else Greatest(if n < ns[0] then ns[0] else n, ns[1..])
  }

  /** `_complete_resume`: `frames` are the retained ones, in the order the dictionary lists them. */
  function Complete(resume: Resume, task: string, frames: seq<Report>): Resume {
    var held, steps := HeldEffects(frames, task, resume.effects), HeldSteps(frames, task);
    if held == [] && steps == [] then resume
    else Resume(resume.effects + held, Greatest(resume.lastStep, steps))
  }

  lemma {:induction false} HeldEffectsAre(frames: seq<Report>, task: string, known: seq<Recorded>)
    ensures forall r <- frames :: Unsent(r, task, known) ==>
              Recorded(r.body.key, r.body.effect, r.body.value) in HeldEffects(frames, task, known)
    ensures forall e <- HeldEffects(frames, task, known) ::
              Recording(frames, task, known, e)
  {
    if frames != [] {
      HeldEffectsAre(frames[1..], task, known);
      forall e | e in HeldEffects(frames, task, known)
        ensures Recording(frames, task, known, e)
      {
        if e in HeldEffects(frames[1..], task, known) {
          var r :| r in frames[1..] && Records(r, task, known, e);
          assert r in frames;
        } else {
          assert frames[0] in frames && Records(frames[0], task, known, e);
        }
      }
    }
  }

  lemma {:induction false} HeldStepsAre(frames: seq<Report>, task: string)
    ensures forall r <- frames :: r.task == Some(task) && r.step.Some? && r.step.value != 0 ==>
            r.step.value in HeldSteps(frames, task)
    ensures forall n <- HeldSteps(frames, task) :: exists r <- frames :: r.task == Some(task) && r.step == Some(n)
  {
    if frames != [] {
      HeldStepsAre(frames[1..], task);
      forall n | n in HeldSteps(frames, task) ensures exists r <- frames :: r.task == Some(task) && r.step == Some(n) {
        if n in HeldSteps(frames[1..], task) {
          var r :| r in frames[1..] && r.task == Some(task) && r.step == Some(n);
          assert r in frames;
        } else {
          assert frames[0] in frames;
        }
      }
    }
  }

  lemma {:induction false} GreatestIs(n: nat, ns: seq<nat>)
    ensures n <= Greatest(n, ns) && forall m <- ns :: m <= Greatest(n, ns)
    ensures Greatest(n, ns) == n || Greatest(n, ns) in ns
    decreases |ns|
  {
    if ns != [] {
      GreatestIs(if n < ns[0] then ns[0] else n, ns[1..]);
      forall m | m in ns ensures m <= Greatest(n, ns) {
        assert m == ns[0] || m in ns[1..];
      }
    }
  }

  /** What a completed journal is: the server's entries first, then only reports of the task it had no key of. */
  lemma CompleteAdds(resume: Resume, task: string, frames: seq<Report>)
    ensures var c := Complete(resume, task, frames);
      && resume.effects <= c.effects
      && (forall r <- frames :: Covers(c, task, r))
      && (forall r: Report :: Covers(resume, task, r) ==> Covers(c, task, r))
      && (forall j :: |resume.effects| <= j < |c.effects| ==>
            Recording(frames, task, resume.effects, c.effects[j]))
      && resume.lastStep <= c.lastStep
      && (c.lastStep == resume.lastStep || exists r <- frames :: r.task == Some(task) && r.step == Some(c.lastStep))
  {
    var held, steps := HeldEffects(frames, task, resume.effects), HeldSteps(frames, task);
    var c := Complete(resume, task, frames);
    HeldEffectsAre(frames, task, resume.effects);
    HeldStepsAre(frames, task);
    GreatestIs(resume.lastStep, steps);
    assert c.effects == resume.effects + held && c.lastStep == Greatest(resume.lastStep, steps);
    forall j | |resume.effects| <= j < |c.effects|
      ensures Recording(frames, task, resume.effects, c.effects[j])
    {
      assert c.effects[j] == held[j - |resume.effects|] && c.effects[j] in held;
    }
    forall key: string | Knows(resume.effects, key) ensures exists e <- c.effects :: e.key == key {
      var e :| e in resume.effects && e.key == key;
      assert e in c.effects;
    }
    forall r | r in frames ensures Covers(c, task, r) {
      if Unsent(r, task, resume.effects) {
        assert Recorded(r.body.key, r.body.effect, r.body.value) in held;
      }
    }
  }

  /** All keys of a dictionary, each once, in whatever order. */
  ghost predicate Listing(keys: seq<Key>, m: map<Key, Report>) {
    && (forall k: Key :: k in keys <==> k in m)
    && (forall i, j :: 0 <= i < j < |keys| ==> keys[i] != keys[j])
  }

  function ValuesOf(keys: seq<Key>, m: map<Key, Report>): (rs: seq<Report>)
    requires forall k <- keys :: k in m
    ensures |rs| == |keys| && forall i :: 0 <= i < |keys| ==> rs[i] == m[keys[i]]
  {
    seq(|keys|, i requires 0 <= i < |keys| => m[keys[i]])
  }

  /** The retained reports, as often as they are retained, in whatever order. */
  ghost predicate Lists(frames: seq<Report>, retained: map<Key, Report>) {
    exists keys: seq<Key> :: Listing(keys, retained) && frames == ValuesOf(keys, retained)
  }

  ghost predicate IsRetained(retained: map<Key, Report>, r: Report) {
    exists k <- retained :: retained[k] == r
  }

  lemma ListsAre(frames: seq<Report>, retained: map<Key, Report>)
    requires Lists(frames, retained)
    ensures forall r :: r in frames <==> IsRetained(retained, r)
  {
    var keys :| Listing(keys, retained) && frames == ValuesOf(keys, retained);
    forall r ensures r in frames <==> IsRetained(retained, r) {
      if r in frames {
        var i :| 0 <= i < |frames| && frames[i] == r;
        assert keys[i] in keys && retained[keys[i]] == r;
      }
      if IsRetained(retained, r) {
        var k :| k in retained && retained[k] == r;
        assert k in keys;
        var i :| 0 <= i < |keys| && keys[i] == k;
        assert frames[i] == r;
      }
    }
  }

  /** The keys under which an effect of the task is retained that the journal lacks: any, or one that recorded `e`. */
  function LackingKeys(keys: seq<Key>, m: map<Key, Report>, task: string, known: seq<Recorded>): set<Key>
    requires forall k <- keys :: k in m
  {
    set k | k in keys && Unsent(m[k], task, known)
  }

  function KeysOf(keys: seq<Key>, m: map<Key, Report>, task: string, known: seq<Recorded>, e: Recorded): set<Key>
    requires forall k <- keys :: k in m
  {
    set k | k in keys && Records(m[k], task, known, e)
  }

  lemma FirstKey(keys: seq<Key>, m: map<Key, Report>)
    requires keys != [] && forall k <- keys :: k in m
    requires forall i, j :: 0 <= i < j < |keys| ==> keys[i] != keys[j]
    ensures keys[0] !in keys[1..] && forall k :: k in keys <==> k == keys[0] || k in keys[1..]
    ensures ValuesOf(keys, m) == [m[keys[0]]] + ValuesOf(keys[1..], m)
  {
    assert keys == [keys[0]] + keys[1..];
  }

  lemma LackingStep(keys: seq<Key>, m: map<Key, Report>, task: string, known: seq<Recorded>)
    requires keys != [] && keys[0] !in keys[1..] && forall k <- keys :: k in m
    requires forall k :: k in keys <==> k == keys[0] || k in keys[1..]
    ensures |LackingKeys(keys, m, task, known)| ==
            |LackingKeys(keys[1..], m, task, known)| + if Unsent(m[keys[0]], task, known) then 1 else 0
  {
    var k, more := keys[0], LackingKeys(keys[1..], m, task, known);
    var lacks := Unsent(m[k], task, known);
    assert LackingKeys(keys, m, task, known) == more + if lacks then {k} else {};
  }

  lemma RecordedStep(keys: seq<Key>, m: map<Key, Report>, task: string, known: seq<Recorded>, e: Recorded)
    requires keys != [] && keys[0] !in keys[1..] && forall k <- keys :: k in m
    requires forall k :: k in keys <==> k == keys[0] || k in keys[1..]
    ensures |KeysOf(keys, m, task, known, e)| ==
            |KeysOf(keys[1..], m, task, known, e)| + if Records(m[keys[0]], task, known, e) then 1 else 0
  {
    var k, more := keys[0], KeysOf(keys[1..], m, task, known, e);
    var recorded := Records(m[k], task, known, e);
    assert KeysOf(keys, m, task, known, e) == more + if recorded then {k} else {};
  }

  lemma HeldStep(r: Report, frames: seq<Report>, task: string, known: seq<Recorded>, e: Recorded)
    ensures var all, held := HeldEffects([r] + frames, task, known), HeldEffects(frames, task, known);
      && |all| == |held| + (if Unsent(r, task, known) then 1 else 0)
      && multiset(all)[e] == multiset(held)[e] + if Records(r, task, known, e) then 1 else 0
  {
    assert ([r] + frames)[1..] == frames;
  }

  /** Each of them adds one entry. */
  lemma {:induction false} EffectsCounted(keys: seq<Key>, m: map<Key, Report>, task: string, known: seq<Recorded>,
                                          e: Recorded)
    requires forall k <- keys :: k in m
    requires forall i, j :: 0 <= i < j < |keys| ==> keys[i] != keys[j]
    ensures var held := HeldEffects(ValuesOf(keys, m), task, known);
      |held| == |LackingKeys(keys, m, task, known)| && multiset(held)[e] == |KeysOf(keys, m, task, known, e)|
    decreases |keys|
  {
    if keys == [] {
      assert KeysOf(keys, m, task, known, e) == {} == LackingKeys(keys, m, task, known);
    } else {
      FirstKey(keys, m);
      LackingStep(keys, m, task, known);
      RecordedStep(keys, m, task, known, e);
      EffectsCounted(keys[1..], m, task, known, e);
      HeldStep(m[keys[0]], ValuesOf(keys[1..], m), task, known, e);
    }
  }

  lemma LackingKeysAre(keys: seq<Key>, m: map<Key, Report>, task: string, known: seq<Recorded>)
    requires Listing(keys, m)
    ensures LackingKeys(keys, m, task, known) ==
            set k | k in m && m[k].task == Some(task) && m[k].body.Effect? && m[k].body.key != ""
                        && forall e <- known :: e.key != m[k].body.key
  {
  }

  lemma KeysOfAre(keys: seq<Key>, m: map<Key, Report>, task: string, known: seq<Recorded>, e: Recorded)
    requires Listing(keys, m)
    ensures KeysOf(keys, m, task, known, e) ==
            set k | k in m && m[k].task == Some(task) && m[k].body == Effect(e.effect, e.key, e.value) && e.key != ""
                        && forall x <- known :: x.key != e.key
  {
  }

  lemma CompleteEffects(resume: Resume, task: string, frames: seq<Report>)
    ensures var c, held := Complete(resume, task, frames), HeldEffects(frames, task, resume.effects);
      resume.effects <= c.effects && |c.effects| == |resume.effects| + |held| && c.effects[|resume.effects|..] == held
  {
    assert resume.effects + [] == resume.effects;
  }

  /**
   * What a completed journal adds: one entry for each key under which an effect of the task is retained that the
   * server's list has no entry for, as it was recorded, and no other.
   */
  lemma CompleteNumber(resume: Resume, task: string, keys: seq<Key>, m: map<Key, Report>)
    requires Listing(keys, m)
    ensures |Complete(resume, task, ValuesOf(keys, m)).effects| - |resume.effects| ==
            |(set k | k in m && m[k].task == Some(task) && m[k].body.Effect? && m[k].body.key != ""
                          && forall e <- resume.effects :: e.key != m[k].body.key)|
  {
    EffectsCounted(keys, m, task, resume.effects, Recorded("", "", ""));
    CompleteEffects(resume, task, ValuesOf(keys, m));
    LackingKeysAre(keys, m, task, resume.effects);
  }

  lemma CompleteCounts(resume: Resume, task: string, keys: seq<Key>, m: map<Key, Report>, e: Recorded)
    requires Listing(keys, m)
    ensures var c := Complete(resume, task, ValuesOf(keys, m));
      && resume.effects <= c.effects
      && multiset(c.effects[|resume.effects|..])[e] ==
           |(set k | k in m && m[k].task == Some(task) && m[k].body == Effect(e.effect, e.key, e.value) && e.key != ""
                         && forall x <- resume.effects :: x.key != e.key)|
  {
    EffectsCounted(keys, m, task, resume.effects, e);
    CompleteEffects(resume, task, ValuesOf(keys, m));
    KeysOfAre(keys, m, task, resume.effects, e);
  }

  /** Its last step is the greatest of the server's and of the task's that are retained. */
  lemma CompleteSteps(resume: Resume, task: string, frames: seq<Report>, m: map<Key, Report>)
    requires Lists(frames, m)
    ensures var n := Complete(resume, task, frames).lastStep;
      && n >= resume.lastStep
      && (forall k <- m :: m[k].task == Some(task) && m[k].step.Some? ==> n >= m[k].step.value)
      && (n == resume.lastStep || exists k <- m :: m[k].task == Some(task) && m[k].step == Some(n))
  {
    var c := Complete(resume, task, frames);
    CompleteAdds(resume, task, frames);
    ListsAre(frames, m);
    forall k | k in m && m[k].task == Some(task) && m[k].step.Some? ensures c.lastStep >= m[k].step.value {
      assert m[k] in frames && Covers(c, task, m[k]);
    }
    if c.lastStep != resume.lastStep {
      var r :| r in frames && r.task == Some(task) && r.step == Some(c.lastStep);
      var k :| k in m && m[k] == r;
      assert m[k].step == Some(c.lastStep);
    }
  }

  /** Handled in the order it was received, an Assign meets every report its journal lacks. */
  lemma LackingIsRetained(w: World, s: string, i: nat)
    requires Inv(w) && w.proc.Some? && w.proc.value.inbox != [] && w.proc.value.inbox[0].Assign?
    requires s in w.emitted && i < |w.emitted[s]|
    ensures var m := w.proc.value.inbox[0];
      Covers(m.resume, m.task, w.emitted[s][i])
      || (Key(s, i + 1) in w.proc.value.held.retained && w.proc.value.held.retained[Key(s, i + 1)] == w.emitted[s][i])
  {
    var p := w.proc.value;
    var m := p.inbox[0];
    assert m in p.inbox;
    if i < Get(m.seen, s, 0) {
      assert Covers(m.resume, m.task, At(w.taken, s)[i]);
      assert At(w.taken, s) <= w.emitted[s];
    } else {
      assert Get(w.acked, s, 0) <= Get(m.seen, s, 0);
      assert IsOwed(w.emitted, w.acked, Key(s, i + 1));
    }
  }

  /**
   * Resume is complete. In any run, when an Assign with a resume journal is handled, the
   * completed journal has the key of every effect the task ever emitted, and a last step no
   * smaller than any of its steps; the server's list stays in front, what is added was
   * emitted for this task under a key the server lacks.
   */
  lemma ResumeIsComplete(w: World, frames: seq<Report>)
    requires Reachable(w) && w.proc.Some? && w.proc.value.inbox != [] && w.proc.value.inbox[0].Assign?
    requires Lists(frames, w.proc.value.held.retained)
    ensures var m := w.proc.value.inbox[0];
      var c := Complete(m.resume, m.task, frames);
      && (forall s, i :: s in w.emitted && 0 <= i < |w.emitted[s]| ==> Covers(c, m.task, w.emitted[s][i]))
      && m.resume.effects <= c.effects
      && (forall j :: |m.resume.effects| <= j < |c.effects| ==>
            !Knows(m.resume.effects, c.effects[j].key) && IsEmitted(w, m.task, c.effects[j]))
  {
    ReachableInv(w);
    var p := w.proc.value;
    var m := p.inbox[0];
    var c := Complete(m.resume, m.task, frames);
    CompleteAdds(m.resume, m.task, frames);
    ListsAre(frames, p.held.retained);
    forall s, i | s in w.emitted && 0 <= i < |w.emitted[s]| ensures Covers(c, m.task, w.emitted[s][i]) {
      LackingIsRetained(w, s, i);
    }
    forall j | |m.resume.effects| <= j < |c.effects|
      ensures !Knows(m.resume.effects, c.effects[j].key) && IsEmitted(w, m.task, c.effects[j])
    {
      assert Recording(frames, m.task, m.resume.effects, c.effects[j]);
      var r :| r in frames && Records(r, m.task, m.resume.effects, c.effects[j]);
      RetainedWasEmitted(w, p, r);
    }
  }

  ghost predicate IsEmitted(w: World, task: string, e: Recorded) {
    exists s, i :: s in w.emitted && 0 <= i < |w.emitted[s]| && w.emitted[s][i].task == Some(task)
      && w.emitted[s][i].body == Effect(e.effect, e.key, e.value)
  }

  lemma RetainedWasEmitted(w: World, p: Process, r: Report)
    requires MemoryOk(w, p) && IsRetained(p.held.retained, r)
    ensures r.body.Effect? && r.task.Some? ==>
            IsEmitted(w, r.task.value, Recorded(r.body.key, r.body.effect, r.body.value))
  {
    var k :| k in p.held.retained && p.held.retained[k] == r;
    assert IsOwed(w.emitted, w.acked, k);
    assert w.emitted[k.session][k.pos - 1] == r;
  }

  /** Nothing reached the server, and no connection was ever open. */
  ghost predicate Alone(w: World, emitted: Reports) {
    Reachable(w) && w.emitted == emitted && w.taken == map[] && w.acked == map[] && w.conns == []
  }

  lemma Starts(w: World, s: string, at: real) returns (u: World)
    requires Alone(w, w.emitted) && w.proc.None? && s !in w.emitted
    ensures Alone(u, w.emitted[s := []]) && u.proc.Some? && !u.proc.value.live && u.proc.value.inbox == []
    ensures u.proc.value.current == s
  {
    DeliveryProgress.Stays(w);
    u := DeliveryProgress.Then(w, w, Start(s, at));
    DeliveryProgress.ReachableOn(w, u);
    assert u == Started(w, s, at);
  }

  lemma EmitsAndDies(w: World, r: Report) returns (u: World)
    requires Alone(w, w.emitted) && w.proc.Some? && !w.proc.value.live && w.proc.value.current in w.emitted
    ensures var s := w.proc.value.current; Alone(u, w.emitted[s := w.emitted[s] + [r]]) && u.proc.None?
  {
    DeliveryProgress.Stays(w);
    var v := DeliveryProgress.Then(w, w, Emit(r));
    assert v == Emitted(w, w.proc.value, r);
    u := DeliveryProgress.Then(w, v, Crash(false));
    DeliveryProgress.ReachableOn(w, u);
  }

  /** A process emits a report, which never reaches the server, and is killed; another starts on the same file. */
  lemma DiesAndStarts(first: string, second: string, r: Report) returns (w: World)
    requires first != second
    ensures Alone(w, map[first := [r], second := []])
    ensures w.proc.Some? && !w.proc.value.live && w.proc.value.inbox == []
  {
    assert Legal(Begin(), []);
    w := Starts(Begin(), first, 0.0);
    w := EmitsAndDies(w, r);
    assert [] + [r] == [r] && w.emitted == map[first := [r]];
    w := Starts(w, second, 1.0);
  }

  lemma IsAssigned(w: World, task: string) returns (u: World)
    requires Alone(w, w.emitted) && w.proc.Some? && !w.proc.value.live && w.proc.value.inbox == []
    ensures Reachable(u) && u.emitted == w.emitted && u.taken == map[] && u.acked == map[]
    ensures u.proc.Some? && u.proc.value.inbox == [Assign(task, Resume([], 0), map[])]
  {
    DeliveryProgress.Stays(w);
    var v := DeliveryProgress.Then(w, w, Connect);
    var p, m := v.proc.value, Assign(task, Resume([], 0), map[]);
    u := DeliveryProgress.Then(w, v, AssignArrives(task, Resume([], 0)));
    assert Lengths(v.taken) == map[] && p.inbox + [m] == [m];
    DeliveryProgress.ReachableOn(w, u);
  }

  /** The resumed run replays the value that the dead process took, which the server's journal lacks. */
  lemma DeadValueIsReplayed(first: string, second: string, task: string, e: Recorded) returns (w: World)
    requires first != second && e.key != ""
    ensures Reachable(w) && w.taken == map[] && w.proc.Some?
    ensures w.proc.value.inbox == [Assign(task, Resume([], 0), map[])]
    ensures forall frames :: Lists(frames, w.proc.value.held.retained) ==>
              e in Complete(Resume([], 0), task, frames).effects
  {
    var r := Report(Some(task), None, Effect(e.effect, e.key, e.value));
    var v := DiesAndStarts(first, second, r);
    w := IsAssigned(v, task);
    var held := w.proc.value.held.retained;
    ReachableInv(w);
    assert IsOwed(w.emitted, w.acked, Key(first, 1)) && held[Key(first, 1)] == r;
    forall frames | Lists(frames, held) ensures e in Complete(Resume([], 0), task, frames).effects {
      IsReplayed(frames, held, Key(first, 1), task, e);
    }
  }

  lemma IsReplayed(frames: seq<Report>, held: map<Key, Report>, k: Key, task: string, e: Recorded)
    requires Lists(frames, held) && k in held && e.key != ""
    requires held[k] == Report(Some(task), None, Effect(e.effect, e.key, e.value))
    ensures e in Complete(Resume([], 0), task, frames).effects
  {
    ListsAre(frames, held);
    HeldEffectsAre(frames, task, []);
    CompleteEffects(Resume([], 0), task, frames);
    assert held[k] in frames && Unsent(held[k], task, []);
  }
}
