/** Delivery can always complete, and what the faults can do that it completes in spite of. */
module DeliveryProgress {
  import opened Frames
  import opened Retention
  import opened Sender
  import opened Memory
  import opened Bookkeeping
  import opened Delivery
  import opened DeliveryProof
  import Release

  /** Some run leads from one state to another. */
  ghost predicate Leads(w: World, u: World) {
    exists es :: Legal(w, es) && Run(w, es) == u
  }

  lemma Stays(w: World)
    ensures Leads(w, w)
  {
    assert Legal(w, []) && Run(w, []) == w;
  }

  lemma Then(w: World, v: World, e: Event) returns (u: World)
    requires Leads(w, v) && Enabled(v, e)
    ensures Leads(w, u) && u == Apply(v, e)
  {
    var es :| Legal(w, es) && Run(w, es) == v;
    Release.LegalConcat(w, es, e);
    u := Apply(v, e);
    assert Legal(w, es + [e]);
  }

  lemma LeadsOn(w: World, v: World, u: World)
    requires Leads(w, v) && Leads(v, u)
    ensures Leads(w, u)
  {
    var es :| Legal(w, es) && Run(w, es) == v;
    var more :| Legal(v, more) && Run(v, more) == u;
    Release.RunConcat(w, es, more);
    assert Legal(w, es + more);
  }

  lemma ReachableOn(w: World, u: World)
    requires Reachable(w) && Leads(w, u)
    ensures Reachable(u)
  {
    var es :| Legal(Begin(), es) && Run(Begin(), es) == w;
    assert Leads(Begin(), w);
    LeadsOn(Begin(), w, u);
  }

  // ------------------------------------------------------------------ a process, and its inbox

  /** A text that is longer than all of these is none of them. */
  lemma Another(some: set<string>) returns (s: string)
    ensures s !in some
  {
    var longest: nat := 0;
    var rest := some;
    while rest != {}
      invariant rest <= some && forall t <- some - rest :: |t| <= longest
      decreases |rest|
    {
      var t :| t in rest;
      rest, longest := rest - {t}, if |t| > longest then |t| else longest;
    }
    assert some - rest == some;
    s := seq(longest + 1, _ => 'x');
    assert |s| == longest + 1;
  }

  /** A process runs, and no connection is open. */
  lemma Up(w: World) returns (u: World)
    ensures Leads(w, u) && u.proc.Some? && !u.proc.value.live
    ensures forall s <- w.emitted :: s in u.emitted && u.emitted[s] == w.emitted[s]
  {
    Stays(w);
    if w.proc.None? {
      var s := Another(w.emitted.Keys);
      u := Then(w, w, Start(s, 0.0));
    } else if w.proc.value.live {
      u := Then(w, w, Drop(false));
    } else {
      u := w;
    }
  }

  lemma Handled(w: World)
    requires w.proc.Some? && w.proc.value.inbox != []
    ensures var u := Apply(w, Handle);
      && u.proc.Some? && u.proc.value.inbox == w.proc.value.inbox[1..] && u.proc.value.live == w.proc.value.live
      && u.emitted == w.emitted && u.conns == w.conns && u.taken == w.taken
  {
    var p := w.proc.value;
    assert Apply(w, Handle) == ApplyUp(w, p, Handle);
    match p.inbox[0]
    case Ack(s, pos) => assert ApplyUp(w, p, Handle) == HandledAck(w, p, s, pos);
    case Init(c) => assert ApplyUp(w, p, Handle) == HandledInit(w, p, c);
    case Assign(_, _, _) =>
  }

  /** What waits in the inbox is handled. */
  lemma {:induction false} InboxDrains(w: World) returns (u: World)
    requires w.proc.Some? && !w.proc.value.live
    ensures Leads(w, u) && u.proc.Some? && !u.proc.value.live && u.proc.value.inbox == []
    ensures u.emitted == w.emitted
    decreases |w.proc.value.inbox|
  {
    Stays(w);
    if w.proc.value.inbox == [] {
      u := w;
    } else {
      Handled(w);
      var v := Then(w, w, Handle);
      u := InboxDrains(v);
      LeadsOn(w, v, u);
    }
  }

  // ------------------------------------------------------------------ a released connection

  ghost predicate Ready(w: World) {
    Released(w) && w.conns != [] && w.proc.value.inbox == []
  }

  /** A connection is opened and its Init is handled. */
  lemma Opens(w: World) returns (u: World)
    requires w.proc.Some? && !w.proc.value.live && w.proc.value.inbox == []
    ensures Leads(w, u) && Ready(u) && u.emitted == w.emitted
  {
    Stays(w);
    u := Then(w, w, Connect);
    u := Then(w, u, InitArrives);
    u := Then(w, u, Handle);
  }

  lemma Takes(w: World) returns (u: World)
    requires Ready(w) && CanTake(w.proc.value.pipe)
    ensures Leads(w, u) && Ready(u) && u.emitted == w.emitted && u.proc.value.pipe == Took(w.proc.value.pipe)
  {
    Stays(w);
    u := Then(w, w, Take);
    assert u == ApplyUp(w, w.proc.value, Take);
  }

  lemma Finishes(w: World) returns (u: World)
    requires Ready(w) && w.proc.value.pipe.inFlight.Some?
    ensures Leads(w, u) && Ready(u) && u.emitted == w.emitted
    ensures u.proc.value.pipe == Sent(w.proc.value.pipe)
  {
    Stays(w);
    u := Then(w, w, Done);
    assert u == ApplyUp(w, w.proc.value, Done);
  }

  lemma SendsOne(w: World) returns (u: World)
    requires Ready(w) && Line(w.proc.value.pipe) != [] && Single(w.proc.value.pipe)
    ensures Leads(w, u) && Ready(u) && Single(u.proc.value.pipe) && u.emitted == w.emitted
    ensures |Line(u.proc.value.pipe)| == |Line(w.proc.value.pipe)| - 1
  {
    Stays(w);
    LineMoves(w.proc.value.pipe);
    var v := w;
    if w.proc.value.pipe.inFlight.None? { v := Takes(w); }
    LineMoves(v.proc.value.pipe);
    u := Finishes(v);
    LeadsOn(w, v, u);
  }

  /** Everything in the line is sent. */
  lemma {:induction false} SendsAll(w: World) returns (u: World)
    requires Ready(w) && Single(w.proc.value.pipe)
    ensures Leads(w, u) && Ready(u) && Line(u.proc.value.pipe) == [] && u.emitted == w.emitted
    decreases |Line(w.proc.value.pipe)|
  {
    Stays(w);
    if Line(w.proc.value.pipe) == [] {
      u := w;
    } else {
      var v := SendsOne(w);
      u := SendsAll(v);
      LeadsOn(w, v, u);
    }
  }

  ghost predicate LineSent(w: World) {
    Ready(w) && Line(w.proc.value.pipe) == []
  }

  lemma ArrivalTouches(w: World, c: nat)
    requires c < |w.conns| && w.conns[c].delivered < |w.conns[c].log|
    ensures var u := Delivered(w, c);
      && u.proc == w.proc && u.emitted == w.emitted
      && u.conns == w.conns[c := w.conns[c].(delivered := w.conns[c].delivered + 1)]
  {
  }

  lemma OneArrives(w: World) returns (u: World)
    requires LineSent(w) && w.conns[|w.conns| - 1].delivered < |w.conns[|w.conns| - 1].log|
    ensures Leads(w, u) && LineSent(u) && u.emitted == w.emitted && |u.conns| == |w.conns|
    ensures var c := w.conns[|w.conns| - 1]; u.conns[|w.conns| - 1] == c.(delivered := c.delivered + 1)
  {
    Stays(w);
    ArrivalTouches(w, |w.conns| - 1);
    u := Then(w, w, Deliver(|w.conns| - 1));
  }

  /** Everything on the wire arrives. */
  lemma {:induction false} AllArrives(w: World) returns (u: World)
    requires LineSent(w) && w.conns[|w.conns| - 1].delivered <= |w.conns[|w.conns| - 1].log|
    ensures Leads(w, u) && LineSent(u) && u.emitted == w.emitted
    ensures u.conns[|u.conns| - 1].delivered == |u.conns[|u.conns| - 1].log|
    decreases |w.conns[|w.conns| - 1].log| - w.conns[|w.conns| - 1].delivered
  {
    Stays(w);
    var n := |w.conns| - 1;
    if w.conns[n].delivered == |w.conns[n].log| {
      u := w;
    } else {
      var v := OneArrives(w);
      u := AllArrives(v);
      LeadsOn(w, v, u);
    }
  }

  // ------------------------------------------------------------------ acknowledgements

  /** The server has all reports. */
  ghost predicate AllTaken(w: World) {
    forall s <- w.emitted :: At(w.taken, s) == w.emitted[s]
  }

  function Unacked(w: World): set<string> {
    set s | s in w.emitted && Get(w.acked, s, 0) < |w.emitted[s]|
  }

  lemma AcksOne(w: World, s: string) returns (u: World)
    requires Ready(w) && AllTaken(w) && s in Unacked(w)
    ensures Leads(w, u) && Ready(u) && AllTaken(u) && u.emitted == w.emitted && Unacked(u) == Unacked(w) - {s}
  {
    Stays(w);
    u := Then(w, w, AckArrives(s, |w.emitted[s]|));
    u := Then(w, u, Handle);
    assert u.acked == Raised(w.acked, s, |w.emitted[s]|);
  }

  lemma {:induction false} AcksAll(w: World) returns (u: World)
    requires Ready(w) && AllTaken(w)
    ensures Leads(w, u) && Ready(u) && AllTaken(u) && u.emitted == w.emitted && Unacked(u) == {}
    decreases |Unacked(w)|
  {
    Stays(w);
    if Unacked(w) == {} {
      u := w;
    } else {
      var s :| s in Unacked(w);
      var v := AcksOne(w, s);
      u := AcksAll(v);
      LeadsOn(w, v, u);
    }
  }

  lemma NothingOwed(w: World)
    requires Reachable(w) && w.proc.Some? && Unacked(w) == {}
    ensures w.store.journal == map[] && w.proc.value.held.retained == map[]
  {
    ReachableInv(w);
    forall k: Key ensures k !in w.store.journal {
      assert IsOwed(w.emitted, w.acked, k) ==> k.session in Unacked(w);
    }
    assert w.store.journal.Keys == {};
  }

  lemma SendingCompletes(w: World) returns (u: World)
    requires Reachable(w) && Ready(w)
    ensures Leads(w, u) && Ready(u) && AllTaken(u) && u.emitted == w.emitted
  {
    ReachableInv(w);
    var v := SendsAll(w);
    ReachableOn(w, v);
    ReachableInv(v);
    var n := |v.conns| - 1;
    assert ConnOk(v.emitted, v.taken, v.conns[n], Tail(v, n));
    u := AllArrives(v);
    LeadsOn(w, v, u);
    ReachableOn(w, u);
    forall s | s in u.emitted ensures At(u.taken, s) == u.emitted[s] { AllDelivered(u, s); }
  }

  /**
   * From every state that any run reaches, whatever was dropped, lost or killed on the way, some continuation brings
   * every report that was emitted to the server and its acknowledgement back, so that nothing is owed any more.
   */
  lemma CanComplete(w: World) returns (u: World)
    requires Reachable(w)
    ensures Leads(w, u) && u.proc.Some?
    ensures forall s <- w.emitted :: s in u.emitted && u.emitted[s] == w.emitted[s] == At(u.taken, s)
    ensures u.store.journal == map[] && u.proc.value.held.retained == map[]
  {
    var a := Up(w);
    var b := InboxDrains(a);
    LeadsOn(w, a, b);
    var c := Opens(b);
    LeadsOn(w, b, c);
    ReachableOn(w, c);
    var d := SendingCompletes(c);
    LeadsOn(w, c, d);
    u := AcksAll(d);
    LeadsOn(w, d, u);
    ReachableOn(w, u);
    NothingOwed(u);
  }

  // ------------------------------------------------------------------ numbering

  /** A session that is minted is the current one, and gives its positions from the first. */
  lemma MintedIsCurrent(w: World, s: string, at: real)
    requires w.proc.Some? && s !in w.emitted
    ensures var u, p := Apply(w, Mint(s, at)), w.proc.value;
      && u.proc.Some? && u.proc.value.current == s && u.emitted == w.emitted[s := []]
      && u.proc.value.pipe == p.pipe && u.proc.value.inbox == p.inbox && u.proc.value.live == p.live
  {
    assert Apply(w, Mint(s, at)) == ApplyUp(w, w.proc.value, Mint(s, at));
  }

  /** A report is the current session's next: it is kept under that position in the file and put at the line's end. */
  lemma NumberedInTurn(w: World, r: Report)
    requires Reachable(w) && w.proc.Some?
    ensures var u, p := Apply(w, Emit(r)), w.proc.value;
      && p.current in w.emitted
      && var k := Key(p.current, |w.emitted[p.current]| + 1);
         && u.emitted == w.emitted[p.current := w.emitted[p.current] + [r]]
         && u.store.journal == w.store.journal[k := r]
         && u.proc.Some? && u.proc.value.pipe == p.pipe.(queue := p.pipe.queue + [Numbered(k, r)])
  {
    ReachableInv(w);
    var p := w.proc.value;
    assert Apply(w, Emit(r)) == Emitted(w, p, r);
    RetainedIs(Kept(p.held, w.store), true, NextKey(w, p), r, 0.0);
  }

  /** A duplicate Assign puts the frames of the task's retained ends at the line's end, in order. */
  lemma EndsAreSentAgain(w: World, task: string) returns (keys: seq<Key>)
    requires w.proc.Some?
    ensures var u, p := Apply(w, ResendReports(task)), w.proc.value;
      && (forall k: Key :: k in keys <==> k in p.held.retained && p.held.retained[k].Ends(task))
      && Sorted(p.held.created, keys)
      && u == w.(proc := Some(p.(pipe := p.pipe.(queue := p.pipe.queue + FramesOf(p.held, keys)))))
  {
    keys := EndReportsAre(w.proc.value.held, task);
    assert Apply(w, ResendReports(task)) == ApplyUp(w, w.proc.value, ResendReports(task));
  }

  // ------------------------------------------------------------------ the faults

  /** A frame whose send is cut off is on the wire or not, and in either case it is the next to be sent. */
  lemma CutOff(w: World, f: Frame, arrived: bool)
    requires w.proc.Some? && w.proc.value.live && w.proc.value.pipe.inFlight == Some(f) && w.conns != []
    ensures Enabled(w, Drop(arrived))
    ensures var u, p := Apply(w, Drop(arrived)), w.proc.value;
      && LastLog(u.conns) == LastLog(w.conns) + (if arrived then [f] else [])
      && u.proc == Some(p.(live := false, pipe := Pipe(p.pipe.queue, Some(f), None)))
  {
    assert Apply(w, Drop(arrived)) == ApplyUp(w, w.proc.value, Drop(arrived));
  }

  /** So it is when the process is killed, of which the file is left. */
  lemma Killed(w: World, f: Frame, arrived: bool)
    requires w.proc.Some? && w.proc.value.live && w.proc.value.pipe.inFlight == Some(f) && w.conns != []
    ensures Enabled(w, Crash(arrived))
    ensures var u := Apply(w, Crash(arrived));
      && LastLog(u.conns) == LastLog(w.conns) + (if arrived then [f] else [])
      && u.proc == None && u.store == w.store && u.emitted == w.emitted && u.taken == w.taken
  {
    assert Apply(w, Crash(arrived)) == ApplyUp(w, w.proc.value, Crash(arrived));
  }

  /** Of a connection that is not live, any end of what has not arrived may be lost. */
  lemma AnyEndIsLost(w: World, c: nat, n: nat)
    requires c < |w.conns| && w.conns[c].delivered <= n <= |w.conns[c].log|
    requires w.proc.Some? && w.proc.value.live ==> c != |w.conns| - 1
    ensures Enabled(w, Lose(c, n))
    ensures Apply(w, Lose(c, n)) == w.(conns := w.conns[c := Conn(w.conns[c].log[..n], w.conns[c].delivered)])
  {
  }
}
