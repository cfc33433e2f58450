/** Whose Init lets a connection send. */
module Release {
  import opened Frames
  import opened Retention
  import opened Sender
  import opened Memory
  import opened Delivery
  import opened DeliveryProof

  function FirstInit(inbox: seq<Inbound>): Option<nat> {
    if inbox == [] then None
    else if inbox[0].Init? then Some(inbox[0].conn) else FirstInit(inbox[1..])
  }

  lemma {:induction false} FirstInitAppend(inbox: seq<Inbound>, m: Inbound)
    ensures FirstInit(inbox + [m]) ==
            if FirstInit(inbox).Some? then FirstInit(inbox) else if m.Init? then Some(m.conn) else None
  {
    if inbox == [] {
      assert inbox + [m] == [m] && [m][1..] == [];
    } else {
      assert (inbox + [m])[1..] == inbox[1..] + [m];
      FirstInitAppend(inbox[1..], m);
    }
  }

  lemma {:induction false} FirstInitIn(inbox: seq<Inbound>)
    ensures FirstInit(inbox).Some? <==> exists m <- inbox :: IsInit(m)
    ensures FirstInit(inbox).Some? ==> Init(FirstInit(inbox).value) in inbox
  {
    if inbox != [] {
      assert inbox[0] in inbox;
      if !inbox[0].Init? {
        FirstInitIn(inbox[1..]);
        assert inbox == [inbox[0]] + inbox[1..];
      }
    }
  }

  /** Waiting Inits are of connections opened so far; the first of them decides who releases. */
  ghost predicate ReleaseOk(p: Process, conns: nat) {
    && (forall m <- p.inbox :: m.Init? ==> m.conn < conns)
    && (p.live ==>
          && conns > 0
          && (p.releasedBy.Some? ==> (p.releasedBy.value == conns - 1 <==> !p.stale))
          && (p.releasedBy.None? && p.stale ==> FirstInit(p.inbox).Some? && FirstInit(p.inbox).value != conns - 1)
          && (p.releasedBy.None? && !p.stale ==> FirstInit(p.inbox) == None || FirstInit(p.inbox) == Some(conns - 1)))
  }

  ghost predicate ReleasesOk(w: World) {
    w.proc.Some? ==> ReleaseOk(w.proc.value, |w.conns|)
  }

  lemma AppendKeeps(p: Process, conns: nat, m: Inbound)
    requires ReleaseOk(p, conns) && p.live && (m.Init? ==> m.conn == conns - 1)
    ensures ReleaseOk(p.(inbox := p.inbox + [m]), conns)
  {
    FirstInitAppend(p.inbox, m);
  }

  lemma ConnectKeeps(w: World, p: Process)
    requires ReleaseOk(p, |w.conns|) && !p.live
    ensures ReleasesOk(Connected(w, p))
  {
    FirstInitIn(p.inbox);
  }

  lemma HandleKeeps(w: World, p: Process)
    requires ReleaseOk(p, |w.conns|) && p.inbox != [] && w.proc == Some(p)
    ensures ReleasesOk(ApplyUp(w, p, Handle))
  {
    match p.inbox[0]
    case Ack(s, pos) => AckReleases(w, p, s, pos);
    case Init(c) => InitReleases(p, |w.conns|, HandledInit(w, p, c).proc.value);
    case Assign(_, _, _) => TailReleases(p, |w.conns|, p.(inbox := p.inbox[1..]));
  }

  lemma AckReleases(w: World, p: Process, s: string, pos: nat)
    requires ReleaseOk(p, |w.conns|) && p.inbox != [] && p.inbox[0].Ack?
    ensures ReleasesOk(HandledAck(w, p, s, pos))
  {
    TailReleases(p, |w.conns|, HandledAck(w, p, s, pos).proc.value);
  }

  lemma InitReleases(p: Process, conns: nat, q: Process)
    requires ReleaseOk(p, conns) && p.inbox != [] && p.inbox[0].Init? && q.inbox == p.inbox[1..]
    requires q.live == p.live && q.stale == p.stale
    requires q.releasedBy == if p.live && p.releasedBy.None? then Some(p.inbox[0].conn) else p.releasedBy
    ensures ReleaseOk(q, conns)
  {
    assert p.inbox[0] in p.inbox && FirstInit(p.inbox) == Some(p.inbox[0].conn);
  }

  lemma TailReleases(p: Process, conns: nat, q: Process)
    requires ReleaseOk(p, conns) && p.inbox != [] && !p.inbox[0].Init? && q.inbox == p.inbox[1..]
    requires q.live == p.live && q.stale == p.stale && q.releasedBy == p.releasedBy
    ensures ReleaseOk(q, conns)
  {
    assert FirstInit(q.inbox) == FirstInit(p.inbox);
  }

  lemma StepReleases(w: World, p: Process, e: Event)
    requires ReleasesOk(w) && Enabled(w, e) && w.proc == Some(p) && !e.Start? && !e.Deliver? && !e.Lose?
    ensures ReleasesOk(ApplyUp(w, p, e))
  {
    match e
    case Connect => ConnectKeeps(w, p);
    case InitArrives => AppendKeeps(p, |w.conns|, Init(if |w.conns| > 0 then |w.conns| - 1 else 0));
    case AckArrives(s, pos) => AppendKeeps(p, |w.conns|, Ack(s, pos));
    case AssignArrives(t, r) => AppendKeeps(p, |w.conns|, Assign(t, r, Lengths(w.taken)));
    case Handle => HandleKeeps(w, p);
    case _ =>
  }

  lemma {:induction false} RunReleases(w: World, es: seq<Event>)
    requires ReleasesOk(w) && Legal(w, es)
    ensures ReleasesOk(Run(w, es))
    decreases |es|
  {
    if es != [] {
      if w.proc.Some? && !es[0].Start? && !es[0].Deliver? && !es[0].Lose? {
        StepReleases(w, w.proc.value, es[0]);
      }
      RunReleases(Apply(w, es[0]), es[1..]);
    }
  }

  /** Before an Init is handled nothing but the registration is sent; `stale` tells which Init released it. */
  lemma ReleasedUnlessStale(es: seq<Event>)
    requires Legal(Begin(), es)
    requires var w := Run(Begin(), es); w.proc.Some? && w.proc.value.live
    ensures var w := Run(Begin(), es);
      && w.conns != []
      && (w.proc.value.releasedBy.None? ==> LastLog(w.conns) == [])
      && (w.proc.value.releasedBy.Some? ==> (w.proc.value.releasedBy.value == |w.conns| - 1 <==> !w.proc.value.stale))
  {
    ReachableInv(Run(Begin(), es));
    RunReleases(Begin(), es);
  }

  /** Nothing is opened among `es`. */
  predicate OpensNone(es: seq<Event>) {
    forall e <- es :: !e.Connect?
  }

  /** A connection that is still up is the one that was, and `stale` says of it what it said. */
  ghost predicate Same(w: World, conns: nat, stale: bool) {
    w.proc.Some? && w.proc.value.live ==> |w.conns| == conns && w.proc.value.stale == stale
  }

  lemma StepSame(w: World, e: Event, conns: nat, stale: bool)
    requires Same(w, conns, stale) && Enabled(w, e) && !e.Connect?
    ensures Same(Apply(w, e), conns, stale)
  {
    if w.proc.Some? && !e.Deliver? && !e.Lose? { StepUpSame(w, w.proc.value, e, conns, stale); }
  }

  lemma StepUpSame(w: World, p: Process, e: Event, conns: nat, stale: bool)
    requires p.live ==> |w.conns| == conns && p.stale == stale
    requires Enabled(w, e) && w.proc == Some(p) && !e.Connect? && !e.Start? && !e.Deliver? && !e.Lose?
    ensures Same(ApplyUp(w, p, e), conns, stale)
  {
    assert |Cut(w.conns, p, true)| == |Cut(w.conns, p, false)| == |w.conns|;
  }

  lemma {:induction false} RunSame(w: World, es: seq<Event>, conns: nat, stale: bool)
    requires Same(w, conns, stale) && Legal(w, es) && OpensNone(es)
    ensures Same(Run(w, es), conns, stale)
    decreases |es|
  {
    if es != [] {
      assert es[0] in es && forall e <- es[1..] :: e in es;
      StepSame(w, es[0], conns, stale);
      RunSame(Apply(w, es[0]), es[1..], conns, stale);
    }
  }

  lemma {:induction false} RunConcat(w: World, es: seq<Event>, more: seq<Event>)
    requires Legal(w, es) && Legal(Run(w, es), more)
    ensures Legal(w, es + more) && Run(w, es + more) == Run(Run(w, es), more)
    decreases |es|
  {
    if es == [] {
      assert es + more == more;
    } else {
      assert (es + more)[0] == es[0] && (es + more)[1..] == es[1..] + more;
      RunConcat(Apply(w, es[0]), es[1..], more);
    }
  }

  ghost predicate InitWaits(w: World) {
    w.proc.Some? && exists m <- w.proc.value.inbox :: IsInit(m)
  }

  /**
   * After a run `es` a connection is opened, and after `more` it is still up. Before an Init is handled nothing but the
   * registration was sent on it. The Init that let it send is its own if and only if no Init, of an earlier connection,
   * was waiting to be handled when it was opened.
   */
  lemma ReleasedByOwnInit(es: seq<Event>, more: seq<Event>)
    requires Legal(Begin(), es) && Enabled(Run(Begin(), es), Connect)
    requires Legal(Apply(Run(Begin(), es), Connect), more) && OpensNone(more)
    requires var w := Run(Apply(Run(Begin(), es), Connect), more); w.proc.Some? && w.proc.value.live
    ensures var v, w := Run(Begin(), es), Run(Apply(Run(Begin(), es), Connect), more);
      && |w.conns| == |v.conns| + 1
      && (w.proc.value.releasedBy.None? ==> LastLog(w.conns) == [])
      && (w.proc.value.releasedBy.Some? ==> (w.proc.value.releasedBy.value == |v.conns| <==> !InitWaits(v)))
  {
    var v := Run(Begin(), es);
    var u := Apply(v, Connect);
    LegalConcat(Begin(), es, Connect);
    RunConcat(Begin(), es + [Connect], more);
    RunSame(u, more, |v.conns| + 1, InitWaits(v));
    ReleasedUnlessStale(es + [Connect] + more);
  }

  lemma {:induction false} LegalConcat(w: World, es: seq<Event>, e: Event)
    requires Legal(w, es) && Enabled(Run(w, es), e)
    ensures Legal(w, es + [e]) && Run(w, es + [e]) == Apply(Run(w, es), e)
    decreases |es|
  {
    if es == [] {
      assert es + [e] == [e];
    } else {
      assert (es + [e])[1..] == es[1..] + [e];
      LegalConcat(Apply(w, es[0]), es[1..], e);
    }
  }

  lemma ReachableStep(w: World, e: Event)
    requires Reachable(w) && Enabled(w, e)
    ensures Reachable(Apply(w, e))
  {
    var es :| Legal(Begin(), es) && Run(Begin(), es) == w;
    LegalConcat(Begin(), es, e);
  }

  /** A running process with nothing retained. */
  ghost predicate Looks(w: World, conns: seq<Conn>, inbox: seq<Inbound>, pipe: Pipe, live: bool, init: Option<nat>) {
    && Reachable(w) && w.conns == conns && w.proc.Some? && w.proc.value.held.retained == map[]
    && w.proc.value.inbox == inbox && w.proc.value.pipe == pipe && w.proc.value.live == live
          && w.proc.value.releasedBy == init
  }

  lemma StartLooks(session: string, at: real) returns (w: World)
    ensures Looks(w, [], [], Pipe([], None, None), false, None)
  {
    assert Legal(Begin(), []) && Run(Begin(), []) == Begin();
    assert Owed(Begin().store) == {};
    ReachableStep(Begin(), Start(session, at));
    w := Started(Begin(), session, at);
  }

  lemma ConnectLooks(w: World, conns: seq<Conn>, inbox: seq<Inbound>) returns (u: World)
    requires Looks(w, conns, inbox, Pipe([], None, None), false, None)
    ensures Looks(u, conns + [Conn([], 0)], inbox, Pipe([], None, None), true, None)
  {
    ReachableStep(w, Connect);
    u := Connected(w, w.proc.value);
  }

  lemma DropLooks(w: World, conns: seq<Conn>) returns (u: World)
    requires conns != [] && Looks(w, conns, [], Pipe([], None, None), true, None)
    ensures Looks(u, conns, [Init(|conns| - 1)], Pipe([], None, None), false, None)
  {
    ReachableStep(w, InitArrives);
    var v := Apply(w, InitArrives);
    assert v.proc.value.inbox == [Init(|conns| - 1)];
    ReachableStep(v, Drop(false));
    u := Apply(v, Drop(false));
  }

  lemma HandleLooks(w: World, conns: seq<Conn>, c: nat) returns (u: World)
    requires Looks(w, conns, [Init(c)], Pipe([], None, None), true, None)
    ensures Looks(u, conns, [], Pipe([], None, None), true, Some(c))
  {
    ReachableStep(w, Handle);
    assert Resent(w.proc.value.held) == [];
    u := HandledInit(w, w.proc.value, c);
  }

  lemma SendLooks(w: World, conns: seq<Conn>, c: nat, text: string) returns (u: World)
    requires conns != [] && Looks(w, conns, [], Pipe([], None, None), true, Some(c))
    ensures Looks(u, Wire(conns, Plain(text)), [], Pipe([], None, None), true, Some(c))
  {
    ReachableStep(w, EmitPlain(text));
    var v := Apply(w, EmitPlain(text));
    assert v.proc.value.pipe == Pipe([Plain(text)], None, None);
    u := TakeAndSend(v, conns, c, text);
  }

  lemma TakeAndSend(w: World, conns: seq<Conn>, c: nat, text: string) returns (u: World)
    requires conns != [] && Looks(w, conns, [], Pipe([Plain(text)], None, None), true, Some(c))
    ensures Looks(u, Wire(conns, Plain(text)), [], Pipe([], None, None), true, Some(c))
  {
    ReachableStep(w, Take);
    var v := Apply(w, Take);
    assert v.proc.value.pipe == Pipe([], None, Some(Plain(text)));
    ReachableStep(v, Done);
    u := Apply(v, Done);
  }

  /**
   * The first connection drops before its Init is handled; that Init lets the second
   * connection send a frame, though the second connection's own never came.
   */
  lemma SentBeforeInit(session: string, at: real, text: string) returns (w: World)
    ensures Reachable(w) && |w.conns| == 2 && w.conns[1].log == [Plain(text)]
    ensures w.proc.Some? && w.proc.value.releasedBy == Some(0) && w.proc.value.inbox == []
  {
    w := StartLooks(session, at);
    w := ConnectLooks(w, [], []);
    w := DropLooks(w, [Conn([], 0)]);
    w := ConnectLooks(w, [Conn([], 0)], [Init(0)]);
    w := HandleLooks(w, [Conn([], 0), Conn([], 0)], 0);
    w := SendLooks(w, [Conn([], 0), Conn([], 0)], 0, text);
  }
}
