/** The order of numbered frames on one connection, and when a connection starts to send. */
module WireOrder {
  import opened Frames
  import opened Sender
  import opened Memory
  import opened Delivery
  import opened DeliveryProof

  /** A numbered frame is a repetition, or comes after every key before it. */
  ghost predicate Rising(created: map<string, real>, xs: seq<Frame>) {
    forall j :: 0 <= j < |xs| && xs[j].Numbered? ==> HasKey(xs[..j], xs[j].key) || Above(created, xs[..j], xs[j].key)
  }

  ghost predicate Above(created: map<string, real>, xs: seq<Frame>, k: Key) {
    forall i :: 0 <= i < |xs| && xs[i].Numbered? ==> Before(created, xs[i].key, k)
  }

  lemma RisingPrefix(created: map<string, real>, xs: seq<Frame>, ys: seq<Frame>)
    requires Rising(created, xs) && ys <= xs
    ensures Rising(created, ys)
  {
    forall j | 0 <= j < |ys| ensures ys[j] == xs[j] && ys[..j] == xs[..j] {}
  }

  lemma RisingConcat(created: map<string, real>, xs: seq<Frame>, ys: seq<Frame>)
    requires Rising(created, xs)
    requires forall j :: 0 <= j < |ys| && ys[j].Numbered? ==>
      HasKey(xs + ys[..j], ys[j].key) || Above(created, xs + ys[..j], ys[j].key)
    ensures Rising(created, xs + ys)
  {
    var zs := xs + ys;
    forall j | 0 <= j < |zs| && zs[j].Numbered?
      ensures HasKey(zs[..j], zs[j].key) || Above(created, zs[..j], zs[j].key)
    {
      if j < |xs| {
        assert zs[..j] == xs[..j];
      } else {
        assert zs[..j] == xs + ys[..j - |xs|];
      }
    }
  }

  /** Frames already there, and plain ones, keep the order. */
  lemma RisingAgain(created: map<string, real>, xs: seq<Frame>, fs: seq<Frame>)
    requires Rising(created, xs) && forall f <- fs :: f.Numbered? ==> HasKey(xs, f.key)
    ensures Rising(created, xs + fs)
  {
    forall j | 0 <= j < |fs| && fs[j].Numbered? ensures HasKey(xs + fs[..j], fs[j].key) {
      assert fs[j] in fs;
      HasKeyAppend(xs, fs[..j], fs[j].key);
    }
    RisingConcat(created, xs, fs);
  }

  /** The order of known sessions does not change when another is created. */
  lemma RisingGrows(created: map<string, real>, more: map<string, real>, xs: seq<Frame>)
    requires Rising(created, xs) && forall s <- created :: s in more && more[s] == created[s]
    requires forall f <- xs :: f.Numbered? ==> f.key.session in created
    ensures Rising(more, xs)
  {
    forall j | 0 <= j < |xs| && xs[j].Numbered? ensures HasKey(xs[..j], xs[j].key) || Above(more, xs[..j], xs[j].key) {
      assert xs[j] in xs;
      forall i | 0 <= i < j && xs[i].Numbered?
        ensures Before(created, xs[i].key, xs[j].key) <==> Before(more, xs[i].key, xs[j].key)
      {
        assert xs[i] in xs;
      }
    }
  }

  /** A frame that was to be sent comes after everything sent before it. */
  lemma AboveFromLine(created: map<string, real>, sent: seq<Frame>, all: seq<Frame>, k: Key)
    requires Rising(created, all) && sent <= all && HasKey(all, k)
    ensures HasKey(sent, k) || Above(created, sent, k)
  {
    if !HasKey(sent, k) {
      var j := FirstWith(all, k);
      assert forall i :: 0 <= i < |sent| ==> sent[i] == all[i];
      assert j >= |sent|;
      assert !HasKey(all[..j], k);
      assert Above(created, all[..j], k);
      forall i | 0 <= i < |sent| && sent[i].Numbered? ensures Before(created, sent[i].key, k) {
        assert all[..j][i] == sent[i];
      }
    }
  }

  ghost function FirstWith(xs: seq<Frame>, k: Key): (j: nat)
    requires HasKey(xs, k)
    ensures j < |xs| && xs[j].Numbered? && xs[j].key == k
    ensures forall i :: 0 <= i < j ==> !(xs[i].Numbered? && xs[i].key == k)
  {
    if xs[0].Numbered? && xs[0].key == k then 0 else
      assert HasKey(xs[1..], k) by {
        var i :| 0 <= i < |xs| && xs[i].Numbered? && xs[i].key == k;
        assert xs[1..][i - 1] == xs[i];
      }
      1 + FirstWith(xs[1..], k)
  }

  /** A retained frame that was not sent comes after all that was, and after those re-sent before it. */
  lemma ResentAbove(created: map<string, real>, sent: seq<Frame>, plain: seq<Frame>, held: Held, j: nat)
    requires j < |Resent(held)| && Above(created, sent, Order(held)[j]) && forall f <- plain :: f.Plain?
    requires forall k <- held.retained :: Get(created, k.session, 0.0) == Get(held.created, k.session, 0.0)
    ensures Above(created, sent + plain + Resent(held)[..j], Order(held)[j])
  {
    var keys, xs := Order(held), sent + plain;
    var ys, k := xs + Resent(held)[..j], keys[j];
    assert k in keys;
    forall i | |sent| <= i < |xs| ensures ys[i].Plain? {
      assert ys[i] == plain[i - |sent|] && plain[i - |sent|] in plain;
    }
    forall i | 0 <= i < |ys| && ys[i].Numbered? ensures Before(created, ys[i].key, k) {
      if i < |sent| {
        assert ys[i] == sent[i];
      } else {
        assert i >= |xs|;
        var other := keys[i - |xs|];
        assert ys[i].key == other && other in keys;
        assert Before(held.created, other, k);
      }
    }
  }

  /** The retained frames in their order, put behind what was sent: still rising. */
  lemma RisingResent(created: map<string, real>, sent: seq<Frame>, plain: seq<Frame>, held: Held)
    requires Rising(created, sent) && forall f <- plain :: f.Plain?
    requires forall k <- held.retained :: Get(created, k.session, 0.0) == Get(held.created, k.session, 0.0)
    requires forall k <- held.retained :: HasKey(sent, k) || Above(created, sent, k)
    ensures Rising(created, sent + plain + Resent(held))
  {
    RisingAgain(created, sent, plain);
    var fs, xs := Resent(held), sent + plain;
    forall j | 0 <= j < |fs| ensures HasKey(xs + fs[..j], fs[j].key) || Above(created, xs + fs[..j], fs[j].key) {
      var k := Order(held)[j];
      assert k in Order(held) && fs[j].key == k;
      if HasKey(sent, k) {
        HasKeyAppend(sent, plain, k);
        HasKeyAppend(xs, fs[..j], k);
      } else {
        ResentAbove(created, sent, plain, held, j);
      }
    }
    RisingConcat(created, xs, fs);
  }

  // ------------------------------------------------------------------ in every run

  /** A session is created later than every one before it. */
  predicate Timely(w: World, e: Event) {
    e.Start? || e.Mint? ==> forall s <- w.createdAt :: w.createdAt[s] < e.at
  }

  ghost predicate TimelyRun(w: World, es: seq<Event>)
    requires Legal(w, es)
    decreases |es|
  {
    es == [] || (Timely(w, es[0]) && TimelyRun(Apply(w, es[0]), es[1..]))
  }

  ghost predicate CurrentIsLatest(w: World) {
    w.proc.Some? ==>
      var current := w.proc.value.current;
      forall s <- w.createdAt :: s == current || w.createdAt[s] < Get(w.createdAt, current, 0.0)
  }

  /** What the released connection sent, and will send. */
  function Course(w: World): seq<Frame> {
    if Released(w) then LastLog(w.conns) + Line(w.proc.value.pipe) else []
  }

  ghost predicate Ordered(w: World) {
    && CurrentIsLatest(w)
    && (forall c <- w.conns :: Rising(w.createdAt, c.log))
    && Rising(w.createdAt, Course(w))
  }

  /** A new frame comes after everything on its way. */
  lemma EmitAbove(w: World, p: Process)
    requires Inv(w) && CurrentIsLatest(w) && w.proc == Some(p) && Released(w)
    ensures Above(w.createdAt, Course(w), NextKey(w, p))
  {
    var xs, k := Course(w), NextKey(w, p);
    forall i | 0 <= i < |xs| && xs[i].Numbered? ensures Before(w.createdAt, xs[i].key, k) {
      CourseGenuine(w, xs[i]);
    }
  }

  lemma EmitOrdered(w: World, p: Process, r: Report)
    requires Inv(w) && Ordered(w) && w.proc == Some(p)
    ensures Ordered(Emitted(w, p, r))
  {
    var u := Emitted(w, p, r);
    if Released(w) {
      var xs, fs := Course(w), [Numbered(NextKey(w, p), r)];
      assert p.pipe.queue + fs == PutAll(p.pipe, fs).queue;
      LineOfPut(p.pipe, fs);
      Assoc(LastLog(w.conns), Line(p.pipe), fs);
      assert Course(u) == xs + fs;
      EmitAbove(w, p);
      assert xs + fs[..0] == xs;
      RisingConcat(w.createdAt, xs, fs);
    }
  }

  lemma CourseGenuine(w: World, f: Frame)
    requires Inv(w) && f in Course(w)
    ensures Genuine(w.emitted, f) && (f.Numbered? ==> f.key.session in w.createdAt)
  {
    var n := |w.conns| - 1;
    assert ConnOk(w.emitted, w.taken, w.conns[n], Tail(w, n));
  }

  /** What is retained is already on its way. */
  lemma CourseHas(w: World, p: Process, k: Key)
    requires PipeOk(w, p) && w.proc == Some(p) && Released(w) && k in p.held.retained
    ensures HasKey(Course(w), k)
  {
    assert OnTheWay(p.held, LastLog(w.conns) + Line(p.pipe));
  }

  lemma ResendOrdered(w: World, p: Process, fs: seq<Frame>)
    requires PipeOk(w, p) && Ordered(w) && w.proc == Some(p)
    requires forall f <- fs :: f.Numbered? ==> f.key in p.held.retained
    ensures Ordered(w.(proc := Some(p.(pipe := PutAll(p.pipe, fs)))))
  {
    if Released(w) {
      forall f | f in fs && f.Numbered? ensures HasKey(Course(w), f.key) {
        CourseHas(w, p, f.key);
      }
      RisingAgain(w.createdAt, Course(w), fs);
      LineOfPut(p.pipe, fs);
      Assoc(LastLog(w.conns), Line(p.pipe), fs);
    }
    PutCourse(w, p, PutAll(p.pipe, fs));
  }

  lemma PutCourse(w: World, p: Process, q: Pipe)
    requires Ordered(w) && w.proc == Some(p)
    requires Released(w) ==> Rising(w.createdAt, LastLog(w.conns) + Line(q))
    ensures Ordered(w.(proc := Some(p.(pipe := q))))
  {
  }

  lemma MintOrdered(w: World, u: World, s: string, at: real)
    requires Inv(w) && Ordered(w) && Timely(w, Mint(s, at)) && s !in w.emitted
    requires u.createdAt == w.createdAt[s := at] && u.conns == w.conns && Course(u) == Course(w)
    requires u.proc.Some? && u.proc.value.current == s
    ensures Ordered(u)
  {
    forall f | f in Course(w) && f.Numbered? ensures f.key.session in w.createdAt {
      CourseGenuine(w, f);
    }
    RisingGrows(w.createdAt, u.createdAt, Course(w));
    forall c | c in w.conns ensures Rising(u.createdAt, c.log) {
      var i :| 0 <= i < |w.conns| && w.conns[i] == c;
      assert ConnOk(w.emitted, w.taken, w.conns[i], Tail(w, i));
      RisingGrows(w.createdAt, u.createdAt, c.log);
    }
  }

  lemma RelinedRises(created: map<string, real>, all: seq<Frame>, sent: seq<Frame>, plain: seq<Frame>, held: Held)
    requires Rising(created, all) && sent <= all && forall f <- plain :: f.Plain?
    requires sent == [] || OnTheWay(held, all)
    requires forall k <- held.retained :: Get(created, k.session, 0.0) == Get(held.created, k.session, 0.0)
    ensures Rising(created, sent + plain + Resent(held))
  {
    RisingPrefix(created, all, sent);
    if sent != [] {
      forall k | k in held.retained ensures HasKey(sent, k) || Above(created, sent, k) {
        AboveFromLine(created, sent, all, k);
      }
    }
    RisingResent(created, sent, plain, held);
  }

  /** The line an Init leaves: what was in it and retained comes again, in order. */
  lemma InitRises(created: map<string, real>, log: seq<Frame>, p: Pipe, held: Held, all: seq<Frame>)
    requires Single(p) && Rising(created, all) && log + One(p.inFlight) <= all
    requires log + One(p.inFlight) == [] || OnTheWay(held, all)
    requires forall k <- held.retained :: Get(created, k.session, 0.0) == Get(held.created, k.session, 0.0)
    ensures Rising(created, log + Line(AfterInit(p, held)))
  {
    var sent, plain := log + One(p.inFlight), One(Discarded(p).held) + Plains(p.queue);
    PlainsOnly(p.queue);
    RelinedRises(created, all, sent, plain, held);
    LineAfterInit(p, held);
    Assoc4(log, One(p.inFlight), plain, Resent(held));
  }

  lemma Assoc4(a: seq<Frame>, b: seq<Frame>, c: seq<Frame>, d: seq<Frame>)
    ensures a + (b + c + d) == (a + b) + c + d
  {
  }

  lemma TimesAgree(w: World, p: Process)
    requires MemoryOk(w, p)
    ensures forall k <- p.held.retained :: Get(w.createdAt, k.session, 0.0) == Get(p.held.created, k.session, 0.0)
  {
  }

  lemma InitOrdered(w: World, p: Process, c: nat)
    requires MemoryOk(w, p) && PipeOk(w, p) && Ordered(w) && w.proc == Some(p) && p.inbox != []
    ensures Ordered(HandledInit(w, p, c))
  {
    if p.live {
      TimesAgree(w, p);
      CourseStart(w, p);
      InitRises(w.createdAt, LastLog(w.conns), p.pipe, p.held, Course(w));
    }
  }

  lemma CourseStart(w: World, p: Process)
    requires PipeOk(w, p) && w.proc == Some(p) && p.live
    ensures LastLog(w.conns) + One(p.pipe.inFlight) <= Course(w)
  {
    if p.releasedBy.Some? {
      assert One(p.pipe.inFlight) <= Line(p.pipe);
      assert Course(w) == LastLog(w.conns) + Line(p.pipe);
    }
  }

  /** Cutting or finishing a send puts at most the first frame of the line on the wire. */
  lemma CutOrdered(w: World, p: Process, arrived: bool)
    requires PipeOk(w, p) && Ordered(w) && w.proc == Some(p)
    ensures forall c <- Cut(w.conns, p, arrived) :: Rising(w.createdAt, c.log)
  {
    if p.live && arrived && p.pipe.inFlight.Some? {
      var log := LastLog(w.conns) + [p.pipe.inFlight.value];
      assert log <= Course(w);
      RisingPrefix(w.createdAt, Course(w), log);
    }
  }

  lemma SentOrdered(w: World, u: World)
    requires Ordered(w) && CurrentIsLatest(u) && Course(u) == Course(w) && u.createdAt == w.createdAt
    requires forall c <- u.conns :: Rising(w.createdAt, c.log)
    ensures Ordered(u)
  {
  }

  lemma LoseOrdered(w: World, c: nat, n: nat)
    requires Ordered(w) && Enabled(w, Lose(c, n))
    ensures Ordered(Apply(w, Lose(c, n)))
  {
    var u := Apply(w, Lose(c, n));
    forall d | d in u.conns ensures Rising(w.createdAt, d.log) {
      var i :| 0 <= i < |u.conns| && u.conns[i] == d;
      assert w.conns[i] in w.conns;
      RisingPrefix(w.createdAt, w.conns[i].log, d.log);
    }
    LoseCourse(w, c, n);
    SentOrdered(w, u);
  }

  lemma LoseCourse(w: World, c: nat, n: nat)
    requires Enabled(w, Lose(c, n))
    ensures Course(Apply(w, Lose(c, n))) == Course(w)
  {
    var u := Apply(w, Lose(c, n));
    assert u == w.(conns := w.conns[c := w.conns[c].(log := w.conns[c].log[..n])]);
    if Released(w) {
      assert c != |w.conns| - 1;
      assert LastLog(u.conns) == LastLog(w.conns);
    }
  }

  lemma DeliverCourse(w: World, c: nat)
    requires c < |w.conns| && w.conns[c].delivered < |w.conns[c].log|
    ensures Course(Delivered(w, c)) == Course(w)
  {
    assert LastLog(Delivered(w, c).conns) == LastLog(w.conns);
  }

  lemma DeliverOrdered(w: World, c: nat)
    requires Ordered(w) && c < |w.conns| && w.conns[c].delivered < |w.conns[c].log|
    ensures Ordered(Delivered(w, c))
  {
    var u := Delivered(w, c);
    forall d | d in u.conns ensures Rising(w.createdAt, d.log) {
      var i :| 0 <= i < |u.conns| && u.conns[i] == d;
      assert d.log == w.conns[i].log && w.conns[i] in w.conns;
    }
    DeliverCourse(w, c);
    SentOrdered(w, u);
  }

  lemma StepOrdered(w: World, e: Event)
    requires Inv(w) && Ordered(w) && Enabled(w, e) && Timely(w, e)
    ensures Ordered(Apply(w, e))
  {
    if e.Start? {
      MintOrdered(w, Started(w, e.session, e.at), e.session, e.at);
    } else if e.Deliver? {
      DeliverOrdered(w, e.conn);
    } else if e.Lose? {
      LoseOrdered(w, e.conn, e.upTo);
    } else {
      StepUpOrdered(w, w.proc.value, e);
    }
  }

  /** Steps that put frames, or start a session. */
  lemma PutStepOrdered(w: World, p: Process, e: Event)
    requires Inv(w) && Ordered(w) && Enabled(w, e) && Timely(w, e) && w.proc == Some(p)
    requires e.Mint? || e.Emit? || e.EmitPlain? || e.ResendReports?
    ensures Ordered(ApplyUp(w, p, e))
  {
    match e
    case Mint(s, at) => MintOrdered(w, ApplyUp(w, p, e), s, at);
    case Emit(r) => EmitOrdered(w, p, r);
    case EmitPlain(t) => ResendOrdered(w, p, [Plain(t)]);
    case ResendReports(t) => ResendOrdered(w, p, EndReports(Resent(p.held), t));
  }

  /** Steps that end a connection. */
  lemma CutStepOrdered(w: World, p: Process, e: Event)
    requires PipeOk(w, p) && Ordered(w) && Enabled(w, e) && w.proc == Some(p) && (e.Drop? || e.Crash?)
    ensures Ordered(ApplyUp(w, p, e))
  {
    CutOrdered(w, p, e.arrived);
  }

  /** Steps that neither send nor put a frame. */
  lemma QuietStepOrdered(w: World, p: Process, e: Event)
    requires PipeOk(w, p) && Ordered(w) && Enabled(w, e) && w.proc == Some(p)
    requires !e.Start? && !e.Deliver? && !e.Lose? && !e.Mint? && !e.Emit? && !e.EmitPlain? && !e.ResendReports?
    requires !e.Take? && !e.Done? && !e.Drop? && !e.Crash? && !e.Handle?
    ensures Ordered(ApplyUp(w, p, e))
  {
  }

  lemma StepUpOrdered(w: World, p: Process, e: Event)
    requires Inv(w) && Ordered(w) && Enabled(w, e) && Timely(w, e) && w.proc == Some(p)
    requires !e.Start? && !e.Deliver? && !e.Lose?
    ensures Ordered(ApplyUp(w, p, e))
  {
    if e.Mint? || e.Emit? || e.EmitPlain? || e.ResendReports? {
      PutStepOrdered(w, p, e);
    } else if e.Take? {
      TakeOrdered(w, p);
    } else if e.Done? {
      DoneOrdered(w, p);
    } else if e.Drop? || e.Crash? {
      CutStepOrdered(w, p, e);
    } else if e.Handle? {
      HandleOrdered(w, p);
    } else {
      QuietStepOrdered(w, p, e);
    }
  }

  lemma TakeOrdered(w: World, p: Process)
    requires Ordered(w) && w.proc == Some(p) && Single(p.pipe) && CanTake(p.pipe)
    ensures Ordered(w.(proc := Some(p.(pipe := Took(p.pipe)))))
  {
    LineMoves(p.pipe);
  }

  lemma DoneCourse(w: World, p: Process)
    requires PipeOk(w, p) && w.proc == Some(p) && p.live && p.pipe.inFlight.Some?
    ensures Course(SendDone(w, p)) == Course(w)
  {
    var f, rest := p.pipe.inFlight.value, Line(Sent(p.pipe));
    LineMoves(p.pipe);
    assert LastLog(SendDone(w, p).conns) == LastLog(w.conns) + [f];
    Assoc(LastLog(w.conns), [f], rest);
  }

  lemma DoneOrdered(w: World, p: Process)
    requires PipeOk(w, p) && Ordered(w) && w.proc == Some(p) && p.live && p.pipe.inFlight.Some?
    ensures Ordered(SendDone(w, p))
  {
    CutOrdered(w, p, true);
    DoneCourse(w, p);
    SentOrdered(w, SendDone(w, p));
  }

  lemma AckOrdered(w: World, p: Process, m: string, pos: nat)
    requires Ordered(w) && w.proc == Some(p) && p.inbox != []
    ensures Ordered(HandledAck(w, p, m, pos))
  {
  }

  lemma HandleOrdered(w: World, p: Process)
    requires MemoryOk(w, p) && PipeOk(w, p) && Ordered(w) && w.proc == Some(p) && p.inbox != []
    ensures Ordered(ApplyUp(w, p, Handle))
  {
    match p.inbox[0]
    case Ack(s, pos) => AckOrdered(w, p, s, pos);
    case Init(c) => InitOrdered(w, p, c);
    case Assign(_, _, _) => InboxOrdered(w, p, p.inbox[1..]);
  }

  lemma InboxOrdered(w: World, p: Process, inbox: seq<Inbound>)
    requires Ordered(w) && w.proc == Some(p)
    ensures Ordered(w.(proc := Some(p.(inbox := inbox))))
  {
  }

  lemma {:induction false} RunOrdered(w: World, es: seq<Event>)
    requires Inv(w) && Ordered(w) && Legal(w, es) && TimelyRun(w, es)
    ensures Ordered(Run(w, es)) && Inv(Run(w, es))
    decreases |es|
  {
    if es != [] {
      StepKeeps(w, es[0]);
      StepOrdered(w, es[0]);
      RunOrdered(Apply(w, es[0]), es[1..]);
    }
  }

  /**
   * Wire order. If sessions are created at increasing times, then on every connection a
   * run ever opened, each numbered frame either was sent there before or comes after all
   * that was, in `(created, session, pos)` order: earlier sessions first, new frames last.
   */
  lemma FirstSendsRise(es: seq<Event>, c: nat, i: nat, j: nat)
    requires Legal(Begin(), es) && TimelyRun(Begin(), es)
    requires var w := Run(Begin(), es);
      c < |w.conns| && i < j < |w.conns[c].log| && w.conns[c].log[i].Numbered? && w.conns[c].log[j].Numbered?
    requires var log := Run(Begin(), es).conns[c].log; !HasKey(log[..j], log[j].key)
    ensures var w := Run(Begin(), es); Before(w.createdAt, w.conns[c].log[i].key, w.conns[c].log[j].key)
  {
    BeginInv();
    RunOrdered(Begin(), es);
    var log := Run(Begin(), es).conns[c].log;
    assert Rising(Run(Begin(), es).createdAt, log);
    assert log[..j][i] == log[i];
  }
}
