/** What every step of the delivery protocol keeps, and what holds in every run. */
module DeliveryProof {
  import opened Frames
  import opened Retention
  import opened Sender
  import opened Memory
  import opened Bookkeeping
  import opened Delivery

  // ------------------------------------------------------------------ the invariant

  /** The server has a prefix of every session, and acknowledged no more than that. */
  ghost predicate LedgerOk(emitted: Reports, created: map<string, real>, acked: map<string, nat>, taken: Reports) {
    && emitted.Keys == created.Keys
    && (forall s <- taken :: s in emitted && taken[s] <= emitted[s])
    && (forall s: string :: Get(acked, s, 0) <= |At(taken, s)|)
  }

  ghost predicate Genuine(emitted: Reports, f: Frame) {
    f.Numbered? ==>
      && f.key.session in emitted
      && 1 <= f.key.pos <= |emitted[f.key.session]|
      && f.report == emitted[f.key.session][f.key.pos - 1]
  }

  ghost predicate HasKey(xs: seq<Frame>, k: Key) {
    exists i :: 0 <= i < |xs| && xs[i].Numbered? && xs[i].key == k
  }

  ghost predicate Covered(taken: Reports, xs: seq<Frame>, s: string, pos: nat) {
    pos <= |At(taken, s)| || HasKey(xs, Key(s, pos))
  }

  /** A server that has `taken` meets no hole in `xs`. */
  ghost predicate Smooth(taken: Reports, xs: seq<Frame>) {
    forall i :: 0 <= i < |xs| && xs[i].Numbered? ==>
      xs[i].key.pos >= 1 && Covered(taken, xs[..i], xs[i].key.session, xs[i].key.pos - 1)
  }

  predicate Released(w: World) {
    w.proc.Some? && w.proc.value.live && w.proc.value.releasedBy.Some?
  }

  /** What the sender will add to connection `c`, if nothing goes wrong. */
  function Tail(w: World, c: int): seq<Frame> {
    if Released(w) && c == |w.conns| - 1 then Line(w.proc.value.pipe) else []
  }

  function Ahead(conn: Conn, tail: seq<Frame>): seq<Frame>
    requires conn.delivered <= |conn.log|
  {
    conn.log[conn.delivered..] + tail
  }

  ghost predicate ConnOk(emitted: Reports, taken: Reports, conn: Conn, tail: seq<Frame>) {
    && conn.delivered <= |conn.log|
    && (forall f <- conn.log :: Genuine(emitted, f))
    && (forall f <- conn.log[..conn.delivered] :: f.Numbered? ==> f.key.pos <= |At(taken, f.key.session)|)
    && Smooth(taken, Ahead(conn, tail))
  }

  ghost predicate Wires(w: World) {
    forall c :: 0 <= c < |w.conns| ==> ConnOk(w.emitted, w.taken, w.conns[c], Tail(w, c))
  }

  function LastLog(conns: seq<Conn>): seq<Frame> {
    if conns == [] then [] else conns[|conns| - 1].log
  }

  /** Everything retained is on the released connection's wire, or in the line. */
  ghost predicate OnTheWay(held: Held, xs: seq<Frame>) {
    forall k <- held.retained :: HasKey(xs, k)
  }

  ghost predicate PipeOk(w: World, p: Process) {
    && Single(p.pipe)
    && (forall f <- Line(p.pipe) :: Genuine(w.emitted, f))
    && (p.live ==> w.conns != [])
    && (p.pipe.inFlight.Some? ==> p.live && p.releasedBy.Some?)
    && (p.live && p.releasedBy.None? ==> LastLog(w.conns) == [])
    && (p.live && p.releasedBy.Some? ==> OnTheWay(p.held, LastLog(w.conns) + Line(p.pipe)))
  }

  /** The resume journal covers every report of the task among the first `seen` of each session. */
  ghost predicate Snapshot(taken: Reports, task: string, resume: Resume, seen: map<string, nat>) {
    forall s: string :: Get(seen, s, 0) <= |At(taken, s)| && forall i :: 0 <= i < Get(seen, s, 0) ==>
          Covers(resume, task, At(taken, s)[i])
  }

  /** Acks say no more than the server has; none handled before an Assign says more than its journal. */
  ghost predicate InboxOk(inbox: seq<Inbound>, taken: Reports, acked: map<string, nat>) {
    && (forall m <- inbox :: m.Ack? ==> m.pos <= |At(taken, m.session)|)
    && (forall m <- inbox :: m.Assign? ==>
          Snapshot(taken, m.task, m.resume, m.seen) && forall s: string :: Get(acked, s, 0) <= Get(m.seen, s, 0))
    && (forall i, j :: 0 <= i < j < |inbox| && inbox[i].Ack? && inbox[j].Assign? ==>
          inbox[i].pos <= Get(inbox[j].seen, inbox[i].session, 0))
  }

  ghost predicate MemoryOk(w: World, p: Process) {
    KeptOk(Kept(p.held, w.store), w.emitted, w.createdAt, w.acked) && Knows(Kept(p.held, w.store), p.current)
  }

  ghost predicate Inv(w: World) {
    && !w.hole
    && LedgerOk(w.emitted, w.createdAt, w.acked, w.taken)
    && Stored(w.store, w.emitted, w.createdAt, w.acked)
    && Wires(w)
    && (w.proc.Some? ==>
          var p := w.proc.value; MemoryOk(w, p) && PipeOk(w, p) && InboxOk(p.inbox, w.taken, w.acked))
  }

  // ------------------------------------------------------------------ smoothness

  lemma SmoothPrefix(taken: Reports, xs: seq<Frame>, ys: seq<Frame>)
    requires Smooth(taken, xs) && ys <= xs
    ensures Smooth(taken, ys)
  {
    forall i | 0 <= i < |ys| ensures ys[i] == xs[i] && ys[..i] == xs[..i] {}
  }

  lemma SmoothMore(taken: Reports, more: Reports, xs: seq<Frame>)
    requires Smooth(taken, xs) && forall s: string :: |At(taken, s)| <= |At(more, s)|
    ensures Smooth(more, xs)
  {
  }

  lemma SmoothConcat(taken: Reports, xs: seq<Frame>, ys: seq<Frame>)
    requires Smooth(taken, xs)
    requires forall i :: 0 <= i < |ys| && ys[i].Numbered? ==>
      ys[i].key.pos >= 1 && Covered(taken, xs + ys[..i], ys[i].key.session, ys[i].key.pos - 1)
    ensures Smooth(taken, xs + ys)
  {
    var zs := xs + ys;
    forall i | 0 <= i < |zs| && zs[i].Numbered?
      ensures zs[i].key.pos >= 1 && Covered(taken, zs[..i], zs[i].key.session, zs[i].key.pos - 1)
    {
      if i < |xs| {
        assert zs[..i] == xs[..i];
      } else {
        assert zs[..i] == xs + ys[..i - |xs|];
      }
    }
  }

  /** The first frame of a smooth sequence is no hole, and the rest stays smooth once it is received. */
  lemma SmoothReceived(w: World, xs: seq<Frame>)
    requires xs != [] && Smooth(w.taken, xs) && !w.hole
    ensures var u := Received(w, xs[0]);
      && !u.hole && Smooth(u.taken, xs[1..])
      && (forall s: string :: |At(w.taken, s)| <= |At(u.taken, s)|)
      && (xs[0].Numbered? ==> xs[0].key.pos <= |At(u.taken, xs[0].key.session)|)
  {
    var f, u := xs[0], Received(w, xs[0]);
    assert f.Numbered? ==> !HasKey(xs[..0], Key(f.key.session, f.key.pos - 1));
    var ys := xs[1..];
    forall i | 0 <= i < |ys| && ys[i].Numbered?
      ensures ys[i].key.pos >= 1 && Covered(u.taken, ys[..i], ys[i].key.session, ys[i].key.pos - 1)
    {
      var s, q := ys[i].key.session, ys[i].key.pos - 1;
      assert ys[i] == xs[i + 1];
      if q > |At(u.taken, s)| {
        var j :| 0 <= j < i + 1 && xs[..i + 1][j].Numbered? && xs[..i + 1][j].key == Key(s, q);
        assert ys[..i][j - 1] == xs[j];
      }
    }
  }

  // ------------------------------------------------------------------ putting frames in the line

  /** On a released connection, what precedes a frame the agent may send is received or on the way. */
  lemma PredecessorCovered(emitted: Reports, acked: map<string, nat>, taken: Reports, held: Held, c: Conn,
                           line: seq<Frame>, s: string, pos: nat)
    requires ConnOk(emitted, taken, c, line) && Exactly(held.retained, emitted, acked) && OnTheWay(held, c.log + line)
    requires Get(acked, s, 0) <= |At(taken, s)|
    requires pos == 0 || (s in emitted && pos <= |emitted[s]|)
    ensures Covered(taken, Ahead(c, line), s, pos)
  {
    if pos > |At(taken, s)| {
      assert IsOwed(emitted, acked, Key(s, pos));
      var xs := c.log + line;
      var i :| 0 <= i < |xs| && xs[i].Numbered? && xs[i].key == Key(s, pos);
      assert i >= c.delivered;
      assert Ahead(c, line)[i - c.delivered] == xs[i];
    }
  }

  lemma SmoothAppend(taken: Reports, xs: seq<Frame>, fs: seq<Frame>)
    requires Smooth(taken, xs)
    requires forall f <- fs :: f.Numbered? ==> f.key.pos >= 1 && Covered(taken, xs, f.key.session, f.key.pos - 1)
    ensures Smooth(taken, xs + fs)
  {
    forall i | 0 <= i < |fs| && fs[i].Numbered?
      ensures fs[i].key.pos >= 1 && Covered(taken, xs + fs[..i], fs[i].key.session, fs[i].key.pos - 1)
    {
      assert fs[i] in fs;
      if fs[i].key.pos - 1 > |At(taken, fs[i].key.session)| {
        var k := Key(fs[i].key.session, fs[i].key.pos - 1);
        var j :| 0 <= j < |xs| && xs[j].Numbered? && xs[j].key == k;
        assert (xs + fs[..i])[j] == xs[j];
      }
    }
    SmoothConcat(taken, xs, fs);
  }

  lemma HasKeyAppend(xs: seq<Frame>, ys: seq<Frame>, k: Key)
    ensures HasKey(xs, k) || HasKey(ys, k) <==> HasKey(xs + ys, k)
  {
    if HasKey(xs, k) {
      var i :| 0 <= i < |xs| && xs[i].Numbered? && xs[i].key == k;
      assert (xs + ys)[i] == xs[i];
    }
    if HasKey(ys, k) {
      var i :| 0 <= i < |ys| && ys[i].Numbered? && ys[i].key == k;
      assert (xs + ys)[|xs| + i] == ys[i];
    }
  }

  lemma LineOfPut(p: Pipe, fs: seq<Frame>)
    requires Single(p)
    ensures Line(PutAll(p, fs)) == Line(p) + fs && Single(PutAll(p, fs))
  {
  }

  /** More reports were emitted: what was genuine and smooth stays so. */
  lemma ConnGrows(emitted: Reports, more: Reports, taken: Reports, c: Conn, tail: seq<Frame>, fs: seq<Frame>)
    requires ConnOk(emitted, taken, c, tail) && Smooth(taken, Ahead(c, tail) + fs)
    requires forall f :: Genuine(emitted, f) ==> Genuine(more, f)
    ensures ConnOk(more, taken, c, tail + fs)
  {
    assert Ahead(c, tail + fs) == Ahead(c, tail) + fs;
  }

  /** Frames are put at the end of the line: those emitted now, or retained ones again. */
  lemma PutKeeps(w: World, p: Process, u: World, q: Process, fs: seq<Frame>)
    requires Inv(w) && w.proc == Some(p) && u.proc == Some(q)
    requires u.conns == w.conns && u.taken == w.taken && q.live == p.live && q.releasedBy == p.releasedBy
    requires q.pipe == PutAll(p.pipe, fs)
    requires forall f :: Genuine(w.emitted, f) ==> Genuine(u.emitted, f)
    requires forall f <- fs :: Genuine(u.emitted, f)
    requires forall f <- fs :: f.Numbered? ==>
             f.key.pos == 1 || (f.key.session in w.emitted && f.key.pos - 1 <= |w.emitted[f.key.session]|)
    requires forall k <- q.held.retained :: k in p.held.retained || HasKey(fs, k)
    ensures Wires(u) && PipeOk(u, q)
  {
    LineOfPut(p.pipe, fs);
    forall c | 0 <= c < |w.conns| ensures ConnOk(u.emitted, u.taken, u.conns[c], Tail(u, c)) {
      assert ConnOk(w.emitted, w.taken, w.conns[c], Tail(w, c));
      if Released(w) && c == |w.conns| - 1 {
        PutSmooth(w, p, u.emitted, fs);
        ConnGrows(w.emitted, u.emitted, w.taken, w.conns[c], Line(p.pipe), fs);
      } else {
        assert Ahead(w.conns[c], []) + [] == Ahead(w.conns[c], []);
        ConnGrows(w.emitted, u.emitted, w.taken, w.conns[c], [], []);
      }
    }
    var xs := LastLog(w.conns) + Line(p.pipe);
    assert LastLog(u.conns) + Line(q.pipe) == xs + fs;
    forall k | k in q.held.retained && Released(w) ensures HasKey(xs + fs, k) {
      HasKeyAppend(xs, fs, k);
    }
  }

  lemma PutSmooth(w: World, p: Process, emitted: Reports, fs: seq<Frame>)
    requires Inv(w) && w.proc == Some(p) && p.live && p.releasedBy.Some?
    requires forall f <- fs :: Genuine(emitted, f)
    requires forall f <- fs :: f.Numbered? ==>
             f.key.pos == 1 || (f.key.session in w.emitted && f.key.pos - 1 <= |w.emitted[f.key.session]|)
    ensures var c := w.conns[|w.conns| - 1]; c.delivered <= |c.log| && Smooth(w.taken, Ahead(c, Line(p.pipe)) + fs)
  {
    var c := w.conns[|w.conns| - 1];
    assert ConnOk(w.emitted, w.taken, c, Tail(w, |w.conns| - 1));
    forall f | f in fs && f.Numbered?
      ensures f.key.pos >= 1 && Covered(w.taken, Ahead(c, Line(p.pipe)), f.key.session, f.key.pos - 1)
    {
      PredecessorCovered(w.emitted, w.acked, w.taken, p.held, c, Line(p.pipe), f.key.session, f.key.pos - 1);
    }
    SmoothAppend(w.taken, Ahead(c, Line(p.pipe)), fs);
  }

  lemma EmitMemory(w: World, p: Process, r: Report)
    requires LedgerOk(w.emitted, w.createdAt, w.acked, w.taken) && MemoryOk(w, p) && p.current in w.emitted
    ensures var u := Emitted(w, p, r);
      && LedgerOk(u.emitted, u.createdAt, u.acked, u.taken) && MemoryOk(u, u.proc.value)
      && u.proc.value.held.retained == p.held.retained[NextKey(w, p) := r]
  {
    var s := p.current;
    assert Get(w.acked, s, 0) <= |At(w.taken, s)| <= |w.emitted[s]|;
    RetainKept(Kept(p.held, w.store), s, r, 0.0, w.emitted, w.createdAt, w.acked);
  }

  lemma EmitGenuine(emitted: Reports, s: string, r: Report, f: Frame)
    requires s in emitted && Genuine(emitted, f)
    ensures Genuine(emitted[s := emitted[s] + [r]], f)
  {
  }

  lemma EmitPut(w: World, p: Process, r: Report)
    requires Inv(w) && w.proc == Some(p)
    requires Emitted(w, p, r).proc.value.held.retained == p.held.retained[NextKey(w, p) := r]
    ensures var u := Emitted(w, p, r); Wires(u) && PipeOk(u, u.proc.value)
  {
    var key, u := NextKey(w, p), Emitted(w, p, r);
    assert p.current in w.emitted;
    forall f | Genuine(w.emitted, f) ensures Genuine(u.emitted, f) {
      EmitGenuine(w.emitted, p.current, r, f);
    }
    var fs := [Numbered(key, r)];
    assert fs[0].key == key;
    PutKeeps(w, p, u, u.proc.value, fs);
  }

  lemma EmitKeeps(w: World, p: Process, r: Report)
    requires Inv(w) && w.proc == Some(p)
    ensures Inv(Emitted(w, p, r))
  {
    assert p.current in w.emitted;
    EmitMemory(w, p, r);
    EmitPut(w, p, r);
  }

  lemma ResendKeeps(w: World, p: Process, fs: seq<Frame>)
    requires Inv(w) && w.proc == Some(p)
    requires forall f <- fs :: f.Numbered? ==> f.key in p.held.retained && f.report == p.held.retained[f.key]
    ensures Inv(w.(proc := Some(p.(pipe := PutAll(p.pipe, fs)))))
  {
    forall f | f in fs ensures Genuine(w.emitted, f) {
      if f.Numbered? {
        assert IsOwed(w.emitted, w.acked, f.key);
      }
    }
    var u := w.(proc := Some(p.(pipe := PutAll(p.pipe, fs))));
    PutKeeps(w, p, u, u.proc.value, fs);
  }

  // ------------------------------------------------------------------ minting

  lemma MintKeeps(w: World, k: Kept, s: string, at: real)
    requires LedgerOk(w.emitted, w.createdAt, w.acked, w.taken) && s !in w.emitted && k.store == w.store
    requires KeptOk(k, w.emitted, w.createdAt, w.acked)
    ensures var u := Minted(w, k, s, at);
      && LedgerOk(u.emitted, u.createdAt, u.acked, u.taken)
      && KeptOk(Knowing(k, true, s, at), u.emitted, u.createdAt, u.acked) && Knows(Knowing(k, true, s, at), s)
      && Knowing(k, true, s, at).held.retained == k.held.retained
  {
    assert Get(w.acked, s, 0) <= |At(w.taken, s)|;
    assert s !in w.taken;
    KnowKept(k, s, at, w.emitted, w.createdAt, w.acked);
  }

  lemma WiresGrow(w: World, u: World)
    requires Wires(w) && u.conns == w.conns && u.taken == w.taken
    requires forall f :: Genuine(w.emitted, f) ==> Genuine(u.emitted, f)
    requires forall c :: Tail(u, c) == Tail(w, c)
    ensures Wires(u)
  {
    forall c | 0 <= c < |w.conns| ensures ConnOk(u.emitted, u.taken, u.conns[c], Tail(u, c)) {
      assert ConnOk(w.emitted, w.taken, w.conns[c], Tail(w, c));
    }
  }

  lemma StartKeeps(w: World, s: string, at: real)
    requires Inv(w) && w.proc.None? && s !in w.emitted
    ensures Inv(Started(w, s, at))
  {
    LoadKept(w.store, w.emitted, w.createdAt, w.acked);
    MintKeeps(w, Loaded(Kept(Held(map[], map[]), w.store)), s, at);
    WiresGrow(w, Started(w, s, at));
  }

  /** Nothing on a wire, or on its way to one, changes. */
  lemma RemintWires(w: World, p: Process, s: string, at: real)
    requires Wires(w) && PipeOk(w, p) && w.proc == Some(p) && s !in w.emitted
    requires Knowing(Kept(p.held, w.store), true, s, at).held.retained == p.held.retained
    ensures var u := Reminted(w, p, s, at); Wires(u) && PipeOk(u, u.proc.value)
  {
    var u := Reminted(w, p, s, at);
    forall f | Genuine(w.emitted, f) ensures Genuine(u.emitted, f) {}
    WiresGrow(w, u);
  }

  lemma MintingKeeps(w: World, p: Process, s: string, at: real)
    requires Inv(w) && w.proc == Some(p) && s !in w.emitted
    ensures Inv(Reminted(w, p, s, at))
  {
    MintKeeps(w, Kept(p.held, w.store), s, at);
    RemintWires(w, p, s, at);
  }

  // ------------------------------------------------------------------ the sender and the wire

  lemma ConnectKeeps(w: World, p: Process)
    requires Inv(w) && w.proc == Some(p) && !p.live
    ensures Inv(Connected(w, p))
  {
    var u := Connected(w, p);
    forall c | 0 <= c < |u.conns| ensures ConnOk(u.emitted, u.taken, u.conns[c], Tail(u, c)) {
      if c < |w.conns| {
        assert ConnOk(w.emitted, w.taken, w.conns[c], Tail(w, c));
      }
    }
  }

  lemma TakeKeeps(w: World, p: Process)
    requires Inv(w) && w.proc == Some(p) && p.live && p.releasedBy.Some? && CanTake(p.pipe)
    ensures Inv(w.(proc := Some(p.(pipe := Took(p.pipe)))))
  {
    LineMoves(p.pipe);
    WiresGrow(w, w.(proc := Some(p.(pipe := Took(p.pipe)))));
  }

  /** What is ahead on the wire does not change when a frame moves from the line to the wire. */
  lemma WireMoves(emitted: Reports, taken: Reports, c: Conn, f: Frame, rest: seq<Frame>)
    requires ConnOk(emitted, taken, c, [f] + rest) && Genuine(emitted, f)
    ensures ConnOk(emitted, taken, c.(log := c.log + [f]), rest)
    ensures (c.log + [f]) + rest == c.log + ([f] + rest)
  {
    var d := c.(log := c.log + [f]);
    assert d.log[..d.delivered] == c.log[..c.delivered];
    assert Ahead(d, rest) == Ahead(c, [f] + rest);
  }

  function SendDone(w: World, p: Process): World {
    w.(conns := Cut(w.conns, p, true), proc := Some(p.(pipe := Sent(p.pipe))))
  }

  lemma DoneWires(w: World, p: Process)
    requires Wires(w) && w.proc == Some(p) && PipeOk(w, p) && p.live && p.pipe.inFlight.Some?
    ensures Wires(SendDone(w, p))
  {
    var u, n := SendDone(w, p), |w.conns| - 1;
    DoneWire(w, p, n);
    forall c | 0 <= c < |u.conns| ensures ConnOk(u.emitted, u.taken, u.conns[c], Tail(u, c)) {
      assert ConnOk(w.emitted, w.taken, w.conns[c], Tail(w, c));
      assert c < n ==> u.conns[c] == w.conns[c] && Tail(u, c) == Tail(w, c);
    }
  }

  lemma DoneWire(w: World, p: Process, n: nat)
    requires Wires(w) && w.proc == Some(p) && PipeOk(w, p) && p.live && p.pipe.inFlight.Some? && n == |w.conns| - 1
    ensures var u := SendDone(w, p); |u.conns| == |w.conns| && ConnOk(w.emitted, w.taken, u.conns[n], Tail(u, n))
  {
    var f := p.pipe.inFlight.value;
    LineMoves(p.pipe);
    assert f == Line(p.pipe)[0];
    assert ConnOk(w.emitted, w.taken, w.conns[n], Tail(w, n));
    WireMoves(w.emitted, w.taken, w.conns[n], f, Line(Sent(p.pipe)));
  }

  lemma DonePipe(w: World, p: Process)
    requires w.proc == Some(p) && PipeOk(w, p) && p.live && p.pipe.inFlight.Some?
    ensures PipeOk(SendDone(w, p), SendDone(w, p).proc.value)
  {
    var u, rest := SendDone(w, p), Line(Sent(p.pipe));
    LineMoves(p.pipe);
    assert LastLog(u.conns) + rest == LastLog(w.conns) + Line(p.pipe);
    forall f | f in rest ensures Genuine(w.emitted, f) {
      assert f in Line(p.pipe);
    }
  }

  lemma DoneKeeps(w: World, p: Process)
    requires Inv(w) && w.proc == Some(p) && p.live && p.pipe.inFlight.Some?
    ensures Inv(SendDone(w, p))
  {
    DoneWires(w, p);
    DonePipe(w, p);
  }

  /** A connection that ends keeps what was on its wire; the frame in flight may have joined it. */
  lemma ConnEnds(emitted: Reports, taken: Reports, c: Conn, line: seq<Frame>, n: nat)
    requires ConnOk(emitted, taken, c, line) && n <= |line| && forall f <- line[..n] :: Genuine(emitted, f)
    ensures ConnOk(emitted, taken, c.(log := c.log + line[..n]), [])
  {
    var d := c.(log := c.log + line[..n]);
    assert d.log[..d.delivered] == c.log[..c.delivered];
    assert Ahead(d, []) == c.log[c.delivered..] + line[..n];
    assert Ahead(d, []) <= Ahead(c, line);
    SmoothPrefix(taken, Ahead(c, line), Ahead(d, []));
  }

  lemma CutKeeps(w: World, p: Process, arrived: bool, u: World)
    requires Inv(w) && w.proc == Some(p)
    requires u.emitted == w.emitted && u.taken == w.taken && u.conns == Cut(w.conns, p, arrived) && !Released(u)
    ensures Wires(u)
  {
    forall c | 0 <= c < |u.conns| ensures ConnOk(u.emitted, u.taken, u.conns[c], Tail(u, c)) {
      assert ConnOk(w.emitted, w.taken, w.conns[c], Tail(w, c));
      var n := if c == |w.conns| - 1 && p.live && arrived && p.pipe.inFlight.Some? then 1 else 0;
      forall f | f in Tail(w, c)[..n] ensures Genuine(w.emitted, f) {
        assert f in Line(p.pipe);
      }
      ConnEnds(w.emitted, w.taken, w.conns[c], Tail(w, c), n);
      assert w.conns[c].log + [] == w.conns[c].log;
      assert n == 1 ==> Tail(w, c)[..1] == [p.pipe.inFlight.value];
      assert u.conns[c] == w.conns[c].(log := w.conns[c].log + Tail(w, c)[..n]);
    }
  }

  lemma DropKeeps(w: World, p: Process, arrived: bool)
    requires Inv(w) && w.proc == Some(p) && p.live
    ensures Inv(w.(conns := Cut(w.conns, p, arrived), proc := Some(p.(pipe := Requeued(p.pipe), live := false))))
  {
    LineMoves(p.pipe);
    CutKeeps(w, p, arrived, w.(conns := Cut(w.conns, p, arrived),
          proc := Some(p.(pipe := Requeued(p.pipe), live := false))));
  }

  lemma CrashKeeps(w: World, p: Process, arrived: bool)
    requires Inv(w) && w.proc == Some(p)
    ensures Inv(w.(proc := None, conns := Cut(w.conns, p, arrived)))
  {
    CutKeeps(w, p, arrived, w.(proc := None, conns := Cut(w.conns, p, arrived)));
  }

  lemma LoseKeeps(w: World, c: nat, n: nat)
    requires Inv(w) && c < |w.conns| && !IsLive(w, c) && w.conns[c].delivered <= n <= |w.conns[c].log|
    ensures Inv(w.(conns := w.conns[c := w.conns[c].(log := w.conns[c].log[..n])]))
  {
    var u := w.(conns := w.conns[c := w.conns[c].(log := w.conns[c].log[..n])]);
    forall i | 0 <= i < |u.conns| ensures ConnOk(u.emitted, u.taken, u.conns[i], Tail(u, i)) {
      assert ConnOk(w.emitted, w.taken, w.conns[i], Tail(w, i));
      if i == c {
        assert u.conns[c].log[..u.conns[c].delivered] == w.conns[c].log[..w.conns[c].delivered];
        SmoothPrefix(w.taken, Ahead(w.conns[c], []), Ahead(u.conns[c], []));
      }
    }
  }

  // ------------------------------------------------------------------ the inbox

  /** `InitArrives`, `AckArrives`, `AssignArrives`, and handling an Assign: only the inbox changes. */
  lemma InboxKeeps(w: World, p: Process, inbox: seq<Inbound>)
    requires Inv(w) && w.proc == Some(p) && InboxOk(inbox, w.taken, w.acked)
    ensures Inv(w.(proc := Some(p.(inbox := inbox))))
  {
    WiresGrow(w, w.(proc := Some(p.(inbox := inbox))));
  }

  lemma InboxAppend(inbox: seq<Inbound>, taken: Reports, acked: map<string, nat>, m: Inbound)
    requires InboxOk(inbox, taken, acked) && forall s: string :: Get(acked, s, 0) <= |At(taken, s)|
    requires m.Ack? ==> m.pos <= |At(taken, m.session)|
    requires m.Assign? ==> HoldsReceived(m.resume, taken, m.task) && m.seen == Lengths(taken)
    ensures InboxOk(inbox + [m], taken, acked)
  {
    if m.Assign? {
      assert forall s: string :: Get(m.seen, s, 0) == |At(taken, s)|;
      forall i | 0 <= i < |inbox| && inbox[i].Ack? ensures inbox[i].pos <= Get(m.seen, inbox[i].session, 0) {
        assert inbox[i] in inbox;
      }
    }
  }

  lemma InboxTail(inbox: seq<Inbound>, taken: Reports, acked: map<string, nat>)
    requires InboxOk(inbox, taken, acked) && inbox != []
    ensures InboxOk(inbox[1..], taken, acked)
    ensures inbox[0].Ack? ==> inbox[0].pos <= |At(taken, inbox[0].session)|
  {
    assert forall m <- inbox[1..] :: m in inbox;
    assert inbox[0] in inbox;
  }

  lemma InboxAcked(inbox: seq<Inbound>, taken: Reports, acked: map<string, nat>)
    requires InboxOk(inbox, taken, acked) && inbox != [] && inbox[0].Ack?
    ensures InboxOk(inbox[1..], taken, Raised(acked, inbox[0].session, inbox[0].pos))
  {
    var more := Raised(acked, inbox[0].session, inbox[0].pos);
    forall m | m in inbox[1..] && m.Assign? ensures forall s: string :: Get(more, s, 0) <= Get(m.seen, s, 0) {
      var j :| 1 <= j < |inbox| && inbox[j] == m;
      assert inbox[0].pos <= Get(m.seen, inbox[0].session, 0);
    }
    InboxTail(inbox, taken, acked);
  }

  /** The server has more: every snapshot it took before stays what it was. */
  lemma InboxMore(inbox: seq<Inbound>, taken: Reports, more: Reports, acked: map<string, nat>)
    requires InboxOk(inbox, taken, acked)
    requires forall s: string :: At(taken, s) <= At(more, s)
    ensures InboxOk(inbox, more, acked)
  {
    forall m | m in inbox && m.Assign? ensures Snapshot(more, m.task, m.resume, m.seen) {
      forall s: string
        ensures Get(m.seen, s, 0) <= |At(more, s)|
        ensures forall i :: 0 <= i < Get(m.seen, s, 0) ==> Covers(m.resume, m.task, At(more, s)[i])
      {
        assert Get(m.seen, s, 0) <= |At(taken, s)|;
        forall i | 0 <= i < Get(m.seen, s, 0) ensures Covers(m.resume, m.task, At(more, s)[i]) {
          assert At(more, s)[i] == At(taken, s)[i];
        }
      }
    }
  }

  lemma AckKeeps(w: World, p: Process, s: string, pos: nat)
    requires Inv(w) && w.proc == Some(p) && p.inbox != [] && p.inbox[0] == Ack(s, pos)
    ensures Inv(HandledAck(w, p, s, pos))
  {
    InboxTail(p.inbox, w.taken, w.acked);
    InboxAcked(p.inbox, w.taken, w.acked);
    AckKept(Kept(p.held, w.store), s, pos, p.current, w.emitted, w.createdAt, w.acked);
    AckPipe(w, p, s, pos);
  }

  lemma AckPipe(w: World, p: Process, s: string, pos: nat)
    requires Wires(w) && w.proc == Some(p) && PipeOk(w, p) && p.inbox != []
    ensures var u := HandledAck(w, p, s, pos); Wires(u) && PipeOk(u, u.proc.value)
  {
    WiresGrow(w, HandledAck(w, p, s, pos));
  }

  // ------------------------------------------------------------------ Init, and what arrives at the server

  lemma ResentSmooth(taken: Reports, xs: seq<Frame>, held: Held, emitted: Reports, acked: map<string, nat>)
    requires Smooth(taken, xs) && Exactly(held.retained, emitted, acked)
    requires forall s: string :: Get(acked, s, 0) <= |At(taken, s)|
    ensures Smooth(taken, xs + Resent(held))
  {
    var fs := Resent(held);
    forall i | 0 <= i < |fs|
      ensures fs[i].key.pos >= 1 && Covered(taken, xs + fs[..i], fs[i].key.session, fs[i].key.pos - 1)
    {
      ResentCovered(taken, xs, held, emitted, acked, i);
    }
    SmoothConcat(taken, xs, fs);
  }

  /** A retained key that comes before another is sent again before it. */
  lemma EarlierFirst(held: Held, prev: Key, i: nat)
    requires prev in held.retained && i < |Order(held)| && Before(held.created, prev, Order(held)[i])
    ensures HasKey(Resent(held)[..i], prev)
  {
    var keys := Order(held);
    assert prev in keys;
    var j :| 0 <= j < |keys| && keys[j] == prev;
    BeforeTotal(held.created, prev, keys[i]);
    assert j < i;
    assert Resent(held)[..i][j] == Numbered(prev, held.retained[prev]);
  }

  lemma ResentCovered(taken: Reports, xs: seq<Frame>, held: Held, emitted: Reports, acked: map<string, nat>, i: nat)
    requires Exactly(held.retained, emitted, acked) && i < |Resent(held)|
    requires forall s: string :: Get(acked, s, 0) <= |At(taken, s)|
    ensures var fs := Resent(held);
            fs[i].key.pos >= 1 && Covered(taken, xs + fs[..i], fs[i].key.session, fs[i].key.pos - 1)
  {
    var fs, k := Resent(held), Order(held)[i];
    assert fs[i] == Numbered(k, held.retained[k]);
    assert IsOwed(emitted, acked, k);
    if k.pos - 1 > |At(taken, k.session)| {
      var prev := Key(k.session, k.pos - 1);
      assert IsOwed(emitted, acked, prev);
      assert Before(held.created, prev, k);
      EarlierFirst(held, prev, i);
      var j :| 0 <= j < |fs[..i]| && fs[..i][j].Numbered? && fs[..i][j].key == prev;
      assert (xs + fs[..i])[|xs| + j] == fs[..i][j];
    }
  }

  /** The line after an Init: the frame in flight, the plain frames, then everything retained. */
  lemma LineAfterInit(p: Pipe, held: Held)
    requires Single(p)
    ensures var q := AfterInit(p, held);
      Single(q) && Line(q) == One(p.inFlight) + (One(Discarded(p).held) + Plains(p.queue)) + Resent(held)
  {
    var d := Discarded(p);
    LineOfPut(d, Resent(held));
    Assoc(One(d.inFlight), One(d.held), d.queue);
  }

  /** A line with the same first frame, then plain frames, then frames that follow on. */
  lemma RelinedConn(emitted: Reports, taken: Reports, c: Conn, tail: seq<Frame>, first: seq<Frame>, plain: seq<Frame>,
                    fs: seq<Frame>)
    requires ConnOk(emitted, taken, c, tail) && first <= tail && forall f <- plain :: f.Plain?
    requires Smooth(taken, Ahead(c, first) + plain) ==> Smooth(taken, Ahead(c, first) + plain + fs)
    ensures ConnOk(emitted, taken, c, first + plain + fs)
  {
    var xs := Ahead(c, first);
    SmoothPrefix(taken, Ahead(c, tail), xs);
    SmoothAppend(taken, xs, plain);
    assert Ahead(c, first + plain + fs) == xs + plain + fs;
  }

  lemma InitConn(emitted: Reports, acked: map<string, nat>, taken: Reports, c: Conn, tail: seq<Frame>, p: Pipe,
                 held: Held)
    requires ConnOk(emitted, taken, c, tail) && Single(p) && One(p.inFlight) <= tail
    requires Exactly(held.retained, emitted, acked) && forall s: string :: Get(acked, s, 0) <= |At(taken, s)|
    ensures ConnOk(emitted, taken, c, Line(AfterInit(p, held)))
  {
    var first, plain, fs := One(p.inFlight), One(Discarded(p).held) + Plains(p.queue), Resent(held);
    PlainsOnly(p.queue);
    if Smooth(taken, Ahead(c, first) + plain) {
      ResentSmooth(taken, Ahead(c, first) + plain, held, emitted, acked);
    }
    RelinedConn(emitted, taken, c, tail, first, plain, fs);
    LineAfterInit(p, held);
  }

  lemma InitGenuine(emitted: Reports, acked: map<string, nat>, p: Pipe, held: Held)
    requires Single(p) && Exactly(held.retained, emitted, acked) && forall f <- Line(p) :: Genuine(emitted, f)
    ensures forall f <- Line(AfterInit(p, held)) :: Genuine(emitted, f)
  {
    PlainsOnly(p.queue);
    LineAfterInit(p, held);
    forall f | f in Resent(held) ensures Genuine(emitted, f) {
      assert IsOwed(emitted, acked, f.key);
    }
    forall f | f in One(p.inFlight) ensures Genuine(emitted, f) {
      assert f in Line(p);
    }
  }

  lemma InitOnTheWay(log: seq<Frame>, p: Pipe, held: Held)
    requires Single(p)
    ensures OnTheWay(held, log + Line(AfterInit(p, held)))
  {
    LineAfterInit(p, held);
    var before, fs := One(p.inFlight) + (One(Discarded(p).held) + Plains(p.queue)), Resent(held);
    forall k | k in held.retained ensures HasKey(log + (before + fs), k) {
      var i :| 0 <= i < |fs| && fs[i] == Numbered(k, held.retained[k]);
      HasKeyAppend(before, fs, k);
      HasKeyAppend(log, before + fs, k);
    }
  }

  lemma InitWires(w: World, p: Process, c: nat)
    requires Wires(w) && w.proc == Some(p) && PipeOk(w, p) && p.inbox != []
    requires Exactly(p.held.retained, w.emitted, w.acked) && forall s: string :: Get(w.acked, s, 0) <= |At(w.taken, s)|
    ensures Wires(HandledInit(w, p, c))
  {
    var u := HandledInit(w, p, c);
    forall i | 0 <= i < |u.conns| ensures ConnOk(u.emitted, u.taken, u.conns[i], Tail(u, i)) {
      assert ConnOk(w.emitted, w.taken, w.conns[i], Tail(w, i));
      if p.live && i == |w.conns| - 1 {
        assert One(p.pipe.inFlight) <= Tail(w, i);
        InitConn(w.emitted, w.acked, w.taken, w.conns[i], Tail(w, i), p.pipe, p.held);
      }
    }
  }

  lemma InitKeeps(w: World, p: Process, c: nat)
    requires Inv(w) && w.proc == Some(p) && p.inbox != []
    ensures Inv(HandledInit(w, p, c))
  {
    InboxTail(p.inbox, w.taken, w.acked);
    InitGenuine(w.emitted, w.acked, p.pipe, p.held);
    InitOnTheWay(LastLog(w.conns), p.pipe, p.held);
    LineAfterInit(p.pipe, p.held);
    InitWires(w, p, c);
  }

  lemma ReceiveConn(emitted: Reports, taken: Reports, more: Reports, c: Conn, tail: seq<Frame>)
    requires ConnOk(emitted, taken, c, tail) && forall s: string :: |At(taken, s)| <= |At(more, s)|
    ensures ConnOk(emitted, more, c, tail)
  {
    SmoothMore(taken, more, Ahead(c, tail));
  }

  lemma DeliverConn(w: World, conn: Conn, tail: seq<Frame>)
    requires conn.delivered < |conn.log| && !w.hole && ConnOk(w.emitted, w.taken, conn, tail)
    ensures var u := Received(w, conn.log[conn.delivered]);
      && !u.hole && ConnOk(w.emitted, u.taken, conn.(delivered := conn.delivered + 1), tail)
      && (forall s: string :: |At(w.taken, s)| <= |At(u.taken, s)|)
  {
    var d := conn.(delivered := conn.delivered + 1);
    var f, xs := conn.log[conn.delivered], Ahead(conn, tail);
    assert conn.log[conn.delivered..] == [f] + conn.log[d.delivered..];
    assert xs == [f] + Ahead(d, tail);
    SmoothReceived(w, xs);
    assert xs[1..] == Ahead(d, tail);
    assert d.log[..d.delivered] == conn.log[..conn.delivered] + [f];
  }

  /** The server took the next report of a session: still a prefix of what was emitted. */
  lemma ReceivedLedger(w: World, f: Frame)
    requires LedgerOk(w.emitted, w.createdAt, w.acked, w.taken) && Genuine(w.emitted, f)
    ensures var u := Received(w, f);
      LedgerOk(u.emitted, u.createdAt, u.acked, u.taken) && forall s: string :: At(w.taken, s) <= At(u.taken, s)
  {
    if f.Numbered? && f.key.pos == |At(w.taken, f.key.session)| + 1 {
      var u := w.taken[f.key.session := At(w.taken, f.key.session) + [f.report]];
      assert u == Received(w, f).taken;
      assert At(w.taken, f.key.session) <= w.emitted[f.key.session];
      forall s: string ensures At(w.taken, s) <= At(u, s) && Get(w.acked, s, 0) <= |At(u, s)| {
      }
    }
  }

  lemma DeliverWires(w: World, c: nat)
    requires Wires(w) && !w.hole && c < |w.conns| && w.conns[c].delivered < |w.conns[c].log|
    ensures Wires(Delivered(w, c)) && !Delivered(w, c).hole
  {
    var u := Delivered(w, c);
    assert ConnOk(w.emitted, w.taken, w.conns[c], Tail(w, c));
    DeliverConn(w, w.conns[c], Tail(w, c));
    assert |u.conns| == |w.conns| && u.proc == w.proc && u.emitted == w.emitted;
    forall i | 0 <= i < |u.conns| ensures ConnOk(u.emitted, u.taken, u.conns[i], Tail(u, i)) {
      assert Tail(u, i) == Tail(w, i);
      if i != c {
        assert u.conns[i] == w.conns[i] && ConnOk(w.emitted, w.taken, w.conns[i], Tail(w, i));
        ReceiveConn(w.emitted, w.taken, u.taken, w.conns[i], Tail(w, i));
      }
    }
  }

  lemma DeliverPipe(w: World, p: Process, c: nat)
    requires c < |w.conns| && w.conns[c].delivered < |w.conns[c].log| && PipeOk(w, p)
    ensures PipeOk(Delivered(w, c), p)
  {
    assert LastLog(Delivered(w, c).conns) == LastLog(w.conns);
  }

  lemma DeliverUp(w: World, p: Process, c: nat)
    requires c < |w.conns| && w.conns[c].delivered < |w.conns[c].log| && w.proc == Some(p)
    requires MemoryOk(w, p) && PipeOk(w, p) && InboxOk(p.inbox, w.taken, w.acked)
    requires forall s: string :: At(w.taken, s) <= At(Delivered(w, c).taken, s)
    ensures var u := Delivered(w, c); MemoryOk(u, p) && PipeOk(u, p) && InboxOk(p.inbox, u.taken, u.acked)
  {
    InboxMore(p.inbox, w.taken, Delivered(w, c).taken, w.acked);
    DeliverPipe(w, p, c);
  }

  lemma DeliverKeeps(w: World, c: nat)
    requires Inv(w) && c < |w.conns| && w.conns[c].delivered < |w.conns[c].log|
    ensures Inv(Delivered(w, c))
  {
    var u := Delivered(w, c);
    assert ConnOk(w.emitted, w.taken, w.conns[c], Tail(w, c));
    ReceivedLedger(w, w.conns[c].log[w.conns[c].delivered]);
    DeliverWires(w, c);
    if w.proc.Some? { DeliverUp(w, w.proc.value, c); }
  }

  // ------------------------------------------------------------------ every run

  lemma StepKeeps(w: World, e: Event)
    requires Inv(w) && Enabled(w, e)
    ensures Inv(Apply(w, e))
  {
    if e.Start? {
      StartKeeps(w, e.session, e.at);
    } else if e.Deliver? {
      DeliverKeeps(w, e.conn);
    } else if e.Lose? {
      LoseKeeps(w, e.conn, e.upTo);
    } else {
      StepUpKeeps(w, w.proc.value, e);
    }
  }

  /** Steps that put frames, or start a session. */
  lemma PutStepKeeps(w: World, p: Process, e: Event)
    requires Inv(w) && Enabled(w, e) && w.proc == Some(p) && (e.Mint? || e.Emit? || e.EmitPlain? || e.ResendReports?)
    ensures Inv(ApplyUp(w, p, e))
  {
    match e
    case Mint(s, at) => MintingKeeps(w, p, s, at);
    case Emit(r) => EmitKeeps(w, p, r);
    case EmitPlain(t) => ResendKeeps(w, p, [Plain(t)]);
    case ResendReports(t) => ResendKeeps(w, p, EndReports(Resent(p.held), t));
  }

  /** Steps of the connection and its sender. */
  lemma LinkStepKeeps(w: World, p: Process, e: Event)
    requires Inv(w) && Enabled(w, e) && w.proc == Some(p) && (e.Connect? || e.Take? || e.Done? || e.Drop? || e.Crash?)
    ensures Inv(ApplyUp(w, p, e))
  {
    match e
    case Connect => ConnectKeeps(w, p);
    case Take => TakeKeeps(w, p);
    case Done => DoneKeeps(w, p);
    case Drop(arrived) => DropKeeps(w, p, arrived);
    case Crash(arrived) => CrashKeeps(w, p, arrived);
  }

  lemma StepUpKeeps(w: World, p: Process, e: Event)
    requires Inv(w) && Enabled(w, e) && w.proc == Some(p) && !e.Start? && !e.Deliver? && !e.Lose?
    ensures Inv(ApplyUp(w, p, e))
  {
    if e.Mint? || e.Emit? || e.EmitPlain? || e.ResendReports? {
      PutStepKeeps(w, p, e);
    } else if e.Connect? || e.Take? || e.Done? || e.Drop? || e.Crash? {
      LinkStepKeeps(w, p, e);
    } else if e.Handle? {
      HandleStepKeeps(w, p);
    } else {
      ArriveStepKeeps(w, p, e);
    }
  }

  lemma HandleStepKeeps(w: World, p: Process)
    requires Inv(w) && w.proc == Some(p) && p.inbox != []
    ensures Inv(ApplyUp(w, p, Handle))
  {
    match p.inbox[0]
    case Ack(s, pos) => AckKeeps(w, p, s, pos);
    case Init(c) => InitKeeps(w, p, c);
    case Assign(_, _, _) =>
      InboxTail(p.inbox, w.taken, w.acked);
      InboxKeeps(w, p, p.inbox[1..]);
  }

  lemma ArriveStepKeeps(w: World, p: Process, e: Event)
    requires Inv(w) && Enabled(w, e) && w.proc == Some(p) && (e.InitArrives? || e.AckArrives? || e.AssignArrives?)
    ensures Inv(ApplyUp(w, p, e))
  {
    var m := if e.InitArrives? then Init(if |w.conns| > 0 then |w.conns| - 1 else 0)
             else if e.AckArrives? then Ack(e.session, e.pos) else Assign(e.task, e.resume, Lengths(w.taken));
    InboxAppend(p.inbox, w.taken, w.acked, m);
    InboxKeeps(w, p, p.inbox + [m]);
  }

  lemma {:induction false} RunKeeps(w: World, es: seq<Event>)
    requires Inv(w) && Legal(w, es)
    ensures Inv(Run(w, es))
    decreases |es|
  {
    if es != [] {
      StepKeeps(w, es[0]);
      RunKeeps(Apply(w, es[0]), es[1..]);
    }
  }

  lemma BeginInv()
    ensures Inv(Begin())
  {
  }

  ghost predicate Reachable(w: World) {
    exists es :: Legal(Begin(), es) && Run(Begin(), es) == w
  }

  lemma ReachableInv(w: World)
    requires Reachable(w)
    ensures Inv(w)
  {
    var es :| Legal(Begin(), es) && Run(Begin(), es) == w;
    BeginInv();
    RunKeeps(Begin(), es);
  }

  lemma OwedOrTaken(emitted: Reports, created: map<string, real>, acked: map<string, nat>, taken: Reports,
                    store: Store, k: Key)
    requires LedgerOk(emitted, created, acked, taken) && Stored(store, emitted, created, acked)
    requires k.session in emitted && 1 <= k.pos <= |emitted[k.session]|
    ensures At(taken, k.session) <= emitted[k.session]
    ensures k.pos <= |At(taken, k.session)| || k in store.journal
    ensures k in store.journal <==> Get(acked, k.session, 0) < k.pos
    ensures k in store.journal ==> store.journal[k] == emitted[k.session][k.pos - 1]
  {
    assert IsOwed(emitted, acked, k) <==> Get(acked, k.session, 0) < k.pos;
  }

  /**
   * No loss. In every state a run reaches, whatever was dropped, lost or killed on the way:
   * the server has each session's first reports, in order, as they were emitted; every later
   * one is in the file, and in memory while the process is up. What is kept is exactly the
   * positions after the last acknowledgement handled.
   */
  lemma NothingLost(w: World, s: string, pos: nat)
    requires Reachable(w) && s in w.emitted && 1 <= pos <= |w.emitted[s]|
    ensures At(w.taken, s) <= w.emitted[s]
    ensures pos <= |At(w.taken, s)| || Key(s, pos) in w.store.journal
    ensures Key(s, pos) in w.store.journal <==> Get(w.acked, s, 0) < pos
    ensures Key(s, pos) in w.store.journal ==> w.store.journal[Key(s, pos)] == w.emitted[s][pos - 1]
    ensures w.proc.Some? ==> w.proc.value.held.retained == w.store.journal
  {
    ReachableInv(w);
    OwedOrTaken(w.emitted, w.createdAt, w.acked, w.taken, w.store, Key(s, pos));
  }

  lemma ArrivedIsTaken(emitted: Reports, taken: Reports, c: Conn, k: Key)
    requires ConnOk(emitted, taken, c, []) && c.delivered == |c.log| && HasKey(c.log, k)
    ensures k.pos <= |At(taken, k.session)|
  {
    var i :| 0 <= i < |c.log| && c.log[i].Numbered? && c.log[i].key == k;
    assert c.log[..c.delivered] == c.log && c.log[i] in c.log;
  }

  lemma OwedHasArrived(w: World, k: Key)
    requires Reachable(w) && Released(w) && k in w.store.journal && Line(w.proc.value.pipe) == []
    requires w.conns != [] ==> w.conns[|w.conns| - 1].delivered == |w.conns[|w.conns| - 1].log|
    ensures k.pos <= |At(w.taken, k.session)|
  {
    ReachableInv(w);
    var n := |w.conns| - 1;
    assert LastLog(w.conns) + [] == w.conns[n].log;
    assert ConnOk(w.emitted, w.taken, w.conns[n], Tail(w, n));
    ArrivedIsTaken(w.emitted, w.taken, w.conns[n], k);
  }

  /**
   * Delivery completes. Once a released connection has sent everything, and all of it arrived, the server has every
   * report of every session.
   */
  lemma AllDelivered(w: World, s: string)
    requires Reachable(w) && Released(w) && s in w.emitted && Line(w.proc.value.pipe) == []
    requires w.conns != [] ==> w.conns[|w.conns| - 1].delivered == |w.conns[|w.conns| - 1].log|
    ensures At(w.taken, s) == w.emitted[s]
  {
    ReachableInv(w);
    if w.emitted[s] != [] {
      var last := Key(s, |w.emitted[s]|);
      OwedOrTaken(w.emitted, w.createdAt, w.acked, w.taken, w.store, last);
      if last in w.store.journal { OwedHasArrived(w, last); }
    }
  }

  /**
   * In no state a run reaches did the server ever meet a hole, or an acknowledgement drop a frame that the server
   * lacks.
   */
  lemma NoHole(w: World)
    requires Reachable(w)
    ensures !w.hole
    ensures forall k: Key :: k.session in w.emitted && 1 <= k.pos <= |w.emitted[k.session]| && k !in w.store.journal
              ==> k.pos <= |At(w.taken, k.session)|
  {
    ReachableInv(w);
    forall k: Key | k.session in w.emitted && 1 <= k.pos <= |w.emitted[k.session]| && k !in w.store.journal
      ensures k.pos <= |At(w.taken, k.session)|
    {
      OwedOrTaken(w.emitted, w.createdAt, w.acked, w.taken, w.store, k);
    }
  }

  /**
   * No gap. Whatever frame arrives next on whatever connection, it is the session's next position or one the server
   * has.
   */
  lemma NoGap(w: World, c: nat)
    requires Reachable(w) && c < |w.conns| && w.conns[c].delivered < |w.conns[c].log|
    ensures var f := w.conns[c].log[w.conns[c].delivered];
      f.Numbered? ==> 1 <= f.key.pos <= |At(w.taken, f.key.session)| + 1
  {
    ReachableInv(w);
    assert ConnOk(w.emitted, w.taken, w.conns[c], Tail(w, c));
    var xs := Ahead(w.conns[c], Tail(w, c));
    assert xs[0] == w.conns[c].log[w.conns[c].delivered];
    assert xs[..0] == [];
  }

  /** In every state of a running process, reading the file gives memory back, in the order it is re-sent. */
  lemma MemoryRefinesFile(w: World)
    requires Reachable(w) && w.proc.Some?
    ensures Owed(w.store) == w.store.journal.Keys
    ensures LoadOrder(w.store) == Order(w.proc.value.held)
    ensures w.store.journal == w.proc.value.held.retained
  {
    ReachableInv(w);
    LoadKeepsAll(w.store, w.emitted, w.createdAt, w.acked);
    LoadIsResendOrder(Kept(w.proc.value.held, w.store), w.emitted, w.createdAt, w.acked);
  }
}
