/**
 * The agent-report delivery protocol as a state machine: the agent's memory and journal
 * file, its sender, one first-in first-out channel per connection, and a server that takes
 * a session's next position, skips those it has, and acknowledges cumulatively.
 */
module Delivery {
  import opened Frames
  import opened Retention
  import opened Sender
  import opened Memory
  import opened Bookkeeping

  function At(m: Reports, s: string): seq<Report> {
    if s in m then m[s] else []
  }

  /** A connection: what was put on its wire, and how much of that arrived. */
  datatype Conn = Conn(log: seq<Frame>, delivered: nat)

  /** What waits in the transport's inbound queue. An Init names the connection it is for. */
  datatype Inbound =
    | Ack(session: string, pos: nat)
    | Init(conn: nat)
    | Assign(task: string, resume: Resume, seen: map<string, nat>)

  datatype Recorded = Recorded(key: string, effect: string, value: string)
  datatype Resume = Resume(effects: seq<Recorded>, lastStep: nat)

  /**
   * `live`: the last connection has a sender. `releasedBy`: the Init that let it send.
   * `stale`: an earlier connection's Init was still waiting when it was opened.
   */
  datatype Process = Process(held: Held, current: string, pipe: Pipe, inbox: seq<Inbound>,
                             live: bool, releasedBy: Option<nat>, stale: bool)

  /** `emitted`, `createdAt` and `acked` are the history: reports by session, creations, acks handled. */
  datatype World = World(emitted: Reports, createdAt: map<string, real>, acked: map<string, nat>, store: Store,
                         proc: Option<Process>, conns: seq<Conn>, taken: Reports, hole: bool)

  datatype Event =
    | Start(session: string, at: real)
    | Mint(session: string, at: real)
    | Emit(report: Report)
    | EmitPlain(text: string)
    | ResendReports(task: string)
    | Connect
    | Take
    | Done
    | Drop(arrived: bool)
    | InitArrives
    | AckArrives(session: string, pos: nat)
    | AssignArrives(task: string, resume: Resume)
    | Handle
    | Deliver(conn: nat)
    | Lose(conn: nat, upTo: nat)
    | Crash(arrived: bool)

  function Begin(): World {
    World(map[], map[], map[], Store(map[], map[]), None, [], map[], false)
  }

  // ------------------------------------------------------------------ steps

  /** The server's resume journal holds what it received of the task. */
  ghost predicate HoldsReceived(resume: Resume, taken: Reports, task: string) {
    forall s, i :: s in taken && 0 <= i < |taken[s]| ==> Covers(resume, task, taken[s][i])
  }

  ghost predicate Covers(resume: Resume, task: string, r: Report) {
    r.task == Some(task) ==>
      && (r.body.Effect? && r.body.key != "" ==> exists e <- resume.effects :: e.key == r.body.key)
      && (r.step.Some? ==> r.step.value <= resume.lastStep)
  }

  ghost predicate Enabled(w: World, e: Event) {
    match e
    case Start(s, _) => w.proc.None? && s !in w.emitted
    case Mint(s, _) => w.proc.Some? && s !in w.emitted
    case Emit(_) | EmitPlain(_) | ResendReports(_) | Crash(_) => w.proc.Some?
    case Connect => w.proc.Some? && !w.proc.value.live
    case Take => w.proc.Some? && w.proc.value.live && w.proc.value.releasedBy.Some? && CanTake(w.proc.value.pipe)
    case Done => w.proc.Some? && w.proc.value.live && w.proc.value.pipe.inFlight.Some?
    case Drop(_) | InitArrives => w.proc.Some? && w.proc.value.live
    case AckArrives(s, p) => w.proc.Some? && w.proc.value.live && s in w.taken && p <= |w.taken[s]|
    case AssignArrives(t, r) => w.proc.Some? && w.proc.value.live && HoldsReceived(r, w.taken, t)
    case Handle => w.proc.Some? && w.proc.value.inbox != []
    case Deliver(c) => c < |w.conns| && w.conns[c].delivered < |w.conns[c].log|
    case Lose(c, n) => c < |w.conns| && !IsLive(w, c) && w.conns[c].delivered <= n <= |w.conns[c].log|
  }

  predicate IsLive(w: World, c: nat) {
    w.proc.Some? && w.proc.value.live && c == |w.conns| - 1
  }

  /** The frame in flight when the connection dies may or may not have arrived on the wire. */
  function Cut(conns: seq<Conn>, p: Process, arrived: bool): seq<Conn> {
    if p.live && arrived && p.pipe.inFlight.Some? && conns != [] then Wire(conns, p.pipe.inFlight.value) else conns
  }

  function Wire(conns: seq<Conn>, f: Frame): seq<Conn>
    requires conns != []
  {
    var c := |conns| - 1;
    conns[c := conns[c].(log := conns[c].log + [f])]
  }

  /** The server takes a session's next position and skips what it has; anything later is a hole. */
  function Received(w: World, f: Frame): World {
    if f.Plain? then w else
    var n := |At(w.taken, f.key.session)|;
    if f.key.pos <= n then w
    else if f.key.pos == n + 1 then w.(taken := w.taken[f.key.session := At(w.taken, f.key.session) + [f.report]])
    else w.(hole := true)
  }

  function Lengths(m: Reports): map<string, nat> {
    map s | s in m :: |m[s]|
  }

  predicate IsInit(m: Inbound) {
    m.Init?
  }

  /** A session is minted: it gets its row, and its position 1 is next. */
  function Minted(w: World, k: Kept, s: string, at: real): World {
    w.(emitted := w.emitted[s := []], createdAt := w.createdAt[s := at], store := Knowing(k, true, s, at).store)
  }

  /** `astart` of a new process: it reads the file, then mints its session. */
  function Started(w: World, s: string, at: real): World {
    var k := Loaded(Kept(Held(map[], map[]), w.store));
    Minted(w, k, s, at).(proc := Some(Process(Knowing(k, true, s, at).held, s, Pipe([], None, None), [], false,
          None, false)))
  }

  function Reminted(w: World, p: Process, s: string, at: real): World {
    var k := Kept(p.held, w.store);
    Minted(w, k, s, at).(proc := Some(p.(held := Knowing(k, true, s, at).held, current := s)))
  }

  function NextKey(w: World, p: Process): Key {
    Key(p.current, |At(w.emitted, p.current)| + 1)
  }

  /** Numbering, retention and hand-off of a report are one step. */
  function Emitted(w: World, p: Process, r: Report): World {
    var k := Retained(Kept(p.held, w.store), true, NextKey(w, p), r, 0.0);
    w.(emitted := w.emitted[p.current := At(w.emitted, p.current) + [r]], store := k.store,
       proc := Some(p.(held := k.held, pipe := Put(p.pipe, Numbered(NextKey(w, p), r)))))
  }

  function Connected(w: World, p: Process): World {
    w.(conns := w.conns + [Conn([], 0)],
       proc := Some(p.(live := true, releasedBy := None, stale := exists m <- p.inbox :: IsInit(m))))
  }

  function HandledAck(w: World, p: Process, s: string, pos: nat): World
    requires p.inbox != []
  {
    var k := Acknowledged(Kept(p.held, w.store), true, s, pos, p.current);
    w.(proc := Some(p.(held := k.held, inbox := p.inbox[1..])), store := k.store, acked := Raised(w.acked, s, pos))
  }

  function HandledInit(w: World, p: Process, c: nat): World
    requires p.inbox != []
  {
    w.(proc := Some(p.(pipe := AfterInit(p.pipe, p.held), inbox := p.inbox[1..],
                       releasedBy := if p.live && p.releasedBy.None? then Some(c) else p.releasedBy)))
  }

  function Delivered(w: World, c: nat): World
    requires c < |w.conns| && w.conns[c].delivered < |w.conns[c].log|
  {
    var conn := w.conns[c];
    Received(w, conn.log[conn.delivered]).(conns := w.conns[c := conn.(delivered := conn.delivered + 1)])
  }

  function Apply(w: World, e: Event): World
    requires Enabled(w, e)
  {
    if e.Start? then Started(w, e.session, e.at)
    else if e.Deliver? then Delivered(w, e.conn)
    else if e.Lose? then w.(conns := w.conns[e.conn := w.conns[e.conn].(log := w.conns[e.conn].log[..e.upTo])])
    else ApplyUp(w, w.proc.value, e)
  }

  /** The steps of a running process. */
  function ApplyUp(w: World, p: Process, e: Event): World
    requires Enabled(w, e) && w.proc == Some(p) && !e.Start? && !e.Deliver? && !e.Lose?
  {
    match e
    case Mint(s, at) => Reminted(w, p, s, at)
    case Emit(r) => Emitted(w, p, r)
    case EmitPlain(t) => w.(proc := Some(p.(pipe := Put(p.pipe, Plain(t)))))
    case ResendReports(t) => w.(proc := Some(p.(pipe := PutAll(p.pipe, EndReports(Resent(p.held), t)))))
    case Connect => Connected(w, p)
    case Take => w.(proc := Some(p.(pipe := Took(p.pipe))))
    case Done => w.(conns := Cut(w.conns, p, true), proc := Some(p.(pipe := Sent(p.pipe))))
    case Drop(arrived) => w.(conns := Cut(w.conns, p, arrived),
          proc := Some(p.(pipe := Requeued(p.pipe), live := false)))
    case InitArrives => w.(proc := Some(p.(inbox := p.inbox + [Init(if |w.conns| > 0 then |w.conns| - 1 else 0)])))
    case AckArrives(s, pos) => w.(proc := Some(p.(inbox := p.inbox + [Ack(s, pos)])))
    case AssignArrives(t, r) => w.(proc := Some(p.(inbox := p.inbox + [Assign(t, r, Lengths(w.taken))])))
    case Handle =>
      (match p.inbox[0]
       case Ack(s, pos) => HandledAck(w, p, s, pos)
       case Init(c) => HandledInit(w, p, c)
       case Assign(_, _, _) => w.(proc := Some(p.(inbox := p.inbox[1..]))))
    case Crash(arrived) => w.(proc := None, conns := Cut(w.conns, p, arrived))
  }

  ghost predicate Legal(w: World, es: seq<Event>)
    decreases |es|
  {
    es == [] || (Enabled(w, es[0]) && Legal(Apply(w, es[0]), es[1..]))
  }

  ghost function Run(w: World, es: seq<Event>): World
    requires Legal(w, es)
    decreases |es|
  {
    if es == [] then w else Run(Apply(w, es[0]), es[1..])
  }
}
