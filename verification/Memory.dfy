/** What a running agent holds of its unacknowledged frames, beside the journal file. */
module Memory {
  import opened Frames
  import opened Retention
  import opened Sender

  /** `_retained` and `_session_created`. */
  datatype Held = Held(retained: map<Key, Report>, created: map<string, real>)

  /** What an agent keeps: in memory, and in its rows of the file. */
  datatype Kept = Kept(held: Held, store: Store)

  /** Sessions with a frame that is loaded. */
  predicate Loads(t: Store, s: string) {
    exists k <- Owed(t) :: k.session == s
  }

  function LoadedFrames(t: Store): map<Key, Report> {
    map k | k in Owed(t) :: t.journal[k]
  }

  function LoadedTimes(t: Store): map<string, real> {
    var sessions := set k | k in Owed(t) :: k.session;
    map s | s in sessions :: CreatedAt(t, s)
  }

  lemma LoadedAre(t: Store)
    ensures LoadedFrames(t).Keys == Owed(t) && forall k <- Owed(t) :: LoadedFrames(t)[k] == t.journal[k]
    ensures forall s: string :: s in LoadedTimes(t) <==> Loads(t, s)
    ensures forall s <- LoadedTimes(t) :: LoadedTimes(t)[s] == CreatedAt(t, s)
  {
  }

  /** `_open_store` on first use: what is in memory already stays. */
  function Loaded(k: Kept): Kept {
    k.(held := Held(LoadedFrames(k.store) + k.held.retained, LoadedTimes(k.store) + k.held.created))
  }

  /** `_open_store`: what is kept once the store is open. */
  function Opening(k: Kept, open: bool): Kept {
    if open then k else Loaded(k)
  }

  /** An unknown session gets its row, and memory the row's time. */
  function Entered(k: Kept, session: string, at: real): Kept {
    var t := Opened(k.store, session, at);
    Kept(k.held.(created := k.held.created[session := t.sync[session].createdAt]), t)
  }

  /** `_know_session`: only an unknown session opens the store. */
  function Knowing(k: Kept, open: bool, session: string, at: real): Kept {
    if session in k.held.created then k else Entered(Opening(k, open), session, at)
  }

  /** `_retain_emitted`: in memory first, then the session, then in the file. */
  function Retained(k: Kept, open: bool, key: Key, report: Report, at: real): Kept {
    var first := k.(held := k.held.(retained := k.held.retained[key := report]));
    var known := Knowing(first, open, key.session, at);
    var o := Opening(known, open || key.session !in first.held.created);
    o.(store := Added(o.store, key, report))
  }

  /** `_journal_ack`: in memory first, then in the file. */
  function Acknowledged(k: Kept, open: bool, session: string, pos: nat, current: string): Kept {
    var o := Opening(k.(held := k.held.(retained := Without(k.held.retained, session, pos))), open);
    var t := Acked(o.store, session, pos);
    o.(store := if Owes(o.held.retained, session) then t else Pruned(t, current))
  }

  // ------------------------------------------------------------------ what these are

  /** Opening a store adds what the file owes, with its sessions' times, and nothing over what memory has. */
  lemma OpeningIs(k: Kept, open: bool)
    ensures var u, t := Opening(k, open), k.store;
      && u.store == t && (open ==> u == k)
      && (!open ==>
            && (forall j: Key :: j in u.held.retained <==> j in k.held.retained || j in Owed(t))
            && (forall j <- u.held.retained ::
                  u.held.retained[j] == if j in k.held.retained then k.held.retained[j] else t.journal[j])
            && (forall s: string :: s in u.held.created <==>
                  s in k.held.created || exists j <- Owed(t) :: j.session == s)
            && (forall s <- u.held.created :: u.held.created[s] ==
                  if s in k.held.created then k.held.created[s] else if s in t.sync then t.sync[s].createdAt else 0.0))
  {
    LoadedAre(k.store);
    assert forall s: string :: Loads(k.store, s) <==> exists j <- Owed(k.store) :: j.session == s;
  }

  /** A session that memory does not know gets a row unless it has one, and memory the row's time. */
  lemma KnowingIs(k: Kept, open: bool, session: string, at: real)
    ensures var u, t := Knowing(k, open, session, at), k.store;
      && (session in k.held.created ==> u == k)
      && (session !in k.held.created ==>
            && u.store == (if session in t.sync then t else t.(sync := t.sync[session := SyncRow(at, 0)]))
            && u.held.retained == Opening(k, open).held.retained
            && u.held.created == Opening(k, open).held.created[session := u.store.sync[session].createdAt])
  {
  }

  /** A report is kept in memory and in the file, and of a known session, with the store open, nothing else changes. */
  lemma RetainedIs(k: Kept, open: bool, key: Key, report: Report, at: real)
    ensures var u := Retained(k, open, key, report, at);
      && key in u.held.retained && u.held.retained[key] == report
      && u.store.journal == k.store.journal[key := report] && key.session in u.held.created
      && (forall j <- k.held.retained :: j != key ==> j in u.held.retained && u.held.retained[j] == k.held.retained[j])
      && (open && key.session in k.held.created ==>
            u == Kept(k.held.(retained := k.held.retained[key := report]), k.store.(journal := u.store.journal)))
  {
    var first := k.(held := k.held.(retained := k.held.retained[key := report]));
    OpeningIs(first, open);
    KnowingIs(first, open, key.session, at);
    OpeningIs(Knowing(first, open, key.session, at), open || key.session !in k.held.created);
  }

  /** An acknowledgement: what it covers goes, in memory and in the file, and its position is never lowered. */
  lemma AcknowledgedIs(k: Kept, session: string, pos: nat, current: string)
    ensures var u, t := Acknowledged(k, true, session, pos, current), k.store;
      && u.held.created == k.held.created
      && (forall j: Key :: j in u.held.retained <==>
            j in k.held.retained && !(j.session == session && j.pos <= pos))
      && (forall j <- u.held.retained :: u.held.retained[j] == k.held.retained[j])
      && (forall j: Key :: j in u.store.journal <==> j in t.journal && !(j.session == session && j.pos <= pos))
      && (forall j <- u.store.journal :: u.store.journal[j] == t.journal[j])
      && (forall s <- u.store.sync :: s in t.sync && u.store.sync[s].createdAt == t.sync[s].createdAt)
      && (forall s <- u.store.sync :: u.store.sync[s].ackedPos ==
            if s == session && t.sync[s].ackedPos < pos then pos else t.sync[s].ackedPos)
      && (forall s <- t.sync :: s !in u.store.sync <==>
            && s != current
            && (forall j <- u.held.retained :: j.session != session)
            && (forall j <- u.store.journal :: j.session != s))
  {
  }

  /** What is sent again: every retained frame, once, in the order of creation, session and position. */
  lemma ResentIs(held: Held)
    ensures var fs := Resent(held);
      && |fs| == |held.retained|
      && (forall i :: 0 <= i < |fs| ==> fs[i].Numbered? && fs[i].key in held.retained
                                        && fs[i].report == held.retained[fs[i].key])
      && (forall i, j :: 0 <= i < j < |fs| ==> Before(held.created, fs[i].key, fs[j].key))
      && (forall k <- held.retained :: exists i :: 0 <= i < |fs| && fs[i].key == k)
  {
    var keys := Order(held);
    ListingLength(held.created, keys, held.retained.Keys);
    forall k | k in held.retained ensures exists i :: 0 <= i < |keys| && Resent(held)[i].key == k {
      assert k in keys;
      var i :| 0 <= i < |keys| && keys[i] == k;
      assert Resent(held)[i].key == k;
    }
  }

  /** A sorted listing has each key once. */
  lemma {:induction false} ListingLength(created: map<string, real>, xs: seq<Key>, keys: set<Key>)
    requires Sorted(created, xs) && forall k :: k in keys <==> k in xs
    ensures |xs| == |keys|
    decreases |xs|
  {
    if xs == [] {
      assert forall k :: k !in keys;
      assert keys == {};
    } else {
      var rest := keys - {xs[0]};
      forall k ensures k in rest <==> k in xs[1..] {
        if k in xs[1..] { BeforeTotal(created, k, xs[0]); }
      }
      ListingLength(created, xs[1..], rest);
    }
  }

  /** After an Init: what is in flight stays, a plain held frame too; queued plain frames come before the retained. */
  lemma AfterInitIs(p: Pipe, held: Held)
    ensures var q := AfterInit(p, held);
      && q.inFlight == p.inFlight
      && q.held == (if p.held.Some? && p.held.value.Plain? then p.held else None)
      && q.queue == Plains(p.queue) + Resent(held)
  {
  }

  /** The retained frames in the order they are sent again. */
  function Order(held: Held): seq<Key> {
    ResendOrder(held.created, held.retained.Keys)
  }

  function FramesOf(held: Held, keys: seq<Key>): (fs: seq<Frame>)
    requires forall k <- keys :: k in held.retained
    ensures |fs| == |keys|
    ensures forall i :: 0 <= i < |keys| ==> fs[i] == Numbered(keys[i], held.retained[keys[i]])
  {
    seq(|keys|, i requires 0 <= i < |keys| => Numbered(keys[i], held.retained[keys[i]]))
  }

  /** `_aresend_retained`: every retained frame is put, in order. */
  function Resent(held: Held): (fs: seq<Frame>)
    ensures forall f <- fs :: f.Numbered? && f.key in held.retained && f.report == held.retained[f.key]
    ensures forall k <- held.retained :: Numbered(k, held.retained[k]) in fs
  {
    var keys := Order(held);
    var fs := FramesOf(held, keys);
    assert forall k <- held.retained :: k in keys;
    assert forall k <- held.retained :: Numbered(k, held.retained[k]) in fs by {
      forall k | k in held.retained ensures Numbered(k, held.retained[k]) in fs {
        var i :| 0 <= i < |keys| && keys[i] == k;
        assert fs[i] == Numbered(k, held.retained[k]);
      }
    }
    fs
  }

  /** `_retained_terminal_reports`, of those in `fs`. */
  function EndReports(fs: seq<Frame>, task: string): (es: seq<Frame>)
    ensures forall f :: f in es <==> f in fs && f.Numbered? && f.report.Ends(task)
  {
    if fs == [] then [] else
    (if fs[0].Numbered? && fs[0].report.Ends(task) then [fs[0]] else []) + EndReports(fs[1..], task)
  }

  lemma FirstStays(created: map<string, real>, k: Key, rest: seq<Key>, some: seq<Key>)
    requires Sorted(created, [k] + rest) && Sorted(created, some) && forall j <- some :: j in rest
    ensures Sorted(created, [k] + some)
  {
    forall i | 0 <= i < |some| ensures Before(created, k, some[i]) {
      assert some[i] in some;
      var j :| 0 <= j < |rest| && rest[j] == some[i];
      assert ([k] + rest)[0] == k && ([k] + rest)[j + 1] == some[i];
    }
  }

  lemma FirstFrame(held: Held, k: Key, keys: seq<Key>)
    requires k in held.retained && forall j <- keys :: j in held.retained
    ensures FramesOf(held, [k] + keys) == [Numbered(k, held.retained[k])] + FramesOf(held, keys)
  {
  }

  lemma EndReportsStep(held: Held, k: Key, rest: seq<Key>, task: string)
    requires k in held.retained && forall j <- rest :: j in held.retained
    ensures EndReports(FramesOf(held, [k] + rest), task) ==
            (if held.retained[k].Ends(task) then [Numbered(k, held.retained[k])] else [])
            + EndReports(FramesOf(held, rest), task)
  {
    FirstFrame(held, k, rest);
    assert FramesOf(held, [k] + rest)[1..] == FramesOf(held, rest);
  }

  /** Those are the frames of the ended task's keys, each once, in the order they are sent again. */
  lemma {:induction false} EndReportsIn(held: Held, order: seq<Key>, task: string) returns (keys: seq<Key>)
    requires Sorted(held.created, order) && forall k <- order :: k in held.retained
    ensures forall k: Key :: k in keys <==> k in order && held.retained[k].Ends(task)
    ensures Sorted(held.created, keys) && EndReports(FramesOf(held, order), task) == FramesOf(held, keys)
    decreases |order|
  {
    if order == [] {
      keys := [];
    } else {
      var k, rest := order[0], order[1..];
      assert order == [k] + rest;
      var some := EndReportsIn(held, rest, task);
      EndReportsStep(held, k, rest, task);
      FirstFrame(held, k, some);
      FirstStays(held.created, k, rest, some);
      keys := if held.retained[k].Ends(task) then [k] + some else some;
    }
  }

  lemma EndReportsAre(held: Held, task: string) returns (keys: seq<Key>)
    ensures forall k: Key :: k in keys <==> k in held.retained && held.retained[k].Ends(task)
    ensures Sorted(held.created, keys) && EndReports(Resent(held), task) == FramesOf(held, keys)
  {
    keys := EndReportsIn(held, Order(held), task);
  }

  /** `_aafter_init`: queued numbered frames go, every retained one is put again. */
  function AfterInit(p: Pipe, held: Held): Pipe {
    PutAll(Discarded(p), Resent(held))
  }
}
