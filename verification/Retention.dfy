/** The frames an agent still owes its server, in the two tables of its journal file. */
module Retention {
  import opened Frames

  datatype SyncRow = SyncRow(createdAt: real, ackedPos: nat)
  datatype StoredFrame = StoredFrame(key: Key, createdAt: real, report: Report)

  /** One agent's rows: `journal` by frame, `journal_sync` by session. */
  datatype Store = Store(journal: map<Key, Report>, sync: map<string, SyncRow>)

  function Opened(t: Store, session: string, at: real): Store {
    if session in t.sync then t else t.(sync := t.sync[session := SyncRow(at, 0)])
  }

  function Added(t: Store, key: Key, report: Report): Store {
    t.(journal := t.journal[key := report])
  }

  /** `m` without what an acknowledgement up to `pos` covers. */
  function Without(m: map<Key, Report>, session: string, pos: nat): map<Key, Report> {
    map k | k in m && !(k.session == session && k.pos <= pos) :: m[k]
  }

  function Acked(t: Store, session: string, pos: nat): Store {
    Store(Without(t.journal, session, pos),
          if session in t.sync && t.sync[session].ackedPos < pos
          then t.sync[session := t.sync[session].(ackedPos := pos)] else t.sync)
  }

  predicate Owes(m: map<Key, Report>, session: string) {
    exists k <- m :: k.session == session
  }

  function Pruned(t: Store, keep: string): Store {
    t.(sync := map s | s in t.sync && (s == keep || Owes(t.journal, s)) :: t.sync[s])
  }

  function CreatedAt(t: Store, session: string): real {
    if session in t.sync then t.sync[session].createdAt else 0.0
  }

  function Times(t: Store): map<string, real> {
    map s | s in t.sync :: t.sync[s].createdAt
  }

  /** The keys `load` selects: past what the session's row says was acknowledged. */
  function Owed(t: Store): set<Key> {
    set k | k in t.journal && k.pos > (if k.session in t.sync then t.sync[k.session].ackedPos else 0)
  }

  function LoadOrder(t: Store): seq<Key> {
    ResendOrder(Times(t), Owed(t))
  }

  datatype RowKey = RowKey(agent: string, key: Key)
  datatype SyncKey = SyncKey(agent: string, session: string)

  /** The tables of every agent sharing the file. */
  datatype Tables = Tables(journal: map<RowKey, Report>, sync: map<SyncKey, SyncRow>)

  /** One agent's rows. */
  ghost predicate IsView(t: Tables, agent: string, v: Store) {
    && (forall k: Key :: k in v.journal <==> RowKey(agent, k) in t.journal)
    && (forall k <- v.journal :: v.journal[k] == t.journal[RowKey(agent, k)])
    && (forall s: string :: s in v.sync <==> SyncKey(agent, s) in t.sync)
    && (forall s <- v.sync :: v.sync[s] == t.sync[SyncKey(agent, s)])
  }

  function View(t: Tables, agent: string): Store {
    Store(map r | r in t.journal && r.agent == agent :: r.key := t.journal[r],
          map k | k in t.sync && k.agent == agent :: k.session := t.sync[k])
  }

  lemma ViewIs(t: Tables, agent: string)
    ensures IsView(t, agent, View(t, agent))
  {
  }

  lemma RowsIn(t: Tables, agent: string) returns (v: Store)
    ensures IsView(t, agent, v)
  {
    v := View(t, agent);
    ViewIs(t, agent);
  }

  lemma ViewUnique(t: Tables, agent: string, v: Store)
    requires IsView(t, agent, v)
    ensures v == View(t, agent)
  {
    ViewIs(t, agent);
    assert View(t, agent).journal == v.journal && View(t, agent).sync == v.sync;
  }

  lemma ViewsAgree(t: Tables, agent: string, v: Store, w: Store)
    requires IsView(t, agent, v) && IsView(t, agent, w)
    ensures v == w
  {
    assert v.journal == w.journal && v.sync == w.sync;
  }

  /** The rows of every other agent. */
  function Others(t: Tables, agent: string): Tables {
    Tables(map r | r in t.journal && r.agent != agent :: t.journal[r],
           map k | k in t.sync && k.agent != agent :: t.sync[k])
  }

  lemma OtherRow(t: Tables, u: Tables, agent: string, r: RowKey, k: SyncKey)
    requires Others(t, agent) == Others(u, agent) && r.agent != agent && k.agent != agent
    ensures (r in t.journal <==> r in u.journal) && (r in t.journal ==> t.journal[r] == u.journal[r])
    ensures (k in t.sync <==> k in u.sync) && (k in t.sync ==> t.sync[k] == u.sync[k])
  {
    assert r in t.journal <==> r in Others(t, agent).journal;
    assert r in u.journal <==> r in Others(u, agent).journal;
    assert k in t.sync <==> k in Others(t, agent).sync;
    assert k in u.sync <==> k in Others(u, agent).sync;
  }

  /** What another agent sees does not change with one agent's rows. */
  lemma OthersView(t: Tables, u: Tables, agent: string, other: string, v: Store)
    requires Others(t, agent) == Others(u, agent) && other != agent && IsView(t, other, v)
    ensures IsView(u, other, v)
  {
    forall k: Key ensures k in v.journal <==> RowKey(other, k) in u.journal
      ensures k in v.journal ==> v.journal[k] == u.journal[RowKey(other, k)]
    {
      OtherRow(t, u, agent, RowKey(other, k), SyncKey(other, ""));
    }
    forall s: string ensures s in v.sync <==> SyncKey(other, s) in u.sync
      ensures s in v.sync ==> v.sync[s] == u.sync[SyncKey(other, s)]
    {
      OtherRow(t, u, agent, RowKey(other, Key("", 0)), SyncKey(other, s));
    }
  }

  predicate HasFrames(t: Tables, k: SyncKey) {
    exists r <- t.journal :: r.agent == k.agent && r.key.session == k.session
  }

  /** The file every agent sharing a working directory keeps its rows in. */
  class JournalFile {
    var tables: Tables

    constructor ()
      ensures tables == Tables(map[], map[])
    {
      tables := Tables(map[], map[]);
    }
  }

  lemma RowsSorted(t: Store, rows: seq<StoredFrame>)
    requires |rows| == |LoadOrder(t)|
    requires forall i :: 0 <= i < |rows| ==>
               rows[i].key == LoadOrder(t)[i] && rows[i].createdAt == CreatedAt(t, LoadOrder(t)[i].session)
    ensures forall i, j :: 0 <= i < j < |rows| ==>
              var a, b := rows[i], rows[j];
              || a.createdAt < b.createdAt
              || (a.createdAt == b.createdAt && TextBefore(a.key.session, b.key.session))
              || (a.createdAt == b.createdAt && a.key.session == b.key.session && a.key.pos < b.key.pos)
  {
    forall i | 0 <= i < |rows| ensures Get(Times(t), rows[i].key.session, 0.0) == rows[i].createdAt {
    }
    forall i, j | 0 <= i < j < |rows| ensures Before(Times(t), rows[i].key, rows[j].key) {
    }
  }

  lemma RowSays(t: Tables, agent: string, v: Store, key: Key)
    requires IsView(t, agent, v) && key in v.journal
    ensures var r, k := RowKey(agent, key), SyncKey(agent, key.session);
      && r in t.journal && v.journal[key] == t.journal[r]
      && CreatedAt(v, key.session) == if k in t.sync then t.sync[k].createdAt else 0.0
  {
  }

  lemma RowsSay(t: Tables, agent: string, v: Store, rows: seq<StoredFrame>)
    requires IsView(t, agent, v)
    requires forall row <- rows ::
               row.key in v.journal && row == StoredFrame(row.key, CreatedAt(v, row.key.session), v.journal[row.key])
    ensures forall row <- rows ::
              var r, k := RowKey(agent, row.key), SyncKey(agent, row.key.session);
              && r in t.journal && row.report == t.journal[r]
              && row.createdAt == (if k in t.sync then t.sync[k].createdAt else 0.0)
  {
    forall row | row in rows { RowSays(t, agent, v, row.key); }
  }

  lemma RowsAreOwed(t: Store, rows: seq<StoredFrame>)
    requires |rows| == |LoadOrder(t)| && forall i :: 0 <= i < |rows| ==> rows[i].key == LoadOrder(t)[i]
    ensures forall key: Key :: (exists row <- rows :: row.key == key) <==> key in Owed(t)
  {
    var order := LoadOrder(t);
    forall key: Key ensures (exists row <- rows :: row.key == key) <==> key in Owed(t) {
      if key in Owed(t) {
        var i :| 0 <= i < |order| && order[i] == key;
        assert rows[i] in rows;
      }
      if exists row <- rows :: row.key == key {
        var i :| 0 <= i < |rows| && rows[i].key == key;
        assert order[i] in order;
      }
    }
  }

  lemma OwedRows(t: Tables, agent: string, v: Store)
    requires IsView(t, agent, v)
    ensures forall key: Key :: key in Owed(v) <==>
              && RowKey(agent, key) in t.journal
              && key.pos > var k := SyncKey(agent, key.session); if k in t.sync then t.sync[k].ackedPos else 0
  {
  }

  /** One agent's access to the file: one SQL statement, or two, per operation. `mine` is its rows. */
  class RetainedFrames {
    const file: JournalFile
    const agent: string
    ghost var mine: Store

    ghost predicate Valid()
      reads this, file
    {
      IsView(file.tables, agent, mine)
    }

    constructor (file: JournalFile, agent: string)
      ensures this.file == file && this.agent == agent && Valid()
    {
      var rows := RowsIn(file.tables, agent);
      this.file, this.agent := file, agent;
      mine := rows;
    }

    method OpenSession(session: string, at: real) returns (created: real)
      requires Valid()
      modifies this, file
      ensures Valid() && mine == Opened(old(mine), session, at)
      ensures Others(file.tables, agent) == Others(old(file.tables), agent)
      ensures var k, was := SyncKey(agent, session), old(file.tables);
        && file.tables == was.(sync := if k in was.sync then was.sync else was.sync[k := SyncRow(at, 0)])
        && session in mine.sync && created == file.tables.sync[k].createdAt == mine.sync[session].createdAt
    {
      ghost var was := file.tables;
      var k := SyncKey(agent, session);
      if k !in file.tables.sync {
        file.tables := file.tables.(sync := file.tables.sync[k := SyncRow(at, 0)]);
      }
      created := file.tables.sync[k].createdAt;
      mine := Opened(mine, session, at);
      assert Others(file.tables, agent).sync == Others(was, agent).sync;
    }

    method Add(key: Key, report: Report)
      requires Valid()
      modifies this, file
      ensures Valid() && mine == Added(old(mine), key, report)
      ensures file.tables == old(file.tables).(journal := old(file.tables).journal[RowKey(agent, key) := report])
      ensures Others(file.tables, agent) == Others(old(file.tables), agent)
    {
      ghost var was := file.tables;
      file.tables := file.tables.(journal := file.tables.journal[RowKey(agent, key) := report]);
      mine := Added(mine, key, report);
      assert Others(file.tables, agent).journal == Others(was, agent).journal;
    }

    method DeleteUpTo(session: string, pos: nat)
      requires Valid()
      modifies this, file
      ensures Valid() && mine == old(mine).(journal := Without(old(mine).journal, session, pos))
      ensures var was, now := old(file.tables).journal, file.tables.journal;
        && file.tables.sync == old(file.tables).sync && (forall r <- now :: r in was && now[r] == was[r])
        && (forall r <- was :: r in now <==> !(r.agent == agent && r.key.session == session && r.key.pos <= pos))
      ensures Others(file.tables, agent) == Others(old(file.tables), agent)
    {
      ghost var was := file.tables;
      var t := file.tables;
      file.tables := t.(journal :=
        map r | r in t.journal && !(r.agent == agent && r.key.session == session && r.key.pos <= pos) :: t.journal[r]);
      mine := mine.(journal := Without(mine.journal, session, pos));
      assert Others(file.tables, agent).journal == Others(was, agent).journal;
    }

    method RaiseAcked(session: string, pos: nat)
      requires Valid()
      modifies this, file
      ensures Valid() && mine == old(mine).(sync := Acked(old(mine), session, pos).sync)
      ensures var k, was, now := SyncKey(agent, session), old(file.tables).sync, file.tables.sync;
        && file.tables.journal == old(file.tables).journal && now.Keys == was.Keys
        && (forall j <- now :: j != k ==> now[j] == was[j])
        && (k in was ==> now[k].createdAt == was[k].createdAt && now[k].ackedPos >= was[k].ackedPos
                         && now[k].ackedPos >= pos && now[k].ackedPos in {was[k].ackedPos, pos})
      ensures Others(file.tables, agent) == Others(old(file.tables), agent)
    {
      ghost var was := file.tables;
      var k := SyncKey(agent, session);
      if k in file.tables.sync {
        var row := file.tables.sync[k];
        var raised := row.(ackedPos := if row.ackedPos < pos then pos else row.ackedPos);
        file.tables := file.tables.(sync := file.tables.sync[k := raised]);
        mine := mine.(sync := mine.sync[session := raised]);
        assert Others(file.tables, agent).sync == Others(was, agent).sync;
      }
    }

    /** `ack`: one transaction of a delete and an update. */
    method Ack(session: string, pos: nat)
      requires Valid()
      modifies this, file
      ensures Valid() && mine == Acked(old(mine), session, pos)
      ensures var was, now := old(file.tables).journal, file.tables.journal;
        && (forall r <- now :: r in was && now[r] == was[r])
        && (forall r <- was :: r in now <==> !(r.agent == agent && r.key.session == session && r.key.pos <= pos))
      ensures var k, was, now := SyncKey(agent, session), old(file.tables).sync, file.tables.sync;
        && now.Keys == was.Keys && (forall j <- now :: j != k ==> now[j] == was[j])
        && (k in was ==> now[k].createdAt == was[k].createdAt && now[k].ackedPos >= was[k].ackedPos
                         && now[k].ackedPos >= pos && now[k].ackedPos in {was[k].ackedPos, pos})
      ensures Others(file.tables, agent) == Others(old(file.tables), agent)
    {
      DeleteUpTo(session, pos);
      RaiseAcked(session, pos);
    }

    method Prune(keep: Option<string>)
      requires Valid()
      modifies this, file
      ensures Valid() && mine == Pruned(old(mine), if keep.Some? then keep.value else "")
      ensures file.tables.journal == old(file.tables).journal
      ensures var was, now := old(file.tables).sync, file.tables.sync;
        && (forall k <- now :: k in was && now[k] == was[k])
        && (forall k <- was :: k in now <==>
              k.agent != agent || k.session == (if keep.Some? then keep.value else "")
              || exists r <- file.tables.journal :: r.agent == k.agent && r.key.session == k.session)
      ensures Others(file.tables, agent) == Others(old(file.tables), agent)
    {
      ghost var was := mine;
      var t := file.tables;
      var kept := if keep.Some? then keep.value else "";
      file.tables := t.(sync :=
        map k | k in t.sync && !(k.agent == agent && k.session != kept && !HasFrames(t, k)) :: t.sync[k]);
      mine := Pruned(was, kept);
      forall s: string ensures HasFrames(t, SyncKey(agent, s)) <==> Owes(was.journal, s) {
        if HasFrames(t, SyncKey(agent, s)) {
          var r :| r in t.journal && r.agent == agent && r.key.session == s;
          assert r == RowKey(agent, r.key);
        }
        if Owes(was.journal, s) {
          var k :| k in was.journal && k.session == s;
          assert RowKey(agent, k) in t.journal;
        }
      }
      assert Others(file.tables, agent).sync == Others(t, agent).sync;
    }

    /** The rows the statement selects, in its order. */
    method Select() returns (rows: seq<StoredFrame>)
      requires Valid()
      ensures |rows| == |LoadOrder(mine)|
      ensures forall i :: 0 <= i < |rows| ==>
                var k := LoadOrder(mine)[i];
                k in mine.journal && rows[i] == StoredFrame(k, CreatedAt(mine, k.session), mine.journal[k])
    {
      var v := View(file.tables, agent);
      ViewUnique(file.tables, agent, mine);
      var order := LoadOrder(v);
      forall i | 0 <= i < |order| ensures order[i] in v.journal { assert order[i] in Owed(v); }
      rows := seq(|order|, i requires 0 <= i < |order| && order[i] in v.journal =>
        StoredFrame(order[i], CreatedAt(v, order[i].session), v.journal[order[i]]));
    }

    method Load() returns (rows: seq<StoredFrame>)
      requires Valid()
      ensures |rows| == |LoadOrder(mine)|
      ensures forall i :: 0 <= i < |rows| ==>
                var k := LoadOrder(mine)[i];
                k in mine.journal && rows[i] == StoredFrame(k, CreatedAt(mine, k.session), mine.journal[k])
      ensures forall row <- rows ::
                var r, k := RowKey(agent, row.key), SyncKey(agent, row.key.session);
                && r in file.tables.journal && row.report == file.tables.journal[r]
                && row.createdAt == (if k in file.tables.sync then file.tables.sync[k].createdAt else 0.0)
      ensures forall key: Key :: (exists row <- rows :: row.key == key) <==>
                && RowKey(agent, key) in file.tables.journal
                && key.pos > var k := SyncKey(agent, key.session);
                             if k in file.tables.sync then file.tables.sync[k].ackedPos else 0
      ensures forall i, j :: 0 <= i < j < |rows| ==>
                var a, b := rows[i], rows[j];
                || a.createdAt < b.createdAt
                || (a.createdAt == b.createdAt && TextBefore(a.key.session, b.key.session))
                || (a.createdAt == b.createdAt && a.key.session == b.key.session && a.key.pos < b.key.pos)
    {
      rows := Select();
      RowsSay(file.tables, agent, mine, rows);
      RowsAreOwed(mine, rows);
      RowsSorted(mine, rows);
      OwedRows(file.tables, agent, mine);
    }
  }
}
