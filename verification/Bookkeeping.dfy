/** What memory and file hold is exactly what was emitted and not acknowledged. */
module Bookkeeping {
  import opened Frames
  import opened Retention
  import opened Memory

  /** Every report an agent ever numbered, by session; position 1 is first. */
  type Reports = map<string, seq<Report>>

  ghost predicate IsOwed(emitted: Reports, acked: map<string, nat>, k: Key) {
    k.session in emitted && Get(acked, k.session, 0) < k.pos <= |emitted[k.session]|
  }

  /** Per session exactly the positions after the last one acknowledged, up to the last emitted. */
  ghost predicate Exactly(m: map<Key, Report>, emitted: Reports, acked: map<string, nat>) {
    && (forall k: Key :: k in m <==> IsOwed(emitted, acked, k))
    && (forall k <- m :: m[k] == emitted[k.session][k.pos - 1])
  }

  /** What a session's row says is true, and every retained frame's session has a row. */
  ghost predicate RowsOk(rows: map<Key, Report>, syncs: map<string, SyncRow>, created: map<string, real>,
                         acked: map<string, nat>) {
    && (forall s <- syncs :: s in created && syncs[s] == SyncRow(created[s], Get(acked, s, 0)))
    && (forall k <- rows :: k.session in syncs)
  }

  ghost predicate Stored(t: Store, emitted: Reports, created: map<string, real>, acked: map<string, nat>) {
    Exactly(t.journal, emitted, acked) && RowsOk(t.journal, t.sync, created, acked)
  }

  /** Memory holds the file's rows, and knows when their sessions were created. */
  ghost predicate Mirrors(held: Held, rows: map<Key, Report>, created: map<string, real>) {
    && held.retained == rows
    && (forall s <- held.created :: s in created && held.created[s] == created[s])
    && (forall k <- rows :: k.session in held.created)
  }

  ghost predicate KeptOk(k: Kept, emitted: Reports, created: map<string, real>, acked: map<string, nat>) {
    Stored(k.store, emitted, created, acked) && Mirrors(k.held, k.store.journal, created)
  }

  /** The current session is known to both. */
  ghost predicate Knows(k: Kept, session: string) {
    session in k.held.created && session in k.store.sync
  }

  /** The load's filter on the acknowledged position drops nothing. */
  lemma LoadKeepsAll(t: Store, emitted: Reports, created: map<string, real>, acked: map<string, nat>)
    requires Stored(t, emitted, created, acked)
    ensures Owed(t) == t.journal.Keys
  {
    forall k | k in t.journal ensures k.pos > (if k.session in t.sync then t.sync[k.session].ackedPos else 0) {
      assert IsOwed(emitted, acked, k);
    }
  }

  /** Memory refines the file: what `load` yields is what memory retains, in the order it is re-sent. */
  lemma LoadIsResendOrder(k: Kept, emitted: Reports, created: map<string, real>, acked: map<string, nat>)
    requires KeptOk(k, emitted, created, acked)
    ensures LoadOrder(k.store) == Order(k.held)
    ensures k.store.journal == k.held.retained
  {
    LoadKeepsAll(k.store, emitted, created, acked);
    ResendOrderAgrees(Times(k.store), k.held.created, k.held.retained.Keys);
  }

  lemma LoadKept(t: Store, emitted: Reports, created: map<string, real>, acked: map<string, nat>)
    requires Stored(t, emitted, created, acked)
    ensures KeptOk(Loaded(Kept(Held(map[], map[]), t)), emitted, created, acked)
    ensures Loaded(Kept(Held(map[], map[]), t)).held.created.Keys <= created.Keys
  {
    var k := Loaded(Kept(Held(map[], map[]), t));
    LoadKeepsAll(t, emitted, created, acked);
    LoadedHeld(t);
    forall s | s in k.held.created ensures s in created && k.held.created[s] == created[s] {
      var key :| key in t.journal && key.session == s;
    }
  }

  lemma LoadedHeld(t: Store)
    requires Owed(t) == t.journal.Keys
    ensures var h := Loaded(Kept(Held(map[], map[]), t)).held;
      && h.retained == t.journal
      && (forall s: string :: s in h.created <==> Owes(t.journal, s))
      && (forall s <- h.created :: h.created[s] == CreatedAt(t, s))
  {
    LoadedAre(t);
    var frames, times := LoadedFrames(t), LoadedTimes(t);
    assert frames + map[] == frames && times + map[] == times;
    assert frames == t.journal;
    assert forall s: string :: Loads(t, s) <==> Owes(t.journal, s);
  }

  lemma KnowKept(k: Kept, s: string, at: real, emitted: Reports, created: map<string, real>, acked: map<string, nat>)
    requires KeptOk(k, emitted, created, acked) && s !in created && s !in emitted && Get(acked, s, 0) == 0
    ensures KeptOk(Knowing(k, true, s, at), emitted[s := []], created[s := at], acked)
    ensures Knows(Knowing(k, true, s, at), s)
    ensures Knowing(k, true, s, at).held == Held(k.held.retained, k.held.created[s := at])
  {
    forall key: Key ensures IsOwed(emitted, acked, key) <==> IsOwed(emitted[s := []], acked, key) {
    }
  }

  lemma RetainKept(k: Kept, s: string, r: Report, at: real, emitted: Reports, created: map<string, real>,
                   acked: map<string, nat>)
    requires KeptOk(k, emitted, created, acked) && Knows(k, s)
    requires s in emitted && Get(acked, s, 0) <= |emitted[s]|
    ensures var key := Key(s, |emitted[s]| + 1);
      var u := Retained(k, true, key, r, at);
      && KeptOk(u, emitted[s := emitted[s] + [r]], created, acked) && Knows(u, s)
      && u.held == Held(k.held.retained[key := r], k.held.created)
  {
  }

  function Raised(acked: map<string, nat>, s: string, pos: nat): map<string, nat> {
    if Get(acked, s, 0) < pos then acked[s := pos] else acked
  }

  lemma AckExactly(m: map<Key, Report>, s: string, pos: nat, emitted: Reports, acked: map<string, nat>)
    requires Exactly(m, emitted, acked)
    ensures Exactly(Without(m, s, pos), emitted, Raised(acked, s, pos))
  {
  }

  lemma AckRows(rows: map<Key, Report>, syncs: map<string, SyncRow>, created: map<string, real>,
                acked: map<string, nat>, s: string, pos: nat)
    requires RowsOk(rows, syncs, created, acked)
    ensures RowsOk(Without(rows, s, pos),
                   if s in syncs && syncs[s].ackedPos < pos then syncs[s := syncs[s].(ackedPos := pos)] else syncs,
                   created, Raised(acked, s, pos))
  {
  }

  /** An acknowledgement drops exactly what it covers, in both; the current session stays known. */
  lemma AckKept(k: Kept, s: string, pos: nat, current: string, emitted: Reports, created: map<string, real>,
                acked: map<string, nat>)
    requires KeptOk(k, emitted, created, acked) && Knows(k, current)
    ensures var u := Acknowledged(k, true, s, pos, current);
      KeptOk(u, emitted, created, Raised(acked, s, pos)) && Knows(u, current)
      && u.held == Held(Without(k.held.retained, s, pos), k.held.created)
  {
    var t := Acked(k.store, s, pos);
    AckExactly(k.store.journal, s, pos, emitted, acked);
    AckRows(k.store.journal, k.store.sync, created, acked, s, pos);
  }
}
