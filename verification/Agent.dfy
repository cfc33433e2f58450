/** The socket agent's own state: what it retains, its journal file, its sender. */
module Agent {
  import opened Frames
  import opened Retention
  import opened Sender
  import opened Memory
  import opened Inquiries
  import Delivery
  import ResumeJournal

  /** What all of `fs` put, one after the other, make of a history. */
  function Puts(h: History, fs: seq<Frame>): History {
    h.(put := h.put + fs, pipe := PutAll(h.pipe, fs))
  }

  lemma PutsOne(h: History, fs: seq<Frame>, f: Frame)
    ensures Puts(h, fs + [f]) == Do(Puts(h, fs), PutStep(f))
  {
    assert h.pipe.queue + (fs + [f]) == (h.pipe.queue + fs) + [f];
    assert h.put + (fs + [f]) == (h.put + fs) + [f];
  }

  /** `setdefault`, for a row's frame and for its session's creation time. */
  function Default(h: Held, r: StoredFrame): Held {
    Held(if r.key in h.retained then h.retained else h.retained[r.key := r.report],
         if r.key.session in h.created then h.created else h.created[r.key.session := r.createdAt])
  }

  /** `setdefault` for each loaded row. */
  function Defaulted(h: Held, rows: seq<StoredFrame>): Held
    decreases |rows|
  {
    if rows == [] then h else Defaulted(Default(h, rows[0]), rows[1..])
  }

  predicate HasRow(rows: seq<StoredFrame>, key: Key) {
    exists r <- rows :: r.key == key
  }

  predicate HasSession(rows: seq<StoredFrame>, s: string) {
    exists r <- rows :: r.key.session == s
  }

  ghost predicate RowsOf(rows: seq<StoredFrame>, t: Store) {
    forall r <- rows :: r.key in t.journal && r.report == t.journal[r.key] && r.createdAt == CreatedAt(t, r.key.session)
  }

  lemma {:induction false} DefaultedFrames(h: Held, rows: seq<StoredFrame>, t: Store)
    requires RowsOf(rows, t)
    ensures var d := Defaulted(h, rows).retained;
      && (forall k: Key :: k in d <==> k in h.retained || HasRow(rows, k))
      && (forall k <- d ::
            d[k] == if k in h.retained then h.retained[k] else if k in t.journal then t.journal[k] else d[k])
    decreases |rows|
  {
    if rows != [] {
      assert rows[0] in rows && forall x <- rows[1..] :: x in rows;
      DefaultedFrames(Default(h, rows[0]), rows[1..], t);
      assert forall k: Key :: HasRow(rows, k) <==> k == rows[0].key || HasRow(rows[1..], k);
    }
  }

  lemma {:induction false} DefaultedTimes(h: Held, rows: seq<StoredFrame>, t: Store)
    requires RowsOf(rows, t)
    ensures var d := Defaulted(h, rows).created;
      && (forall s: string :: s in d <==> s in h.created || HasSession(rows, s))
      && (forall s <- d :: d[s] == if s in h.created then h.created[s] else CreatedAt(t, s))
    decreases |rows|
  {
    if rows != [] {
      assert rows[0] in rows && forall x <- rows[1..] :: x in rows;
      DefaultedTimes(Default(h, rows[0]), rows[1..], t);
      assert forall s: string :: HasSession(rows, s) <==> s == rows[0].key.session || HasSession(rows[1..], s);
    }
  }

  lemma SessionsLoaded(rows: seq<StoredFrame>, t: Store, s: string)
    requires forall key: Key :: HasRow(rows, key) <==> key in Owed(t)
    ensures HasSession(rows, s) <==> Loads(t, s)
  {
    if HasSession(rows, s) {
      var r :| r in rows && r.key.session == s;
      assert HasRow(rows, r.key);
    }
    if Loads(t, s) {
      var key :| key in Owed(t) && key.session == s;
      assert HasRow(rows, key);
    }
  }

  /** Setting each owed row as a default is loading them. */
  lemma DefaultedIsLoaded(k: Kept, rows: seq<StoredFrame>)
    requires RowsOf(rows, k.store) && forall key: Key :: HasRow(rows, key) <==> key in Owed(k.store)
    ensures Defaulted(k.held, rows) == Loaded(k).held
  {
    var d, frames, times := Defaulted(k.held, rows), LoadedFrames(k.store), LoadedTimes(k.store);
    DefaultedFrames(k.held, rows, k.store);
    DefaultedTimes(k.held, rows, k.store);
    LoadedAre(k.store);
    forall s: string ensures HasSession(rows, s) <==> s in times {
      SessionsLoaded(rows, k.store, s);
    }
    SameMaps(d.retained, frames, k.held.retained);
    SameMaps(d.created, times, k.held.created);
  }

  lemma SameMaps<K, V>(a: map<K, V>, b: map<K, V>, c: map<K, V>)
    requires a.Keys == b.Keys + c.Keys
    requires forall k <- a :: a[k] == if k in c then c[k] else b[k]
    ensures a == b + c
  {
  }

  class RekuestAgent {
    const name: string
    const file: JournalFile
    const sender: WebsocketSender
    var store: RetainedFrames?
    var retained: map<Key, Report>
    var sessionCreated: map<string, real>
    var currentSession: string
    var emitted: nat
    /** This agent's rows of the file. */
    ghost var disk: Store

    constructor (name: string, file: JournalFile, sender: WebsocketSender)
      requires sender.Valid()
      ensures this.name == name && this.file == file && this.sender == sender
      ensures store == null && retained == map[] && sessionCreated == map[]
      ensures Valid()
    {
      var rows := RowsIn(file.tables, name);
      disk := rows;
      this.name, this.file, this.sender := name, file, sender;
      store, retained, sessionCreated, currentSession, emitted := null, map[], map[], "", 0;
    }

    /** What is kept, in memory and in the file. */
    ghost function State(): Kept
      reads this
    {
      Kept(Held(retained, sessionCreated), disk)
    }

    ghost predicate Valid()
      reads this, file, store, sender
    {
      && sender.Valid()
      && if store == null then IsView(file.tables, name, disk)
         else store.file == file && store.agent == name && store.Valid() && store.mine == disk
    }

    /** `setdefault` for each loaded row. */
    method TakeOver(rows: seq<StoredFrame>)
      modifies this`retained, this`sessionCreated
      ensures Held(retained, sessionCreated) == Defaulted(old(Held(retained, sessionCreated)), rows)
    {
      var i := 0;
      while i < |rows|
        invariant 0 <= i <= |rows|
        invariant Defaulted(Held(retained, sessionCreated), rows[i..]) ==
                  Defaulted(old(Held(retained, sessionCreated)), rows)
      {
        var row := rows[i];
        assert rows[i] == rows[i..][0] && rows[i..][1..] == rows[i + 1..];
        if row.key.session !in sessionCreated {
          sessionCreated := sessionCreated[row.key.session := row.createdAt];
        }
        if row.key !in retained {
          retained := retained[row.key := row.report];
        }
        i := i + 1;
      }
    }

    /** It loads what earlier runs left; what memory has stays. */
    method LoadStore(frames: RetainedFrames)
      requires frames.Valid()
      modifies this`retained, this`sessionCreated
      ensures Held(retained, sessionCreated) == Loaded(Kept(old(Held(retained, sessionCreated)), frames.mine)).held
    {
      var rows := frames.Load();
      LoadedRows(frames.mine, rows);
      DefaultedIsLoaded(Kept(Held(retained, sessionCreated), frames.mine), rows);
      TakeOver(rows);
    }

    /** `_open_store`: opened, and loaded, on first use. */
    method OpenStore()
      requires Valid()
      modifies this`store, this`retained, this`sessionCreated
      ensures Valid() && store != null && (if old(store) == null then fresh(store) else store == old(store))
      ensures State() == Opening(old(State()), old(store) != null)
    {
      if store == null {
        var frames := new RetainedFrames(file, name);
        ViewsAgree(file.tables, name, disk, frames.mine);
        LoadStore(frames);
        store := frames;
      }
    }

    /** `_know_session`: an unknown session opens the store. */
    method KnowSession(session: string, now: real)
      requires Valid()
      modifies this`store, this`retained, this`sessionCreated, this`disk, file, store
      ensures Valid() && State() == Knowing(old(State()), old(store) != null, session, now)
      ensures if session in old(sessionCreated) then store == old(store)
              else store != null && (if old(store) == null then fresh(store) else store == old(store))
    {
      if session !in sessionCreated {
        OpenStore();
        var created := store.OpenSession(session, now);
        sessionCreated := sessionCreated[session := created];
        disk := store.mine;
      }
    }

    /** `astart`: what earlier runs left is read before the new session gets its row. */
    method Start(session: string, now: real)
      requires Valid()
      modifies this, file, store
      ensures Valid() && store != null && currentSession == session && emitted == 0
      ensures State() == Knowing(Opening(old(State()), old(store) != null), true, session, now)
    {
      currentSession, emitted := session, 0;
      OpenStore();
      KnowSession(session, now);
    }

    /** `_retain_emitted`: in memory first, then in the file, which is opened if it is not yet. */
    method RetainEmitted(key: Key, report: Report, now: real)
      requires Valid()
      modifies this`store, this`retained, this`sessionCreated, this`disk, file, store
      ensures Valid() && State() == Retained(old(State()), old(store) != null, key, report, now)
      ensures store != null && (if old(store) == null then fresh(store) else store == old(store))
    {
      retained := retained[key := report];
      KnowSession(key.session, now);
      OpenStore();
      store.Add(key, report);
      disk := store.mine;
    }

    /** `del self._retained[key]` for each covered key. */
    method DropCovered(session: string, pos: nat)
      modifies this`retained
      ensures retained == Without(old(retained), session, pos)
    {
      ghost var was := retained;
      var covered := set k | k in retained && k.session == session && k.pos <= pos;
      while covered != {}
        invariant covered <= retained.Keys && retained.Keys - covered == Without(was, session, pos).Keys
        invariant forall k <- retained :: k in was && retained[k] == was[k]
        decreases |covered|
      {
        var key :| key in covered;
        covered := covered - {key};
        retained := retained - {key};
      }
    }

    /** `_journal_ack`: memory, then the file; a session that owes nothing any more is pruned. */
    method JournalAck(session: string, pos: nat)
      requires Valid()
      modifies this`store, this`retained, this`sessionCreated, this`disk, file, store
      ensures Valid() && State() == Acknowledged(old(State()), old(store) != null, session, pos, currentSession)
      ensures store != null && (if old(store) == null then fresh(store) else store == old(store))
    {
      DropCovered(session, pos);
      OpenStore();
      store.Ack(session, pos);
      if !Owes(retained, session) {
        store.Prune(Some(currentSession));
      }
      disk := store.mine;
    }

    method SendRetained(keys: seq<Key>)
      requires Valid() && forall k <- keys :: k in retained
      modifies sender`queue, sender`unfinished, sender`history
      ensures Valid() && sender.history == Puts(old(sender.history), FramesOf(Held(retained, sessionCreated), keys))
    {
      ghost var fs, was := FramesOf(Held(retained, sessionCreated), keys), sender.history;
      for i := 0 to |keys|
        invariant Valid() && sender.history == Puts(was, fs[..i])
      {
        assert fs[..i + 1] == fs[..i] + [fs[i]];
        PutsOne(was, fs[..i], fs[i]);
        sender.Send(Numbered(keys[i], retained[keys[i]]));
      }
      assert fs[..|keys|] == fs;
    }

    /** `_aresend_retained` */
    method ResendRetained()
      requires Valid()
      modifies sender`queue, sender`unfinished, sender`history
      ensures Valid() && sender.history == Puts(old(sender.history), Resent(Held(retained, sessionCreated)))
    {
      var keys := ResendOrder(sessionCreated, retained.Keys);
      SendRetained(keys);
    }

    /**
     * `_aafter_init`, up to the replies: what is queued with a position goes, what is retained comes, and only then
     * may a transport that holds its sends go on: its line by then is the one with everything retained.
     */
    method AfterInit()
      requires Valid()
      modifies sender
      ensures old(sender.released) == Some(false) ==> sender.releasedWith == Some(Line(sender.State()))
      ensures sender.released == if old(sender.released).Some? then Some(true) else None
      ensures Valid() && sender.State() == Memory.AfterInit(old(sender.State()), Held(retained, sessionCreated))
      ensures sender.history == Puts(Do(old(sender.history), DiscardStep), Resent(Held(retained, sessionCreated)))
    {
      var _ := sender.DiscardJournaled();
      ResendRetained();
      sender.ReleaseSends();
    }

    method SendAll(fs: seq<Frame>)
      requires Valid()
      modifies sender
      ensures Valid() && sender.history == Puts(old(sender.history), fs)
    {
      ghost var was := sender.history;
      for i := 0 to |fs|
        invariant Valid() && sender.history == Puts(was, fs[..i])
      {
        assert fs[..i + 1] == fs[..i] + [fs[i]];
        PutsOne(was, fs[..i], fs[i]);
        sender.Send(fs[i]);
      }
      assert fs[..|fs|] == fs;
    }

    /** `_aresend_retained_report`: a duplicate Assign for a finished task gets its report again. */
    method ResendReports(task: string) returns (found: bool, ghost keys: seq<Key>, ghost sent: seq<Frame>)
      requires Valid()
      modifies sender
      ensures Valid() && sender.history ==
              Puts(old(sender.history), EndReports(Resent(Held(retained, sessionCreated)), task))
      ensures found <==> exists k :: k in retained && retained[k].task == Some(task) && retained[k].body.Terminal?
      ensures forall k: Key :: k in keys <==>
                k in retained && retained[k].task == Some(task) && retained[k].body.Terminal?
      ensures Sorted(sessionCreated, keys)
      ensures sender.history.put == old(sender.history.put) + sent && |sent| == |keys|
      ensures forall i :: 0 <= i < |keys| ==> keys[i] in retained && sent[i] == Numbered(keys[i], retained[keys[i]])
    {
      var held := Held(retained, sessionCreated);
      var reports := EndReports(Resent(held), task);
      found := reports != [];
      EndReportsOf(held, task);
      keys := EndReportsAre(held, task);
      sent := reports;
      SendAll(reports);
    }

    /** `self._retained.values()`: every retained frame, once, in some order. */
    method Values() returns (frames: seq<Report>, ghost keys: seq<Key>)
      ensures ResumeJournal.Listing(keys, retained) && frames == ResumeJournal.ValuesOf(keys, retained)
    {
      var m := retained;
      frames, keys := [], [];
      var rest := m.Keys;
      while rest != {}
        invariant forall k :: k in m <==> k in keys || k in rest
        invariant forall k <- keys :: k !in rest
        invariant forall i, j :: 0 <= i < j < |keys| ==> keys[i] != keys[j]
        invariant frames == ResumeJournal.ValuesOf(keys, m)
        decreases |rest|
      {
        var k :| k in rest;
        frames, keys, rest := frames + [m[k]], keys + [k], rest - {k};
      }
    }

    /** `_complete_resume`: the retained frames are taken in whatever order the dictionary has. */
    method CompleteResume(task: string, resume: Delivery.Resume) returns (completed: Delivery.Resume)
      requires Valid()
      modifies this`store, this`retained, this`sessionCreated
      ensures Valid() && State() == if old(store) == null then Loaded(old(State())) else old(State())
      ensures exists frames ::
                ResumeJournal.Lists(frames, retained) && completed == ResumeJournal.Complete(resume, task, frames)
      ensures resume.effects <= completed.effects
      ensures |completed.effects| - |resume.effects| ==
              |(set k | k in retained && retained[k].task == Some(task) && retained[k].body.Effect?
                            && retained[k].body.key != ""
                            && forall e <- resume.effects :: e.key != retained[k].body.key)|
      ensures forall e: Delivery.Recorded ::
                multiset(completed.effects[|resume.effects|..])[e] ==
                |(set k | k in retained && retained[k].task == Some(task)
                              && retained[k].body == Effect(e.effect, e.key, e.value) && e.key != ""
                              && forall x <- resume.effects :: x.key != e.key)|
      ensures completed.lastStep >= resume.lastStep
      ensures forall k <- retained :: retained[k].task == Some(task) && retained[k].step.Some? ==>
                completed.lastStep >= retained[k].step.value
      ensures completed.lastStep == resume.lastStep
              || exists k <- retained :: retained[k].task == Some(task) && retained[k].step == Some(completed.lastStep)
    {
      OpenStore();
      var frames;
      ghost var keys;
      frames, keys := Values();
      completed := ResumeJournal.Complete(resume, task, frames);
      ResumeJournal.CompleteNumber(resume, task, keys, retained);
      forall e: Delivery.Recorded { ResumeJournal.CompleteCounts(resume, task, keys, retained, e); }
      ResumeJournal.CompleteSteps(resume, task, frames, retained);
    }

    /** One report of the current session: numbered, retained and handed off in one step. */
    method Dispatch(report: Report, now: real)
      requires Valid()
      modifies this`store, this`retained, this`sessionCreated, this`emitted, this`disk, file, store, sender
      ensures Valid() && emitted == old(emitted) + 1
      ensures store != null && (if old(store) == null then fresh(store) else store == old(store))
      ensures var key := Key(currentSession, emitted);
        && State() == Retained(old(State()), old(store) != null, key, report, now)
        && (old(store) != null ==> retained == old(retained)[key := report])
        && sender.history == Do(old(sender.history), PutStep(Numbered(key, report)))
    {
      emitted := emitted + 1;
      RetainEmitted(Key(currentSession, emitted), report, now);
      sender.Send(Numbered(Key(currentSession, emitted), report));
    }

    /** Positions of the current session are given once. */
    ghost predicate Numbering()
      reads this
    {
      forall k <- retained :: k.session == currentSession ==> k.pos <= emitted
    }

    /** Since the history was `h` and `from` positions were given, the reports `rs` have been dispatched. */
    ghost predicate Spoke(h: History, from: nat, rs: seq<Report>)
      reads this, sender
    {
      emitted == from + |rs| && sender.history == Puts(h, Numbers(currentSession, from, rs))
    }

    /** One report after those that were dispatched since `h` and `from`. */
    method DispatchNext(r: Report, now: real, ghost h: History, ghost from: nat, ghost done: seq<Report>)
      requires Valid() && store != null && Numbering() && Spoke(h, from, done)
      modifies this`store, this`retained, this`sessionCreated, this`emitted, this`disk, file, store, sender
      ensures Valid() && Numbering() && store == old(store) && Spoke(h, from, done + [r])
      ensures Ended(retained) == Ended(old(retained)) + EndsOf([r])
    {
      EndedGrows(retained, Key(currentSession, emitted + 1), r);
      PutsReport(sender.history, currentSession, emitted, r);
      NumbersPuts(h, currentSession, from, done, [r]);
      Dispatch(r, now);
    }

    /** Reports of the current session, one after the other, after those dispatched since `h` and `from`. */
    method DispatchAll(rs: seq<Report>, now: real, ghost h: History, ghost from: nat, ghost done: seq<Report>)
      requires Valid() && store != null && Numbering() && Spoke(h, from, done)
      modifies this`store, this`retained, this`sessionCreated, this`emitted, this`disk, file, store, sender
      ensures Valid() && Numbering() && store == old(store) && Spoke(h, from, done + rs)
      ensures Ended(retained) == Ended(old(retained)) + EndsOf(rs)
    {
      ghost var ended := Ended(retained);
      assert done + rs[..0] == done;
      for i := 0 to |rs|
        invariant Valid() && Numbering() && store == old(store) && Spoke(h, from, done + rs[..i])
        invariant Ended(retained) == ended + EndsOf(rs[..i])
      {
        OneMoreEnds(done, rs, i);
        DispatchNext(rs[i], now, h, from, done + rs[..i]);
      }
      assert rs[..|rs|] == rs;
    }

    /** `_areport_task_liveness`: the agent may report other things while the task's actor is asked. */
    method ReportLiveness(q: Inquiry, now: real, ghost h: History, ghost from: nat, ghost done: seq<Report>)
      requires Valid() && store != null && Numbering() && Spoke(h, from, done)
      modifies this`store, this`retained, this`sessionCreated, this`emitted, this`disk, file, store, sender
      ensures Valid() && Numbering() && store == old(store)
      ensures Spoke(h, from, done + Reports(Reply(Ended(old(retained)), q)))
      ensures Ended(retained) == Ended(old(retained)) + EndsOf(Reports(Reply(Ended(old(retained)), q)))
    {
      ReplyReports(Ended(retained), q);
      if q.task !in Ended(retained) {
        DispatchAll(q.during, now, h, from, done);
        var answer := q.Verdict();
        DispatchNext(answer, now, h, from, done + q.during);
        Assoc(done, q.during, [answer]);
      } else {
        assert done + [] == done;
      }
    }

    /** One turn of the loop below. */
    method ReplyTo(q: Inquiry, now: real, ghost h: History, ghost from: nat, ghost done: seq<Report>)
      requires Valid() && store != null && Numbering() && Spoke(h, from, done)
      modifies this`store, this`retained, this`sessionCreated, this`emitted, this`disk, file, store, sender
      ensures Valid() && Numbering() && store == old(store)
      ensures Spoke(h, from, done + Reports(Turn(Ended(old(retained)), q)))
      ensures Ended(retained) == Ended(old(retained)) + EndsOf(Reports(Turn(Ended(old(retained)), q)))
    {
      ghost var reply := Reply(Ended(retained) + EndsOf(q.before), q);
      ReportsConcat(Elses(q.before), reply);
      Assoc(done, q.before, Reports(reply));
      DispatchAll(q.before, now, h, from, done);
      ReportLiveness(q, now, h, from, done + q.before);
    }

    /** `_areply_to_inquiries`: nothing for a task whose end is re-sent; a Critical ends it. */
    method ReplyToInquiries(qs: seq<Inquiry>, now: real)
      requires Valid() && store != null && Numbering()
      modifies this`store, this`retained, this`sessionCreated, this`emitted, this`disk, file, store, sender
      ensures Valid() && Numbering() && store == old(store)
      ensures var said := Reports(Said(Ended(old(retained)), qs));
        && emitted == old(emitted) + |said|
        && sender.history == Puts(old(sender.history), Numbers(currentSession, old(emitted), said))
    {
      ghost var h, from, done := sender.history, emitted, [];
      ghost var said := Reports(Said(Ended(retained), qs));
      PutsNothing(h, currentSession, from);
      var rest := qs;
      while rest != []
        invariant Valid() && Numbering() && Spoke(h, from, done) && store == old(store)
        invariant said == done + Reports(Said(Ended(retained), rest))
        decreases |rest|
      {
        SaidTurn(Ended(retained), done, rest);
        ghost var more := done + Reports(Turn(Ended(retained), rest[0]));
        ReplyTo(rest[0], now, h, from, done);
        done, rest := more, rest[1..];
      }
      assert said == done;
    }
  }

  lemma OneMoreEnds(done: seq<Report>, rs: seq<Report>, i: nat)
    requires i < |rs|
    ensures done + rs[..i + 1] == (done + rs[..i]) + [rs[i]]
    ensures EndsOf(rs[..i + 1]) == EndsOf(rs[..i]) + EndsOf([rs[i]])
  {
    assert rs[..i + 1] == rs[..i] + [rs[i]];
    EndsOfMore(rs[..i], [rs[i]]);
  }

  lemma NumbersPuts(h: History, session: string, from: nat, done: seq<Report>, more: seq<Report>)
    ensures Puts(Puts(h, Numbers(session, from, done)), Numbers(session, from + |done|, more)) ==
            Puts(h, Numbers(session, from, done + more))
  {
    var a, b, c := Numbers(session, from, done), Numbers(session, from + |done|, more),
          Numbers(session, from, done + more);
    assert c == a + b;
    assert h.put + c == (h.put + a) + b;
    assert h.pipe.queue + c == (h.pipe.queue + a) + b;
  }

  lemma PutsReport(h: History, session: string, from: nat, r: Report)
    ensures Puts(h, Numbers(session, from, [r])) == Do(h, PutStep(Numbered(Key(session, from + 1), r)))
  {
    assert Numbers(session, from, [r]) == [Numbered(Key(session, from + 1), r)];
    assert h.put + [Numbered(Key(session, from + 1), r)] == h.put + Numbers(session, from, [r]);
  }

  lemma PutsNothing(h: History, session: string, from: nat)
    ensures Puts(h, Numbers(session, from, [])) == h
  {
    assert h.put + [] == h.put && h.pipe.queue + [] == h.pipe.queue;
  }

  lemma EndReportsOf(held: Held, task: string)
    ensures EndReports(Resent(held), task) != [] <==> HasEnded(held.retained, task)
  {
    var fs := EndReports(Resent(held), task);
    if fs != [] {
      assert fs[0] in Resent(held);
    }
    if HasEnded(held.retained, task) {
      var k :| k in held.retained && held.retained[k].Ends(task);
      assert Numbered(k, held.retained[k]) in fs;
    }
  }

  /**
   * After an Init, whatever else is reported meanwhile: a task whose terminal report is re-sent gets no answer. Any
   * other gets none after a Critical, and it gets that one if it is found not to run and no other report ends it.
   */
  lemma NeverContradicted(held: Held, qs: seq<Inquiry>, t: string)
    ensures var resent, answers := EndReports(Resent(held), t), About(Answers(Said(Ended(held.retained), qs)), t);
      && (resent != [] ==> answers == [])
      && (forall i :: 0 <= i < |answers| - 1 ==> answers[i] == Report(Some(t), None, Progress))
      && (resent == [] && EndsAlone(qs, t) && (exists q <- qs :: q.task == t && q.liveness != Running) ==>
            answers != [] && answers[|answers| - 1] == Report(Some(t), None, Terminal(Critical)))
  {
    EndReportsOf(held, t);
    AnswersAre(Ended(held.retained), qs, t);
    ToldIs(qs, t);
  }

  lemma LoadedRows(t: Store, rows: seq<StoredFrame>)
    requires |rows| == |LoadOrder(t)|
    requires forall i :: 0 <= i < |rows| ==>
      var k := LoadOrder(t)[i]; k in t.journal && rows[i] == StoredFrame(k, CreatedAt(t, k.session), t.journal[k])
    ensures RowsOf(rows, t) && forall key: Key :: HasRow(rows, key) <==> key in Owed(t)
  {
    var order := LoadOrder(t);
    forall key: Key ensures HasRow(rows, key) <==> key in Owed(t) {
      if key in Owed(t) {
        var i :| 0 <= i < |order| && order[i] == key;
        assert rows[i] in rows;
      }
      if HasRow(rows, key) {
        var i :| 0 <= i < |rows| && rows[i].key == key;
        assert order[i] in order;
      }
    }
  }
}
