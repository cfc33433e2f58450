/** Which tasks an agent answers for when the server asks, after an Init re-sent what it retains. */
module Inquiries {
  import opened Frames

  /** Tasks with a terminal report among the retained frames. */
  ghost predicate HasEnded(retained: map<Key, Report>, t: string) {
    exists k <- retained :: retained[k].Ends(t)
  }

  function Ended(retained: map<Key, Report>): (ts: set<string>)
    ensures forall t :: t in ts <==> HasEnded(retained, t)
  {
    set k | k in retained && retained[k].task.Some? && retained[k].body.Terminal? :: retained[k].task.value
  }

  /** Tasks that some of `rs` end. */
  function EndsOf(rs: seq<Report>): (ts: set<string>)
    ensures forall t :: t in ts <==> exists r <- rs :: r.Ends(t)
  {
    set r | r in rs && r.task.Some? && r.body.Terminal? :: r.task.value
  }

  lemma EndsOfMore(a: seq<Report>, b: seq<Report>)
    ensures EndsOf(a + b) == EndsOf(a) + EndsOf(b)
  {
  }

  /** A report retained under a new key ends its task exactly when it is terminal. */
  lemma EndedGrows(retained: map<Key, Report>, k: Key, r: Report)
    requires k !in retained
    ensures Ended(retained[k := r]) == Ended(retained) + EndsOf([r])
    ensures EndsOf([r]) == if r.task.Some? && r.body.Terminal? then {r.task.value} else {}
  {
    var more := retained[k := r];
    assert forall x :: x in [r] <==> x == r;
    forall t ensures HasEnded(more, t) <==> HasEnded(retained, t) || r.Ends(t) {
      if HasEnded(retained, t) {
        var j :| j in retained && retained[j].Ends(t);
        assert more[j] == retained[j];
      }
      if r.Ends(t) {
        assert more[k].Ends(t);
      }
    }
  }

  /** The frames of reports numbered after `from`. */
  function Numbers(session: string, from: nat, rs: seq<Report>): seq<Frame> {
    seq(|rs|, i requires 0 <= i < |rs| => Numbered(Key(session, from + 1 + i), rs[i]))
  }

  /** How an agent knows a task: not at all, still running on its actor, or stopped there. */
  datatype Liveness = Unmanaged | Running | Stopped

  /**
   * A task asked about, and how the agent knows it; what else the agent reports before the task's turn comes, and
   * while its actor is asked.
   */
  datatype Inquiry = Inquiry(task: string, liveness: Liveness, before: seq<Report>, during: seq<Report>)
  {
    /** `_areport_task_liveness` */
    function Verdict(): Report {
      Report(Some(task), None, if liveness == Running then Progress else Terminal(Critical))
    }
  }

  /** A report that is retained while an Init's inquiries are answered: any other one, or an answer. */
  datatype Saying = Else(report: Report) | Answer(report: Report)

  function Elses(rs: seq<Report>): (es: seq<Saying>)
    ensures Reports(es) == rs && forall e <- es :: e.Else?
  {
    seq(|rs|, i requires 0 <= i < |rs| => Else(rs[i]))
  }

  function Reports(es: seq<Saying>): (rs: seq<Report>)
    ensures |rs| == |es| && forall i :: 0 <= i < |es| ==> rs[i] == es[i].report
  {
    seq(|es|, i requires 0 <= i < |es| => es[i].report)
  }

  function Answers(es: seq<Saying>): seq<Report> {
    if es == [] then [] else (if es[0].Answer? then [es[0].report] else []) + Answers(es[1..])
  }

  lemma {:induction false} NoAnswers(es: seq<Saying>)
    requires forall e <- es :: e.Else?
    ensures Answers(es) == []
  {
    if es != [] {
      assert es[0] in es && forall e <- es[1..] :: e in es;
      NoAnswers(es[1..]);
    }
  }

  /** Asked about a task whose end is not retained, the agent finds out and answers; else it says nothing. */
  function Reply(ended: set<string>, q: Inquiry): seq<Saying> {
    if q.task in ended then [] else Elses(q.during) + [Answer(q.Verdict())]
  }

  function Turn(ended: set<string>, q: Inquiry): seq<Saying> {
    Elses(q.before) + Reply(ended + EndsOf(q.before), q)
  }

  /** `_areply_to_inquiries`: every report retained meanwhile, and each answer as its turn finds the retained ends. */
  function Said(ended: set<string>, qs: seq<Inquiry>): seq<Saying>
    decreases |qs|
  {
    if qs == [] then [] else
    var turn := Turn(ended, qs[0]);
    turn + Said(ended + EndsOf(Reports(turn)), qs[1..])
  }

  lemma SaidTurn(ended: set<string>, done: seq<Report>, qs: seq<Inquiry>)
    requires qs != []
    ensures var turn := Turn(ended, qs[0]);
      done + Reports(Said(ended, qs)) ==
      (done + Reports(turn)) + Reports(Said(ended + EndsOf(Reports(turn)), qs[1..]))
  {
    var turn := Turn(ended, qs[0]);
    var later := Said(ended + EndsOf(Reports(turn)), qs[1..]);
    ReportsConcat(turn, later);
    Assoc(done, Reports(turn), Reports(later));
  }

  function About(rs: seq<Report>, t: string): seq<Report> {
    if rs == [] then [] else (if rs[0].task == Some(t) then [rs[0]] else []) + About(rs[1..], t)
  }

  /** What the server should be told of `t`: at each inquiry that it goes on, until it is found gone. */
  function Told(qs: seq<Inquiry>, t: string): seq<Report> {
    if qs == [] then []
    else if qs[0].task != t then Told(qs[1..], t)
    else [qs[0].Verdict()] + if qs[0].liveness == Running then Told(qs[1..], t) else []
  }

  /** Nothing but an answer ends `t` while the inquiries are answered. */
  predicate EndsAlone(qs: seq<Inquiry>, t: string) {
    forall q <- qs :: t !in EndsOf(q.before) && t !in EndsOf(q.during)
  }

  lemma {:induction false} AnswersConcat(a: seq<Saying>, b: seq<Saying>)
    ensures Answers(a + b) == Answers(a) + Answers(b)
  {
    if a == [] {
      assert a + b == b;
    } else {
      assert (a + b)[0] == a[0] && (a + b)[1..] == a[1..] + b;
      AnswersConcat(a[1..], b);
    }
  }

  lemma {:induction false} AboutConcat(a: seq<Report>, b: seq<Report>, t: string)
    ensures About(a + b, t) == About(a, t) + About(b, t)
  {
    if a == [] {
      assert a + b == b;
    } else {
      assert (a + b)[0] == a[0] && (a + b)[1..] == a[1..] + b;
      AboutConcat(a[1..], b, t);
      Assoc(if a[0].task == Some(t) then [a[0]] else [], About(a[1..], t), About(b, t));
    }
  }

  lemma ReportsConcat(a: seq<Saying>, b: seq<Saying>)
    ensures Reports(a + b) == Reports(a) + Reports(b)
    ensures EndsOf(Reports(a + b)) == EndsOf(Reports(a)) + EndsOf(Reports(b))
  {
  }

  lemma ReplyReports(known: set<string>, q: Inquiry)
    ensures Reports(Reply(known, q)) == if q.task in known then [] else q.during + [q.Verdict()]
    ensures EndsOf(Reports(Reply(known, q))) ==
            if q.task in known then {} else EndsOf(q.during) + EndsOf([q.Verdict()])
  {
    if q.task !in known {
      ReportsConcat(Elses(q.during), [Answer(q.Verdict())]);
      assert Reports([Answer(q.Verdict())]) == [q.Verdict()];
    }
  }

  lemma ReplyIs(known: set<string>, q: Inquiry)
    requires q.task !in known
    ensures Answers(Reply(known, q)) == [q.Verdict()]
    ensures EndsOf(Reports(Reply(known, q))) == EndsOf(q.during) + if q.liveness == Running then {} else {q.task}
  {
    var answer := [Answer(q.Verdict())];
    AnswersConcat(Elses(q.during), answer);
    NoAnswers(Elses(q.during));
    assert Answers(answer) == [q.Verdict()] + Answers([]);
    ReplyReports(known, q);
    EndedGrows(map[], Key("", 0), q.Verdict());
  }

  /** What one turn answers, and which tasks have ended after it. */
  lemma TurnIs(ended: set<string>, q: Inquiry)
    ensures var known := ended + EndsOf(q.before);
      && Answers(Turn(ended, q)) == (if q.task in known then [] else [q.Verdict()])
      && ended + EndsOf(Reports(Turn(ended, q))) ==
           if q.task in known then known
           else known + EndsOf(q.during) + if q.liveness == Running then {} else {q.task}
  {
    var known := ended + EndsOf(q.before);
    AnswersConcat(Elses(q.before), Reply(known, q));
    ReportsConcat(Elses(q.before), Reply(known, q));
    NoAnswers(Elses(q.before));
    if q.task in known {
      assert EndsOf([]) == {} && Reports([]) == [];
    } else {
      ReplyIs(known, q);
    }
  }

  /** A turn's answer, and what its task's end means for the turns after it. */
  lemma TurnAbout(ended: set<string>, q: Inquiry, t: string)
    ensures var after, known := ended + EndsOf(Reports(Turn(ended, q))), ended + EndsOf(q.before);
      && About(Answers(Turn(ended, q)), t) == (if q.task == t && t !in known then [q.Verdict()] else [])
      && (t in known || (q.task == t && q.liveness != Running) ==> t in after)
      && (t !in known && t in after ==> (q.task == t && q.liveness != Running) || t in EndsOf(q.during))
  {
    TurnIs(ended, q);
    assert About([], t) == [] && About([q.Verdict()], t) == if q.task == t then [q.Verdict()] + About([], t) else [];
  }

  /**
   * Inquiries, repeated or not, with any other reports among them: a task whose end is retained gets no answer. Any
   * other is told to go on or to be gone as it is found, up to some point, and to the last if no other report ends it.
   */
  lemma {:induction false} AnswersAre(ended: set<string>, qs: seq<Inquiry>, t: string)
    ensures var answers := About(Answers(Said(ended, qs)), t);
      && answers <= Told(qs, t)
      && (t in ended ==> answers == [])
      && (t !in ended && EndsAlone(qs, t) ==> answers == Told(qs, t))
    decreases |qs|
  {
    if qs != [] {
      var q, turn, rest := qs[0], Turn(ended, qs[0]), qs[1..];
      var after := ended + EndsOf(Reports(turn));
      var first, later := About(Answers(turn), t), About(Answers(Said(after, rest)), t);
      TurnAbout(ended, q, t);
      AnswersConcat(turn, Said(after, rest));
      AboutConcat(Answers(turn), Answers(Said(after, rest)), t);
      AnswersAre(after, rest, t);
      assert EndsAlone(qs, t) ==> t !in EndsOf(q.before) && t !in EndsOf(q.during) && EndsAlone(rest, t);
      if first == [] {
        assert first + later == later;
      } else {
        assert Told(qs, t) == first + if q.liveness == Running then Told(rest, t) else [];
      }
    }
  }

  /** What is told of a task: that it goes on, any number of times, and last, if it is found to, that it is gone. */
  lemma {:induction false} ToldIs(qs: seq<Inquiry>, t: string)
    ensures var told := Told(qs, t);
      && (forall i :: 0 <= i < |told| - 1 ==> told[i] == Report(Some(t), None, Progress))
      && (told == [] <==> forall q <- qs :: q.task != t)
      && ((exists q <- qs :: q.task == t && q.liveness != Running) <==>
            told != [] && told[|told| - 1] == Report(Some(t), None, Terminal(Critical)))
  {
    if qs != [] {
      ToldIs(qs[1..], t);
      assert forall q :: q in qs <==> q == qs[0] || q in qs[1..];
    }
  }

  // ------------------------------------------------------------------ when an answer contradicts the task's own end

  /** An answer about a task comes after its end. */
  predicate Late(ended: set<string>, es: seq<Saying>) {
    exists j :: 0 <= j < |es| && LateAt(ended, es, j)
  }

  predicate LateAt(ended: set<string>, es: seq<Saying>, j: nat)
    requires j < |es|
  {
    es[j].Answer? && es[j].report.task.Some? && es[j].report.task.value in ended + EndsOf(Reports(es[..j]))
  }

  lemma LateConcat(ended: set<string>, a: seq<Saying>, b: seq<Saying>)
    ensures Late(ended, a + b) <==> Late(ended, a) || Late(ended + EndsOf(Reports(a)), b)
  {
    var es, later := a + b, ended + EndsOf(Reports(a));
    forall j | 0 <= j < |a| ensures LateAt(ended, es, j) <==> LateAt(ended, a, j) {
      assert es[..j] == a[..j];
    }
    forall j | 0 <= j < |b| ensures LateAt(ended, es, |a| + j) <==> LateAt(later, b, j) {
      assert es[..|a| + j] == a + b[..j];
      ReportsConcat(a, b[..j]);
    }
    if Late(ended, a) {
      var j :| 0 <= j < |a| && LateAt(ended, a, j);
      assert LateAt(ended, es, j);
    }
    if Late(later, b) {
      var j :| 0 <= j < |b| && LateAt(later, b, j);
      assert LateAt(ended, es, |a| + j);
    }
    if Late(ended, es) {
      var j :| 0 <= j < |es| && LateAt(ended, es, j);
      if j >= |a| {
        assert LateAt(later, b, j - |a|);
      }
    }
  }

  lemma ElsesNotLate(ended: set<string>, rs: seq<Report>)
    ensures !Late(ended, Elses(rs))
  {
    forall j | 0 <= j < |rs| ensures !LateAt(ended, Elses(rs), j) {
      assert Elses(rs)[j] in Elses(rs);
    }
  }

  /** A task that is asked about, its end not retained, ends while its actor is asked. */
  predicate Crossed(ended: set<string>, qs: seq<Inquiry>)
    decreases |qs|
  {
    && qs != []
    && ((qs[0].task !in ended + EndsOf(qs[0].before) && qs[0].task in EndsOf(qs[0].during))
        || Crossed(ended + EndsOf(Reports(Turn(ended, qs[0]))), qs[1..]))
  }

  lemma LateTurn(ended: set<string>, q: Inquiry)
    ensures Late(ended, Turn(ended, q)) <==> q.task !in ended + EndsOf(q.before) && q.task in EndsOf(q.during)
  {
    var known := ended + EndsOf(q.before);
    var answer := [Answer(q.Verdict())];
    LateConcat(ended, Elses(q.before), Reply(known, q));
    ElsesNotLate(ended, q.before);
    if q.task !in known {
      LateConcat(known, Elses(q.during), answer);
      ElsesNotLate(known, q.during);
      assert EndsOf([]) == {} && Reports(answer[..0]) == [];
      assert LateAt(known + EndsOf(q.during), answer, 0) <==> q.task in EndsOf(q.during);
    }
  }

  /** The only way that an answer comes after an end already reported: the task ends while its actor is asked. */
  lemma {:induction false} LateIsCrossed(ended: set<string>, qs: seq<Inquiry>)
    ensures Late(ended, Said(ended, qs)) <==> Crossed(ended, qs)
    decreases |qs|
  {
    if qs != [] {
      var turn := Turn(ended, qs[0]);
      LateTurn(ended, qs[0]);
      LateConcat(ended, turn, Said(ended + EndsOf(Reports(turn)), qs[1..]));
      LateIsCrossed(ended + EndsOf(Reports(turn)), qs[1..]);
    }
  }
}
