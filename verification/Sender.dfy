/** The transport's sender: a queue, the frame being sent, and the one whose send failed. */
module Sender {
  import opened Frames

  datatype Pipe = Pipe(queue: seq<Frame>, held: Option<Frame>, inFlight: Option<Frame>)

  function One(f: Option<Frame>): seq<Frame> {
    if f.Some? then [f.value] else []
  }

  /** What has not been sent, in the order it will be. */
  function Line(p: Pipe): seq<Frame> {
    One(p.inFlight) + One(p.held) + p.queue
  }

  function Put(p: Pipe, f: Frame): Pipe {
    p.(queue := p.queue + [f])
  }

  function PutAll(p: Pipe, fs: seq<Frame>): Pipe {
    p.(queue := p.queue + fs)
  }

  predicate CanTake(p: Pipe) {
    p.inFlight.None? && (p.held.Some? || p.queue != [])
  }

  /** The held frame goes first. */
  function Took(p: Pipe): Pipe
    requires CanTake(p)
  {
    if p.held.Some? then Pipe(p.queue, None, p.held)
    else Pipe(p.queue[1..], None, Some(p.queue[0]))
  }

  function Sent(p: Pipe): Pipe {
    p.(inFlight := None)
  }

  /** The send failed, or the sender was cancelled in it. */
  function Requeued(p: Pipe): Pipe {
    if p.inFlight.Some? then Pipe(p.queue, p.inFlight, None) else p
  }

  function Plains(xs: seq<Frame>): seq<Frame> {
    if xs == [] then [] else (if xs[0].Plain? then [xs[0]] else []) + Plains(xs[1..])
  }

  /** Frames with a position leave the line; the one being sent stays. */
  function Discarded(p: Pipe): Pipe {
    Pipe(Plains(p.queue), if p.held.Some? && p.held.value.Numbered? then None else p.held, p.inFlight)
  }

  lemma {:induction false} PlainsConcat(xs: seq<Frame>, ys: seq<Frame>)
    ensures Plains(xs + ys) == Plains(xs) + Plains(ys)
  {
    if xs == [] {
      assert xs + ys == ys;
    } else {
      var first := if xs[0].Plain? then [xs[0]] else [];
      assert (xs + ys)[1..] == xs[1..] + ys;
      PlainsConcat(xs[1..], ys);
      Assoc(first, Plains(xs[1..]), Plains(ys));
    }
  }

  lemma {:induction false} PlainsOnly(xs: seq<Frame>)
    ensures |Plains(xs)| <= |xs|
    ensures forall y <- Plains(xs) :: y.Plain?
  {
    if xs != [] {
      PlainsOnly(xs[1..]);
    }
  }

  lemma {:induction false} PlainsIdempotent(xs: seq<Frame>)
    ensures Plains(Plains(xs)) == Plains(xs)
  {
    if xs != [] {
      PlainsIdempotent(xs[1..]);
      PlainsConcat(if xs[0].Plain? then [xs[0]] else [], Plains(xs[1..]));
    }
  }

  /** At most one frame is off the queue, so a failed send never overwrites a held one. */
  predicate Single(p: Pipe) {
    p.inFlight.None? || p.held.None?
  }

  /** Frames without a position are sent in the order they were put, none lost. */
  ghost predicate Conserved(put: seq<Frame>, sent: seq<Frame>, p: Pipe) {
    Plains(put) == Plains(sent) + Plains(Line(p))
  }

  lemma LineMoves(p: Pipe)
    requires Single(p)
    ensures CanTake(p) ==> Single(Took(p)) && Line(Took(p)) == Line(p)
    ensures Single(Requeued(p)) && Line(Requeued(p)) == Line(p)
    ensures p.inFlight.Some? ==> [p.inFlight.value] + Line(Sent(p)) == Line(p)
  {
    if CanTake(p) && p.held.None? {
      assert [p.queue[0]] + p.queue[1..] == p.queue;
    }
  }

  lemma ConservedPut(put: seq<Frame>, sent: seq<Frame>, p: Pipe, f: Frame)
    requires Conserved(put, sent, p)
    ensures Conserved(put + [f], sent, Put(p, f))
  {
    var line, one := Line(p), Plains([f]);
    assert Line(Put(p, f)) == line + [f];
    calc {
      Plains(put + [f]);
      { PlainsConcat(put, [f]); }
      (Plains(sent) + Plains(line)) + one;
      { Assoc(Plains(sent), Plains(line), one); }
      Plains(sent) + (Plains(line) + one);
      { PlainsConcat(line, [f]); }
      Plains(sent) + Plains(line + [f]);
    }
  }

  lemma ConservedSent(put: seq<Frame>, sent: seq<Frame>, p: Pipe)
    requires Conserved(put, sent, p) && p.inFlight.Some?
    ensures Conserved(put, sent + [p.inFlight.value], Sent(p))
  {
    var f := p.inFlight.value;
    var rest, one := Line(Sent(p)), Plains([f]);
    assert Line(p) == [f] + rest;
    calc {
      Plains(put);
      { PlainsConcat([f], rest); }
      Plains(sent) + (one + Plains(rest));
      { Assoc(Plains(sent), one, Plains(rest)); }
      (Plains(sent) + one) + Plains(rest);
      { PlainsConcat(sent, [f]); }
      Plains(sent + [f]) + Plains(rest);
    }
  }

  lemma ConservedDiscarded(put: seq<Frame>, sent: seq<Frame>, p: Pipe)
    requires Conserved(put, sent, p)
    ensures Conserved(put, sent, Discarded(p))
  {
    PlainsConcat(One(p.inFlight) + One(p.held), p.queue);
    PlainsConcat(One(p.inFlight), One(p.held));
    var d := Discarded(p);
    PlainsConcat(One(d.inFlight) + One(d.held), d.queue);
    PlainsConcat(One(d.inFlight), One(d.held));
    PlainsIdempotent(p.queue);
  }

  /** Nothing is left in the line: every plain frame put was sent, in that order. */
  lemma ConservedEmpty(put: seq<Frame>, sent: seq<Frame>, p: Pipe)
    requires Conserved(put, sent, p) && Line(p) == []
    ensures Plains(put) == Plains(sent)
  {
    assert Plains(sent) + [] == Plains(sent);
  }

  /** A run of the sender: what is put, and what its steps are, in any order. */
  datatype Step = PutStep(frame: Frame) | TakeStep | SentStep | FailStep | DiscardStep

  datatype History = History(put: seq<Frame>, sent: seq<Frame>, pipe: Pipe)

  predicate Can(p: Pipe, s: Step) {
    (s.TakeStep? ==> CanTake(p)) && (s.SentStep? ==> p.inFlight.Some?)
  }

  function Do(h: History, s: Step): History
    requires Can(h.pipe, s)
  {
    match s
    case PutStep(f) => h.(put := h.put + [f], pipe := Put(h.pipe, f))
    case TakeStep => h.(pipe := Took(h.pipe))
    case SentStep => h.(sent := h.sent + [h.pipe.inFlight.value], pipe := Sent(h.pipe))
    case FailStep => h.(pipe := Requeued(h.pipe))
    case DiscardStep => h.(pipe := Discarded(h.pipe))
  }

  lemma ConservedStep(h: History, s: Step)
    requires Conserved(h.put, h.sent, h.pipe) && Single(h.pipe) && Can(h.pipe, s)
    ensures var e := Do(h, s); Conserved(e.put, e.sent, e.pipe) && Single(e.pipe)
  {
    LineMoves(h.pipe);
    match s
    case PutStep(f) => ConservedPut(h.put, h.sent, h.pipe, f);
    case SentStep => ConservedSent(h.put, h.sent, h.pipe);
    case DiscardStep => ConservedDiscarded(h.put, h.sent, h.pipe);
    case _ =>
  }

  ghost predicate Possible(h: History, steps: seq<Step>)
    decreases |steps|
  {
    steps == [] || (Can(h.pipe, steps[0]) && Possible(Do(h, steps[0]), steps[1..]))
  }

  ghost function SenderRun(h: History, steps: seq<Step>): History
    requires Possible(h, steps)
    decreases |steps|
  {
    if steps == [] then h else SenderRun(Do(h, steps[0]), steps[1..])
  }

  /**
   * Whatever sends fail and whatever is discarded: the plain frames sent so far, then those
   * in the line, are exactly the plain frames put, in that order; and a held frame is never
   * overwritten.
   */
  lemma {:induction false} SenderConserves(h: History, steps: seq<Step>)
    requires Conserved(h.put, h.sent, h.pipe) && Single(h.pipe) && Possible(h, steps)
    ensures var e := SenderRun(h, steps); Conserved(e.put, e.sent, e.pipe) && Single(e.pipe)
    decreases |steps|
  {
    if steps != [] {
      ConservedStep(h, steps[0]);
      SenderConserves(Do(h, steps[0]), steps[1..]);
    }
  }

  const EMPTY := History([], [], Pipe([], None, None))

  /** What some run of a new sender leads to. */
  ghost predicate Reached(h: History) {
    exists steps :: Possible(EMPTY, steps) && SenderRun(EMPTY, steps) == h
  }

  lemma {:induction false} OneMoreStep(h: History, steps: seq<Step>, s: Step)
    requires Possible(h, steps) && Can(SenderRun(h, steps).pipe, s)
    ensures Possible(h, steps + [s]) && SenderRun(h, steps + [s]) == Do(SenderRun(h, steps), s)
    decreases |steps|
  {
    if steps == [] {
      assert steps + [s] == [s] && [s][1..] == [];
    } else {
      assert (steps + [s])[0] == steps[0] && (steps + [s])[1..] == steps[1..] + [s];
      OneMoreStep(Do(h, steps[0]), steps[1..], s);
    }
  }

  lemma ReachedMore(h: History, s: Step)
    requires Reached(h) && Can(h.pipe, s)
    ensures Reached(Do(h, s))
  {
    var steps :| Possible(EMPTY, steps) && SenderRun(EMPTY, steps) == h;
    OneMoreStep(EMPTY, steps, s);
    assert Possible(EMPTY, steps + [s]);
  }

  /** Once the line is empty every plain frame put was sent, in that order. */
  lemma FlushedAll(h: History)
    requires Reached(h) && Line(h.pipe) == []
    ensures Plains(h.sent) == Plains(h.put)
  {
    var steps :| Possible(EMPTY, steps) && SenderRun(EMPTY, steps) == h;
    SenderConserves(EMPTY, steps);
    ConservedEmpty(h.put, h.sent, h.pipe);
  }

  /**
   * The sender's part of the websocket transport. `unfinished` is the queue's count of
   * frames put and not done; a flush waits until the count reaches 0, and an asyncio event
   * wakes it then even if the count is raised again at once. `history` is what was put and
   * sent so far: every method is a step of the run `SenderConserves` is about.
   */
  class WebsocketSender {
    var queue: seq<Frame>
    var held: Option<Frame>
    var inFlight: Option<Frame>
    var unfinished: nat
    var flushing: bool
    /** None before the first connection; then whether this connection may send. */
    var released: Option<bool>
    ghost var history: History
    /** The line at the moment this connection was let send. */
    ghost var releasedWith: Option<seq<Frame>>

    ghost function State(): Pipe
      reads this
    {
      Pipe(queue, held, inFlight)
    }

    ghost predicate Valid()
      reads this
    {
      && history.pipe == State()
      && Reached(history)
      && Single(State())
      && unfinished == |Line(State())|
      && (flushing ==> unfinished > 0)
    }

    constructor ()
      ensures Valid() && history == EMPTY && !flushing && released == None
    {
      queue, held, inFlight, unfinished, flushing, released := [], None, None, 0, false, None;
      history := EMPTY;
      assert Possible(EMPTY, []) && SenderRun(EMPTY, []) == EMPTY;
    }

    /** A connection is registered: for a host that holds its sends, nothing goes out until it releases them. */
    method Connected(holds: bool)
      requires Valid()
      modifies `released, `releasedWith
      ensures Valid() && released == Some(!holds) && releasedWith == (if holds then None else Some(Line(State())))
    {
      released := Some(!holds);
      releasedWith := if holds then None else Some(Line(State()));
    }

    /** `release_sends` */
    method ReleaseSends()
      requires Valid()
      modifies `released, `releasedWith
      ensures Valid() && released == (if old(released).Some? then Some(true) else None)
      ensures releasedWith == if old(released) == Some(false) then Some(Line(State())) else old(releasedWith)
    {
      if released.Some? {
        releasedWith := if released.value then releasedWith else Some(Line(State()));
        released := Some(true);
      }
    }

    /** `delayaction`: serialize and enqueue one message. */
    method Send(f: Frame)
      requires Valid()
      modifies `queue, `unfinished, `history
      ensures Valid() && history == Do(old(history), PutStep(f))
    {
      ReachedMore(history, PutStep(f));
      history := Do(history, PutStep(f));
      queue := queue + [f];
      unfinished := unfinished + 1;
    }

    /** Once this connection may send, the sender takes the held frame, else the queue's first. */
    method Take()
      requires Valid() && CanTake(State()) && released != Some(false)
      modifies `queue, `held, `inFlight, `history
      ensures Valid() && history == Do(old(history), TakeStep)
    {
      ReachedMore(history, TakeStep);
      history := Do(history, TakeStep);
      if held.Some? {
        inFlight, held := held, None;
      } else {
        inFlight, queue := Some(queue[0]), queue[1..];
      }
    }

    /**
     * `client.send` returned: the frame is done. A flush this wakes finds that all plain frames put were sent, in
     * order.
     */
    method Done()
      requires Valid() && inFlight.Some?
      modifies `inFlight, `unfinished, `flushing, `history
      ensures Valid() && history == Do(old(history), SentStep)
      ensures old(flushing) && !flushing ==> Line(State()) == [] && Plains(history.sent) == Plains(history.put)
    {
      ReachedMore(history, SentStep);
      LineMoves(State());
      history := Do(history, SentStep);
      unfinished := unfinished - 1;
      flushing := flushing && unfinished > 0;
      inFlight := None;
      if unfinished == 0 { FlushedAll(history); }
    }

    /** The send failed, or the sender was cancelled: hold its frame for the next connection. */
    method Requeue()
      requires Valid()
      modifies `held, `inFlight, `history
      ensures Valid() && history == Do(old(history), FailStep) && inFlight.None?
    {
      ReachedMore(history, FailStep);
      history := Do(history, FailStep);
      if inFlight.Some? {
        held, inFlight := inFlight, None;
      }
    }

    /** `aflush`: with no client nobody drains the queue; else wait until nothing is unfinished. */
    method BeginFlush(connected: bool) returns (returned: bool)
      requires Valid()
      modifies this`flushing
      ensures Valid()
      ensures returned <==> !connected || Line(State()) == []
      ensures returned && connected ==> Plains(history.sent) == Plains(history.put)
      ensures !returned ==> flushing
    {
      if unfinished == 0 { FlushedAll(history); }
      returned := !connected || unfinished == 0;
      if !returned {
        flushing := true;
      }
    }

    /** A held frame with a position is dropped, and counts as done. */
    method DropHeld() returns (dropped: nat)
      requires unfinished == |One(inFlight)| + |One(held)| + |queue| && (flushing ==> unfinished > 0)
      modifies `held, `unfinished, `flushing
      ensures held == Discarded(old(State())).held && dropped == |One(old(held))| - |One(held)|
      ensures unfinished == |One(inFlight)| + |One(held)| + |queue|
      ensures flushing <==> old(flushing) && unfinished > 0
    {
      dropped := 0;
      if held.Some? && held.value.Numbered? {
        held := None;
        unfinished := unfinished - 1;
        flushing := flushing && unfinished > 0;
        dropped := 1;
      }
    }

    /** `get_nowait` then `task_done`, until the queue is empty: the plain frames, in order. */
    method Drain() returns (kept: seq<Frame>)
      requires unfinished == |One(inFlight)| + |One(held)| + |queue|
      modifies this`queue, this`unfinished, this`flushing
      ensures kept == Plains(old(queue)) && queue == []
      ensures unfinished == |One(inFlight)| + |One(held)|
      ensures flushing <==> old(flushing) && (old(queue) == [] || unfinished > 0)
    {
      kept := [];
      ghost var all := Plains(queue);
      ghost var rest := all;
      while queue != []
        invariant all == kept + rest && rest == Plains(queue) && |queue| <= |old(queue)|
        invariant unfinished == |One(inFlight)| + |One(held)| + |queue|
        invariant flushing <==> old(flushing) && (|queue| == |old(queue)| || unfinished > 0)
        decreases |queue|
      {
        var frame := queue[0];
        queue := queue[1..];
        rest := Plains(queue);
        Assoc(kept, [frame], rest);
        unfinished := unfinished - 1;
        flushing := flushing && unfinished > 0;
        if frame.Plain? {
          kept := kept + [frame];
        }
      }
    }

    /** `put_nowait` each frame. */
    method PutBack(kept: seq<Frame>)
      requires queue == []
      modifies this`queue, this`unfinished
      ensures queue == kept && unfinished == old(unfinished) + |kept|
    {
      for i := 0 to |kept|
        invariant queue == kept[..i] && unfinished == old(unfinished) + i
      {
        queue := queue + [kept[i]];
        unfinished := unfinished + 1;
      }
    }

    /**
     * `discard_journaled`: every queued frame is taken off and marked done before the plain
     * ones are put back. A flush waiting meanwhile is woken with frames still unsent exactly
     * when none was in flight, no plain one was held, and a plain one was queued.
     */
    method DiscardJournaled() returns (dropped: nat)
      requires Valid()
      modifies `queue, `held, `unfinished, `flushing, `history
      ensures Valid() && history == Do(old(history), DiscardStep)
      ensures dropped == |Line(old(State()))| - |Line(State())|
      ensures (old(flushing) && !flushing && Line(State()) != []) <==>
              (old(flushing) && old(inFlight).None? && !(old(held).Some? && old(held).value.Plain?)
               && Plains(old(queue)) != [])
    {
      PlainsOnly(queue);
      var before := |queue|;
      dropped := DropHeld();
      var kept := Drain();
      assert flushing <==> old(flushing) && One(inFlight) + One(held) != [];
      PutBack(kept);
      dropped := dropped + (before - |kept|);
      assert State() == Discarded(old(State()));
      assert Line(State()) != [] <==> One(inFlight) + One(held) != [] || kept != [];
      ReachedMore(history, DiscardStep);
      history := Do(history, DiscardStep);
    }
  }

  /** One plain frame is enough: the flush is woken by the discard, the frame is still unsent. */
  method FlushWokenEarly(text: string) returns (s: WebsocketSender, returned: bool)
    ensures fresh(s) && s.Valid()
    ensures !returned && !s.flushing && Line(s.State()) == [Plain(text)]
  {
    s := new WebsocketSender();
    s.Send(Plain(text));
    returned := s.BeginFlush(true);
    var _ := s.DiscardJournaled();
  }
}
