/** Waiting for a cancel to be confirmed: what is sent, and for how long it takes. */
module Cancellation {
  import opened Frames

  datatype Kind = CANCELLED | INTERRUPTED | Unrelated

  /** What arrives on a call's queue. Only a call over GraphQL can be told that its feed is lost. */
  datatype Signal = Told(kind: Kind) | FeedLost

  /** A signal and when it arrives; what waits on the queue already arrived before. */
  datatype Timed = Timed(at: real, signal: Signal)

  datatype Control = Cancel | Interrupt

  predicate InTime(signals: seq<Timed>) {
    forall i, j :: 0 <= i < j < |signals| ==> signals[i].at <= signals[j].at
  }

  predicate Is(s: Signal, kinds: set<Kind>) {
    s.Told? && s.kind in kinds
  }

  function Max(a: real, b: real): (m: real)
    ensures m >= a && m >= b && m in {a, b}
  {
    if a < b then b else a
  }

  function Min(a: real, b: real): (m: real)
    ensures m <= a && m <= b && m in {a, b}
  {
    if a < b then a else b
  }

  /** One of `kinds` arrives before the deadline, and before the feed is lost. */
  ghost predicate Arrives(signals: seq<Timed>, kinds: set<Kind>, deadline: real) {
    exists i :: 0 <= i < |signals| && signals[i].at < deadline && Is(signals[i].signal, kinds)
      && forall j :: 0 <= j < i ==> signals[j].signal != FeedLost
  }

  /** `_await_terminal` and `_await_kind`: drain the queue until one of `kinds` arrives, or time is up. */
  method AwaitKind(signals: seq<Timed>, start: real, kinds: set<Kind>, timeout: real)
    returns (found: bool, end: real, taken: nat)
    requires InTime(signals)
    ensures found <==> timeout > 0.0 && Arrives(signals, kinds, start + timeout)
    ensures found <==> timeout > 0.0 &&
                       exists i :: (&& 0 <= i < |signals| && signals[i].at < start + timeout
                                    && signals[i].signal.Told? && signals[i].signal.kind in kinds
                                    && forall j :: 0 <= j < i ==> signals[j].signal.Told?)
    ensures taken <= |signals| && forall i :: 0 <= i < taken - 1 ==>
              signals[i].signal.Told? && signals[i].signal.kind !in kinds
    ensures if taken > 0 && (signals[taken - 1].signal.FeedLost? || signals[taken - 1].signal.kind in kinds)
            then found == signals[taken - 1].signal.Told? && signals[taken - 1].at < start + timeout
                 && end == Max(start, signals[taken - 1].at)
            else !found && end == start + Max(timeout, 0.0)
                 && (timeout <= 0.0 ==> taken == 0)
                 && (timeout > 0.0 ==> forall i :: 0 <= i < |signals| ==> (i < taken <==> signals[i].at < end))
    ensures start <= end <= start + Max(timeout, 0.0)
  {
    var deadline := start + timeout;
    var now := start;
    taken := 0;
    while true
      invariant taken <= |signals| && start <= now <= start + Max(timeout, 0.0)
      invariant now >= deadline ==> taken == 0 && timeout <= 0.0
      invariant now == if taken == 0 then start else Max(start, signals[taken - 1].at)
      invariant forall i :: 0 <= i < taken ==>
                signals[i].at < deadline && !Is(signals[i].signal, kinds) && signals[i].signal != FeedLost
      decreases |signals| - taken
    {
      if deadline - now <= 0.0 { return false, now, taken; }
      if taken == |signals| || signals[taken].at >= deadline { return false, deadline, taken; }
      var s := signals[taken];
      now, taken := Max(now, s.at), taken + 1;
      if s.signal.FeedLost? { return false, now, taken; }
      if s.signal.kind in kinds { return true, now, taken; }
    }
  }

  lemma InTimeAfter(signals: seq<Timed>, n: nat)
    requires InTime(signals) && n <= |signals|
    ensures InTime(signals[n..])
  {
  }

  /** Over the socket: a control is handed to the socket at once, and no feed can be lost. */
  method ConfirmCancellation(signals: seq<Timed>, start: real, timeout: real, escalate: bool)
    returns (controls: seq<Control>, confirmed: bool, end: real, drained: nat)
    requires InTime(signals) && forall s <- signals :: s.signal != FeedLost
    ensures drained <= |signals| && start <= end <= start + 2.0 * Max(timeout, 0.0)
    ensures var first := timeout > 0.0 && Arrives(signals, {CANCELLED}, start + timeout);
      && controls == (if first || !escalate then [Cancel] else [Cancel, Interrupt])
      && (first || !escalate ==> confirmed == first && end <= start + Max(timeout, 0.0))
      && (!first && escalate ==>
            && confirmed == (timeout > 0.0
                  && Arrives(signals[drained..], {CANCELLED, INTERRUPTED}, start + timeout + timeout))
            && (timeout > 0.0 ==> forall i :: 0 <= i < |signals| ==>
                  (i < drained <==> signals[i].at < start + timeout)))
  {
    controls := [Cancel];
    confirmed, end, drained := AwaitKind(signals, start, {CANCELLED}, timeout);
    if confirmed || !escalate { return; }
    controls := controls + [Interrupt];
    InTimeAfter(signals, drained);
    var more: nat;
    confirmed, end, more := AwaitKind(signals[drained..], end, {CANCELLED, INTERRUPTED}, timeout);
  }

  /** How long a request takes that is given up after `timeout`. */
  function Asked(takes: real, timeout: real): (t: real)
    ensures takes <= 0.0 || timeout <= 0.0 ==> t == 0.0
    ensures 0.0 < takes <= timeout ==> t == takes
    ensures 0.0 < timeout < takes ==> t == timeout
  {
    Min(Max(takes, 0.0), Max(timeout, 0.0))
  }

  /** Over GraphQL: each control is a request that is given up after `timeout`, and the feed may be lost. */
  method ConfirmOverGraphQL(signals: seq<Timed>, start: real, timeout: real, escalate: bool, cancelTakes: real,
                            interruptTakes: real)
    returns (controls: seq<Control>, confirmed: bool, end: real, drained: nat, escalated: real)
    requires InTime(signals)
    ensures drained <= |signals| && start <= end <= start + 4.0 * Max(timeout, 0.0)
    ensures var asked := start + Asked(cancelTakes, timeout);
      var first := timeout > 0.0 && Arrives(signals, {CANCELLED}, asked + timeout);
      && controls == (if first || !escalate then [Cancel] else [Cancel, Interrupt])
      && (first || !escalate ==> confirmed == first && end <= asked + Max(timeout, 0.0))
      && (!first && escalate ==>
            && (if drained > 0 && signals[drained - 1].signal.FeedLost?
                then escalated == Max(asked, signals[drained - 1].at) <= asked + Max(timeout, 0.0)
                else escalated == asked + Max(timeout, 0.0)
                     && forall i :: 0 <= i < |signals| ==>
                          (i < drained <==> timeout > 0.0 && signals[i].at < escalated))
            && var deadline := escalated + Asked(interruptTakes, timeout) + timeout;
               confirmed == (timeout > 0.0 && Arrives(signals[drained..], {INTERRUPTED, CANCELLED}, deadline)))
  {
    controls := [Cancel];
    var now := start + Asked(cancelTakes, timeout);
    confirmed, end, drained := AwaitKind(signals, now, {CANCELLED}, timeout);
    escalated := end;
    if confirmed || !escalate { return; }
    controls := controls + [Interrupt];
    InTimeAfter(signals, drained);
    var more: nat;
    confirmed, end, more := AwaitKind(signals[drained..], end + Asked(interruptTakes, timeout),
          {INTERRUPTED, CANCELLED}, timeout);
  }

  /** How an assign in flight ends: after some time, with a task or without one. */
  datatype Assign = Answered(after: real, task: Option<string>)

  /** `_assigned_despite_cancel`: a task is missed only if the answer was still out after the whole timeout. */
  method AssignedDespiteCancel(assign: Assign, start: real, timeout: real) returns (task: Option<string>, end: real)
    ensures start <= end <= start + Max(timeout, 0.0)
    ensures task.Some? ==> task == assign.task && end == start + Max(assign.after, 0.0)
    ensures task.Some? ==> assign.after <= 0.0 || end < start + timeout
    ensures task.None? && assign.task.Some? ==>
            end == start + Max(timeout, 0.0) <= start + assign.after && assign.after > 0.0
  {
    if assign.after <= 0.0 || assign.after < timeout {
      return assign.task, start + Max(assign.after, 0.0);
    }
    return None, start + Max(timeout, 0.0);
  }

  /**
   * A call cancelled before its assign answered: without a task nothing is cancelled, and with one it is confirmed as
   * ever.
   */
  method CancelledBeforeAnswer(assign: Assign, signals: seq<Timed>, start: real, timeout: real, escalate: bool,
                               cancelTakes: real, interruptTakes: real)
    returns (controls: seq<Control>, confirmed: bool, end: real, drained: nat, escalated: real)
    requires InTime(signals)
    ensures start <= end <= start + 5.0 * Max(timeout, 0.0) && drained <= |signals|
    ensures var learnt := assign.task.Some? && (assign.after <= 0.0 || assign.after < timeout);
      var asked := start + Max(assign.after, 0.0) + Asked(cancelTakes, timeout);
      var first := timeout > 0.0 && Arrives(signals, {CANCELLED}, asked + timeout);
      && controls == (if !learnt then [] else if first || !escalate then [Cancel] else [Cancel, Interrupt])
      && (!learnt ==> !confirmed && end <= start + Max(timeout, 0.0))
      && (learnt && (first || !escalate) ==> confirmed == first)
      && (learnt && !first && escalate ==>
            && (if drained > 0 && signals[drained - 1].signal.FeedLost?
                then escalated == Max(asked, signals[drained - 1].at) <= asked + Max(timeout, 0.0)
                else escalated == asked + Max(timeout, 0.0)
                     && forall i :: 0 <= i < |signals| ==>
                          (i < drained <==> timeout > 0.0 && signals[i].at < escalated))
            && var deadline := escalated + Asked(interruptTakes, timeout) + timeout;
               confirmed == (timeout > 0.0 && Arrives(signals[drained..], {INTERRUPTED, CANCELLED}, deadline)))
  {
    controls, confirmed, drained, escalated := [], false, 0, start;
    var task;
    task, end := AssignedDespiteCancel(assign, start, timeout);
    if task.None? { return; }
    controls, confirmed, end, drained, escalated :=
      ConfirmOverGraphQL(signals, end, timeout, escalate, cancelTakes, interruptTakes);
  }
}
