/** How often the transport reconnects before it gives up. */
module Reconnect {
  import opened Frames

  datatype Policy = Policy(maxRetries: nat, resetAfter: real, flapLimit: Option<nat>, flapWindow: real)

  /** How an attempt ends: the socket's stream runs out, or a failure that may be retried, or one that may not. */
  datatype End = Clean | Correctable | Definite

  /**
   * One pass through the loop: when it connected, if it did; whether it came as far as receiving; how and when it
   * ended; and whether a disconnect was asked for meanwhile. `judged` is when a failure is held against the flap
   * window.
   */
  datatype Attempt = Attempt(connectedAt: Option<real>, healthy: bool, end: End, at: real, closing: bool, judged: real)

  datatype Result = Disconnected | TooManyRetries | IsFlapping(drops: nat) | Failed

  predicate Long(p: Policy, a: Attempt) {
    a.connectedAt.Some? && a.at - a.connectedAt.value >= p.resetAfter
  }

  /** How many drops lie inside the window. */
  function InWindow(drops: seq<real>, c: real): nat {
    |(set i | 0 <= i < |drops| && drops[i] >= c)|
  }

  lemma InWindowMore(drops: seq<real>, t: real, c: real)
    ensures InWindow(drops + [t], c) == InWindow(drops, c) + (if t >= c then 1 else 0)
  {
    var some, all := set i | 0 <= i < |drops| && drops[i] >= c, set i | 0 <= i < |drops + [t]| && (drops + [t])[i] >= c;
    assert all == if t >= c then some + {|drops|} else some;
  }

  function Failures(attempts: seq<Attempt>): nat {
    if attempts == [] then 0
          else Failures(attempts[..|attempts| - 1]) + (if attempts[|attempts| - 1].end.Correctable? then 1 else 0)
  }

  function Longs(p: Policy, attempts: seq<Attempt>): nat {
    if attempts == [] then 0
          else Longs(p, attempts[..|attempts| - 1]) + (if Long(p, attempts[|attempts| - 1]) then 1 else 0)
  }

  /** The start of the stretch that is held against the budget: the last attempt that refunded it, or the first. */
  function Refund(p: Policy, attempts: seq<Attempt>): (n: nat)
    ensures n <= |attempts| && (n > 0 ==> n < |attempts| && Long(p, attempts[n]))
    ensures forall i :: n < i < |attempts| ==> !Long(p, attempts[i])
  {
    if attempts == [] then 0
    else if Long(p, attempts[|attempts| - 1]) then |attempts| - 1
    else Refund(p, attempts[..|attempts| - 1])
  }

  /** The failures since then. */
  function Charged(p: Policy, attempts: seq<Attempt>): nat {
    Failures(attempts[Refund(p, attempts)..])
  }

  /** When connections dropped. */
  function Drops(attempts: seq<Attempt>): seq<real> {
    if attempts == [] then [] else
    Drops(attempts[..|attempts| - 1]) + (if attempts[|attempts| - 1].healthy then [attempts[|attempts| - 1].at] else [])
  }

  function Recent(drops: seq<real>, cutoff: real): seq<real> {
    if drops == [] then [] else
    Recent(drops[..|drops| - 1], cutoff) + (if drops[|drops| - 1] >= cutoff then [drops[|drops| - 1]] else [])
  }

  /** Held against the whole history: too many drops inside the window. */
  predicate Flaps(p: Policy, drops: seq<real>, now: real) {
    p.flapLimit.Some? && |Recent(drops, now - p.flapWindow)| >= p.flapLimit.value
  }

  /** After an attempt that began with `held` failures on its budget there is another; `drops` are all drops by then. */
  predicate Retries(p: Policy, a: Attempt, held: nat, drops: seq<real>) {
    match a.end
    case Clean => !a.closing
    case Definite => false
    case Correctable => !a.closing && held < p.maxRetries && !Flaps(p, drops, a.judged)
  }

  /** After the last of `attempts` there is another. */
  predicate GoesOn(p: Policy, before: seq<real>, attempts: seq<Attempt>) {
    attempts == [] ||
    var last := attempts[|attempts| - 1];
    match last.end
    case Clean => !last.closing
    case Definite => false
    case Correctable =>
      !last.closing && Charged(p, attempts) <= p.maxRetries && !Flaps(p, before + Drops(attempts), last.judged)
  }

  /**
   * Why there is no attempt after `a`, which began with `held` failures on its budget; `drops` are all drops by then.
   */
  function Given(p: Policy, a: Attempt, held: nat, drops: seq<real>): Result {
    if a.end.Definite? then Result.Failed
    else if a.closing then Disconnected
    else if held >= p.maxRetries then TooManyRetries
    else Result.IsFlapping(|Recent(drops, a.judged - p.flapWindow)|)
  }

  /** Why there is no attempt after the last of `attempts`. */
  function Ended(p: Policy, before: seq<real>, attempts: seq<Attempt>): Result
    requires attempts != []
  {
    var last := attempts[|attempts| - 1];
    if last.end.Definite? then Result.Failed
    else if last.closing then Disconnected
    else if Charged(p, attempts) > p.maxRetries then TooManyRetries
    else Result.IsFlapping(|Recent(before + Drops(attempts), last.judged - p.flapWindow)|)
  }

  /** After each of `attempts` there is another. */
  predicate Survives(p: Policy, before: seq<real>, attempts: seq<Attempt>) {
    attempts == [] || (GoesOn(p, before, attempts) && Survives(p, before, attempts[..|attempts| - 1]))
  }

  /** What the loop used: after each attempt but the last there was another. */
  predicate Used(p: Policy, before: seq<real>, attempts: seq<Attempt>) {
    attempts == [] || Survives(p, before, attempts[..|attempts| - 1])
  }

  /** What the loop has, after `past`. */
  ghost predicate Standing(p: Policy, before: seq<real>, past: seq<Attempt>, drops: seq<real>, retry: nat,
                           goesOn: bool, result: Result) {
    && drops == before + Drops(past) && Used(p, before, past) && goesOn == GoesOn(p, before, past)
    && (goesOn ==> retry == Charged(p, past) && Survives(p, before, past) && result == Disconnected)
    && (!goesOn ==> past != [] && result == Ended(p, before, past))
  }

  /** The clock does not run backwards: each failure is judged after those before it, and after the last pruning. */
  predicate Ahead(p: Policy, cutoff: Option<real>, attempts: seq<Attempt>) {
    && (cutoff.Some? ==> forall a <- attempts :: cutoff.value <= a.judged - p.flapWindow)
    && forall i, j :: 0 <= i < j < |attempts| ==> attempts[i].judged <= attempts[j].judged
  }

  lemma AheadNext(p: Policy, cutoff: Option<real>, attempts: seq<Attempt>)
    requires attempts != [] && Ahead(p, cutoff, attempts)
    ensures cutoff.Some? ==> cutoff.value <= attempts[0].judged - p.flapWindow
    ensures Ahead(p, cutoff, attempts[1..]) && Ahead(p, Some(attempts[0].judged - p.flapWindow), attempts[1..])
  {
    assert forall a <- attempts[1..] :: a in attempts && attempts[0].judged <= a.judged;
  }

  lemma {:induction false} RecentTwice(drops: seq<real>, c: real, d: real)
    requires c <= d
    ensures Recent(Recent(drops, c), d) == Recent(drops, d)
    decreases |drops|
  {
    if drops != [] {
      var rest, t := drops[..|drops| - 1], drops[|drops| - 1];
      RecentTwice(rest, c, d);
      RecentMore(Recent(rest, c), t, d);
      assert t < c ==> Recent(drops, c) == Recent(rest, c);
    }
  }

  lemma RecentMore(drops: seq<real>, t: real, c: real)
    ensures Recent(drops + [t], c) == if t >= c then Recent(drops, c) + [t] else Recent(drops, c)
  {
    assert (drops + [t])[..|drops|] == drops;
  }

  lemma ChargedMore(p: Policy, attempts: seq<Attempt>, a: Attempt)
    ensures Charged(p, attempts + [a]) ==
            (if Long(p, a) then 0 else Charged(p, attempts)) + (if a.end.Correctable? then 1 else 0)
  {
    var all := attempts + [a];
    assert all[..|attempts|] == attempts;
    if Long(p, a) {
      assert all[|attempts|..] == [] + [a];
      FailuresMore([], a);
    } else {
      var n := Refund(p, attempts);
      assert all[n..] == attempts[n..] + [a];
      FailuresMore(attempts[n..], a);
    }
  }

  lemma FailuresMore(attempts: seq<Attempt>, a: Attempt)
    ensures Failures(attempts + [a]) == Failures(attempts) + (if a.end.Correctable? then 1 else 0)
  {
    assert (attempts + [a])[..|attempts|] == attempts;
  }

  lemma DropsMore(attempts: seq<Attempt>, a: Attempt)
    ensures Drops(attempts + [a]) == if a.healthy then Drops(attempts) + [a.at] else Drops(attempts)
  {
    assert (attempts + [a])[..|attempts|] == attempts;
  }

  /** One more attempt, against the whole history. */
  lemma OneMore(p: Policy, before: seq<real>, past: seq<Attempt>, a: Attempt)
    ensures var held, drops := if Long(p, a) then 0 else Charged(p, past), before + Drops(past + [a]);
      && drops == (if a.healthy then before + Drops(past) + [a.at] else before + Drops(past))
      && Charged(p, past + [a]) == held + (if a.end.Correctable? then 1 else 0)
      && (GoesOn(p, before, past + [a]) <==> Retries(p, a, held, drops))
      && (!GoesOn(p, before, past + [a]) ==> Ended(p, before, past + [a]) == Given(p, a, held, drops))
  {
    ChargedMore(p, past, a);
    DropsMore(past, a);
    assert before + (Drops(past) + [a.at]) == before + Drops(past) + [a.at];
  }

  lemma {:induction false} WithinBudget(p: Policy, before: seq<real>, attempts: seq<Attempt>)
    requires Survives(p, before, attempts)
    ensures Charged(p, attempts) <= p.maxRetries
    ensures Failures(attempts) <= (p.maxRetries + 1) * Longs(p, attempts) + Charged(p, attempts)
    decreases |attempts|
  {
    if attempts != [] {
      var past, a := attempts[..|attempts| - 1], attempts[|attempts| - 1];
      WithinBudget(p, before, past);
      assert attempts == past + [a];
      OneMore(p, before, past, a);
      Refunded(p, Longs(p, past), Longs(p, attempts));
    }
  }

  lemma Refunded(p: Policy, m: nat, n: nat)
    requires n == m || n == m + 1
    ensures (p.maxRetries + 1) * n == (p.maxRetries + 1) * m + (if n == m then 0 else p.maxRetries + 1)
  {
  }

  lemma {:induction false} FailuresSplit(x: seq<Attempt>, y: seq<Attempt>)
    ensures Failures(x + y) == Failures(x) + Failures(y)
    decreases |y|
  {
    if y == [] {
      assert x + y == x;
    } else {
      var rest := y[..|y| - 1];
      assert (x + y)[..|x + y| - 1] == x + rest;
      FailuresSplit(x, rest);
    }
  }

  lemma {:induction false} Prefix(p: Policy, before: seq<real>, attempts: seq<Attempt>, n: nat)
    requires Survives(p, before, attempts) && n <= |attempts|
    ensures Survives(p, before, attempts[..n])
    decreases |attempts|
  {
    if n == |attempts| {
      assert attempts[..n] == attempts;
    } else {
      var past := attempts[..|attempts| - 1];
      assert attempts[..n] == past[..n];
      Prefix(p, before, past, n);
    }
  }

  lemma StretchCharged(p: Policy, attempts: seq<Attempt>, a: nat)
    requires a < |attempts| && forall i :: a < i < |attempts| ==> !Long(p, attempts[i])
    ensures Failures(attempts[a..]) <= Charged(p, attempts)
  {
    var n := Refund(p, attempts);
    assert n <= a;
    assert attempts[n..] == attempts[n..a] + attempts[a..];
    FailuresSplit(attempts[n..a], attempts[a..]);
  }

  lemma ChargedUpTo(p: Policy, before: seq<real>, past: seq<Attempt>, a: Attempt)
    requires Survives(p, before, past)
    ensures Charged(p, past + [a]) <= p.maxRetries + 1
    ensures GoesOn(p, before, past + [a]) ==> Charged(p, past + [a]) <= p.maxRetries
  {
    WithinBudget(p, before, past);
    OneMore(p, before, past, a);
  }

  lemma UsedUpTo(p: Policy, before: seq<real>, attempts: seq<Attempt>, b: nat)
    requires Used(p, before, attempts) && 0 < b <= |attempts|
    ensures Survives(p, before, attempts[..b - 1]) && (b < |attempts| ==> GoesOn(p, before, attempts[..b]))
  {
    var most := attempts[..|attempts| - 1];
    Prefix(p, before, most, b - 1);
    assert most[..b - 1] == attempts[..b - 1];
    if b < |attempts| {
      Prefix(p, before, most, b);
      assert most[..b] == attempts[..b];
    }
  }

  /**
   * No stretch without a long connection, though it may begin with one, holds more than `maxRetries` + 1 failures;
   * and at that count the loop is over.
   */
  lemma RetryBound(p: Policy, before: seq<real>, attempts: seq<Attempt>, a: nat, b: nat)
    requires Used(p, before, attempts) && a <= b <= |attempts|
    requires forall i :: a < i < b ==>
               attempts[i].connectedAt.None? || attempts[i].at - attempts[i].connectedAt.value < p.resetAfter
    ensures Failures(attempts[a..b]) <= p.maxRetries + 1
    ensures Failures(attempts[a..b]) == p.maxRetries + 1 ==> b == |attempts| && !GoesOn(p, before, attempts)
  {
    if a < b {
      var upTo := attempts[..b];
      assert upTo == attempts[..b - 1] + [attempts[b - 1]] && upTo[a..] == attempts[a..b];
      UsedUpTo(p, before, attempts, b);
      ChargedUpTo(p, before, attempts[..b - 1], attempts[b - 1]);
      StretchCharged(p, upTo, a);
      assert b == |attempts| ==> upTo == attempts;
    }
  }

  function LongOnes(p: Policy, attempts: seq<Attempt>): set<int> {
    set i | 0 <= i < |attempts| && attempts[i].connectedAt.Some?
            && attempts[i].at - attempts[i].connectedAt.value >= p.resetAfter
  }

  lemma LongOnesMore(p: Policy, past: seq<Attempt>, a: Attempt)
    ensures |LongOnes(p, past + [a])| == |LongOnes(p, past)| + if Long(p, a) then 1 else 0
  {
    var n, all := |past|, past + [a];
    assert forall i :: 0 <= i < n ==> all[i] == past[i];
    assert LongOnes(p, all) == LongOnes(p, past) + if Long(p, a) then {n} else {};
  }

  lemma {:induction false} LongsCount(p: Policy, attempts: seq<Attempt>)
    ensures Longs(p, attempts) == |LongOnes(p, attempts)|
    decreases |attempts|
  {
    if attempts != [] {
      var n := |attempts| - 1;
      LongsCount(p, attempts[..n]);
      LongOnesMore(p, attempts[..n], attempts[n]);
      assert attempts == attempts[..n] + [attempts[n]];
    }
  }

  /**
   * With finitely many long connections there are finitely many failures, and without clean closes finitely many
   * attempts.
   */
  lemma TotalBound(p: Policy, before: seq<real>, attempts: seq<Attempt>)
    requires Used(p, before, attempts)
    ensures var longs := |(set i | 0 <= i < |attempts| && attempts[i].connectedAt.Some?
                                  && attempts[i].at - attempts[i].connectedAt.value >= p.resetAfter)|;
      && Failures(attempts) <= (p.maxRetries + 1) * (longs + 1)
      && ((forall a <- attempts :: !a.end.Clean?) ==> |attempts| <= (p.maxRetries + 1) * (longs + 1) + 1)
  {
    LongsCount(p, attempts);
    if attempts != [] {
      var past, a := attempts[..|attempts| - 1], attempts[|attempts| - 1];
      assert attempts == past + [a];
      WithinBudget(p, before, past);
      Refunded(p, Longs(p, past), Longs(p, attempts));
      Refunded(p, Longs(p, attempts), Longs(p, attempts) + 1);
      if forall x <- attempts :: !x.end.Clean? { AllFailed(p, before, past); }
    }
  }

  lemma {:induction false} AllFailed(p: Policy, before: seq<real>, attempts: seq<Attempt>)
    requires Survives(p, before, attempts) && forall a <- attempts :: !a.end.Clean?
    ensures Failures(attempts) == |attempts|
    decreases |attempts|
  {
    if attempts != [] {
      assert attempts[|attempts| - 1] in attempts;
      AllFailed(p, before, attempts[..|attempts| - 1]);
    }
  }

  lemma {:induction false} RecentCounts(drops: seq<real>, c: real)
    ensures |Recent(drops, c)| == InWindow(drops, c)
    decreases |drops|
  {
    if drops == [] {
    } else {
      var rest, t := drops[..|drops| - 1], drops[|drops| - 1];
      RecentCounts(rest, c);
      InWindowMore(rest, t, c);
      assert drops == rest + [t];
    }
  }

  /** Why the loop ended, against all its attempts and all drops of the session. */
  lemma EndsBecause(p: Policy, before: seq<real>, attempts: seq<Attempt>)
    requires Used(p, before, attempts) && !GoesOn(p, before, attempts)
    ensures attempts != []
    ensures var last, result := attempts[|attempts| - 1], Ended(p, before, attempts);
      var inWindow := InWindow(before + Drops(attempts), last.judged - p.flapWindow);
      match last.end {
        case Definite => result == Result.Failed
        case Clean => last.closing && result == Disconnected
        case Correctable =>
          if last.closing then result == Disconnected
          else if Charged(p, attempts) == p.maxRetries + 1 then result == TooManyRetries
          else result == Result.IsFlapping(inWindow) && p.flapLimit.Some? && inWindow >= p.flapLimit.value
      }
  {
    var past, last := attempts[..|attempts| - 1], attempts[|attempts| - 1];
    assert attempts == past + [last];
    ChargedUpTo(p, before, past, last);
    RecentCounts(before + Drops(attempts), last.judged - p.flapWindow);
  }

  lemma FlapsIs(p: Policy, drops: seq<real>, now: real)
    ensures Flaps(p, drops, now) <==> p.flapLimit.Some? && InWindow(drops, now - p.flapWindow) >= p.flapLimit.value
  {
    RecentCounts(drops, now - p.flapWindow);
  }

  lemma NoFlapping(p: Policy, before: seq<real>, past: seq<Attempt>)
    requires past != [] && GoesOn(p, before, past) && past[|past| - 1].end.Correctable?
    ensures !Flaps(p, before + Drops(past), past[|past| - 1].judged)
  {
  }

  /** Whenever the loop retries, fewer than `flapLimit` of all drops so far lie within the window. */
  lemma RetriesBelowLimit(p: Policy, before: seq<real>, attempts: seq<Attempt>, n: nat)
    requires Survives(p, before, attempts) && n < |attempts| && attempts[n].end.Correctable? && p.flapLimit.Some?
    ensures var drops, cutoff := before + Drops(attempts[..n + 1]), attempts[n].judged - p.flapWindow;
      InWindow(drops, cutoff) < p.flapLimit.value
  {
    Prefix(p, before, attempts, n + 1);
    assert attempts[..n + 1][n] == attempts[n];
    NoFlapping(p, before, attempts[..n + 1]);
    FlapsIs(p, before + Drops(attempts[..n + 1]), attempts[n].judged);
  }

  class WebsocketConnection {
    /** `_drop_times`, which is pruned, and every drop of the session. */
    var dropTimes: seq<real>
    ghost var drops: seq<real>
    ghost var cutoff: Option<real>

    ghost predicate Valid()
      reads this
    {
      forall c :: (cutoff.Some? ==> c >= cutoff.value) ==> Recent(dropTimes, c) == Recent(drops, c)
    }

    /** A new session starts without drops. */
    method Enter()
      modifies this
      ensures Valid() && drops == [] && cutoff == None
    {
      dropTimes, drops, cutoff := [], [], None;
    }

    method Dropped(at: real)
      requires Valid()
      modifies this
      ensures Valid() && drops == old(drops) + [at] && cutoff == old(cutoff)
    {
      forall c | cutoff.Some? ==> c >= cutoff.value ensures Recent(dropTimes + [at], c) == Recent(drops + [at], c) {
        RecentMore(drops, at, c);
        RecentMore(dropTimes, at, c);
      }
      dropTimes, drops := dropTimes + [at], drops + [at];
    }

    /** `_is_flapping`: the pruned list tells what the whole history would. */
    method IsFlapping(p: Policy, now: real) returns (flapping: bool)
      requires Valid() && (cutoff.Some? ==> cutoff.value <= now - p.flapWindow)
      modifies `dropTimes, `cutoff
      ensures Valid() && flapping == Flaps(p, drops, now)
      ensures flapping <==> p.flapLimit.Some?
                            && |(set i | 0 <= i < |drops| && drops[i] >= now - p.flapWindow)| >= p.flapLimit.value
      ensures cutoff == if p.flapLimit.Some? then Some(now - p.flapWindow) else old(cutoff)
      ensures flapping ==> dropTimes == Recent(drops, now - p.flapWindow)
    {
      if p.flapLimit.None? { return false; }
      var c := now - p.flapWindow;
      var times := dropTimes;
      var kept: seq<real> := [];
      for i := 0 to |times|
        invariant kept == Recent(times[..i], c)
      {
        assert times[..i + 1] == times[..i] + [times[i]];
        RecentMore(times[..i], times[i], c);
        if times[i] >= c { kept := kept + [times[i]]; }
      }
      assert times[..|times|] == times;
      forall d | d >= c ensures Recent(kept, d) == Recent(drops, d) {
        RecentTwice(drops, c, d);
      }
      RecentCounts(drops, c);
      dropTimes, cutoff := kept, Some(c);
      flapping := |dropTimes| >= p.flapLimit.value;
    }

    /** How the loop takes the end of an attempt, with `retry` failures on its budget. */
    method Turn(p: Policy, a: Attempt, retry: nat) returns (goesOn: bool, result: Result, left: nat)
      requires Valid() && (cutoff.Some? ==> cutoff.value <= a.judged - p.flapWindow)
      modifies this
      ensures Valid() && drops == (if a.healthy then old(drops) + [a.at] else old(drops))
      ensures cutoff == old(cutoff) || cutoff == Some(a.judged - p.flapWindow)
      ensures var held := if a.connectedAt.Some? && a.at - a.connectedAt.value >= p.resetAfter then 0 else retry;
        && left == held + (if goesOn && a.end.Correctable? then 1 else 0)
        && goesOn == Retries(p, a, held, drops) == match a.end {
             case Clean => !a.closing
             case Definite => false
             case Correctable =>
               && !a.closing && held < p.maxRetries
               && !(p.flapLimit.Some? && InWindow(drops, a.judged - p.flapWindow) >= p.flapLimit.value)
           }
        && (!goesOn ==> result == Given(p, a, held, drops) == match a.end {
             case Clean => Disconnected
             case Definite => Result.Failed
             case Correctable =>
               if a.closing then Disconnected else if held >= p.maxRetries then TooManyRetries
               else Result.IsFlapping(InWindow(drops, a.judged - p.flapWindow))
           })
    {
      if a.healthy { Dropped(a.at); }
      RecentCounts(drops, a.judged - p.flapWindow);
      goesOn, result, left := true, Disconnected, retry;
      if Long(p, a) { left := 0; }
      match a.end {
        case Clean =>
          // The next pass returns before it connects.
          if a.closing { return false, Disconnected, left; }
        case Definite => goesOn, result := false, Result.Failed;
        case Correctable =>
          if a.closing { return false, Disconnected, left; }
          if left >= p.maxRetries { return false, TooManyRetries, left; }
          var flapping := IsFlapping(p, a.judged);
          if flapping { return false, Result.IsFlapping(|dropTimes|), left; }
          left := left + 1;
      }
    }

    /** The loop, over the attempts that are made before a disconnect is asked for. */
    method ConnectAndReceive(p: Policy, attempts: seq<Attempt>) returns (result: Result, used: nat)
      requires Valid() && Ahead(p, cutoff, attempts)
      modifies this
      ensures Valid() && used <= |attempts| && drops == old(drops) + Drops(attempts[..used])
      ensures Used(p, old(drops), attempts[..used])
      ensures GoesOn(p, old(drops), attempts[..used]) ==> used == |attempts| && result == Disconnected
      ensures !GoesOn(p, old(drops), attempts[..used]) ==> result == Ended(p, old(drops), attempts[..used])
    {
      var retry, goesOn := 0, true;
      result, used := Disconnected, 0;
      ghost var before, past: seq<Attempt> := drops, [];
      assert before + Drops([]) == before;
      while used < |attempts| && goesOn
        invariant used <= |attempts| && past == attempts[..used] && Valid()
        invariant Standing(p, before, past, drops, retry, goesOn, result)
        invariant Ahead(p, cutoff, attempts[used..])
        decreases |attempts| - used
      {
        var a := attempts[used];
        assert attempts[used..][0] == a && attempts[used..][1..] == attempts[used + 1..];
        AheadNext(p, cutoff, attempts[used..]);
        goesOn, result, retry := TurnStanding(p, before, past, a, retry);
        past, used := past + [a], used + 1;
        assert past == attempts[..used];
      }
    }

    method TurnStanding(p: Policy, ghost before: seq<real>, ghost past: seq<Attempt>, a: Attempt, retry: nat)
      returns (goesOn: bool, result: Result, left: nat)
      requires Valid() && Standing(p, before, past, drops, retry, true, Disconnected)
      requires cutoff.Some? ==> cutoff.value <= a.judged - p.flapWindow
      modifies this
      ensures Valid() && (cutoff == old(cutoff) || cutoff == Some(a.judged - p.flapWindow))
      ensures Standing(p, before, past + [a], drops, left, goesOn, result)
    {
      OneMore(p, before, past, a);
      goesOn, result, left := Turn(p, a, retry);
      if goesOn { result := Disconnected; }
      assert (past + [a])[..|past|] == past;
    }
  }
}
