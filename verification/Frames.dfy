/** What an agent reports, and the order in which what it still owes is sent again. */
module Frames {

  datatype Option<+T> = None | Some(value: T)

  /** A numbered frame's durable key: its session, and its position there (1, 2, 3, ...). */
  datatype Key = Key(session: string, pos: nat)

  datatype Body =
    | Effect(effect: string, key: string, value: string)
    | Terminal(outcome: Outcome)
    | Progress
    | Other(text: string)

  datatype Outcome = Completed | Failed | Critical | Cancelled | Interrupted

  /** A report: the task it is about, its step in that task, and what it says. */
  datatype Report = Report(task: Option<string>, step: Option<nat>, body: Body)
  {
    predicate Ends(t: string) {
      task == Some(t) && body.Terminal?
    }
  }

  /** A frame on its way to the server: one with a position, or any other. */
  datatype Frame = Numbered(key: Key, report: Report) | Plain(text: string)

  lemma Assoc<T>(a: seq<T>, b: seq<T>, c: seq<T>)
    ensures a + b + c == a + (b + c)
  {
  }

  function Get<V>(m: map<string, V>, s: string, default: V): (v: V)
    ensures v == (if s in m then m[s] else default)
  {
    if s in m then m[s] else default
  }

  /** Strings compare by code point, in Python as in the database. */
  predicate TextBefore(a: string, b: string) {
    b != [] && (a == [] || a[0] < b[0] || (a[0] == b[0] && TextBefore(a[1..], b[1..])))
  }

  /** One text comes before another: it is a beginning of it, or has the smaller character where they first differ. */
  lemma {:induction false} TextBeforeIs(a: string, b: string)
    ensures TextBefore(a, b) <==>
            exists n: nat :: n <= |a| && n < |b| && a[..n] == b[..n] && (n == |a| || a[n] < b[n])
  {
    if b != [] && a != [] && a[0] == b[0] {
      TextBeforeIs(a[1..], b[1..]);
      if TextBefore(a, b) {
        var n: nat :| n <= |a[1..]| && n < |b[1..]| && a[1..][..n] == b[1..][..n]
              && (n == |a[1..]| || a[1..][n] < b[1..][n]);
        assert a[..n + 1] == [a[0]] + a[1..][..n] && b[..n + 1] == [b[0]] + b[1..][..n];
      }
      if n: nat :| n <= |a| && n < |b| && a[..n] == b[..n] && (n == |a| || a[n] < b[n]) {
        assert n > 0;
        assert a[1..][..n - 1] == a[..n][1..] && b[1..][..n - 1] == b[..n][1..];
        assert n - 1 == |a[1..]| || a[1..][n - 1] < b[1..][n - 1];
      }
    } else if TextBefore(a, b) {
      assert a[..0] == b[..0];
    } else if n: nat :| n <= |a| && n < |b| && a[..n] == b[..n] && (n == |a| || a[n] < b[n]) {
      assert n > 0 ==> a[..n][0] == b[..n][0];
    }
  }

  lemma {:induction false} TextTrichotomy(a: string, b: string)
    ensures a != b ==> TextBefore(a, b) || TextBefore(b, a)
    ensures !(TextBefore(a, b) && TextBefore(b, a))
  {
    if a != [] && b != [] {
      TextTrichotomy(a[1..], b[1..]);
      assert a == [a[0]] + a[1..] && b == [b[0]] + b[1..];
    }
  }

  lemma {:induction false} TextTransitive(a: string, b: string, c: string)
    requires TextBefore(a, b) && TextBefore(b, c)
    ensures TextBefore(a, c)
  {
    if a != [] && a[0] == b[0] == c[0] {
      TextTransitive(a[1..], b[1..], c[1..]);
    }
  }

  /** `(session created, session, pos)` order; a session of unknown creation counts as 0. */
  predicate Before(created: map<string, real>, a: Key, b: Key) {
    var x, y := Get(created, a.session, 0.0), Get(created, b.session, 0.0);
    x < y || (x == y && (TextBefore(a.session, b.session) || (a.session == b.session && a.pos < b.pos)))
  }

  lemma BeforeTotal(created: map<string, real>, a: Key, b: Key)
    ensures a != b ==> Before(created, a, b) || Before(created, b, a)
    ensures !(Before(created, a, b) && Before(created, b, a))
  {
    TextTrichotomy(a.session, b.session);
  }

  lemma BeforeTransitive(created: map<string, real>, a: Key, b: Key, c: Key)
    requires Before(created, a, b) && Before(created, b, c)
    ensures Before(created, a, c)
  {
    if TextBefore(a.session, b.session) && TextBefore(b.session, c.session) {
      TextTransitive(a.session, b.session, c.session);
    }
  }

  predicate First(created: map<string, real>, keys: set<Key>, k: Key) {
    k in keys && forall other <- keys :: other == k || Before(created, k, other)
  }

  lemma {:induction false} FirstExists(created: map<string, real>, keys: set<Key>)
    requires keys != {}
    ensures exists k :: First(created, keys, k)
  {
    var any :| any in keys;
    var rest := keys - {any};
    if rest == {} {
      assert keys == {any};
      assert First(created, keys, any);
    } else {
      FirstExists(created, rest);
      var k :| First(created, rest, k);
      BeforeTotal(created, k, any);
      if Before(created, k, any) {
        assert First(created, keys, k);
      } else {
        forall other | other in keys ensures other == any || Before(created, any, other) {
          if other != any && other != k {
            BeforeTransitive(created, any, k, other);
          }
        }
        assert First(created, keys, any);
      }
    }
  }

  lemma FirstUnique(created: map<string, real>, keys: set<Key>, a: Key, b: Key)
    requires First(created, keys, a) && First(created, keys, b)
    ensures a == b
  {
    BeforeTotal(created, a, b);
  }

  ghost predicate Sorted(created: map<string, real>, xs: seq<Key>) {
    forall i, j :: 0 <= i < j < |xs| ==> Before(created, xs[i], xs[j])
  }

  lemma FirstThenRest(created: map<string, real>, keys: set<Key>, k: Key, rest: seq<Key>)
    requires First(created, keys, k) && Sorted(created, rest) && forall other :: other in keys - {k} <==> other in rest
    ensures Sorted(created, [k] + rest) && forall other :: other in keys <==> other in [k] + rest
  {
    forall i | 0 <= i < |rest| ensures Before(created, k, rest[i]) {
      assert rest[i] in rest;
    }
  }

  /** The keys in the order their frames are sent again. */
  function ResendOrder(created: map<string, real>, keys: set<Key>): (xs: seq<Key>)
    ensures Sorted(created, xs)
    ensures forall k :: k in keys <==> k in xs
    decreases |keys|
  {
    if keys == {} then [] else
      FirstExists(created, keys);
      assert forall a, b :: First(created, keys, a) && First(created, keys, b) ==> a == b by {
        forall a, b | First(created, keys, a) && First(created, keys, b) { FirstUnique(created, keys, a, b); }
      }
      var k :| k in keys && First(created, keys, k);
      var rest := ResendOrder(created, keys - {k});
      FirstThenRest(created, keys, k, rest);
      [k] + rest
  }

  /** By the sessions' creation times, those created at one time by their names, and each session's by position. */
  lemma ResendOrderIs(created: map<string, real>, keys: set<Key>)
    ensures var xs := ResendOrder(created, keys);
      forall i, j :: 0 <= i < j < |xs| ==>
        var a, b, x, y := xs[i], xs[j], Get(created, xs[i].session, 0.0), Get(created, xs[j].session, 0.0);
        || x < y
        || (x == y && TextBefore(a.session, b.session))
        || (x == y && a.session == b.session && a.pos < b.pos)
  {
    var xs := ResendOrder(created, keys);
    assert forall i, j :: 0 <= i < j < |xs| ==> Before(created, xs[i], xs[j]);
  }

  /** There is one such order: any sorted listing of the keys is `ResendOrder`. */
  lemma {:induction false} ResendOrderUnique(created: map<string, real>, keys: set<Key>, xs: seq<Key>)
    requires Sorted(created, xs) && forall k :: k in keys <==> k in xs
    ensures xs == ResendOrder(created, keys)
    decreases |xs|
  {
    var ys := ResendOrder(created, keys);
    if xs == [] {
      assert forall k :: k !in keys;
      assert keys == {};
    } else {
      assert xs[0] in keys && ys[0] in keys;
      assert First(created, keys, xs[0]) by {
        forall other | other in keys ensures other == xs[0] || Before(created, xs[0], other) {
          var i :| 0 <= i < |xs| && xs[i] == other;
        }
      }
      assert First(created, keys, ys[0]) by {
        forall other | other in keys ensures other == ys[0] || Before(created, ys[0], other) {
          var i :| 0 <= i < |ys| && ys[i] == other;
        }
      }
      FirstUnique(created, keys, xs[0], ys[0]);
      var rest := keys - {xs[0]};
      forall k ensures k in rest <==> k in xs[1..] {
        if k in xs[1..] { BeforeTotal(created, k, xs[0]); }
      }
      ResendOrderUnique(created, rest, xs[1..]);
    }
  }

  /** The order depends on the creation times of the listed sessions only. */
  lemma ResendOrderAgrees(c1: map<string, real>, c2: map<string, real>, keys: set<Key>)
    requires forall k <- keys :: Get(c1, k.session, 0.0) == Get(c2, k.session, 0.0)
    ensures ResendOrder(c1, keys) == ResendOrder(c2, keys)
  {
    var xs := ResendOrder(c1, keys);
    forall i, j | 0 <= i < j < |xs| ensures Before(c2, xs[i], xs[j]) {
      assert xs[i] in keys && xs[j] in keys;
      assert Before(c1, xs[i], xs[j]);
    }
    ResendOrderUnique(c2, keys, xs);
  }
}
