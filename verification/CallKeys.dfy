/** The keys by which a resumed workflow finds the children it already made. */
module CallKeys {
  /** A child call without a key of its own: its parent, what it calls, and its arguments as JSON. */
  datatype Call = Call(parent: string, target: string, args: string)

  /** A parent task, and what one of its calls is named by. */
  datatype Slot = Slot(parent: string, base: string)

  /** A child as the server knows it. */
  datatype Child = Child(parent: string, key: string)

  function Digit(n: nat): char
    requires n < 10
  {
    '0' + n as char
  }

  function Decimal(n: nat): string {
    if n < 10 then [Digit(n)] else Decimal(n / 10) + [Digit(n % 10)]
  }

  function Base(digest: string -> string, c: Call): Slot {
    Slot(c.parent, c.target + ":" + digest(c.args))
  }

  function KeyOf(base: string, occurrence: nat): string {
    base + ":" + Decimal(occurrence)
  }

  /** What a decimal numeral says, read digit by digit. */
  function Reading(numeral: string): int {
    if numeral == "" then 0
    else 10 * Reading(numeral[..|numeral| - 1]) + numeral[|numeral| - 1] as int - '0' as int
  }

  /** An occurrence is rendered by the one decimal numeral that says it: without another character or a leading zero. */
  lemma {:induction false} DecimalReads(n: nat)
    ensures Reading(Decimal(n)) == n && Decimal(n) != ""
    ensures forall c <- Decimal(n) :: '0' <= c <= '9'
    ensures n > 0 ==> Decimal(n)[0] != '0'
  {
    if n >= 10 {
      DecimalReads(n / 10);
      assert Decimal(n)[..|Decimal(n)| - 1] == Decimal(n / 10);
    }
  }

  lemma DecimalInjective(m: nat, n: nat)
    requires Decimal(m) == Decimal(n)
    ensures m == n
  {
    DecimalReads(m);
    DecimalReads(n);
  }

  lemma NoColon(n: nat)
    ensures Decimal(n) != "" && ':' !in Decimal(n)
  {
    DecimalReads(n);
  }

  /** A rendered key tells what was called, and which occurrence it was. */
  lemma KeyInjective(b1: string, n1: nat, b2: string, n2: nat)
    requires KeyOf(b1, n1) == KeyOf(b2, n2)
    ensures b1 == b2 && n1 == n2
  {
    NoColon(n1);
    NoColon(n2);
    var k, d1, d2 := KeyOf(b1, n1), Decimal(n1), Decimal(n2);
    assert k[|b1|] == ':' && k[|b2|] == ':';
    assert forall i :: 0 <= i < |d1| ==> k[|b1| + 1 + i] == d1[i];
    assert forall i :: 0 <= i < |d2| ==> k[|b2| + 1 + i] == d2[i];
    assert |b1| >= |b2|;
    assert |b2| >= |b1|;
    assert k[..|b1|] == b1 && k[..|b2|] == b2;
    assert k[|b1| + 1..] == d1 && k[|b2| + 1..] == d2;
    DecimalInjective(n1, n2);
  }

  /** How often each parent has made each call. */
  type Counts = map<Slot, nat>

  function Count(counts: Counts, s: Slot): nat {
    if s in counts then counts[s] else 0
  }

  function Counted(counts: Counts, s: Slot): Counts {
    counts[s := Count(counts, s) + 1]
  }

  /** The children named by `slots`, in the order the calls are made. */
  function Children(counts: Counts, slots: seq<Slot>): (children: seq<Child>)
    ensures |children| == |slots|
    decreases |slots|
  {
    if slots == [] then [] else
    [Child(slots[0].parent, KeyOf(slots[0].base, Count(counts, slots[0]) + 1))] +
    Children(Counted(counts, slots[0]), slots[1..])
  }

  /** The same children without their order: for each slot, its next occurrences. */
  ghost predicate Named(counts: Counts, slots: multiset<Slot>, c: Child) {
    exists s: Slot, n: nat :: s in slots && Count(counts, s) < n <= Count(counts, s) + slots[s]
          && c == Child(s.parent, KeyOf(s.base, n))
  }

  lemma NamedOnce(s: Slot, n: nat, t: Slot, m: nat)
    requires Child(s.parent, KeyOf(s.base, n)) == Child(t.parent, KeyOf(t.base, m))
    ensures s == t && n == m
  {
    KeyInjective(s.base, n, t.base, m);
  }

  /** The keys a run takes depend on which calls it makes, not on their order. */
  lemma {:induction false} ChildrenAreNamed(counts: Counts, slots: seq<Slot>)
    ensures forall c: Child :: c in Children(counts, slots) <==> Named(counts, multiset(slots), c)
    decreases |slots|
  {
    if slots != [] {
      var s, rest, more := slots[0], slots[1..], Counted(counts, slots[0]);
      assert slots == [s] + rest;
      assert multiset(slots) == multiset(rest) + multiset{s};
      ChildrenAreNamed(more, rest);
      forall c: Child ensures c in Children(counts, slots) <==> Named(counts, multiset(slots), c) {
        NamedStep(counts, s, multiset(rest), c);
      }
    }
  }

  /** Later calls never get an earlier key. */
  lemma NotNamedAgain(counts: Counts, s: Slot, rest: multiset<Slot>, n: nat)
    requires n <= Count(counts, s)
    ensures !Named(counts, rest, Child(s.parent, KeyOf(s.base, n)))
  {
    var c := Child(s.parent, KeyOf(s.base, n));
    forall t: Slot, m: nat | c == Child(t.parent, KeyOf(t.base, m)) ensures t == s && m == n {
      NamedOnce(s, n, t, m);
    }
  }

  /** No two calls of a run get the same key. */
  lemma {:induction false} ChildrenDiffer(counts: Counts, slots: seq<Slot>)
    ensures forall i, j :: 0 <= i < j < |slots| ==> Children(counts, slots)[i] != Children(counts, slots)[j]
    decreases |slots|
  {
    if slots != [] {
      var s, rest, more := slots[0], slots[1..], Counted(counts, slots[0]);
      ChildrenDiffer(more, rest);
      ChildrenAreNamed(more, rest);
      NotNamedAgain(more, s, multiset(rest), Count(counts, s) + 1);
      var all, later := Children(counts, slots), Children(more, rest);
      forall i, j | 0 <= i < j < |slots| ensures all[i] != all[j] {
        assert all[j] == later[j - 1] && later[j - 1] in later;
      }
    }
  }

  lemma NamedStep(counts: Counts, s: Slot, rest: multiset<Slot>, c: Child)
    ensures Named(counts, rest + multiset{s}, c) <==>
            c == Child(s.parent, KeyOf(s.base, Count(counts, s) + 1)) || Named(Counted(counts, s), rest, c)
  {
    var all, more := rest + multiset{s}, Counted(counts, s);
    if Named(counts, all, c) {
      var t: Slot, n: nat :| t in all && Count(counts, t) < n <= Count(counts, t) + all[t]
            && c == Child(t.parent, KeyOf(t.base, n));
      if t != s || n != Count(counts, s) + 1 {
        assert t in rest && Count(more, t) < n <= Count(more, t) + rest[t];
      }
    }
    if Named(more, rest, c) {
      var t: Slot, n: nat :| t in rest && Count(more, t) < n <= Count(more, t) + rest[t]
            && c == Child(t.parent, KeyOf(t.base, n));
      assert t in all && Count(counts, t) < n <= Count(counts, t) + all[t];
    }
    if c == Child(s.parent, KeyOf(s.base, Count(counts, s) + 1)) {
      assert s in all;
    }
  }

  function Elements<T>(xs: seq<T>): set<T> {
    set x | x in xs
  }

  lemma {:induction false} DistinctElements<T>(xs: seq<T>)
    requires forall i, j :: 0 <= i < j < |xs| ==> xs[i] != xs[j]
    ensures |Elements(xs)| == |xs|
  {
    if xs != [] {
      var rest := xs[1..];
      forall i, j | 0 <= i < j < |rest| ensures rest[i] != rest[j] { assert xs[i + 1] != xs[j + 1]; }
      DistinctElements(rest);
      forall i | 0 <= i < |rest| ensures rest[i] != xs[0] { assert xs[0] != xs[i + 1]; }
      assert xs[0] !in rest;
      assert Elements(xs) == Elements(rest) + {xs[0]};
    }
  }

  /**
   * A crashed run and its successor look like one run. The server keeps one child per parent
   * and key. If the first run made `first` and some of its requests arrived, and a fresh run
   * makes `second`, which includes those calls in whatever order and interleaving, then
   * afterwards there are exactly as many children as the second run makes calls: its own.
   */
  lemma ChildrenCreatedOnce(first: seq<Slot>, second: seq<Slot>, arrived: set<Child>)
    requires multiset(first) <= multiset(second)
    requires arrived <= Elements(Children(map[], first))
    ensures arrived + Elements(Children(map[], second)) == Elements(Children(map[], second))
    ensures |arrived + Elements(Children(map[], second))| == |second|
  {
    ChildrenAreNamed(map[], first);
    ChildrenAreNamed(map[], second);
    forall c | c in arrived ensures c in Children(map[], second) {
      var s: Slot, n: nat :| s in multiset(first) && 0 < n <= multiset(first)[s]
            && c == Child(s.parent, KeyOf(s.base, n));
      assert Named(map[], multiset(second), c);
    }
    ChildrenDiffer(map[], second);
    DistinctElements(Children(map[], second));
    assert arrived + Elements(Children(map[], second)) == Elements(Children(map[], second));
  }

  /** Runs that make the same calls, in any order, name the same children. */
  lemma OrderDoesNotMatter(counts: Counts, one: seq<Slot>, other: seq<Slot>)
    requires multiset(one) == multiset(other)
    ensures Elements(Children(counts, one)) == Elements(Children(counts, other))
  {
    ChildrenAreNamed(counts, one);
    ChildrenAreNamed(counts, other);
  }

  /** The digest is cut to so many hexadecimal digits. */
  const DIGITS: nat := 8

  function Slots(digest: string -> string, calls: seq<Call>): seq<Slot> {
    seq(|calls|, i requires 0 <= i < |calls| => Base(digest, calls[i]))
  }

  predicate SameCall(digest: string -> string, c: Call, d: Call) {
    c.parent == d.parent && c.target == d.target && digest(c.args) == digest(d.args)
  }

  /** What a call is named by tells its target and its digest, because digests are equally long. */
  lemma BaseTells(digest: string -> string, c: Call, d: Call)
    requires |digest(c.args)| == |digest(d.args)| == DIGITS && Base(digest, c) == Base(digest, d)
    ensures SameCall(digest, c, d)
  {
    var b, n := Base(digest, c).base, |c.target|;
    assert |b| == n + 1 + DIGITS == |d.target| + 1 + DIGITS;
    assert b[..n] == c.target && b[..n] == d.target;
    assert b[n + 1..] == digest(c.args) && b[n + 1..] == digest(d.args);
  }

  /** A found child was made by the same call: same parent, same target, same digest of the arguments. */
  lemma FoundChildIsTheSameCall(digest: string -> string, first: seq<Call>, second: seq<Call>, j: nat)
    requires forall args: string :: |digest(args)| == DIGITS
    requires j < |second| && Children(map[], Slots(digest, second))[j] in Children(map[], Slots(digest, first))
    ensures exists c <- first :: SameCall(digest, c, second[j])
  {
    FoundChildHasTheSameSlot(Slots(digest, first), Slots(digest, second), j);
    var i :| 0 <= i < |first| && Slots(digest, first)[i] == Slots(digest, second)[j];
    BaseTells(digest, first[i], second[j]);
    assert first[i] in first;
  }

  lemma FoundChildHasTheSameSlot(first: seq<Slot>, second: seq<Slot>, j: nat)
    requires j < |second| && Children(map[], second)[j] in Children(map[], first)
    ensures second[j] in first
  {
    ChildOf(map[], second, j);
    ChildrenAreNamed(map[], first);
    var c := Children(map[], second)[j];
    var s: Slot, n: nat :| s in multiset(first) && 0 < n <= multiset(first)[s]
          && c == Child(s.parent, KeyOf(s.base, n));
    var m: nat :| c == Child(second[j].parent, KeyOf(second[j].base, m));
    NamedOnce(s, n, second[j], m);
  }

  lemma {:induction false} ChildOf(counts: Counts, slots: seq<Slot>, j: nat)
    requires j < |slots|
    ensures exists m: nat :: Children(counts, slots)[j] == Child(slots[j].parent, KeyOf(slots[j].base, m))
    decreases |slots|
  {
    var rest := slots[1..];
    if j > 0 {
      ChildOf(Counted(counts, slots[0]), rest, j - 1);
      assert Children(counts, slots)[j] == Children(Counted(counts, slots[0]), rest)[j - 1];
    } else {
      assert Children(counts, slots)[0] == Child(slots[0].parent, KeyOf(slots[0].base, Count(counts, slots[0]) + 1));
      if rest != [] { ChildOf(Counted(counts, slots[0]), rest, 0); }
    }
  }

  /** What a run names its calls depends only on what is counted of them. */
  lemma {:induction false} CountsDecide(one: Counts, other: Counts, slots: seq<Slot>, i: nat)
    requires i < |slots| && Count(one, slots[i]) == Count(other, slots[i])
    ensures Children(one, slots)[i] == Children(other, slots)[i]
    decreases |slots|
  {
    if i > 0 { CountsDecide(Counted(one, slots[0]), Counted(other, slots[0]), slots[1..], i - 1); }
  }

  /**
   * Once a parent is forgotten, its calls are named as in a fresh process, and every other parent's as if nothing had
   * been forgotten, in whatever order they are all made.
   */
  lemma ForgetParent(counts: Counts, after: Counts, parent: string, slots: seq<Slot>, i: nat)
    requires forall s: Slot :: s in after <==> s in counts && s.parent != parent
    requires forall s <- after :: after[s] == counts[s]
    requires i < |slots|
    ensures Children(after, slots)[i] == Children(if slots[i].parent == parent then map[] else counts, slots)[i]
  {
    CountsDecide(after, if slots[i].parent == parent then map[] else counts, slots, i);
  }

  /** The postman's counters. `digest` stands for the hash of the arguments; it may collide. */
  class CallCounters {
    const digest: string -> string
    var occurrences: Counts

    constructor (digest: string -> string)
      ensures this.digest == digest && occurrences == map[]
    {
      this.digest, occurrences := digest, map[];
    }

    /** `_derive_call_key` */
    method DeriveCallKey(parent: string, target: string, args: string) returns (key: string)
      modifies this
      ensures var s := Slot(parent, target + ":" + digest(args));
        var n := if s in old(occurrences) then old(occurrences)[s] else 0;
        && key == s.base + ":" + Decimal(n + 1) && occurrences == old(occurrences)[s := n + 1]
      ensures var s := Base(digest, Call(parent, target, args));
        && occurrences == Counted(old(occurrences), s)
        && [Child(parent, key)] == Children(old(occurrences), [s])
    {
      var base := target + ":" + digest(args);
      var occurrence := (if Slot(parent, base) in occurrences then occurrences[Slot(parent, base)] else 0) + 1;
      occurrences := occurrences[Slot(parent, base) := occurrence];
      key := base + ":" + Decimal(occurrence);
    }

    /** `forget_parent`: the parent's counters go, one by one; no other parent's. */
    method ForgetParentTask(parent: string)
      modifies this
      ensures forall s: Slot :: s in occurrences <==> s in old(occurrences) && s.parent != parent
      ensures forall s <- occurrences :: occurrences[s] == old(occurrences)[s]
    {
      ghost var was := occurrences;
      var gone := set s | s in occurrences && s.parent == parent;
      while gone != {}
        invariant forall s <- gone :: s in occurrences && s.parent == parent
        invariant forall s: Slot :: s in occurrences <==> s in gone || (s in was && s.parent != parent)
        invariant forall s <- occurrences :: s in was && occurrences[s] == was[s]
        decreases |gone|
      {
        var s :| s in gone;
        gone := gone - {s};
        occurrences := occurrences - {s};
      }
    }
  }
}
