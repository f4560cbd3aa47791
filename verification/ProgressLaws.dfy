/**
 The fingerprint by which `loop` notices that nothing changes: reordering a checklist is not progress.
 */
module ProgressLaws {
  import opened Common
  import opened Envelope
  import opened EnvelopeLaws
  import opened RunState

  lemma {:induction false} BeforeIsTotal(a: string, b: string)
    ensures a != b ==> Before(a, b) || Before(b, a)
    ensures !(Before(a, b) && Before(b, a))
  {
    if a != [] && b != [] {
      BeforeIsTotal(a[1..], b[1..]);
      assert a[0] == b[0] && a[1..] == b[1..] ==> a == [a[0]] + a[1..] == b;
    }
  }

  lemma {:induction false} BeforeIsTransitive(a: string, b: string, c: string)
    requires Before(a, b) && Before(b, c)
    ensures Before(a, c)
  {
    if a != [] && a[0] == b[0] && b[0] == c[0] { BeforeIsTransitive(a[1..], b[1..], c[1..]); }
  }

  lemma Order(x: Item, y: Item, h: Item)
    requires x.id != y.id
    ensures Before(x.id, y.id) <==> !Before(y.id, x.id)
    ensures Before(x.id, y.id) && Before(y.id, h.id) ==> Before(x.id, h.id)
    ensures Before(y.id, x.id) && Before(x.id, h.id) ==> Before(y.id, h.id)
  {
    BeforeIsTotal(x.id, y.id);
    if Before(x.id, y.id) && Before(y.id, h.id) { BeforeIsTransitive(x.id, y.id, h.id); }
    if Before(y.id, x.id) && Before(x.id, h.id) { BeforeIsTransitive(y.id, x.id, h.id); }
  }

  /** Items with different ids can be inserted in either order. */
  lemma {:induction false} InsertCommutes(x: Item, y: Item, s: seq<Item>)
    requires x.id != y.id
    ensures Insert(x, Insert(y, s)) == Insert(y, Insert(x, s))
    decreases |s|
  {
    Order(x, y, x);
    if s == [] {
      assert [x][1..] == [] && [y][1..] == [];
    } else {
      Order(x, y, s[0]);
      assert ([x] + s)[1..] == s && ([y] + s)[1..] == s;
      if !Before(x.id, s[0].id) && !Before(y.id, s[0].id) {
        InsertCommutes(x, y, s[1..]);
        assert ([s[0]] + Insert(x, s[1..]))[1..] == Insert(x, s[1..]);
        assert ([s[0]] + Insert(y, s[1..]))[1..] == Insert(y, s[1..]);
      }
    }
  }

  function Without(items: seq<Item>, i: nat): seq<Item>
    requires i < |items|
  {
    items[..i] + items[i + 1..]
  }

  /** Any item may be taken out first and inserted last. */
  lemma {:induction false} SortInserts(items: seq<Item>, i: nat)
    requires i < |items| && DistinctIds(items)
    ensures SortById(items) == Insert(items[i], SortById(Without(items, i)))
    decreases |items|
  {
    var front, last := items[..|items| - 1], items[|items| - 1];
    if i == |items| - 1 {
      assert Without(items, i) == front;
    } else {
      assert Without(items, i)[..|items| - 2] == Without(front, i);
      SortInserts(front, i);
      InsertCommutes(last, items[i], SortById(Without(front, i)));
    }
  }

  lemma {:induction false} SortIgnoresOrder(a: seq<Item>, b: seq<Item>)
    requires multiset(a) == multiset(b) && DistinctIds(a) && DistinctIds(b)
    ensures SortById(a) == SortById(b)
    decreases |b|
  {
    if b == [] {
      assert |multiset(a)| == 0;
    } else {
      var j := |b| - 1;
      var i := Locate(a, b, j);
      TakeOut(a, i);
      TakeOut(b, j);
      SortIgnoresOrder(Without(a, i), Without(b, j));
      SortInserts(a, i);
      SortInserts(b, j);
    }
  }

  lemma Locate(a: seq<Item>, b: seq<Item>, j: nat) returns (i: nat)
    requires multiset(a) == multiset(b) && j < |b|
    ensures i < |a| && a[i] == b[j]
  {
    assert b[j] in multiset(b) && b[j] in multiset(a);
    i :| 0 <= i < |a| && a[i] == b[j];
  }

  lemma TakeOut(items: seq<Item>, i: nat)
    requires i < |items| && DistinctIds(items)
    ensures multiset(Without(items, i)) == multiset(items) - multiset{items[i]} && DistinctIds(Without(items, i))
  {
    assert items == items[..i] + [items[i]] + items[i + 1..];
    assert multiset(items) == multiset(items[..i]) + multiset{items[i]} + multiset(items[i + 1..]);
    WithoutIsDistinct(items, i);
  }

  lemma WithoutIsDistinct(items: seq<Item>, i: nat)
    requires i < |items| && DistinctIds(items)
    ensures DistinctIds(Without(items, i))
  {
    assert forall k | 0 <= k < |items| - 1 :: Without(items, i)[k] == items[if k < i then k else k + 1];
  }

  /** A turn that only reorders distinct items leaves the fingerprint, and so the streak, as it was. */
  lemma ReorderingIsNoProgress(a: seq<Item>, b: seq<Item>)
    requires multiset(a) == multiset(b) && DistinctIds(a) && DistinctIds(b)
    ensures Digest(a) == Digest(b)
  {
    SortIgnoresOrder(a, b);
  }

  // ---------------------------------------------------------------------------------------
  // What the fingerprint tells apart
  // ---------------------------------------------------------------------------------------

  const MARKS: string := ":|"

  predicate IsPlain(s: string) { forall i | 0 <= i < |s| :: s[i] !in MARKS }

  /** The printed fields are free of the marks between them, and the owner is not called like a missing one. */
  predicate IsClean(x: Item) {
    && IsPlain(x.id) && !x.state.Unknown?
    && (x.owner.Some? ==> IsPlain(x.owner.value) && x.owner.value != "None")
  }

  predicate SameKey(x: Item, y: Item) { x.id == y.id && x.state == y.state && x.owner == y.owner }

  function Printed(x: Item): string {
    x.id + ":" + StateName(x.state) + ":" + (if x.owner.Some? then x.owner.value else "None")
  }

  /** The first occurrence of a mark splits a text in one way only. */
  lemma CutAtMark(a: string, b: string, mark: char, c: string, d: string)
    requires mark !in a && mark !in c && a + [mark] + b == c + [mark] + d
    ensures a == c && b == d
  {
    var s := a + [mark] + b;
    assert s == c + [mark] + d;
    assert s[..|a|] == a && s[..|c|] == c && s[|a| + 1..] == b && s[|c| + 1..] == d;
    FirstOccurrence(s, mark, |a|, |c|);
  }

  lemma FirstOccurrence(s: string, mark: char, i: nat, j: nat)
    requires i < |s| && j < |s| && s[i] == mark == s[j] && mark !in s[..i] && mark !in s[..j]
    ensures i == j
  {
    assert forall x | 0 <= x < i :: s[x] == s[..i][x];
    assert forall x | 0 <= x < j :: s[x] == s[..j][x];
  }

  lemma StatesPrintPlainly(s: State, t: State)
    requires !s.Unknown? && !t.Unknown?
    ensures ':' !in StateName(s) && '|' !in StateName(s)
    ensures StateName(s) == StateName(t) ==> s == t
  {
    assert |StateName(s)| == |StateName(t)| ==> s == t || (s.Claimed? && t.Blocked?) || (s.Blocked? && t.Claimed?) || (|StateName(s)| == 4);
    assert StateName(Claimed)[0] == 'c' && StateName(Blocked)[0] == 'b';
    assert StateName(Open)[0] == 'o' && StateName(Done)[0] == 'd';
  }

  lemma PrintedTellsApart(x: Item, y: Item)
    requires IsClean(x) && IsClean(y)
    ensures Printed(x) == Printed(y) <==> SameKey(x, y)
    ensures '|' !in Printed(x)
  {
    var p, q := StateName(x.state) + ":" + Owner(x), StateName(y.state) + ":" + Owner(y);
    assert Printed(x) == x.id + [':'] + p && Printed(y) == y.id + [':'] + q;
    StatesPrintPlainly(x.state, y.state);
    StatesPrintPlainly(y.state, x.state);
    if Printed(x) == Printed(y) {
      CutAtMark(x.id, p, ':', y.id, q);
      assert p == StateName(x.state) + [':'] + Owner(x) && q == StateName(y.state) + [':'] + Owner(y);
      CutAtMark(StateName(x.state), Owner(x), ':', StateName(y.state), Owner(y));
    }
  }

  function Owner(x: Item): string { if x.owner.Some? then x.owner.value else "None" }

  predicate SameKeys(a: seq<Item>, b: seq<Item>) {
    |a| == |b| && forall i | 0 <= i < |a| :: SameKey(a[i], b[i])
  }

  lemma Printing(items: seq<Item>)
    requires items != []
    ensures Fingerprints(items)
         == if |items| == 1 then Printed(items[0]) else Printed(items[0]) + ['|'] + Fingerprints(items[1..])
  {
  }

  /** A text without a bar is not one with a bar. */
  lemma NoBar(a: string, b: string, c: string)
    requires '|' !in a
    ensures a != b + ['|'] + c
  {
    assert (b + ['|'] + c)[|b|] == '|';
  }

  lemma {:induction false} FingerprintsTellApart(a: seq<Item>, b: seq<Item>)
    requires (forall x | x in a :: IsClean(x)) && forall x | x in b :: IsClean(x)
    ensures Fingerprints(a) == Fingerprints(b) <==> SameKeys(a, b)
    decreases |a|
  {
    if a != [] && b != [] {
      Printing(a);
      Printing(b);
      PrintedTellsApart(a[0], b[0]);
      PrintedTellsApart(b[0], a[0]);
      if |a| > 1 && |b| > 1 {
        FingerprintsTellApart(a[1..], b[1..]);
        SameKeysTail(a, b);
        if Fingerprints(a) == Fingerprints(b) {
          CutAtMark(Printed(a[0]), Fingerprints(a[1..]), '|', Printed(b[0]), Fingerprints(b[1..]));
        }
      } else if |a| > 1 {
        NoBar(Printed(b[0]), Printed(a[0]), Fingerprints(a[1..]));
      } else if |b| > 1 {
        NoBar(Printed(a[0]), Printed(b[0]), Fingerprints(b[1..]));
      }
    } else if a != [] {
      Printing(a);
    } else if b != [] {
      Printing(b);
    }
  }

  lemma SameKeysTail(a: seq<Item>, b: seq<Item>)
    requires a != [] && b != []
    ensures SameKeys(a, b) <==> SameKey(a[0], b[0]) && SameKeys(a[1..], b[1..])
  {
    if SameKey(a[0], b[0]) && SameKeys(a[1..], b[1..]) {
      forall i | 0 <= i < |a| ensures SameKey(a[i], b[i]) {
        if i > 0 { assert SameKey(a[1..][i - 1], b[1..][i - 1]); }
      }
    }
    if SameKeys(a, b) {
      forall i | 0 <= i < |a| - 1 ensures SameKey(a[1..][i], b[1..][i]) { assert SameKey(a[i + 1], b[i + 1]); }
    }
  }

  lemma {:induction false} InsertHolds(x: Item, s: seq<Item>)
    ensures multiset(Insert(x, s)) == multiset(s) + multiset{x}
  {
    if s != [] && !Before(x.id, s[0].id) {
      InsertHolds(x, s[1..]);
      assert s == [s[0]] + s[1..];
    }
  }

  /** Sorting neither loses nor adds an item. */
  lemma {:induction false} SortHolds(items: seq<Item>)
    ensures multiset(SortById(items)) == multiset(items)
  {
    if items != [] {
      var front, last := items[..|items| - 1], items[|items| - 1];
      SortHolds(front);
      InsertHolds(last, SortById(front));
      assert items == front + [last];
    }
  }

  lemma SortMembers(items: seq<Item>, x: Item)
    ensures x in SortById(items) <==> x in items
  {
    SortHolds(items);
    assert x in multiset(items) <==> x in items;
    assert x in multiset(SortById(items)) <==> x in SortById(items);
  }

  /** Each item of `a` has a counterpart in `b` with its id, state and owner. */
  ghost predicate Covers(a: seq<Item>, b: seq<Item>) {
    forall x | x in a :: exists y :: y in b && SameKey(x, y)
  }

  /**
   The loop notices every change: between clean checklists the fingerprint stays the same only if every
   item has a counterpart with the same id, state and owner, and no item was added or lost.
   */
  lemma EveryChangeIsProgress(a: seq<Item>, b: seq<Item>)
    requires (forall x | x in a :: IsClean(x)) && (forall x | x in b :: IsClean(x)) && Digest(a) == Digest(b)
    ensures |a| == |b| && Covers(a, b) && Covers(b, a)
  {
    var s, t := SortById(a), SortById(b);
    SortHolds(a);
    SortHolds(b);
    assert |s| == |multiset(s)| == |a| && |t| == |multiset(t)| == |b|;
    forall x | x in s ensures IsClean(x) { SortMembers(a, x); }
    forall x | x in t ensures IsClean(x) { SortMembers(b, x); }
    FingerprintsTellApart(s, t);
    forall x | x in a ensures exists y :: y in b && SameKey(x, y) {
      SortMembers(a, x);
      var i :| 0 <= i < |s| && s[i] == x;
      SortMembers(b, t[i]);
    }
    forall x | x in b ensures exists y :: y in a && SameKey(x, y) {
      SortMembers(b, x);
      var i :| 0 <= i < |t| && t[i] == x;
      SortMembers(a, s[i]);
    }
  }

  /** An owner that is called "None" prints like no owner, so such a change goes unnoticed. */
  lemma NamelessOwnerGoesUnnoticed(x: Item)
    requires x.owner == None
    ensures Digest([x]) == Digest([x.(owner := Some("None"))])
  {
    var y := x.(owner := Some("None"));
    assert [x][..0] == [] && [y][..0] == [];
    assert SortById([x]) == [x] && SortById([y]) == [y];
  }
}
