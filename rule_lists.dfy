/** Lists assembled rule by rule, as the advice, anomaly and recommendation
    lists of the system are: each rule adds its entry when its condition
    holds, and the rules run in a fixed order, so the entries come out ordered
    by the rank of the rule that produced them. */
module RuleLists {

  /** `[x]` when the rule's condition holds, else nothing. */
  function When<T>(condition: bool, x: T): seq<T> {
    if condition then [x] else []
  }

  /** A rule contributes its own entry exactly when its condition holds, and
      nothing else. */
  lemma WhenMembers<T>(condition: bool, x: T, y: T)
    ensures y in When(condition, x) <==> condition && y == x
    ensures |When(condition, x)| <= 1
  {
  }

  /** Entries ordered by rank: strictly increasing when `strict`, otherwise
      never decreasing. */
  ghost predicate Ordered<T>(s: seq<T>, rank: T -> nat, strict: bool) {
    forall i, j :: 0 <= i < j < |s| ==>
      if strict then rank(s[i]) < rank(s[j]) else rank(s[i]) <= rank(s[j])
  }

  /** Every entry of `s` has a rank between lo and hi. */
  ghost predicate RanksWithin<T>(s: seq<T>, rank: T -> nat, lo: nat, hi: nat) {
    forall x :: x in s ==> lo <= rank(x) <= hi
  }

  /** A single rule's contribution is ordered, at that rule's rank. */
  lemma WhenOrdered<T>(condition: bool, x: T, rank: T -> nat, strict: bool)
    ensures Ordered(When(condition, x), rank, strict)
    ensures RanksWithin(When(condition, x), rank, rank(x), rank(x))
  {
  }

  /** Joining an ordered list to one whose ranks all come later (strictly
      later when `strict`) keeps the order. */
  lemma AppendOrdered<T>(a: seq<T>, b: seq<T>, rank: T -> nat, strict: bool, lo: nat, mid: nat, hi: nat)
    requires Ordered(a, rank, strict) && RanksWithin(a, rank, lo, mid)
    requires Ordered(b, rank, strict) && RanksWithin(b, rank, if strict then mid + 1 else mid, hi)
    requires lo <= mid <= hi
    ensures Ordered(a + b, rank, strict) && RanksWithin(a + b, rank, lo, hi)
  {
    var ab := a + b;
    forall i, j | 0 <= i < j < |ab|
      ensures if strict then rank(ab[i]) < rank(ab[j]) else rank(ab[i]) <= rank(ab[j])
    {
      if j < |a| {
        assert ab[i] == a[i] && ab[j] == a[j];
      } else if i >= |a| {
        assert ab[i] == b[i - |a|] && ab[j] == b[j - |a|];
      } else {
        assert ab[i] in a && ab[j] in b;
      }
    }
  }

  /** One more rule, ranked after every entry so far (strictly after when
      `strict`), keeps the list ordered. */
  lemma AppendWhenOrdered<T>(s: seq<T>, condition: bool, x: T, rank: T -> nat, strict: bool, lo: nat, mid: nat)
    requires Ordered(s, rank, strict) && RanksWithin(s, rank, lo, mid)
    requires lo <= mid && (if strict then mid < rank(x) else mid <= rank(x))
    ensures Ordered(s + When(condition, x), rank, strict)
    ensures RanksWithin(s + When(condition, x), rank, lo, rank(x))
  {
    WhenOrdered(condition, x, rank, strict);
    AppendOrdered(s, When(condition, x), rank, strict, lo, mid, rank(x));
  }
}
