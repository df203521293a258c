/** The filter composer and the stat counters shared by every management page: each page keeps the
    records of a constant array that satisfy a conjunction of predicates (`Array.prototype.filter`)
    and counts the records that satisfy a fixed predicate (`.filter(...).length`). */
module Records {

  /** An optional field (`field?: T` in the record interfaces, `T | null` in component state). */
  datatype Option<T> = None | Some(value: T)

  /** A tab bar: "All" or one value of a closed set. */
  datatype Tab<T> = AllTab | TabOf(value: T)

  /** The tab predicate: "All" matches every record, any other tab is exact equality. */
  predicate OnTab<T(==)>(tab: Tab<T>, v: T) {
    tab.AllTab? || tab.value == v
  }

  /** A select filter held as a string: "All" is a wildcard, anything else must equal the field's label. */
  predicate Selects(selection: string, name: string) {
    selection == "All" || name == selection
  }

  /** `xs` is obtained from `ys` by deleting elements: nothing reordered, duplicated or invented. */
  ghost predicate SubsequenceOf<T>(xs: seq<T>, ys: seq<T>)
    decreases |ys|
  {
    xs == [] ||
    (ys != [] &&
     ((xs[0] == ys[0] && SubsequenceOf(xs[1..], ys[1..])) || SubsequenceOf(xs, ys[1..])))
  }

  /** `rs.filter(p)`: the records of `rs` that satisfy `p`, in their original order
      (what that means is stated by KeepSound, KeepComplete and KeepSubsequence). */
  function Keep<R>(rs: seq<R>, p: R -> bool): (r: seq<R>)
    ensures |r| <= |rs|
    decreases |rs|
  {
    if |rs| == 0 then []
    else (if p(rs[0]) then [rs[0]] else []) + Keep(rs[1..], p)
  }

  /** `rs.filter(p).length`, counted record by record. */
  function Count<R>(rs: seq<R>, p: R -> bool): nat
    decreases |rs|
  {
    if |rs| == 0 then 0
    else (if p(rs[0]) then 1 else 0) + Count(rs[1..], p)
  }

  /** Every record the filter returns comes from the input and passes the predicate. */
  lemma {:induction false} KeepSound<R>(rs: seq<R>, p: R -> bool)
    ensures forall i :: 0 <= i < |Keep(rs, p)| ==> Keep(rs, p)[i] in rs && p(Keep(rs, p)[i])
    decreases |rs|
  {
    if |rs| > 0 {
      KeepSound(rs[1..], p);
      var k := Keep(rs, p);
      var tail := Keep(rs[1..], p);
      forall i | 0 <= i < |k| ensures k[i] in rs && p(k[i]) {
        if p(rs[0]) && i == 0 {
        } else {
          var j := if p(rs[0]) then i - 1 else i;
          assert k[i] == tail[j];
          assert tail[j] in rs[1..];
        }
      }
    }
  }

  /** Every record of the input that passes the predicate is returned. */
  lemma {:induction false} KeepComplete<R>(rs: seq<R>, p: R -> bool)
    ensures forall i :: 0 <= i < |rs| && p(rs[i]) ==> rs[i] in Keep(rs, p)
    decreases |rs|
  {
    if |rs| > 0 {
      KeepComplete(rs[1..], p);
      forall i | 0 <= i < |rs| && p(rs[i]) ensures rs[i] in Keep(rs, p) {
        if i > 0 {
          assert rs[i] == rs[1..][i - 1];
        }
      }
    }
  }

  /** The record at index `i`, when it passes, is returned. */
  lemma KeepKeepsAt<R>(rs: seq<R>, p: R -> bool, i: nat)
    requires i < |rs| && p(rs[i])
    ensures rs[i] in Keep(rs, p)
  {
    KeepComplete(rs, p);
  }

  /** The filter returns an order-preserving subsequence of its input. */
  lemma {:induction false} KeepSubsequence<R>(rs: seq<R>, p: R -> bool)
    ensures SubsequenceOf(Keep(rs, p), rs)
    decreases |rs|
  {
    if |rs| > 0 {
      KeepSubsequence(rs[1..], p);
      var k := Keep(rs, p);
      if p(rs[0]) {
        assert k == [rs[0]] + Keep(rs[1..], p);
        assert k != [] && k[0] == rs[0] && k[1..] == Keep(rs[1..], p);
        assert SubsequenceOf(k[1..], rs[1..]);
        assert rs != [];
      } else {
        assert k == Keep(rs[1..], p);
        SubsequenceDrop(k, rs);
      }
    }
  }

  /** Dropping the head of the longer sequence keeps a subsequence relation that already held of the tail. */
  lemma SubsequenceDrop<T>(xs: seq<T>, ys: seq<T>)
    requires ys != [] && SubsequenceOf(xs, ys[1..])
    ensures SubsequenceOf(xs, ys)
  {
  }

  /** A subsequence never duplicates or invents elements. */
  lemma {:induction false} SubsequenceMultiset<T>(xs: seq<T>, ys: seq<T>)
    requires SubsequenceOf(xs, ys)
    ensures multiset(xs) <= multiset(ys)
    decreases |ys|
  {
    if xs != [] {
      assert ys == [ys[0]] + ys[1..];
      if xs[0] == ys[0] && SubsequenceOf(xs[1..], ys[1..]) {
        SubsequenceMultiset(xs[1..], ys[1..]);
        assert xs == [xs[0]] + xs[1..];
      } else {
        SubsequenceMultiset(xs, ys[1..]);
      }
    }
  }

  /** The count is the length of the filtered list. */
  lemma {:induction false} CountIsFilterLength<R>(rs: seq<R>, p: R -> bool)
    ensures Count(rs, p) == |Keep(rs, p)|
    decreases |rs|
  {
    if |rs| > 0 {
      CountIsFilterLength(rs[1..], p);
    }
  }

  /** Filtering the output again with the same predicate changes nothing. */
  lemma {:induction false} KeepIdempotent<R>(rs: seq<R>, p: R -> bool)
    ensures Keep(Keep(rs, p), p) == Keep(rs, p)
    decreases |rs|
  {
    if |rs| > 0 {
      KeepIdempotent(rs[1..], p);
      var k := Keep(rs, p);
      if p(rs[0]) {
        assert k == [rs[0]] + Keep(rs[1..], p);
        assert k[1..] == Keep(rs[1..], p);
      } else {
        assert k == Keep(rs[1..], p);
      }
    }
  }

  /** When every record passes, the filter is the identity. */
  lemma {:induction false} KeepAllPass<R>(rs: seq<R>, p: R -> bool)
    requires forall x :: x in rs ==> p(x)
    ensures Keep(rs, p) == rs
    decreases |rs|
  {
    if |rs| > 0 {
      assert rs[0] in rs;
      KeepAllPass(rs[1..], p);
      assert rs == [rs[0]] + rs[1..];
    }
  }

  /** When no record passes, the result is empty. */
  lemma {:induction false} KeepNonePass<R>(rs: seq<R>, p: R -> bool)
    requires forall x :: x in rs ==> !p(x)
    ensures Keep(rs, p) == []
    decreases |rs|
  {
    if |rs| > 0 {
      assert rs[0] in rs;
      KeepNonePass(rs[1..], p);
    }
  }

  /** Two predicates that agree on every record of `rs` filter it alike. */
  lemma {:induction false} KeepAgree<R>(rs: seq<R>, p: R -> bool, q: R -> bool)
    requires forall x :: x in rs ==> p(x) == q(x)
    ensures Keep(rs, p) == Keep(rs, q)
    decreases |rs|
  {
    if |rs| > 0 {
      assert rs[0] in rs;
      KeepAgree(rs[1..], p, q);
    }
  }

  /** Filtering distributes over concatenation. */
  lemma {:induction false} KeepAppend<R>(a: seq<R>, b: seq<R>, p: R -> bool)
    ensures Keep(a + b, p) == Keep(a, p) + Keep(b, p)
    decreases |a|
  {
    if |a| > 0 {
      assert (a + b)[1..] == a[1..] + b;
      KeepAppend(a[1..], b, p);
    } else {
      assert a + b == b;
    }
  }

  /** Counting distributes over concatenation. */
  lemma {:induction false} CountAppend<R>(a: seq<R>, b: seq<R>, p: R -> bool)
    ensures Count(a + b, p) == Count(a, p) + Count(b, p)
    decreases |a|
  {
    if |a| > 0 {
      assert (a + b)[1..] == a[1..] + b;
      CountAppend(a[1..], b, p);
    } else {
      assert a + b == b;
    }
  }

  /** Extending a prefix by one record adds one to the count exactly when the record passes. */
  lemma CountPrefixStep<R>(rs: seq<R>, p: R -> bool, k: nat)
    requires k < |rs|
    ensures Count(rs[..k + 1], p) == Count(rs[..k], p) + (if p(rs[k]) then 1 else 0)
  {
    assert rs[..k + 1] == rs[..k] + [rs[k]];
    CountAppend(rs[..k], [rs[k]], p);
  }

  /** Two disjoint predicates never count more records than there are. */
  lemma {:induction false} CountDisjoint<R>(rs: seq<R>, p: R -> bool, q: R -> bool)
    requires forall x :: x in rs ==> !(p(x) && q(x))
    ensures Count(rs, p) + Count(rs, q) <= |rs|
    decreases |rs|
  {
    if |rs| > 0 {
      assert rs[0] in rs;
      CountDisjoint(rs[1..], p, q);
    }
  }

  /** Two disjoint predicates that both imply a third never count more records than the third does. */
  lemma {:induction false} CountDisjointWithin<R>(rs: seq<R>, p: R -> bool, q: R -> bool, r: R -> bool)
    requires forall x :: x in rs ==> !(p(x) && q(x)) && (p(x) ==> r(x)) && (q(x) ==> r(x))
    ensures Count(rs, p) + Count(rs, q) <= Count(rs, r)
    decreases |rs|
  {
    if |rs| > 0 {
      assert rs[0] in rs;
      CountDisjointWithin(rs[1..], p, q, r);
    }
  }

  /** Three disjoint predicates never count more records than there are. */
  lemma {:induction false} CountDisjoint3<R>(rs: seq<R>, p: R -> bool, q: R -> bool, s: R -> bool)
    requires forall x :: x in rs ==> !(p(x) && q(x)) && !(p(x) && s(x)) && !(q(x) && s(x))
    ensures Count(rs, p) + Count(rs, q) + Count(rs, s) <= |rs|
    decreases |rs|
  {
    if |rs| > 0 {
      assert rs[0] in rs;
      CountDisjoint3(rs[1..], p, q, s);
    }
  }

  /** Three predicates of which every record satisfies exactly one partition the records. */
  lemma {:induction false} CountPartition3<R>(rs: seq<R>, p: R -> bool, q: R -> bool, s: R -> bool)
    requires forall x :: x in rs ==> (p(x) || q(x) || s(x))
    requires forall x :: x in rs ==> !(p(x) && q(x)) && !(p(x) && s(x)) && !(q(x) && s(x))
    ensures Count(rs, p) + Count(rs, q) + Count(rs, s) == |rs|
    decreases |rs|
  {
    if |rs| > 0 {
      assert rs[0] in rs;
      CountPartition3(rs[1..], p, q, s);
    }
  }

  /** A predicate implied by another counts at least as many records. */
  lemma {:induction false} CountMonotone<R>(rs: seq<R>, p: R -> bool, q: R -> bool)
    requires forall x :: x in rs ==> p(x) ==> q(x)
    ensures Count(rs, p) <= Count(rs, q)
    decreases |rs|
  {
    if |rs| > 0 {
      assert rs[0] in rs;
      CountMonotone(rs[1..], p, q);
    }
  }

  /** Removing the element at index `i` removes exactly one copy of it. */
  lemma MultisetRemoveAt<R>(b: seq<R>, i: nat)
    requires i < |b|
    ensures multiset(b[..i] + b[i + 1..]) == multiset(b) - multiset{b[i]}
  {
    assert b == b[..i] + [b[i]] + b[i + 1..];
    assert multiset(b) == multiset(b[..i]) + multiset{b[i]} + multiset(b[i + 1..]);
  }

  /** Removing the element at index `i` lowers the count by one exactly when that element passes. */
  lemma CountRemoveAt<R>(b: seq<R>, i: nat, p: R -> bool)
    requires i < |b|
    ensures Count(b, p) == Count(b[..i] + b[i + 1..], p) + (if p(b[i]) then 1 else 0)
  {
    var front, back := b[..i + 1], b[i + 1..];
    assert b == front + back;
    CountAppend(front, back, p);
    CountPrefixStep(b, p, i);
    CountAppend(b[..i], back, p);
  }

  /** Counts do not depend on the order of the records. */
  lemma {:induction false} CountPermutation<R>(a: seq<R>, b: seq<R>, p: R -> bool)
    requires multiset(a) == multiset(b)
    ensures Count(a, p) == Count(b, p)
    decreases |a|
  {
    if |a| == 0 {
      assert |b| == |multiset(b)| == 0;
    } else {
      var x, rest := a[0], a[1..];
      assert x in multiset(b);
      var i :| 0 <= i < |b| && b[i] == x;
      var others := b[..i] + b[i + 1..];
      assert multiset(rest) == multiset(a) - multiset{x} by {
        assert a == [x] + rest;
      }
      MultisetRemoveAt(b, i);
      CountPermutation(rest, others, p);
      CountRemoveAt(b, i, p);
    }
  }

  /** When exactly the record at index `i` passes, the filter returns that record alone. */
  lemma {:induction false} KeepExactlyOne<R>(rs: seq<R>, p: R -> bool, i: nat)
    requires i < |rs| && p(rs[i])
    requires forall j :: 0 <= j < |rs| && j != i ==> !p(rs[j])
    ensures Keep(rs, p) == [rs[i]]
  {
    assert rs == rs[..i] + [rs[i]] + rs[i + 1..];
    KeepAppend(rs[..i] + [rs[i]], rs[i + 1..], p);
    KeepAppend(rs[..i], [rs[i]], p);
    forall x | x in rs[..i] ensures !p(x) {
      var j :| 0 <= j < i && rs[..i][j] == x;
      assert rs[j] == x;
    }
    forall x | x in rs[i + 1..] ensures !p(x) {
      var j :| 0 <= j < |rs| - i - 1 && rs[i + 1..][j] == x;
      assert rs[i + 1 + j] == x;
    }
    KeepNonePass(rs[..i], p);
    KeepNonePass(rs[i + 1..], p);
  }
}
