/** The tag index both the contacts page and the broadcast builder show:
    every tag of every contact collected into a Set, sorted, and cut to a
    fixed number of entries. */
module TagIndex {
  import opened Schema

  // ---------------------------------------------------------------------
  // The order on strings
  // ---------------------------------------------------------------------

  /** The total order the index is sorted by: lexicographic on characters,
      standing for localeCompare. */
  predicate StrLe(a: string, b: string)
    decreases |a|
  {
    |a| == 0 || (|b| > 0 && (a[0] < b[0] || (a[0] == b[0] && StrLe(a[1..], b[1..]))))
  }

  lemma {:induction false} StrLeTotal(a: string, b: string)
    ensures StrLe(a, b) || StrLe(b, a)
    decreases |a|
  {
    if |a| > 0 && |b| > 0 && a[0] == b[0] {
      StrLeTotal(a[1..], b[1..]);
    }
  }

  lemma {:induction false} StrLeTrans(a: string, b: string, c: string)
    requires StrLe(a, b) && StrLe(b, c)
    ensures StrLe(a, c)
    decreases |a|
  {
    if |a| > 0 && a[0] == b[0] && b[0] == c[0] {
      StrLeTrans(a[1..], b[1..], c[1..]);
    }
  }

  lemma {:induction false} StrLeAntisym(a: string, b: string)
    requires StrLe(a, b) && StrLe(b, a)
    ensures a == b
    decreases |a|
  {
    if |a| > 0 {
      StrLeAntisym(a[1..], b[1..]);
      assert a == [a[0]] + a[1..] && b == [b[0]] + b[1..];
    }
  }

  predicate Sorted(xs: seq<string>) {
    forall i, j :: 0 <= i < j < |xs| ==> StrLe(xs[i], xs[j])
  }

  // ---------------------------------------------------------------------
  // Sorting
  // ---------------------------------------------------------------------

  function InsertSorted(x: string, xs: seq<string>): seq<string>
    decreases |xs|
  {
    if |xs| == 0 then [x]
    else if StrLe(x, xs[0]) then [x] + xs
    else [xs[0]] + InsertSorted(x, xs[1..])
  }

  /** Array.prototype.sort with the string order. */
  function SortStrings(xs: seq<string>): seq<string>
    decreases |xs|
  {
    if |xs| == 0 then [] else InsertSorted(xs[0], SortStrings(xs[1..]))
  }

  lemma ConsSorted(h: string, rest: seq<string>)
    requires Sorted(rest)
    requires forall i :: 0 <= i < |rest| ==> StrLe(h, rest[i])
    ensures Sorted([h] + rest)
  {
    var l := [h] + rest;
    forall i, j | 0 <= i < j < |l| ensures StrLe(l[i], l[j]) {
      if i > 0 {
        assert l[i] == rest[i - 1] && l[j] == rest[j - 1];
      } else {
        assert l[j] == rest[j - 1];
      }
    }
  }

  lemma {:induction false} InsertSortedFacts(x: string, xs: seq<string>)
    requires Sorted(xs)
    ensures Sorted(InsertSorted(x, xs))
    ensures multiset(InsertSorted(x, xs)) == multiset(xs) + multiset{x}
  {
    InsertSortedPerm(x, xs);
    InsertSortedOrder(x, xs);
  }

  /** Insertion adds exactly the one value. */
  lemma {:induction false} InsertSortedPerm(x: string, xs: seq<string>)
    ensures multiset(InsertSorted(x, xs)) == multiset(xs) + multiset{x}
    decreases |xs|
  {
    if |xs| > 0 && !StrLe(x, xs[0]) {
      InsertSortedPerm(x, xs[1..]);
      assert xs == [xs[0]] + xs[1..];
    }
  }

  /** Every value of the inserted list is x or a value of the list. */
  lemma InsertedFrom(x: string, xs: seq<string>, i: int)
    requires 0 <= i < |InsertSorted(x, xs)|
    ensures InsertSorted(x, xs)[i] == x || exists m :: 0 <= m < |xs| && xs[m] == InsertSorted(x, xs)[i]
  {
    var l := InsertSorted(x, xs);
    InsertSortedPerm(x, xs);
    assert l[i] in multiset(l);
    if l[i] != x {
      assert l[i] in multiset(xs);
      assert l[i] in xs;
    }
  }

  lemma {:induction false} InsertSortedOrder(x: string, xs: seq<string>)
    requires Sorted(xs)
    ensures Sorted(InsertSorted(x, xs))
    decreases |xs|
  {
    if |xs| == 0 {
    } else if StrLe(x, xs[0]) {
      forall i | 0 <= i < |xs| ensures StrLe(x, xs[i]) {
        if i > 0 {
          StrLeTrans(x, xs[0], xs[i]);
        }
      }
      ConsSorted(x, xs);
    } else {
      var h := xs[0];
      var tail := xs[1..];
      assert Sorted(tail) by {
        forall i, j | 0 <= i < j < |tail| ensures StrLe(tail[i], tail[j]) {
          assert tail[i] == xs[i + 1] && tail[j] == xs[j + 1];
        }
      }
      var rest := InsertSorted(x, tail);
      InsertSortedOrder(x, tail);
      StrLeTotal(x, h);
      forall i | 0 <= i < |rest| ensures StrLe(h, rest[i]) {
        InsertedFrom(x, tail, i);
        if rest[i] != x {
          var m :| 0 <= m < |tail| && tail[m] == rest[i];
          assert xs[m + 1] == rest[i];
        }
      }
      ConsSorted(h, rest);
    }
  }

  /** The sort yields a sorted permutation of its input. */
  lemma {:induction false} SortStringsFacts(xs: seq<string>)
    ensures Sorted(SortStrings(xs))
    ensures multiset(SortStrings(xs)) == multiset(xs)
  {
    SortStringsOrder(xs);
    SortStringsPerm(xs);
  }

  lemma {:induction false} SortStringsOrder(xs: seq<string>)
    ensures Sorted(SortStrings(xs))
    decreases |xs|
  {
    if |xs| > 0 {
      SortStringsOrder(xs[1..]);
      InsertSortedOrder(xs[0], SortStrings(xs[1..]));
    }
  }

  lemma {:induction false} SortStringsPerm(xs: seq<string>)
    ensures multiset(SortStrings(xs)) == multiset(xs)
    decreases |xs|
  {
    if |xs| > 0 {
      var h, t := xs[0], xs[1..];
      calc {
        multiset(SortStrings(xs));
        multiset(InsertSorted(h, SortStrings(t)));
        { InsertSortedPerm(h, SortStrings(t)); }
        multiset(SortStrings(t)) + multiset{h};
        { SortStringsPerm(t); }
        multiset(t) + multiset{h};
        { assert xs == [h] + t; }
        multiset(xs);
      }
    }
  }

  // ---------------------------------------------------------------------
  // The index
  // ---------------------------------------------------------------------

  /** Each value at most once. */
  predicate NoDuplicates(xs: seq<string>) {
    forall x :: x in xs ==> multiset(xs)[x] == 1
  }

  /** t is a tag of one of the first n contacts. */
  predicate SeenIn(contacts: seq<Contact>, n: int, t: string) {
    exists k :: 0 <= k < n && k < |contacts| && t in TagsOf(contacts[k])
  }

  /** `contacts.forEach(c => (c.tags || []).forEach(t => set.add(t)))`,
      then Array.from: every tag once, in order of first appearance. */
  method CollectTags(contacts: seq<Contact>) returns (tags: seq<string>)
    ensures NoDuplicates(tags)
    ensures forall t :: t in tags <==> SeenIn(contacts, |contacts|, t)
  {
    tags := [];
    var i := 0;
    while i < |contacts|
      invariant 0 <= i <= |contacts|
      invariant NoDuplicates(tags)
      invariant forall t :: t in tags <==> SeenIn(contacts, i, t)
    {
      var ts := TagsOf(contacts[i]);
      var j := 0;
      while j < |ts|
        invariant 0 <= j <= |ts|
        invariant NoDuplicates(tags)
        invariant forall t :: t in tags <==> SeenIn(contacts, i, t) || t in ts[..j]
      {
        if ts[j] !in tags {
          tags := tags + [ts[j]];
        }
        assert ts[..j + 1] == ts[..j] + [ts[j]];
        j := j + 1;
      }
      assert ts[..j] == ts;
      forall t ensures SeenIn(contacts, i + 1, t) <==> SeenIn(contacts, i, t) || t in ts {
        if t in ts {
          assert t in TagsOf(contacts[i]);
        }
      }
      i := i + 1;
    }
  }

  lemma PrefixNoDuplicates(xs: seq<string>, n: int)
    requires 0 <= n <= |xs|
    requires NoDuplicates(xs)
    ensures NoDuplicates(xs[..n])
  {
    assert xs == xs[..n] + xs[n..];
    forall x | x in xs[..n] ensures multiset(xs[..n])[x] == 1 {
      assert multiset(xs)[x] == multiset(xs[..n])[x] + multiset(xs[n..])[x];
    }
  }

  /** The tag index with the given cap: distinct, sorted, at most cap long,
      drawn from the contacts' tags, and made of the smallest tags. */
  method TagsIndex(contacts: seq<Contact>, cap: nat) returns (index: seq<string>)
    ensures NoDuplicates(index)
    ensures Sorted(index)
    ensures |index| <= cap
    ensures forall t :: t in index ==> SeenIn(contacts, |contacts|, t)
    ensures forall t :: SeenIn(contacts, |contacts|, t) && t !in index ==>
      |index| == cap && forall i :: 0 <= i < |index| ==> StrLe(index[i], t)
  {
    var all := CollectTags(contacts);
    var sorted := SortStrings(all);
    SortStringsFacts(all);
    forall t ensures t in sorted <==> t in all {
      assert t in sorted <==> t in multiset(sorted);
    }
    index := if |sorted| <= cap then sorted else sorted[..cap];
    PrefixNoDuplicates(sorted, |index|);
    forall t | SeenIn(contacts, |contacts|, t) && t !in index
      ensures |index| == cap && forall i :: 0 <= i < |index| ==> StrLe(index[i], t)
    {
      var p :| 0 <= p < |sorted| && sorted[p] == t;
      assert p >= |index|;
    }
  }

  /** Contacts that carry no tags give an empty index. */
  lemma UntaggedContactsNoTags(contacts: seq<Contact>, t: string)
    requires forall k :: 0 <= k < |contacts| ==> contacts[k].tags.None?
    ensures !SeenIn(contacts, |contacts|, t)
  {
  }
}
