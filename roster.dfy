/**
 * The rank of this seed node within the fleet of seed nodes (getMyIndex).
 *
 * The roster is copied into a list, sorted by the full address string
 * ("host:port") with Java's String ordering, and the own address is looked up
 * with List.indexOf. Addresses are modelled by their full-address strings:
 * two NodeAddress values are equal exactly when host and port are equal,
 * which is when their full addresses are equal.
 */
module Roster {

  /** Java's `a.compareTo(b) < 0` on strings: lexicographic by character,
    * a proper prefix sorting before the longer string. */
  predicate Less(a: string, b: string)
    decreases |a|
    ensures Less(a, b) ==> a != b
    ensures |a| < |b| && a == b[..|a|] ==> Less(a, b)
  {
    if |a| == 0 then |b| > 0
    else if |b| == 0 then false
    else if a[0] != b[0] then a[0] < b[0]
    else Less(a[1..], b[1..])
  }

  /** `Less` is the order String.compareTo documents: either `a` is a proper
    * prefix of `b`, or at the first position where they differ the
    * character of `a` is the smaller. */
  lemma {:induction false} LessIsCompareTo(a: string, b: string)
    ensures Less(a, b) <==>
      (|a| < |b| && a == b[..|a|]) ||
      (exists k :: 0 <= k < |a| && k < |b| && a[..k] == b[..k] && a[k] < b[k])
    decreases |a|
  {
    if |a| == 0 || |b| == 0 {
    } else if a[0] != b[0] {
      assert a[..0] == b[..0];
    } else {
      LessIsCompareTo(a[1..], b[1..]);
      if |a[1..]| < |b[1..]| && a[1..] == b[1..][..|a[1..]|] {
        assert a == [a[0]] + a[1..] && b[..|a|] == [b[0]] + b[1..][..|a[1..]|];
      }
      if |a| < |b| && a == b[..|a|] {
        assert a[1..] == b[1..][..|a[1..]|];
      }
      if k :| 0 <= k < |a[1..]| && k < |b[1..]| && a[1..][..k] == b[1..][..k] && a[1..][k] < b[1..][k] {
        assert a[..k + 1] == [a[0]] + a[1..][..k] && b[..k + 1] == [b[0]] + b[1..][..k];
      }
      if k :| 0 <= k < |a| && k < |b| && a[..k] == b[..k] && a[k] < b[k] {
        assert k > 0;
        assert a[1..][..k - 1] == a[..k][1..] && b[1..][..k - 1] == b[..k][1..];
      }
    }
  }

  lemma {:induction false} LessTransitive(a: string, b: string, c: string)
    requires Less(a, b) && Less(b, c)
    ensures Less(a, c)
    decreases |a|
  {
    if |a| > 0 && a[0] == b[0] && b[0] == c[0] {
      LessTransitive(a[1..], b[1..], c[1..]);
    }
  }

  lemma {:induction false} LessTotal(a: string, b: string)
    ensures a == b || Less(a, b) || Less(b, a)
    decreases |a|
  {
    if |a| > 0 && |b| > 0 && a[0] == b[0] {
      LessTotal(a[1..], b[1..]);
      if a[1..] == b[1..] {
        assert a == [a[0]] + a[1..] && b == [b[0]] + b[1..];
      }
    }
  }

  /** `a <= b <= c` in the string order gives `a <= c`. */
  lemma NotLessTransitive(a: string, b: string, c: string)
    requires !Less(b, a) && !Less(c, b)
    ensures !Less(c, a)
  {
    LessTotal(a, b);
    LessTotal(b, c);
    if Less(c, a) {
      if a != b && b != c {
        LessTransitive(c, a, b);
      }
    }
  }

  /** Ascending order: no element sorts strictly before an earlier one. */
  ghost predicate Sorted(s: seq<string>)
  {
    forall i, j :: 0 <= i < j < |s| ==> !Less(s[j], s[i])
  }

  function Insert(x: string, s: seq<string>): (r: seq<string>)
    ensures |r| == |s| + 1
    ensures multiset(r) == multiset(s) + multiset{x}
  {
    if s == [] then [x]
    else if Less(s[0], x) then
      assert s == [s[0]] + s[1..];
      [s[0]] + Insert(x, s[1..])
    else [x] + s
  }

  lemma {:induction false} InsertSorted(x: string, s: seq<string>)
    requires Sorted(s)
    ensures Sorted(Insert(x, s))
  {
    var r := Insert(x, s);
    if s == [] {
    } else if Less(s[0], x) {
      var t := Insert(x, s[1..]);
      InsertSorted(x, s[1..]);
      assert r == [s[0]] + t;
      forall k | 0 <= k < |t|
        ensures !Less(t[k], s[0])
      {
        assert t[k] in multiset(t);
        if t[k] == x {
          if Less(x, s[0]) {
            LessTransitive(x, s[0], x);
          }
        } else {
          assert t[k] in multiset(s[1..]);
          var j :| 0 <= j < |s[1..]| && s[1..][j] == t[k];
          assert s[j + 1] == t[k];
        }
      }
    } else {
      assert r == [x] + s;
      forall k | 0 <= k < |s|
        ensures !Less(s[k], x)
      {
        LessTotal(s[0], x);
        if k > 0 {
          NotLessTransitive(x, s[0], s[k]);
        }
      }
    }
  }

  /** List.sort with a comparator on the full address, as an insertion sort.
    * Which sort is used does not matter to the rank: see
    * IndexOfAnySortedPermutation. */
  function Sort(s: seq<string>): (r: seq<string>)
    ensures |r| == |s|
    ensures multiset(r) == multiset(s)
    ensures Sorted(r)
  {
    if s == [] then []
    else
      var t := Sort(s[1..]);
      InsertSorted(s[0], t);
      assert s == [s[0]] + s[1..];
      Insert(s[0], t)
  }

  /** List.indexOf: the first position holding `x`, or -1. */
  function IndexOf(s: seq<string>, x: string): (r: int)
    ensures -1 <= r < |s|
    ensures r == -1 <==> x !in s
    ensures r >= 0 ==> s[r] == x && x !in s[..r]
  {
    if s == [] then -1
    else if s[0] == x then 0
    else
      var k := IndexOf(s[1..], x);
      assert s == [s[0]] + s[1..];
      if k == -1 then -1
      else
        assert s[..k + 1] == [s[0]] + s[1..][..k];
        k + 1
  }

  /** getMyIndex: the position of the own address in the sorted roster,
    * or -1 when the own address is not a member. */
  function MyIndex(roster: seq<string>, me: string): (r: int)
    ensures -1 <= r < |roster|
    ensures r == -1 <==> me !in roster
  {
    var sorted := Sort(roster);
    assert me in roster <==> me in multiset(sorted);
    IndexOf(sorted, me)
  }

  /** The number of roster entries whose address sorts strictly before `x`. */
  function CountLess(s: seq<string>, x: string): nat
  {
    if s == [] then 0
    else (if Less(s[0], x) then 1 else 0) + CountLess(s[1..], x)
  }

  lemma {:induction false} CountLessAppend(a: seq<string>, b: seq<string>, x: string)
    ensures CountLess(a + b, x) == CountLess(a, x) + CountLess(b, x)
  {
    if a == [] {
      assert a + b == b;
    } else {
      assert (a + b)[1..] == a[1..] + b;
      CountLessAppend(a[1..], b, x);
    }
  }

  /** Removing position k takes one copy of b[k] out of the multiset. */
  lemma RemoveAtMultiset(b: seq<string>, k: nat)
    requires k < |b|
    ensures multiset(b[..k] + b[k + 1..]) == multiset(b) - multiset{b[k]}
  {
    assert b == b[..k] + [b[k]] + b[k + 1..];
  }

  /** Removing position k takes b[k]'s share out of the count. */
  lemma RemoveAtCountLess(b: seq<string>, k: nat, x: string)
    requires k < |b|
    ensures CountLess(b, x) == CountLess([b[k]], x) + CountLess(b[..k] + b[k + 1..], x)
  {
    assert b == b[..k] + [b[k]] + b[k + 1..];
    CountLessAppend(b[..k] + [b[k]], b[k + 1..], x);
    CountLessAppend(b[..k], [b[k]], x);
    CountLessAppend(b[..k], b[k + 1..], x);
  }

  /** CountLess depends only on the roster's contents, not on its order. */
  lemma {:induction false} CountLessPermutation(a: seq<string>, b: seq<string>, x: string)
    requires multiset(a) == multiset(b)
    ensures CountLess(a, x) == CountLess(b, x)
    decreases |a|
  {
    if a == [] {
      assert |multiset(b)| == 0;
    } else {
      assert a[0] in multiset(b);
      var k :| 0 <= k < |b| && b[k] == a[0];
      assert a == [a[0]] + a[1..];
      assert multiset(a[1..]) == multiset(a) - multiset{a[0]};
      RemoveAtMultiset(b, k);
      CountLessPermutation(a[1..], b[..k] + b[k + 1..], x);
      RemoveAtCountLess(b, k, x);
    }
  }

  lemma {:induction false} CountLessNone(s: seq<string>, x: string)
    requires forall k :: 0 <= k < |s| ==> !Less(s[k], x)
    ensures CountLess(s, x) == 0
  {
    if s != [] {
      CountLessNone(s[1..], x);
    }
  }

  /** In an ascending list, the first position of `x` is the number of
    * entries sorting before `x`. */
  lemma {:induction false} IndexOfSorted(s: seq<string>, x: string)
    requires Sorted(s) && x in s
    ensures IndexOf(s, x) == CountLess(s, x)
  {
    if s[0] == x {
      CountLessNone(s, x);
    } else {
      var j :| 0 <= j < |s| && s[j] == x;
      LessTotal(s[0], x);
      assert x in s[1..] by { assert s[1..][j - 1] == x; }
      IndexOfSorted(s[1..], x);
    }
  }

  /** The rank of a member is the number of members whose address sorts
    * strictly before its own. */
  lemma RankIsCountOfSmaller(roster: seq<string>, me: string)
    requires me in roster
    ensures MyIndex(roster, me) == CountLess(roster, me)
  {
    var sorted := Sort(roster);
    assert me in multiset(sorted);
    IndexOfSorted(sorted, me);
    CountLessPermutation(sorted, roster, me);
  }

  /** The rank does not depend on the order in which the roster is given. */
  lemma RankPermutationInvariant(r1: seq<string>, r2: seq<string>, me: string)
    requires multiset(r1) == multiset(r2)
    ensures MyIndex(r1, me) == MyIndex(r2, me)
  {
    assert me in r1 <==> me in multiset(r2);
    if me in r1 {
      RankIsCountOfSmaller(r1, me);
      RankIsCountOfSmaller(r2, me);
      CountLessPermutation(r1, r2, me);
    }
  }

  lemma {:induction false} CountLessStrict(s: seq<string>, a: string, b: string)
    requires Less(a, b)
    ensures CountLess(s, a) + (if a in s then 1 else 0) <= CountLess(s, b)
  {
    if s != [] {
      CountLessStrict(s[1..], a, b);
      assert s == [s[0]] + s[1..];
      if s[0] != a && Less(s[0], a) {
        LessTransitive(s[0], a, b);
      }
    }
  }

  /** Two different members never share a rank: it follows from IndexOf's
    * contract, since one position of the sorted roster holds one address. */
  lemma RanksDistinct(roster: seq<string>, a: string, b: string)
    requires a in roster && b in roster && a != b
    ensures MyIndex(roster, a) != MyIndex(roster, b)
  {
  }

  /** Looking the own address up in ANY ascending permutation of the roster
    * gives the rank, so the rank does not depend on the sort algorithm. */
  lemma IndexOfAnySortedPermutation(roster: seq<string>, s: seq<string>, me: string)
    requires Sorted(s) && multiset(s) == multiset(roster)
    ensures IndexOf(s, me) == MyIndex(roster, me)
  {
    assert me in s <==> me in multiset(roster);
    if me in roster {
      IndexOfSorted(s, me);
      CountLessPermutation(s, roster, me);
      RankIsCountOfSmaller(roster, me);
    }
  }
}
