/** Byte strings in the order of std::string, and sorting by it. */
module ByteStrings {
  import opened Counting
  import opened Fnv
  import opened Sorting

  type Bytes = seq<Byte>

  // The order of std::string: byte by byte, a prefix first.
  predicate Less(a: Bytes, b: Bytes) {
    b != [] && (a == [] || a[0] < b[0] || (a[0] == b[0] && Less(a[1..], b[1..])))
  }

  lemma {:induction false} LessTotal(a: Bytes, b: Bytes)
    ensures a == b || Less(a, b) || Less(b, a)
    ensures !(Less(a, b) && Less(b, a)) && !Less(a, a)
  {
    if a != [] && b != [] {
      LessTotal(a[1..], b[1..]);
      LessTotal(a[1..], a[1..]);
      assert a == [a[0]] + a[1..] && b == [b[0]] + b[1..];
    } else if a != [] {
      LessTotal(a[1..], a[1..]);
    }
  }

  /** The first byte in which two strings differ decides, and a prefix comes first. */
  lemma {:induction false} LessAtDifference(a: Bytes, b: Bytes)
    ensures Less(a, b) <==>
            exists k: nat :: k <= |a| && k < |b| && a[..k] == b[..k] && (k == |a| || a[k] < b[k])
  {
    if a == [] || b == [] {
      assert Less(a, b) ==> a[..0] == b[..0];
    } else {
      LessAtDifference(a[1..], b[1..]);
      assert a == [a[0]] + a[1..] && b == [b[0]] + b[1..];
      if a[0] < b[0] {
        assert a[..0] == b[..0];
      } else if Less(a, b) {
        var j: nat :| j <= |a[1..]| && j < |b[1..]| && a[1..][..j] == b[1..][..j] &&
                      (j == |a[1..]| || a[1..][j] < b[1..][j]);
        assert a[..j + 1] == [a[0]] + a[1..][..j] && b[..j + 1] == [b[0]] + b[1..][..j];
      }
      if k: nat :| k <= |a| && k < |b| && a[..k] == b[..k] && (k == |a| || a[k] < b[k]) {
        if k > 0 {
          assert a[0] == a[..k][0] == b[..k][0] == b[0];
          assert a[1..][..k - 1] == a[..k][1..] && b[1..][..k - 1] == b[..k][1..];
        }
      }
    }
  }

  lemma {:induction false} LessTransitive(a: Bytes, b: Bytes, c: Bytes)
    requires Less(a, b) && Less(b, c)
    ensures Less(a, c)
  {
    if a != [] && a[0] == b[0] == c[0] { LessTransitive(a[1..], b[1..], c[1..]); }
  }

  const BYTE_ORDER: Relation<Bytes> := (a: Bytes, b: Bytes) => Less(a, b)

  /** The order is total. */
  lemma BytesInOrder()
    ensures TotalOrder(BYTE_ORDER)
  {
    forall a, b ensures (a == b || BYTE_ORDER(a, b) || BYTE_ORDER(b, a)) && !(BYTE_ORDER(a, b) && BYTE_ORDER(b, a)) {
      LessTotal(a, b);
    }
    forall a, b, c | !BYTE_ORDER(a, b) && !BYTE_ORDER(b, c) ensures !BYTE_ORDER(a, c) {
      LessTotal(a, b);
      LessTotal(b, c);
      if Less(a, c) {
        if a != b { LessTransitive(b, a, c); }
      }
    }
  }

  function SortedBytes(strings: seq<Bytes>): seq<Bytes> { Sorted(BYTE_ORDER, strings) }

  /** Sorting strings in any order they come in gives one list. */
  lemma SortedAlike(a: seq<Bytes>, b: seq<Bytes>)
    requires multiset(a) == multiset(b)
    ensures SortedBytes(a) == SortedBytes(b)
  {
    BytesInOrder();
    hide Less, Sorted;
    SortSorts(BYTE_ORDER, a);
    SortSorts(BYTE_ORDER, b);
    OrderUnique(BYTE_ORDER, SortedBytes(a), SortedBytes(b));
  }

  ghost predicate Ascending(strings: seq<Bytes>) {
    forall i, j :: 0 <= i < j < |strings| ==> Less(strings[i], strings[j])
  }

  lemma AscendingDistinct(s: seq<Bytes>, i: nat, j: nat)
    requires Ascending(s) && i < |s| && j < |s| && s[i] == s[j]
    ensures i == j
  {
    LessTotal(s[i], s[j]);
  }

  lemma FirstMember<T>(t: seq<T>)
    ensures t == [] || t[0] in t
  {
  }

  // In ascending lists with the same members, the heads agree.
  lemma SameHead(s: seq<Bytes>, t: seq<Bytes>)
    requires Ascending(s) && Ascending(t) && s != [] && (forall x :: x in s <==> x in t)
    ensures t != [] && s[0] == t[0]
  {
    hide Less;
    assert s[0] in t;
    var j :| 0 <= j < |t| && t[j] == s[0];
    assert t[0] in s;
    var i :| 0 <= i < |s| && s[i] == t[0];
    LessTotal(s[0], t[0]);
  }

  lemma SameTail(s: seq<Bytes>, t: seq<Bytes>, x: Bytes)
    requires Ascending(s) && s != [] && t != [] && s[0] == t[0] && x in s[1..] && (forall y :: y in s <==> y in t)
    ensures x in t[1..]
  {
    hide Less;
    var i :| 0 <= i < |s[1..]| && s[1..][i] == x;
    if x == s[0] { AscendingDistinct(s, 0, i + 1); }
    assert x in t;
    assert t == [t[0]] + t[1..];
  }

  /** A set of strings has one ascending list. */
  lemma {:induction false} AscendingUnique(s: seq<Bytes>, t: seq<Bytes>)
    requires Ascending(s) && Ascending(t) && (forall x :: x in s <==> x in t)
    ensures s == t
  {
    hide Less;
    if s == [] {
      FirstMember(t);
    } else {
      SameHead(s, t);
      forall x ensures x in s[1..] <==> x in t[1..] {
        if x in s[1..] { SameTail(s, t, x); }
        if x in t[1..] { SameTail(t, s, x); }
      }
      AscendingUnique(s[1..], t[1..]);
      assert s == [s[0]] + s[1..] && t == [t[0]] + t[1..];
    }
  }
}
