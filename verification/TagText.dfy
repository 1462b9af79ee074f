/**
 Tag text: the `key=value` syntax of Linode tags, the bytewise order that sorts them, and the canonical
 sequence of a set of tags. One character stands for one byte.
 */
module TagText {

  // ---------------------------------------------------------------- splitting and printing

  datatype Split = Pair(key: string, value: string) | Opaque

  /** Position of the first `c` in `s`, or -1. */
  function IndexOf(s: string, c: char): (i: int)
    ensures -1 <= i < |s|
    ensures i >= 0 ==> s[i] == c && c !in s[..i]
    ensures i < 0 ==> c !in s
  {
    if s == [] then -1
    else if s[0] == c then 0
    else
      var rest := IndexOf(s[1..], c);
      if rest < 0 then -1 else
        assert s[..rest + 1] == [s[0]] + s[1..][..rest];
        rest + 1
  }

  /** A tag is a pair only when its first `=` has text on both sides; every other tag is opaque. */
  function SplitTag(tag: string): Split {
    var i := IndexOf(tag, '=');
    if i <= 0 || i == |tag| - 1 then Opaque else Pair(tag[..i], tag[i + 1..])
  }

  function Print(key: string, value: string): string {
    key + "=" + value
  }

  predicate GoodKey(key: string) {
    key != "" && '=' !in key
  }

  /** Printing is the right inverse of splitting exactly on non-empty `=`-free keys with non-empty values. */
  lemma SplitOfPrint(key: string, value: string)
    ensures SplitTag(Print(key, value)) == Pair(key, value) <==> GoodKey(key) && value != ""
    ensures value == "" && '=' !in key ==> SplitTag(Print(key, value)) == Opaque
  {
    var tag := Print(key, value);
    if '=' !in key {
      assert tag[..|key|] == key && tag[|key| + 1..] == value;
      FirstIndex(tag, '=', |key|);
    }
  }

  lemma {:induction false} FirstIndex(s: string, c: char, i: nat)
    requires i < |s| && s[i] == c && c !in s[..i]
    ensures IndexOf(s, c) == i
  {
    if i > 0 {
      assert s[0] in s[..i];
      assert forall x :: x in s[1..][..i - 1] ==> x in s[..i] by {
        assert s[..i] == [s[0]] + s[1..][..i - 1];
      }
      FirstIndex(s[1..], c, i - 1);
    }
  }

  /** ... and the left inverse on every tag that splits. */
  lemma PrintOfSplit(tag: string)
    requires SplitTag(tag).Pair?
    ensures Print(SplitTag(tag).key, SplitTag(tag).value) == tag
    ensures GoodKey(SplitTag(tag).key) && SplitTag(tag).value != ""
  {
    var i := IndexOf(tag, '=');
    assert tag == tag[..i] + [tag[i]] + tag[i + 1..];
  }

  // ---------------------------------------------------------------- the order of tags

  /** Bytewise lexicographic order. */
  predicate Less(a: string, b: string) {
    b != [] && (a == [] || a[0] < b[0] || (a[0] == b[0] && Less(a[1..], b[1..])))
  }

  lemma {:induction false} LessTotal(a: string, b: string)
    ensures Less(a, b) || a == b || Less(b, a)
  {
    if a != [] && b != [] && a[0] == b[0] {
      LessTotal(a[1..], b[1..]);
      assert a == [a[0]] + a[1..] && b == [b[0]] + b[1..];
    }
  }

  lemma {:induction false} LessAsymmetric(a: string, b: string)
    requires Less(a, b)
    ensures !Less(b, a) && a != b
  {
    if a != [] && a[0] == b[0] {
      LessAsymmetric(a[1..], b[1..]);
    }
  }

  lemma {:induction false} LessTransitive(a: string, b: string, c: string)
    requires Less(a, b) && Less(b, c)
    ensures Less(a, c)
  {
    if a != [] && a[0] == b[0] && b[0] == c[0] {
      LessTransitive(a[1..], b[1..], c[1..]);
    }
  }

  /** The strings differ first at a byte where the first one has the smaller value. */
  ghost predicate SmallerAtFirst(a: string, b: string) {
    exists k :: 0 <= k < |a| && k < |b| && a[..k] == b[..k] && a[k] < b[k]
  }

  lemma SmallerInTail(a: string, b: string)
    requires a != [] && b != [] && a[0] == b[0]
    ensures SmallerAtFirst(a, b) <==> SmallerAtFirst(a[1..], b[1..])
  {
    var x, y := a[1..], b[1..];
    if k :| 0 <= k < |a| && k < |b| && a[..k] == b[..k] && a[k] < b[k] {
      assert x[..k - 1] == a[..k][1..] && y[..k - 1] == b[..k][1..] && x[k - 1] < y[k - 1];
    }
    if k :| 0 <= k < |x| && k < |y| && x[..k] == y[..k] && x[k] < y[k] {
      assert a[..k + 1] == [a[0]] + x[..k] && b[..k + 1] == [b[0]] + y[..k] && a[k + 1] < b[k + 1];
    }
  }

  lemma SmallerInHead(a: string, b: string)
    requires a != [] && b != [] && a[0] != b[0]
    ensures SmallerAtFirst(a, b) <==> a[0] < b[0]
  {
    assert a[..0] == b[..0];
    assert forall k :: 0 < k < |a| && k < |b| ==> a[..k][0] != b[..k][0];
  }

  /** A string is less than another when it is a proper beginning of it, or smaller at the first byte where they differ. */
  lemma {:induction false} LessExactly(a: string, b: string)
    ensures Less(a, b) <==> a < b || SmallerAtFirst(a, b)
  {
    hide SmallerAtFirst;
    if a == [] || b == [] {
      NothingSmaller(a, b);
    } else if a[0] == b[0] {
      LessExactly(a[1..], b[1..]);
      SmallerInTail(a, b);
      assert a == [a[0]] + a[1..] && b == [b[0]] + b[1..];
      assert a < b <==> a[1..] < b[1..];
    } else {
      SmallerInHead(a, b);
    }
  }

  lemma NothingSmaller(a: string, b: string)
    requires a == [] || b == []
    ensures !SmallerAtFirst(a, b)
  {}

  // ---------------------------------------------------------------- canonical sequences

  ghost predicate Ascending(s: seq<string>) {
    forall i, j :: 0 <= i < j < |s| ==> Less(s[i], s[j])
  }

  /** The least element of a non-empty set. */
  ghost function Least(S: set<string>): (m: string)
    requires S != {}
    ensures m in S
    ensures forall x :: x in S && x != m ==> Less(m, x)
  {
    var x :| x in S;
    if S == {x} then x else
      assert S - {x} != {};
      var m := Least(S - {x});
      LessTotal(x, m);
      if Less(x, m) then
        assert forall y :: y in S && y != x && y != m ==> Less(x, y) by {
          forall y | y in S && y != x && y != m ensures Less(x, y) { LessTransitive(x, m, y); }
        }
        x
      else m
  }

  /** The ascending sequence of a set of tags. */
  ghost function SortedSeq(S: set<string>): (s: seq<string>)
    ensures Ascending(s)
    ensures forall t :: t in s <==> t in S
    decreases |S|
  {
    if S == {} then [] else
      var m := Least(S);
      var rest := SortedSeq(S - {m});
      assert forall j :: 0 <= j < |rest| ==> rest[j] in S - {m};
      [m] + rest
  }

  /** Only one ascending sequence has a given set of elements. */
  lemma {:induction false} AscendingUnique(a: seq<string>, b: seq<string>)
    requires Ascending(a) && Ascending(b)
    requires forall t :: t in a <==> t in b
    ensures a == b
  {
    assert a == [] <==> b == [] by {
      if a != [] { assert a[0] in a; }
      if b != [] { assert b[0] in b; }
    }
    if a != [] {
      assert a[0] in a && b[0] in b;
      FirstIsLeast(a, b);
      FirstIsLeast(b, a);
      if Less(a[0], b[0]) {
        LessAsymmetric(a[0], b[0]);
      }
      forall t ensures t in a[1..] <==> t in b[1..] {
        TailMembers(a, t);
        TailMembers(b, t);
      }
      AscendingUnique(a[1..], b[1..]);
      assert a == [a[0]] + a[1..] && b == [b[0]] + b[1..];
    }
  }

  lemma FirstIsLeast(a: seq<string>, b: seq<string>)
    requires Ascending(a) && a != [] && b != [] && b[0] in a
    ensures a[0] == b[0] || Less(a[0], b[0])
  {
    var i :| 0 <= i < |a| && a[i] == b[0];
  }

  lemma TailMembers(a: seq<string>, t: string)
    requires Ascending(a) && a != []
    ensures t in a[1..] <==> t in a && t != a[0]
  {
    if t in a[1..] {
      var i :| 0 <= i < |a[1..]| && a[1..][i] == t;
      assert a[i + 1] == t;
      LessAsymmetric(a[0], t);
    }
    if t in a && t != a[0] {
      var i :| 0 <= i < |a| && a[i] == t;
      assert a[1..][i - 1] == t;
    }
  }

  /** Insertion sort, standing for the standard library's sort of a string slice. */
  function Sort(s: seq<string>): (r: seq<string>)
    ensures forall t :: t in r <==> t in s
  {
    if s == [] then [] else
      var r := Insert(s[0], Sort(s[1..]));
      assert forall t :: t in s <==> t == s[0] || t in s[1..];
      r
  }

  function Insert(x: string, s: seq<string>): (r: seq<string>)
    ensures forall t :: t in r <==> t == x || t in s
  {
    if s == [] || Less(x, s[0]) then [x] + s else
      assert forall t :: t in s <==> t == s[0] || t in s[1..];
      [s[0]] + Insert(x, s[1..])
  }

  ghost predicate NoDuplicates(s: seq<string>) {
    forall i, j :: 0 <= i < j < |s| ==> s[i] != s[j]
  }

  lemma {:induction false} InsertAscending(x: string, s: seq<string>)
    requires Ascending(s) && x !in s
    ensures Ascending(Insert(x, s))
  {
    if s == [] {
    } else if Less(x, s[0]) {
      forall j | 0 <= j < |s| ensures Less(x, s[j]) {
        if j > 0 { LessTransitive(x, s[0], s[j]); }
      }
    } else {
      LessTotal(x, s[0]);
      InsertAscending(x, s[1..]);
      var r := Insert(x, s[1..]);
      forall j | 0 <= j < |r| ensures Less(s[0], r[j]) {
        assert r[j] in r;
        if r[j] != x {
          var i :| 0 <= i < |s[1..]| && s[1..][i] == r[j];
          assert s[i + 1] == r[j];
        }
      }
    }
  }

  lemma {:induction false} SortAscending(s: seq<string>)
    requires NoDuplicates(s)
    ensures Ascending(Sort(s))
  {
    if s != [] {
      SortAscending(s[1..]);
      InsertAscending(s[0], Sort(s[1..]));
    }
  }

  /** Sorting a duplicate-free list gives the canonical sequence of its set of elements. */
  lemma SortIsSortedSeq(s: seq<string>, S: set<string>)
    requires NoDuplicates(s)
    requires forall t :: t in s <==> t in S
    ensures Sort(s) == SortedSeq(S)
  {
    SortAscending(s);
    AscendingUnique(Sort(s), SortedSeq(S));
  }

  predicate OccursAt(text: string, part: string, i: int) {
    0 <= i <= |text| - |part| && text[i..i + |part|] == part
  }

  /** The "contains" operator of the Linode list filter. */
  ghost predicate Contains(text: string, part: string) {
    exists i :: OccursAt(text, part, i)
  }
}
