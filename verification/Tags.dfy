/**
 The tag-list helpers of pkg/utils/utils.go. Each loop is a method proved against a function; the meaning of a
 list is its `View`: the key-value map it parses to and its set of non-empty opaque tags.
 */
module Tags {
  import opened TagText

  /** The key-value map of a list; a later tag overrides an earlier one with the same key. */
  function TagMap(tags: seq<string>): map<string, string> {
    if tags == [] then map[] else
      var before := TagMap(tags[..|tags| - 1]);
      match SplitTag(tags[|tags| - 1])
      case Pair(k, v) => before[k := v]
      case Opaque => before
  }

  function OpaqueList(tags: seq<string>): seq<string> {
    if tags == [] then [] else
      var before := OpaqueList(tags[..|tags| - 1]);
      if SplitTag(tags[|tags| - 1]).Pair? then before else before + [tags[|tags| - 1]]
  }

  ghost function OpaqueSet(tags: seq<string>): set<string> {
    set t | t in tags && SplitTag(t).Opaque? && t != ""
  }

  /** First occurrences of the non-empty tags, in order. */
  function Dedupe(tags: seq<string>): seq<string> {
    if tags == [] then [] else
      var last := tags[|tags| - 1];
      var before := Dedupe(tags[..|tags| - 1]);
      if last == "" || last in before then before else before + [last]
  }

  datatype View = View(kv: map<string, string>, plain: set<string>)

  ghost function ViewOf(tags: seq<string>): View {
    View(TagMap(tags), OpaqueSet(tags))
  }

  ghost predicate WellFormed(v: View) {
    && (forall k :: k in v.kv ==> GoodKey(k) && v.kv[k] != "")
    && (forall t :: t in v.plain ==> SplitTag(t).Opaque? && t != "")
  }

  ghost function PrintedPairs(m: map<string, string>): set<string> {
    set k | k in m :: Print(k, m[k])
  }

  /** The tags a view is written as. */
  ghost function Printed(v: View): set<string> {
    PrintedPairs(v.kv) + v.plain
  }

  /** The canonical list of a tag list's meaning. */
  ghost function Normalize(tags: seq<string>): seq<string> {
    SortedSeq(Printed(ViewOf(tags)))
  }

  // ---------------------------------------------------------------- facts about the functions

  lemma LastSplits(tags: seq<string>, t: string)
    requires tags != []
    ensures t in tags <==> t in tags[..|tags| - 1] || t == tags[|tags| - 1]
  {
    assert tags == tags[..|tags| - 1] + [tags[|tags| - 1]];
  }

  /** Every entry of the map was written in the list, and every pair of the list has its key in the map. */
  lemma {:induction false} TagMapMembers(tags: seq<string>)
    ensures forall k :: k in TagMap(tags) ==>
      GoodKey(k) && TagMap(tags)[k] != "" && Print(k, TagMap(tags)[k]) in tags
    ensures forall t :: t in tags && SplitTag(t).Pair? ==> SplitTag(t).key in TagMap(tags)
  {
    if tags != [] {
      var front, last := tags[..|tags| - 1], tags[|tags| - 1];
      TagMapMembers(front);
      assert tags == front + [last];
      if SplitTag(last).Pair? { PrintOfSplit(last); }
      assert forall t :: t in tags ==> t in front || t == last;
    }
  }

  /** The pair at a position is the last one of the list with its key. */
  ghost predicate LastWith(tags: seq<string>, i: int, key: string, value: string) {
    && 0 <= i < |tags| && SplitTag(tags[i]) == Pair(key, value)
    && forall j :: i < j < |tags| ==> !(SplitTag(tags[j]).Pair? && SplitTag(tags[j]).key == key)
  }

  /** A key has a value in the map exactly when the last pair of the list with that key has it. */
  lemma {:induction false} TagMapLastWins(tags: seq<string>, key: string, value: string)
    ensures key in TagMap(tags) && TagMap(tags)[key] == value <==> exists i :: LastWith(tags, i, key, value)
  {
    hide SplitTag;
    if tags != [] {
      var n := |tags| - 1;
      var front, last := tags[..n], tags[n];
      TagMapLastWins(front, key, value);
      if SplitTag(last).Pair? && SplitTag(last).key == key {
        assert forall i :: LastWith(tags, i, key, value) ==> i == n;
        assert SplitTag(last) == Pair(key, value) ==> LastWith(tags, n, key, value);
      } else {
        forall i ensures LastWith(front, i, key, value) <==> LastWith(tags, i, key, value) {
          assert forall j :: 0 <= j < n ==> front[j] == tags[j];
        }
      }
    }
  }

  lemma ViewWellFormed(tags: seq<string>)
    ensures WellFormed(ViewOf(tags))
  {
    TagMapMembers(tags);
  }

  /** A list whose tags are exactly the written form of a well-formed view, in any order, has that view. */
  lemma ViewOfPrinted(tags: seq<string>, v: View)
    requires WellFormed(v)
    requires forall t :: t in tags && t != "" <==> t in Printed(v)
    ensures ViewOf(tags) == v
  {
    KeysOfPrinted(tags, v);
    OpaqueOfPrinted(tags, v);
    hide TagMap, OpaqueSet, Printed, WellFormed;
  }

  lemma KeysOfPrinted(tags: seq<string>, v: View)
    requires WellFormed(v)
    requires forall t :: t in tags && t != "" <==> t in Printed(v)
    ensures TagMap(tags) == v.kv
  {
    TagMapMembers(tags);
    forall k | k in v.kv ensures k in TagMap(tags) {
      SplitOfPrint(k, v.kv[k]);
      assert Print(k, v.kv[k]) in Printed(v);
    }
    forall k | k in TagMap(tags) ensures k in v.kv && v.kv[k] == TagMap(tags)[k] {
      var t := Print(k, TagMap(tags)[k]);
      SplitOfPrint(k, TagMap(tags)[k]);
      assert t in tags && t in Printed(v) && t !in v.plain;
      var k' :| k' in v.kv && t == Print(k', v.kv[k']);
      SplitOfPrint(k', v.kv[k']);
    }
  }

  lemma OpaqueOfPrinted(tags: seq<string>, v: View)
    requires WellFormed(v)
    requires forall t :: t in tags && t != "" <==> t in Printed(v)
    ensures OpaqueSet(tags) == v.plain
  {
    forall t ensures t in OpaqueSet(tags) <==> t in v.plain {
      if t in OpaqueSet(tags) {
        assert t in Printed(v);
        if t in PrintedPairs(v.kv) {
          var k :| k in v.kv && t == Print(k, v.kv[k]);
          SplitOfPrint(k, v.kv[k]);
        }
      }
    }
  }

  lemma PrintedNotEmpty(v: View)
    requires "" !in v.plain
    ensures "" !in Printed(v)
  {
    forall k | k in v.kv ensures Print(k, v.kv[k]) != "" {
      assert |Print(k, v.kv[k])| > 0;
    }
  }

  /** Printing loses nothing: the canonical list has the view it was written from. */
  lemma ViewOfSorted(v: View)
    requires WellFormed(v)
    ensures ViewOf(SortedSeq(Printed(v))) == v
  {
    PrintedNotEmpty(v);
    ViewOfPrinted(SortedSeq(Printed(v)), v);
  }

  /** Two lists normalise to the same sequence exactly when they mean the same. */
  lemma NormalizeCanonical(a: seq<string>, b: seq<string>)
    ensures Normalize(a) == Normalize(b) <==> ViewOf(a) == ViewOf(b)
  {
    ViewWellFormed(a);
    ViewWellFormed(b);
    ViewOfSorted(ViewOf(a));
    ViewOfSorted(ViewOf(b));
  }

  lemma NormalizeKeepsView(tags: seq<string>)
    ensures ViewOf(Normalize(tags)) == ViewOf(tags)
  {
    ViewWellFormed(tags);
    ViewOfSorted(ViewOf(tags));
  }

  lemma NormalizeIdempotent(tags: seq<string>)
    ensures Normalize(Normalize(tags)) == Normalize(tags)
  {
    NormalizeKeepsView(tags);
  }

  lemma {:induction false} OpaqueListMembers(tags: seq<string>)
    ensures forall t :: t in OpaqueList(tags) <==> t in tags && SplitTag(t).Opaque?
  {
    if tags != [] {
      OpaqueListMembers(tags[..|tags| - 1]);
      forall t { LastSplits(tags, t); }
    }
  }

  /** The opaque tags of two lists in a row are those of the first and then those of the second. */
  lemma {:induction false} OpaqueListInOrder(first: seq<string>, second: seq<string>)
    ensures OpaqueList(first + second) == OpaqueList(first) + OpaqueList(second)
  {
    hide SplitTag;
    if second == [] {
      assert first + second == first;
    } else {
      var all, front := first + second, second[..|second| - 1];
      assert all[..|all| - 1] == first + front && all[|all| - 1] == second[|second| - 1];
      OpaqueListInOrder(first, front);
    }
  }

  /** What comes later in a list does not change which tags of its beginning are kept, nor their order. */
  lemma {:induction false} DedupeInOrder(first: seq<string>, second: seq<string>)
    ensures Dedupe(first) <= Dedupe(first + second)
  {
    if second == [] {
      assert first + second == first;
    } else {
      var all, front := first + second, second[..|second| - 1];
      assert all[..|all| - 1] == first + front;
      DedupeInOrder(first, front);
    }
  }

  lemma {:induction false} DedupeMembers(tags: seq<string>)
    ensures forall t :: t in Dedupe(tags) <==> t in tags && t != ""
    ensures NoDuplicates(Dedupe(tags))
  {
    if tags != [] {
      DedupeMembers(tags[..|tags| - 1]);
      forall t { LastSplits(tags, t); }
    }
  }

  /** Deduplicating and sorting any listing of a view's tags gives its canonical list. */
  lemma SortedDedupe(tags: seq<string>, v: View)
    requires forall t :: t in tags && t != "" <==> t in Printed(v)
    ensures Sort(Dedupe(tags)) == SortedSeq(Printed(v))
  {
    DedupeMembers(tags);
    SortIsSortedSeq(Dedupe(tags), Printed(v));
  }

  // ---------------------------------------------------------------- the loops of utils.go

  lemma TakeLast(tags: seq<string>, i: nat)
    requires i < |tags|
    ensures tags[..i + 1][..|tags[..i + 1]| - 1] == tags[..i]
    ensures tags[..i + 1][|tags[..i + 1]| - 1] == tags[i]
  {}

  method TagListToMap(tags: seq<string>) returns (tagMap: map<string, string>)
    ensures tagMap == TagMap(tags)
  {
    tagMap := map[];
    for i := 0 to |tags|
      invariant tagMap == TagMap(tags[..i])
    {
      TakeLast(tags, i);
      match SplitTag(tags[i])
      case Opaque =>
      case Pair(key, value) => tagMap := tagMap[key := value];
    }
    assert tags[..|tags|] == tags;
  }

  /** Go visits a map's entries in no fixed order; so does the choice of the next key here. */
  method MapToTagList(m: map<string, string>) returns (out: seq<string>)
    ensures forall t :: t in out <==> t in PrintedPairs(m)
    ensures |out| == |m|
  {
    out := [];
    var left := m.Keys;
    while left != {}
      invariant left <= m.Keys
      invariant forall t :: t in out <==> exists k :: k in m.Keys - left && t == Print(k, m[k])
      invariant |out| + |left| == |m|
      decreases |left|
    {
      var k :| k in left;
      ghost var before, was := out, left;
      out := out + [Print(k, m[k])];
      left := left - {k};
      forall t ensures t in out <==> exists k' :: k' in m.Keys - left && t == Print(k', m[k']) {
        if t in before {
          var k' :| k' in m.Keys - was && t == Print(k', m[k']);
          assert k' in m.Keys - left;
        }
        if k' :| k' in m.Keys - left && t == Print(k', m[k']) {
          if k' != k { assert k' in m.Keys - was; assert t in before; }
        }
        assert k in m.Keys - left;
      }
    }
    assert m.Keys - left == m.Keys;
  }

  method DedupeTags(tags: seq<string>) returns (uniqueTags: seq<string>)
    ensures uniqueTags == Dedupe(tags)
  {
    var uniqueTagsSet: set<string> := {};
    uniqueTags := [];
    for i := 0 to |tags|
      invariant uniqueTags == Dedupe(tags[..i])
      invariant forall t :: t in uniqueTagsSet <==> t in uniqueTags
    {
      TakeLast(tags, i);
      var tag := tags[i];
      if tag != "" && tag !in uniqueTagsSet {
        uniqueTagsSet := uniqueTagsSet + {tag};
        uniqueTags := uniqueTags + [tag];
      }
    }
    assert tags[..|tags|] == tags;
  }

  method OpaqueTags(tags: seq<string>) returns (opaqueTags: seq<string>)
    ensures opaqueTags == OpaqueList(tags)
  {
    opaqueTags := [];
    for i := 0 to |tags|
      invariant opaqueTags == OpaqueList(tags[..i])
    {
      TakeLast(tags, i);
      if SplitTag(tags[i]).Opaque? {
        opaqueTags := opaqueTags + [tags[i]];
      }
    }
    assert tags[..|tags|] == tags;
  }

  /** Parse, print and sort again: the body that normalizeTagList and marshalUserTags share. */
  method NormalizeTagList(tags: seq<string>) returns (normalizedTags: seq<string>)
    ensures normalizedTags == Normalize(tags)
  {
    var tagMap := TagListToMap(tags);
    var pairs := MapToTagList(tagMap);
    var plain := OpaqueTags(tags);
    var unique := DedupeTags(pairs + plain);
    normalizedTags := Sort(unique);
    OpaqueListMembers(tags);
    ViewWellFormed(tags);
    PrintedNotEmpty(ViewOf(tags));
    SortedDedupe(pairs + plain, ViewOf(tags));
  }

  // ---------------------------------------------------------------- keys users may not set

  const NODE_POOL_LABEL_KEY := "karpenter.sh/nodepool"
  const LABEL_NODE_CLASS := "karpenter.k8s.linode/linodenodeclass"
  const LABEL_LKE_MANAGED := "karpenter.k8s.linode/lke-managed"
  const NODE_CLAIM_TAG_KEY := "karpenter.sh/nodeclaim"
  const LKE_CLUSTER_NAME_TAG_KEY := "lke-cluster-name"
  const NAME_TAG_KEY := "Name"

  const RESTRICTED_TAG_KEYS: set<string> :=
    {NODE_POOL_LABEL_KEY, LABEL_NODE_CLASS, LABEL_LKE_MANAGED, NODE_CLAIM_TAG_KEY, LKE_CLUSTER_NAME_TAG_KEY, NAME_TAG_KEY}

  predicate Restricted(tag: string) {
    SplitTag(tag).Pair? && SplitTag(tag).key in RESTRICTED_TAG_KEYS
  }

  /** The restricted tags of a list, once each, in order of first occurrence. */
  function RestrictedTags(tags: seq<string>): seq<string> {
    if tags == [] then [] else
      var last := tags[|tags| - 1];
      var before := RestrictedTags(tags[..|tags| - 1]);
      if Restricted(last) && last !in before then before + [last] else before
  }

  ghost predicate ValidTags(tags: seq<string>) {
    RestrictedTags(tags) == []
  }

  method ValidateTags(tags: seq<string>) returns (invalidTags: seq<string>)
    ensures invalidTags == RestrictedTags(tags)
  {
    invalidTags := [];
    var seen: set<string> := {};
    for i := 0 to |tags|
      invariant invalidTags == RestrictedTags(tags[..i])
      invariant forall t :: t in seen <==> t in invalidTags
    {
      TakeLast(tags, i);
      var tag := tags[i];
      if SplitTag(tag).Pair? && SplitTag(tag).key in RESTRICTED_TAG_KEYS && tag !in seen {
        invalidTags := invalidTags + [tag];
        seen := seen + {tag};
      }
    }
    assert tags[..|tags|] == tags;
  }

  lemma {:induction false} RestrictedTagsMembers(tags: seq<string>)
    ensures forall t :: t in RestrictedTags(tags) <==> t in tags && Restricted(t)
  {
    if tags != [] {
      RestrictedTagsMembers(tags[..|tags| - 1]);
      forall t { LastSplits(tags, t); }
    }
  }

  /** A list passes validation exactly when its map sets no restricted key. */
  lemma ValidTagsMeaning(tags: seq<string>)
    ensures ValidTags(tags) <==> TagMap(tags).Keys !! RESTRICTED_TAG_KEYS
    ensures RESTRICTED_TAG_KEYS ==
      {"karpenter.sh/nodepool", "karpenter.k8s.linode/linodenodeclass", "karpenter.k8s.linode/lke-managed",
       "karpenter.sh/nodeclaim", "lke-cluster-name", "Name"}
  {
    TagMapMembers(tags);
    RestrictedTagsMembers(tags);
    if !ValidTags(tags) {
      var t := RestrictedTags(tags)[0];
      assert t in RestrictedTags(tags);
      assert SplitTag(t).key in TagMap(tags);
    }
    if k :| k in TagMap(tags) && k in RESTRICTED_TAG_KEYS {
      SplitOfPrint(k, TagMap(tags)[k]);
      assert Print(k, TagMap(tags)[k]) in RestrictedTags(tags);
    }
  }

  const MAX_LINODE_TAG_LENGTH := 50

  /** Complete tag strings longer than the limit make ValidateTagLengths fail. */
  predicate TagLengthsValid(tags: set<string>) {
    forall t :: t in tags ==> |t| <= MAX_LINODE_TAG_LENGTH
  }
}
