/**
 How a NodeClaim marks an instance and how the provider reads the mark back: the bounded claim tag, the merged
 tags claimInstance writes, the two detectors of a mark, and the labels a created pool is found by.
 */
module ClaimMarks {
  import opened TagText
  import opened Options
  import opened Tags

  // ---------------------------------------------------------------- the claim tag

  /** Exclusive or of the lowest `bits` bits. */
  function Xor(a: nat, b: nat, bits: nat): nat {
    if bits == 0 then 0 else (a + b) % 2 + 2 * Xor(a / 2, b / 2, bits - 1)
  }

  /** One byte of a 32-bit FNV-1a hash: exclusive or with the lowest byte, then times the prime, wrapped to 32 bits. */
  function Mixed(h: nat, x: char): nat {
    (h - h % 256 + Xor(h % 256, x as int % 256, 8)) * 0x0100_0193 % 0x1_0000_0000
  }

  function Fnv32a(s: string): nat {
    if s == [] then 0x811c_9dc5 else Mixed(Fnv32a(s[..|s| - 1]), s[|s| - 1])
  }

  function HexDigit(d: nat): (c: char)
    requires d < 16
    ensures c != '='
  {
    "0123456789abcdef"[d]
  }

  /** The lowest `width` hexadecimal digits of `n`, as %08x prints them. */
  function Hex(n: nat, width: nat): (s: string)
    ensures |s| == width && '=' !in s
  {
    if width == 0 then "" else Hex(n / 16, width - 1) + [HexDigit(n % 16)]
  }

  const MAX_VALUE_LENGTH: nat := MAX_LINODE_TAG_LENGTH - |NODE_CLAIM_TAG_KEY| - 1
  const HASH_LENGTH: nat := 8

  /** Long names keep a prefix and end in their hash, so that the whole tag fits Linode's limit. */
  function NormalizeNodeClaimTagValue(name: string): string {
    if |name| <= MAX_VALUE_LENGTH then name
    else name[..MAX_VALUE_LENGTH - HASH_LENGTH - 1] + "-" + Hex(Fnv32a(name), HASH_LENGTH)
  }

  function NodeClaimTag(name: string): string {
    Print(NODE_CLAIM_TAG_KEY, NormalizeNodeClaimTagValue(name))
  }

  lemma NodeClaimTagFits(name: string)
    ensures |NodeClaimTag(name)| <= MAX_LINODE_TAG_LENGTH
    ensures |name| > MAX_VALUE_LENGTH ==> |NodeClaimTag(name)| == MAX_LINODE_TAG_LENGTH
    ensures NormalizeNodeClaimTagValue(name) == "" <==> name == ""
    ensures '=' !in name ==> '=' !in NormalizeNodeClaimTagValue(name)
  {}

  // ---------------------------------------------------------------- marks

  predicate IsMark(tag: string) {
    SplitTag(tag).Pair? && SplitTag(tag).key == NODE_CLAIM_TAG_KEY
  }

  /** The claims written on an instance. */
  ghost function Marks(tags: seq<string>): set<string> {
    set t | t in tags && IsMark(t) :: SplitTag(t).value
  }

  /** Both detectors read marks: the claimability gate looks for the key, verification for the exact tag. */
  lemma DetectorsReadMarks(tags: seq<string>, name: string)
    ensures NODE_CLAIM_TAG_KEY in TagMap(tags) <==> Marks(tags) != {}
    ensures name != "" ==> (NodeClaimTag(name) in tags <==> NormalizeNodeClaimTagValue(name) in Marks(tags))
    ensures NODE_CLAIM_TAG_KEY in TagMap(tags) ==> TagMap(tags)[NODE_CLAIM_TAG_KEY] in Marks(tags)
  {
    KeyMeansMarks(tags);
    if name != "" { ExactTagMeansMark(tags, name); }
  }

  /** The tag map has the claim key exactly when some tag is a mark. */
  lemma KeyMeansMarks(tags: seq<string>)
    ensures NODE_CLAIM_TAG_KEY in TagMap(tags) <==> Marks(tags) != {}
    ensures NODE_CLAIM_TAG_KEY in TagMap(tags) ==> TagMap(tags)[NODE_CLAIM_TAG_KEY] in Marks(tags)
  {
    TagMapMembers(tags);
    if NODE_CLAIM_TAG_KEY in TagMap(tags) {
      var t := Print(NODE_CLAIM_TAG_KEY, TagMap(tags)[NODE_CLAIM_TAG_KEY]);
      SplitOfPrint(NODE_CLAIM_TAG_KEY, TagMap(tags)[NODE_CLAIM_TAG_KEY]);
      assert t in tags && IsMark(t) && SplitTag(t).value in Marks(tags);
    }
    if Marks(tags) != {} {
      var v :| v in Marks(tags);
      var t :| t in tags && IsMark(t) && SplitTag(t).value == v;
    }
  }

  /** The exact claim tag is there exactly when the claim's value is among the marks. */
  lemma ExactTagMeansMark(tags: seq<string>, name: string)
    requires name != ""
    ensures NodeClaimTag(name) in tags <==> NormalizeNodeClaimTagValue(name) in Marks(tags)
  {
    var value := NormalizeNodeClaimTagValue(name);
    assert value != "" by { NodeClaimTagFits(name); }
    PairInTags(tags, NODE_CLAIM_TAG_KEY, value);
    hide NormalizeNodeClaimTagValue, SplitTag, Print;
  }

  /** A printed pair is in a list exactly when some tag of the list splits into it. */
  lemma PairInTags(tags: seq<string>, key: string, value: string)
    requires GoodKey(key) && value != ""
    ensures Print(key, value) in tags <==> exists t :: t in tags && SplitTag(t) == Pair(key, value)
  {
    SplitOfPrint(key, value);
    if t :| t in tags && SplitTag(t) == Pair(key, value) { PrintOfSplit(t); }
  }

  /** A canonical list has at most one mark, the map's. */
  lemma MarksOfSorted(v: View)
    requires WellFormed(v)
    ensures Marks(SortedSeq(Printed(v))) == if NODE_CLAIM_TAG_KEY in v.kv then {v.kv[NODE_CLAIM_TAG_KEY]} else {}
  {
    var tags := SortedSeq(Printed(v));
    ViewOfSorted(v);
    DetectorsReadMarks(tags, "");
    forall m | m in Marks(tags) ensures NODE_CLAIM_TAG_KEY in v.kv && m == v.kv[NODE_CLAIM_TAG_KEY] {
      var t :| t in tags && IsMark(t) && SplitTag(t).value == m;
      assert t in Printed(v) && t !in v.plain;
      var k :| k in v.kv && t == Print(k, v.kv[k]);
      SplitOfPrint(k, v.kv[k]);
    }
  }

  // ---------------------------------------------------------------- the tags claimInstance writes

  ghost function ClaimView(instance: seq<string>, pool: seq<string>, nodeClass: seq<string>, name: string): View {
    View(TagMap(instance) + TagMap(pool) + TagMap(nodeClass) + map[NODE_CLAIM_TAG_KEY := NormalizeNodeClaimTagValue(name)],
         OpaqueSet(instance) + OpaqueSet(nodeClass))
  }

  ghost function ClaimWrite(instance: seq<string>, pool: seq<string>, nodeClass: seq<string>, name: string): seq<string> {
    SortedSeq(Printed(ClaimView(instance, pool, nodeClass, name)))
  }

  method ClaimTags(instance: seq<string>, pool: seq<string>, nodeClass: seq<string>, name: string)
    returns (finalTags: seq<string>)
    ensures finalTags == ClaimWrite(instance, pool, nodeClass, name)
  {
    var instanceMap := TagListToMap(instance);
    var poolMap := TagListToMap(pool);
    var classMap := TagListToMap(nodeClass);
    var newTags := instanceMap + poolMap + classMap + map[NODE_CLAIM_TAG_KEY := NormalizeNodeClaimTagValue(name)];
    finalTags := MapToTagList(newTags);
    var plain := OpaqueTags(instance);
    finalTags := finalTags + plain;
    plain := OpaqueTags(nodeClass);
    finalTags := finalTags + plain;
    OpaqueListMembers(instance);
    OpaqueListMembers(nodeClass);
    PrintedNotEmpty(ClaimView(instance, pool, nodeClass, name));
    SortedDedupe(finalTags, ClaimView(instance, pool, nodeClass, name));
    finalTags := DedupeTags(finalTags);
    finalTags := Sort(finalTags);
  }

  lemma ClaimViewWellFormed(instance: seq<string>, pool: seq<string>, nodeClass: seq<string>, name: string)
    requires name != ""
    ensures WellFormed(ClaimView(instance, pool, nodeClass, name))
  {
    ViewWellFormed(instance);
    ViewWellFormed(pool);
    ViewWellFormed(nodeClass);
    NodeClaimTagFits(name);
    hide TagMap, OpaqueSet, NormalizeNodeClaimTagValue, WellFormed;
    LayersWellFormed(ViewOf(instance), ViewOf(pool), ViewOf(nodeClass), NODE_CLAIM_TAG_KEY, NormalizeNodeClaimTagValue(name));
  }

  lemma LayersWellFormed(a: View, b: View, c: View, key: string, value: string)
    requires WellFormed(a) && WellFormed(b) && WellFormed(c) && GoodKey(key) && value != ""
    ensures WellFormed(View(a.kv + b.kv + c.kv + map[key := value], a.plain + c.plain))
  {}

  /**
   The written tags carry exactly one mark, the claim's own, as both detectors see it; every opaque tag of the
   instance stays, and a key's value comes from the claim, else the NodeClass, else the pool, else the instance.
   */
  lemma ClaimWriteMeaning(instance: seq<string>, pool: seq<string>, nodeClass: seq<string>, name: string)
    requires name != ""
    ensures var tags := ClaimWrite(instance, pool, nodeClass, name);
      && Marks(tags) == {NormalizeNodeClaimTagValue(name)}
      && NodeClaimTag(name) in tags
      && NODE_CLAIM_TAG_KEY in TagMap(tags)
      && OpaqueSet(tags) == OpaqueSet(instance) + OpaqueSet(nodeClass)
      && TagMap(tags).Keys == TagMap(instance).Keys + TagMap(pool).Keys + TagMap(nodeClass).Keys + {NODE_CLAIM_TAG_KEY}
      && (forall k :: k in TagMap(tags) ==>
            TagMap(tags)[k] ==
              if k == NODE_CLAIM_TAG_KEY then NormalizeNodeClaimTagValue(name)
              else if k in TagMap(nodeClass) then TagMap(nodeClass)[k]
              else if k in TagMap(pool) then TagMap(pool)[k]
              else TagMap(instance)[k])
  {
    var v := ClaimView(instance, pool, nodeClass, name);
    ClaimViewWellFormed(instance, pool, nodeClass, name);
    ViewOfSorted(v);
    MarksOfSorted(v);
    DetectorsReadMarks(SortedSeq(Printed(v)), name);
  }

  /** The key detector sees a claim write exactly when the claim's name is not empty; the exact tag is always there. */
  lemma ClaimSeenIffNamed(instance: seq<string>, pool: seq<string>, nodeClass: seq<string>, name: string)
    ensures NODE_CLAIM_TAG_KEY in TagMap(ClaimWrite(instance, pool, nodeClass, name)) <==> name != ""
    ensures NodeClaimTag(name) in ClaimWrite(instance, pool, nodeClass, name)
  {
    ClaimTagWritten(instance, pool, nodeClass, name);
    if name != "" {
      ClaimWriteMeaning(instance, pool, nodeClass, name);
    } else {
      UnnamedUnmarked(instance, pool, nodeClass);
      KeyMeansMarks(ClaimWrite(instance, pool, nodeClass, name));
    }
    hide ClaimWrite, NodeClaimTag, Marks, TagMap;
  }

  lemma ClaimTagWritten(instance: seq<string>, pool: seq<string>, nodeClass: seq<string>, name: string)
    ensures NodeClaimTag(name) in ClaimWrite(instance, pool, nodeClass, name)
  {
    var v := ClaimView(instance, pool, nodeClass, name);
    assert v.kv[NODE_CLAIM_TAG_KEY] == NormalizeNodeClaimTagValue(name);
    hide ClaimView, NormalizeNodeClaimTagValue, Print;
    assert NodeClaimTag(name) in Printed(v);
  }

  lemma UnnamedUnmarked(instance: seq<string>, pool: seq<string>, nodeClass: seq<string>)
    ensures Marks(ClaimWrite(instance, pool, nodeClass, "")) == {}
  {
    var v := ClaimView(instance, pool, nodeClass, "");
    TagMapMembers(instance);
    TagMapMembers(pool);
    TagMapMembers(nodeClass);
    forall t | t in ClaimWrite(instance, pool, nodeClass, "") ensures !IsMark(t) {
      if t !in v.plain {
        var k :| k in v.kv && t == Print(k, v.kv[k]);
        SplitOfPrint(k, v.kv[k]);
      }
    }
  }

  // ---------------------------------------------------------------- the lookup filter

  /** The server-side filter of LookupInstanceByTag: some tag contains the text. */
  ghost predicate MatchesFilter(tags: seq<string>, text: string) {
    exists t :: t in tags && Contains(t, text)
  }

  lemma ContainsItself(text: string)
    ensures Contains(text, text)
  {
    assert text[0..0 + |text|] == text;
    assert OccursAt(text, text, 0);
  }

  /** Among tags of one key whose values have no `=`, containing is starting with the same value. */
  lemma ValuePrefix(key: string, text: string, part: string)
    requires '=' !in key && '=' !in text && '=' !in part
    ensures Contains(Print(key, text), Print(key, part)) <==> part <= text
  {
    var whole, inner := Print(key, text), Print(key, part);
    var eq := |key|;
    assert inner[eq] == '=';
    assert forall j :: 0 <= j < |whole| && whole[j] == '=' ==> j == eq by {
      forall j | 0 <= j < |whole| && j != eq ensures whole[j] != '=' {
        if j > eq {
          assert whole[j] == text[j - eq - 1];
        } else {
          assert whole[j] == key[j];
        }
      }
    }
    if Contains(whole, inner) {
      var i :| OccursAt(whole, inner, i);
      assert whole[i..i + |inner|][eq] == whole[i + eq];
      assert part == inner[eq + 1..] == whole[..|inner|][eq + 1..];
      assert whole[..|inner|][eq + 1..] == text[..|part|];
    }
    if part <= text {
      assert whole[0..0 + |inner|] == inner;
      assert OccursAt(whole, inner, 0);
    }
  }

  /**
   For names without `=`, the lookup text of one claim occurs in the tag of another exactly when its value is a
   prefix of the other's value.
   */
  lemma LookupMatchesPrefix(name: string, other: string)
    requires '=' !in name && '=' !in other
    ensures Contains(NodeClaimTag(other), NodeClaimTag(name))
      <==> NormalizeNodeClaimTagValue(name) <= NormalizeNodeClaimTagValue(other)
  {
    NodeClaimTagFits(name);
    NodeClaimTagFits(other);
    assert '=' !in NODE_CLAIM_TAG_KEY;
    hide NormalizeNodeClaimTagValue, Contains;
    ValuePrefix(NODE_CLAIM_TAG_KEY, NormalizeNodeClaimTagValue(other), NormalizeNodeClaimTagValue(name));
  }

  const CLAIM_TEXT: string := NODE_CLAIM_TAG_KEY + "="

  /** Tags of an instance nobody has claimed yet: none has the claim text in it. */
  ghost predicate Foreign(tags: seq<string>) {
    forall t :: t in tags ==> !Contains(t, CLAIM_TEXT)
  }

  lemma ContainsPart(text: string, part: string, whole: string)
    requires Contains(text, whole) && part <= whole
    ensures Contains(text, part)
  {
    var i :| OccursAt(text, whole, i);
    assert text[i..i + |part|] == text[i..i + |whole|][..|part|];
    assert OccursAt(text, part, i);
  }

  lemma MarkContainsText(t: string)
    requires IsMark(t)
    ensures Contains(t, CLAIM_TEXT)
  {
    PrintOfSplit(t);
    assert t[0..0 + |CLAIM_TEXT|] == CLAIM_TEXT;
    assert OccursAt(t, CLAIM_TEXT, 0);
  }

  /** Foreign tags are no marks, and no claim's lookup matches them. */
  lemma ForeignUnmatched(tags: seq<string>, name: string)
    requires Foreign(tags)
    ensures Marks(tags) == {} && !MatchesFilter(tags, NodeClaimTag(name))
  {
    forall t | t in tags ensures !IsMark(t) && !Contains(t, NodeClaimTag(name)) {
      if IsMark(t) { MarkContainsText(t); }
      if Contains(t, NodeClaimTag(name)) { ContainsPart(t, CLAIM_TEXT, NodeClaimTag(name)); }
    }
  }

  /** The tag has the text in it, but does not start with it. */
  ghost predicate Quotes(tag: string, text: string) {
    exists i :: i > 0 && OccursAt(tag, text, i)
  }

  ghost predicate SomeQuotes(tags: seq<string>, text: string) {
    exists t :: t in tags && Quotes(t, text)
  }

  /** A tag starts with a claim's tag exactly when it is a mark whose value starts with the claim's value. */
  lemma StartsWithMark(t: string, value: string)
    requires value != ""
    ensures OccursAt(t, Print(NODE_CLAIM_TAG_KEY, value), 0) <==> IsMark(t) && value <= SplitTag(t).value
  {
    var text := Print(NODE_CLAIM_TAG_KEY, value);
    if OccursAt(t, text, 0) {
      var rest := t[|text|..];
      assert t == t[0..0 + |text|] + rest;
      assert t == Print(NODE_CLAIM_TAG_KEY, value + rest);
      SplitOfPrint(NODE_CLAIM_TAG_KEY, value + rest);
    }
    if IsMark(t) && value <= SplitTag(t).value {
      PrintOfSplit(t);
      assert t[0..0 + |text|] == text;
    }
  }

  /**
   The lookup for a claim matches a list of tags exactly when some mark's value starts with the claim's value, or
   some tag quotes the claim's tag.
   */
  lemma LookupMatchesExactly(tags: seq<string>, name: string)
    requires name != ""
    ensures MatchesFilter(tags, NodeClaimTag(name)) <==>
      || (exists v :: v in Marks(tags) && NormalizeNodeClaimTagValue(name) <= v)
      || SomeQuotes(tags, NodeClaimTag(name))
  {
    var value := NormalizeNodeClaimTagValue(name);
    assert value != "" by { NodeClaimTagFits(name); }
    hide NormalizeNodeClaimTagValue, IsMark, OccursAt;
    forall t | t in tags
      ensures Contains(t, NodeClaimTag(name)) <==> (IsMark(t) && value <= SplitTag(t).value) || Quotes(t, NodeClaimTag(name))
    {
      StartsWithMark(t, value);
      OccursSomewhere(t, NodeClaimTag(name));
    }
    if v :| v in Marks(tags) && value <= v {
      var t :| t in tags && IsMark(t) && SplitTag(t).value == v;
    }
    if t :| t in tags && IsMark(t) && value <= SplitTag(t).value {
      assert SplitTag(t).value in Marks(tags);
    }
  }

  lemma OccursSomewhere(tag: string, text: string)
    ensures Contains(tag, text) <==> OccursAt(tag, text, 0) || Quotes(tag, text)
  {
    if i :| OccursAt(tag, text, i) && i != 0 {
      assert i > 0;
    }
  }

  /**
   A class tag that quotes one claim's tag passes validation; written on another claim's instance it makes the first
   claim's lookup match there, though the instance carries the other mark alone.
   */
  lemma QuotingTagMatches(instance: seq<string>, pool: seq<string>, key: string, quoted: string, holder: string)
    requires GoodKey(key) && key !in RESTRICTED_TAG_KEYS && quoted != "" && holder != ""
    ensures var tag := Print(key, NodeClaimTag(quoted));
      var tags := ClaimWrite(instance, pool, [tag], holder);
      && ValidTags([tag])
      && Marks(tags) == {NormalizeNodeClaimTagValue(holder)}
      && MatchesFilter(tags, NodeClaimTag(quoted)) && SomeQuotes(tags, NodeClaimTag(quoted))
  {
    var text := NodeClaimTag(quoted);
    var tag := Print(key, text);
    assert text != "";
    hide NodeClaimTag, NormalizeNodeClaimTagValue, ClaimWrite;
    OnePairMap(key, text);
    ValidTagsMeaning([tag]);
    ClaimWriteMeaning(instance, pool, [tag], holder);
    ClassTagWritten(instance, pool, key, text, holder);
    assert Quotes(tag, text) && Contains(tag, text) by { ValueIsQuoted(key, text); }
  }

  lemma OnePairMap(key: string, value: string)
    requires GoodKey(key) && value != ""
    ensures TagMap([Print(key, value)]) == map[key := value]
  {
    SplitOfPrint(key, value);
    var tags := [Print(key, value)];
    assert tags[..|tags| - 1] == [];
  }

  lemma ClassTagWritten(instance: seq<string>, pool: seq<string>, key: string, value: string, name: string)
    requires GoodKey(key) && key != NODE_CLAIM_TAG_KEY && value != ""
    ensures Print(key, value) in ClaimWrite(instance, pool, [Print(key, value)], name)
  {
    OnePairMap(key, value);
    var v := ClaimView(instance, pool, [Print(key, value)], name);
    assert key in v.kv && v.kv[key] == value;
    hide ClaimView, NormalizeNodeClaimTagValue, TagMap;
    assert Print(key, value) in Printed(v);
  }

  lemma ValueIsQuoted(key: string, text: string)
    ensures Quotes(Print(key, text), text) && Contains(Print(key, text), text)
  {
    var tag := Print(key, text);
    assert tag[|key| + 1..|key| + 1 + |text|] == text;
    assert OccursAt(tag, text, |key| + 1);
  }

  /** Nothing is invented: every written tag is the claim's or was on one of the lists. */
  lemma ClaimWriteSources(instance: seq<string>, pool: seq<string>, nodeClass: seq<string>, name: string)
    ensures forall t :: t in ClaimWrite(instance, pool, nodeClass, name) ==>
      t == NodeClaimTag(name) || t in instance || t in pool || t in nodeClass
  {
    var v := ClaimView(instance, pool, nodeClass, name);
    TagMapMembers(instance);
    TagMapMembers(pool);
    TagMapMembers(nodeClass);
    forall t | t in Printed(v) && t !in v.plain ensures t == NodeClaimTag(name) || t in instance || t in pool || t in nodeClass {
      var k :| k in v.kv && t == Print(k, v.kv[k]);
    }
  }

  // ---------------------------------------------------------------- the Enterprise filter

  function Decimal(n: nat): (s: string)
    ensures '=' !in s && s != ""
  {
    if n < 10 then [HexDigit(n)] else Decimal(n / 10) + [HexDigit(n % 10)]
  }

  /** The tag Linode puts on the instances of an Enterprise pool. */
  function PoolTag(id: nat): string {
    Print("nodepool", Decimal(id))
  }

  /** The filter for one pool's tag matches another's exactly when its decimal ID begins the other's. */
  lemma PoolFilterMatchesPrefix(id: nat, other: nat)
    ensures Contains(PoolTag(other), PoolTag(id)) <==> Decimal(id) <= Decimal(other)
  {
    ValuePrefix("nodepool", Decimal(other), Decimal(id));
  }

  /** The filter for pool 12 also matches the instances of pool 123. */
  lemma PoolFilterMatchesAnother()
    ensures Contains(PoolTag(123), PoolTag(12))
  {
    assert Decimal(123) == Decimal(12) + [HexDigit(3)];
    PoolFilterMatchesPrefix(12, 123);
  }

  // ---------------------------------------------------------------- the labels of a pool

  /** GetTagsForLKE. */
  function PoolTagMap(clusterName: string, nodePool: string, nodeClass: string): map<string, string> {
    map["kubernetes.io/cluster/" + clusterName := "owned",
        NODE_POOL_LABEL_KEY := nodePool,
        LKE_CLUSTER_NAME_TAG_KEY := clusterName,
        LABEL_NODE_CLASS := nodeClass,
        LABEL_LKE_MANAGED := "true"]
  }

  /** The NodePool a Karpenter-managed pool belongs to; an unmanaged pool has none. */
  function NodePoolOf(tags: seq<string>): Option<string> {
    var m := TagMap(tags);
    if NODE_POOL_LABEL_KEY in m && LABEL_LKE_MANAGED in m then Some(m[NODE_POOL_LABEL_KEY]) else None
  }

  /** No other entry prints as a NodePool label: its key differs within the label's length. */
  lemma OnlyLabelPrintsLabel(key: string, value: string, labelled: string)
    requires Print(key, value) == Print(NODE_POOL_LABEL_KEY, labelled)
    requires key == NODE_POOL_LABEL_KEY || key == LKE_CLUSTER_NAME_TAG_KEY || key == LABEL_NODE_CLASS || key == LABEL_LKE_MANAGED
          || "kubernetes.io/cluster/" <= key
    ensures key == NODE_POOL_LABEL_KEY && value == labelled
  {
    var t := Print(key, value);
    assert t[0] == NODE_POOL_LABEL_KEY[0] && t[1] == NODE_POOL_LABEL_KEY[1] && t[10] == NODE_POOL_LABEL_KEY[10];
    assert t[0] == key[0] && t[1] == key[1] && t[10] == key[10];
    assert key == NODE_POOL_LABEL_KEY;
    assert value == t[|key| + 1..];
  }

  lemma PoolTagEntries(clusterName: string, nodePool: string, nodeClass: string)
    ensures var m := PoolTagMap(clusterName, nodePool, nodeClass);
      && NODE_POOL_LABEL_KEY in m && m[NODE_POOL_LABEL_KEY] == nodePool
      && LABEL_LKE_MANAGED in m && m[LABEL_LKE_MANAGED] == "true"
      && LABEL_NODE_CLASS in m && m[LABEL_NODE_CLASS] == nodeClass
      && LKE_CLUSTER_NAME_TAG_KEY in m && m[LKE_CLUSTER_NAME_TAG_KEY] == clusterName
      && "kubernetes.io/cluster/" + clusterName in m && m["kubernetes.io/cluster/" + clusterName] == "owned"
    ensures forall k :: k in PoolTagMap(clusterName, nodePool, nodeClass) ==>
      k == NODE_POOL_LABEL_KEY || k == LKE_CLUSTER_NAME_TAG_KEY || k == LABEL_NODE_CLASS || k == LABEL_LKE_MANAGED
      || k == "kubernetes.io/cluster/" + clusterName
  {
    var cluster := "kubernetes.io/cluster/" + clusterName;
    assert cluster[1] == 'u' && NODE_POOL_LABEL_KEY[1] == 'a' && LKE_CLUSTER_NAME_TAG_KEY[1] == 'k';
    assert LABEL_NODE_CLASS[1] == 'a' && LABEL_LKE_MANAGED[1] == 'a';
    assert |NODE_POOL_LABEL_KEY| == 21 && |LKE_CLUSTER_NAME_TAG_KEY| == 16 && |LABEL_NODE_CLASS| == 36 && |LABEL_LKE_MANAGED| == 32;
  }

  lemma EntryIsRead(tags: seq<string>, m: map<string, string>, key: string)
    requires forall t :: t in tags <==> t in PrintedPairs(m)
    requires key in m && GoodKey(key) && m[key] != ""
    ensures key in TagMap(tags)
  {
    TagMapMembers(tags);
    SplitOfPrint(key, m[key]);
    assert Print(key, m[key]) in tags;
  }

  lemma OnlyEntryIsRead(tags: seq<string>, m: map<string, string>, key: string)
    requires forall t :: t in tags <==> t in PrintedPairs(m)
    requires key in TagMap(tags)
    requires forall k, value :: k in m && Print(k, m[k]) == Print(key, value) ==> k == key && value == m[k]
    ensures key in m && TagMap(tags)[key] == m[key] != ""
  {
    TagMapMembers(tags);
    var value := TagMap(tags)[key];
    assert Print(key, value) in PrintedPairs(m);
    var k :| k in m && Print(key, value) == Print(k, m[k]);
  }

  /** The NodePool label reads back from the tags a pool is created with, in any order, exactly when it is not empty. */
  lemma CreatedPoolReadsBack(tags: seq<string>, clusterName: string, nodePool: string, nodeClass: string)
    requires forall t :: t in tags <==> t in PrintedPairs(PoolTagMap(clusterName, nodePool, nodeClass))
    ensures NodePoolOf(tags) == if nodePool != "" then Some(nodePool) else None
  {
    var m := PoolTagMap(clusterName, nodePool, nodeClass);
    PoolTagEntries(clusterName, nodePool, nodeClass);
    EntryIsRead(tags, m, LABEL_LKE_MANAGED);
    forall k, value | k in m && Print(k, m[k]) == Print(NODE_POOL_LABEL_KEY, value)
      ensures k == NODE_POOL_LABEL_KEY && value == m[k]
    {
      OnlyLabelPrintsLabel(k, m[k], value);
    }
    if nodePool != "" {
      EntryIsRead(tags, m, NODE_POOL_LABEL_KEY);
    }
    if NODE_POOL_LABEL_KEY in TagMap(tags) {
      OnlyEntryIsRead(tags, m, NODE_POOL_LABEL_KEY);
    }
  }

  /** A printed pair whose key has no `=` is printed by that pair alone, or by one whose key begins with it and an `=`. */
  lemma SamePrint(key: string, value: string, other: string, otherValue: string)
    requires '=' !in key && Print(key, value) == Print(other, otherValue)
    ensures (other == key && otherValue == value) || key + "=" <= other
  {
    var t := Print(key, value);
    assert t[..|key|] == key && t[|key|] == '=' && t[|key| + 1..] == value;
    assert t[..|other|] == other && t[|other|] == '=' && t[|other| + 1..] == otherValue;
    assert forall j :: 0 <= j < |key| ==> t[j] == key[j];
    assert forall j :: 0 <= j < |key| ==> key[j] != '=';
    assert |other| >= |key|;
    if |other| > |key| {
      assert other[..|key| + 1] == t[..|key| + 1] == key + "=";
    } else {
      assert other == key;
    }
  }

  /**
   Read back from the tags a pool is created with, in any order, the cluster's and the NodeClass's name are the ones
   given, and the pool is marked as managed and as the cluster's.
   */
  lemma CreatedPoolIdentity(tags: seq<string>, clusterName: string, nodePool: string, nodeClass: string)
    requires forall t :: t in tags <==> t in PrintedPairs(PoolTagMap(clusterName, nodePool, nodeClass))
    ensures clusterName != "" ==> "lke-cluster-name" in TagMap(tags) && TagMap(tags)["lke-cluster-name"] == clusterName
    ensures nodeClass != "" ==>
      "karpenter.k8s.linode/linodenodeclass" in TagMap(tags) && TagMap(tags)["karpenter.k8s.linode/linodenodeclass"] == nodeClass
    ensures "karpenter.k8s.linode/lke-managed" in TagMap(tags) && TagMap(tags)["karpenter.k8s.linode/lke-managed"] == "true"
    ensures "kubernetes.io/cluster/" + clusterName + "=owned" in tags
  {
    var m := PoolTagMap(clusterName, nodePool, nodeClass);
    PoolTagEntries(clusterName, nodePool, nodeClass);
    if clusterName != "" { FixedEntryIsRead(tags, clusterName, nodePool, nodeClass, LKE_CLUSTER_NAME_TAG_KEY); }
    if nodeClass != "" { FixedEntryIsRead(tags, clusterName, nodePool, nodeClass, LABEL_NODE_CLASS); }
    FixedEntryIsRead(tags, clusterName, nodePool, nodeClass, LABEL_LKE_MANAGED);
    assert Print("kubernetes.io/cluster/" + clusterName, "owned") in PrintedPairs(m);
    assert Print("kubernetes.io/cluster/" + clusterName, "owned") == "kubernetes.io/cluster/" + clusterName + "=owned";
  }

  lemma FixedEntryIsRead(tags: seq<string>, clusterName: string, nodePool: string, nodeClass: string, key: string)
    requires forall t :: t in tags <==> t in PrintedPairs(PoolTagMap(clusterName, nodePool, nodeClass))
    requires key == LKE_CLUSTER_NAME_TAG_KEY || key == LABEL_NODE_CLASS || key == LABEL_LKE_MANAGED
    requires key in PoolTagMap(clusterName, nodePool, nodeClass) && PoolTagMap(clusterName, nodePool, nodeClass)[key] != ""
    ensures key in TagMap(tags) && TagMap(tags)[key] == PoolTagMap(clusterName, nodePool, nodeClass)[key]
  {
    var m := PoolTagMap(clusterName, nodePool, nodeClass);
    PoolTagEntries(clusterName, nodePool, nodeClass);
    hide PoolTagMap, TagMap, PrintedPairs;
    EntryIsRead(tags, m, key);
    forall k, value | k in m && Print(k, m[k]) == Print(key, value) ensures k == key && value == m[k] {
      SamePrint(key, value, k, m[k]);
      NoKeyExtends(k, clusterName, key);
    }
    OnlyEntryIsRead(tags, m, key);
  }

  /** No key of a created pool's tags begins with another and an `=`. */
  lemma NoKeyExtends(k: string, clusterName: string, key: string)
    requires key == LKE_CLUSTER_NAME_TAG_KEY || key == LABEL_NODE_CLASS || key == LABEL_LKE_MANAGED
    requires k == NODE_POOL_LABEL_KEY || k == LKE_CLUSTER_NAME_TAG_KEY || k == LABEL_NODE_CLASS || k == LABEL_LKE_MANAGED
          || k == "kubernetes.io/cluster/" + clusterName
    ensures !(key + "=" <= k)
  {
    if k == "kubernetes.io/cluster/" + clusterName {
      assert k[0] == 'k' && k[1] == 'u';
      assert key[0] != 'k' || key[1] != 'u';
      assert (key + "=")[0] == key[0] && (key + "=")[1] == key[1];
    } else {
      assert '=' !in k && '=' in key + "=";
      assert (key + "=")[|key|] == '=';
    }
  }

  /**
   A pool is managed exactly when some tag gives it a NodePool and some tag the managed label, whatever its value; the
   NodePool is then one that a tag gives.
   */
  lemma ManagedExactly(tags: seq<string>)
    ensures NodePoolOf(tags).Some? <==>
      && (exists v :: v != "" && Print("karpenter.sh/nodepool", v) in tags)
      && (exists v :: v != "" && Print("karpenter.k8s.linode/lke-managed", v) in tags)
    ensures NodePoolOf(tags).Some? ==> Print("karpenter.sh/nodepool", NodePoolOf(tags).value) in tags
  {
    KeyIsGiven(tags, NODE_POOL_LABEL_KEY);
    KeyIsGiven(tags, LABEL_LKE_MANAGED);
    hide TagMap, Print;
  }

  lemma KeyIsGiven(tags: seq<string>, key: string)
    requires GoodKey(key)
    ensures key in TagMap(tags) <==> exists v :: v != "" && Print(key, v) in tags
    ensures key in TagMap(tags) ==> Print(key, TagMap(tags)[key]) in tags
  {
    TagMapMembers(tags);
    if v :| v != "" && Print(key, v) in tags { SplitOfPrint(key, v); }
  }
}
