/**
 The in-place tag update of pkg/controllers/nodeclass/inplaceupdate: a three-way merge of an instance's tags, the
 user tags applied last and the user tags desired now, and what it leaves over any history of attempts.
 */
module InPlaceTags {
  import opened ClaimMarks
  import opened Options
  import opened Tags
  import opened TagText

  // ---------------------------------------------------------------- the merge

  /** Drop what was owned, then overlay what is desired. */
  ghost function Overlay(existing: View, ownedKeys: set<string>, ownedPlain: set<string>, desired: View): View {
    View((existing.kv - ownedKeys) + desired.kv, (existing.plain - ownedPlain) + desired.plain)
  }

  ghost function MergeView(existing: View, previous: View, desired: View): View {
    Overlay(existing, previous.kv.Keys, previous.plain, desired)
  }

  ghost function MergedTags(existing: seq<string>, previous: seq<string>, desired: seq<string>): seq<string> {
    SortedSeq(Printed(MergeView(ViewOf(existing), ViewOf(previous), ViewOf(desired))))
  }

  lemma MergeWellFormed(existing: seq<string>, previous: seq<string>, desired: seq<string>)
    ensures WellFormed(MergeView(ViewOf(existing), ViewOf(previous), ViewOf(desired)))
    ensures ViewOf(MergedTags(existing, previous, desired))
         == MergeView(ViewOf(existing), ViewOf(previous), ViewOf(desired))
  {
    ViewWellFormed(existing);
    ViewWellFormed(desired);
    ViewOfSorted(MergeView(ViewOf(existing), ViewOf(previous), ViewOf(desired)));
  }

  /** Listing the merged pairs, then the opaque tags that stay and the desired ones, lists the merged view. */
  lemma MergedListing(existing: seq<string>, previous: seq<string>, desired: seq<string>,
                      pairs: seq<string>, plain: seq<string>)
    requires var v := MergeView(ViewOf(existing), ViewOf(previous), ViewOf(desired));
      && (forall t :: t in pairs <==> t in PrintedPairs(v.kv))
      && (forall t :: t in plain && t != "" <==> t in v.plain)
    ensures ViewOf(Dedupe(pairs + plain)) == MergeView(ViewOf(existing), ViewOf(previous), ViewOf(desired))
    ensures NoDuplicates(Dedupe(pairs + plain)) && "" !in Dedupe(pairs + plain)
  {
    var v := MergeView(ViewOf(existing), ViewOf(previous), ViewOf(desired));
    MergeWellFormed(existing, previous, desired);
    PrintedNotEmpty(v);
    DedupeMembers(pairs + plain);
    ViewOfPrinted(Dedupe(pairs + plain), v);
  }

  /** The loop that deletes the previously applied keys, in any order. */
  method DeleteKeys(m: map<string, string>, keys: set<string>) returns (r: map<string, string>)
    ensures r == m - keys
  {
    r := m;
    var left := keys;
    while left != {}
      invariant left <= keys
      invariant r == m - (keys - left)
      decreases |left|
    {
      var key :| key in left;
      r := r - {key};
      left := left - {key};
    }
  }

  /** The loops that collect the previously applied opaque tags and keep the other existing ones. */
  method KeepOthers(existing: seq<string>, previous: seq<string>) returns (kept: seq<string>)
    ensures forall t :: t in kept <==> t in existing && t !in previous
  {
    var previousSet: set<string> := {};
    for i := 0 to |previous|
      invariant forall t :: t in previousSet <==> t in previous[..i]
    {
      previousSet := previousSet + {previous[i]};
    }
    kept := [];
    for i := 0 to |existing|
      invariant forall t :: t in kept <==> t in existing[..i] && t !in previousSet
    {
      if existing[i] !in previousSet {
        kept := kept + [existing[i]];
      }
    }
    assert previous[..|previous|] == previous && existing[..|existing|] == existing;
  }

  method DesiredUserTagsForInstance(existing: seq<string>, previous: seq<string>, desired: seq<string>)
    returns (finalTags: seq<string>)
    ensures ViewOf(finalTags) == MergeView(ViewOf(existing), ViewOf(previous), ViewOf(desired))
    ensures NoDuplicates(finalTags) && "" !in finalTags
  {
    var existingMap := TagListToMap(existing);
    var previousMap := TagListToMap(previous);
    var desiredMap := TagListToMap(desired);

    var finalMap := DeleteKeys(existingMap, previousMap.Keys);
    finalMap := finalMap + desiredMap;

    var previousPlain := OpaqueTags(previous);
    var existingPlain := OpaqueTags(existing);
    var finalPlain := KeepOthers(existingPlain, previousPlain);
    var desiredPlain := OpaqueTags(desired);
    finalPlain := finalPlain + desiredPlain;

    var pairs := MapToTagList(finalMap);
    finalTags := DedupeTags(pairs + finalPlain);

    OpaqueListMembers(existing);
    OpaqueListMembers(previous);
    OpaqueListMembers(desired);
    MergedListing(existing, previous, desired, pairs, finalPlain);
  }

  // ---------------------------------------------------------------- one reconcile of one NodeClaim

  datatype Reply = Applied | Refused | AppliedButLost

  /** The desired user tags of one reconcile and how each of its API calls ends. */
  datatype Attempt = Attempt(desired: seq<string>, readOk: bool, write: Reply, patch: Reply)

  /** The instance's tags and the list recorded in the last-applied annotation, if it is there and readable. */
  datatype Tagged = Tagged(tags: seq<string>, applied: Option<seq<string>>)

  function Previous(applied: Option<seq<string>>): seq<string> {
    match applied
    case None => []
    case Some(tags) => tags
  }

  ghost function Target(st: Tagged, desired: seq<string>): seq<string> {
    MergedTags(st.tags, Previous(st.applied), desired)
  }

  ghost function Record(st: Tagged, desired: seq<string>, patch: Reply): Tagged {
    if patch.Refused? then st else st.(applied := Some(Normalize(desired)))
  }

  ghost function Reconcile(st: Tagged, a: Attempt): Tagged {
    if !a.readOk then st
    else if Normalize(st.tags) == Target(st, a.desired) then Record(st, a.desired, a.patch)
    else match a.write
      case Refused => st
      case AppliedButLost => st.(tags := Target(st, a.desired))
      case Applied => Record(st.(tags := Target(st, a.desired)), a.desired, a.patch)
  }

  class NodeClaimTags {
    var tags: seq<string>
    var applied: Option<seq<string>>

    constructor (tags: seq<string>, applied: Option<seq<string>>)
      ensures this.tags == tags && this.applied == applied
    {
      this.tags, this.applied := tags, applied;
    }

    /** updateNodeClaimTags: the write is skipped when nothing changes, the record when it is up to date. */
    method UpdateNodeClaimTags(a: Attempt) returns (ok: bool)
      modifies this
      ensures Tagged(tags, applied) == Reconcile(old(Tagged(tags, applied)), a)
      ensures ok <==>
        && a.readOk
        && (a.write.Applied? || old(ViewOf(tags)) == MergeView(old(ViewOf(tags)), old(ViewOf(Previous(applied))), ViewOf(a.desired)))
        && (a.patch.Applied? || old(applied) == Some(Normalize(a.desired)))
      ensures ok ==> ViewOf(tags) == MergeView(old(ViewOf(tags)), old(ViewOf(Previous(applied))), ViewOf(a.desired))
      ensures ok ==> applied == Some(Normalize(a.desired))
    {
      TargetView(Tagged(tags, applied), a.desired);
      if !a.readOk {
        return false;
      }
      var previous := match applied case None => [] case Some(list) => list;
      var merged := DesiredUserTagsForInstance(tags, previous, a.desired);
      var finalTags := NormalizeTagList(merged);
      var currentTags := NormalizeTagList(tags);
      MergeWellFormed(tags, previous, a.desired);
      if currentTags == finalTags {
        NormalizeCanonical(tags, merged);
      } else {
        if a.write.Refused? {
          return false;
        }
        tags := finalTags;
        if a.write.AppliedButLost? {
          return false;
        }
      }
      var lastApplied := NormalizeTagList(a.desired);
      if applied == Some(lastApplied) {
        return true;
      }
      if !a.patch.Refused? {
        applied := Some(lastApplied);
      }
      return a.patch.Applied?;
    }
  }

  // ---------------------------------------------------------------- what a reconcile means

  lemma TargetView(st: Tagged, desired: seq<string>)
    ensures ViewOf(Target(st, desired)) == MergeView(ViewOf(st.tags), ViewOf(Previous(st.applied)), ViewOf(desired))
    ensures Normalize(st.tags) == Target(st, desired) <==>
      ViewOf(st.tags) == MergeView(ViewOf(st.tags), ViewOf(Previous(st.applied)), ViewOf(desired))
  {
    MergeWellFormed(st.tags, Previous(st.applied), desired);
    NormalizeKeepsView(st.tags);
  }

  /** Every reconcile leaves the instance's meaning as it was or as the merge says, and records only after the merge. */
  lemma ReconcileView(st: Tagged, a: Attempt)
    ensures var merged := MergeView(ViewOf(st.tags), ViewOf(Previous(st.applied)), ViewOf(a.desired));
      var st' := Reconcile(st, a);
      || (ViewOf(st'.tags) == ViewOf(st.tags) && st'.applied == st.applied)
      || (ViewOf(st'.tags) == merged && (st'.applied == st.applied || st'.applied == Some(Normalize(a.desired))))
    ensures a.readOk && a.write.Applied? && a.patch.Applied? ==>
      && ViewOf(Reconcile(st, a).tags) == MergeView(ViewOf(st.tags), ViewOf(Previous(st.applied)), ViewOf(a.desired))
      && Reconcile(st, a).applied == Some(Normalize(a.desired))
  {
    TargetView(st, a.desired);
  }

  /**
   The whole table of one reconcile: a refused or unneeded write leaves the tags exactly as they were, any other one
   leaves the canonical list of the merge; the record is written exactly when the merge is known to be there and the
   patch is not refused.
   */
  lemma ReconcileExactly(st: Tagged, a: Attempt)
    ensures var merged := MergeView(ViewOf(st.tags), ViewOf(Previous(st.applied)), ViewOf(a.desired));
      var st' := Reconcile(st, a);
      var needed := ViewOf(st.tags) != merged;
      && (st'.tags != st.tags ==> a.readOk && needed && !a.write.Refused?)
      && (a.readOk && needed && !a.write.Refused? ==> Ascending(st'.tags) && ViewOf(st'.tags) == merged)
      && st'.applied == if a.readOk && (a.write.Applied? || !needed) && !a.patch.Refused? then Some(Normalize(a.desired))
                        else st.applied
  {
    TargetView(st, a.desired);
  }

  function Success(desired: seq<string>): Attempt {
    Attempt(desired, true, Applied, Applied)
  }

  ghost function Run(st: Tagged, attempts: seq<Attempt>): Tagged {
    if attempts == [] then st
    else Reconcile(Run(st, attempts[..|attempts| - 1]), attempts[|attempts| - 1])
  }

  /** The state after reconciling each user list in turn, every call succeeding. */
  ghost function RunAll(st: Tagged, lists: seq<seq<string>>): Tagged {
    if lists == [] then st
    else Reconcile(RunAll(st, lists[..|lists| - 1]), Success(lists[|lists| - 1]))
  }

  ghost function OwnedKeys(lists: seq<seq<string>>): set<string> {
    if lists == [] then {} else OwnedKeys(lists[..|lists| - 1]) + TagMap(lists[|lists| - 1]).Keys
  }

  ghost function OwnedPlain(lists: seq<seq<string>>): set<string> {
    if lists == [] then {} else OwnedPlain(lists[..|lists| - 1]) + OpaqueSet(lists[|lists| - 1])
  }

  /** The original tags without everything an earlier list owned, overlaid with the last list. */
  ghost predicate Collapsed(st: Tagged, lists: seq<seq<string>>, end: Tagged)
    requires lists != []
  {
    var earlier := [Previous(st.applied)] + lists[..|lists| - 1];
    var last := lists[|lists| - 1];
    && ViewOf(end.tags) == Overlay(ViewOf(st.tags), OwnedKeys(earlier), OwnedPlain(earlier), ViewOf(last))
    && end.applied == Some(Normalize(last))
  }

  /** Closed form of any history of successful reconciles. */
  lemma {:induction false} HistoryCollapses(st: Tagged, lists: seq<seq<string>>)
    requires lists != []
    ensures Collapsed(st, lists, RunAll(st, lists))
  {
    var front, last := lists[..|lists| - 1], lists[|lists| - 1];
    assert lists == front + [last];
    if front == [] {
      OwnedByOne(Previous(st.applied));
      ReconcileView(st, Success(last));
      assert [Previous(st.applied)] + front == [Previous(st.applied)];
    } else {
      HistoryCollapses(st, front);
      HistoryGrows(st, front, last, RunAll(st, front));
    }
  }

  lemma HistoryGrows(st: Tagged, front: seq<seq<string>>, last: seq<string>, before: Tagged)
    requires front != [] && Collapsed(st, front, before)
    ensures Collapsed(st, front + [last], Reconcile(before, Success(last)))
  {
    var prior := [Previous(st.applied)] + front[..|front| - 1];
    var recorded := front[|front| - 1];
    assert [Previous(st.applied)] + (front + [last])[..|front|] == prior + [recorded];
    OwnedByMore(prior, recorded);
    HistoryStep(before, ViewOf(st.tags), OwnedKeys(prior), OwnedPlain(prior), recorded, last);
  }

  lemma HistoryStep(before: Tagged, e: View, keys: set<string>, plain: set<string>,
                    recorded: seq<string>, last: seq<string>)
    requires ViewOf(before.tags) == Overlay(e, keys, plain, ViewOf(recorded))
    requires before.applied == Some(Normalize(recorded))
    ensures ViewOf(Reconcile(before, Success(last)).tags)
         == Overlay(e, keys + ViewOf(recorded).kv.Keys, plain + ViewOf(recorded).plain, ViewOf(last))
    ensures Reconcile(before, Success(last)).applied == Some(Normalize(last))
  {
    ReconcileView(before, Success(last));
    NormalizeKeepsView(recorded);
    OverlayTwice(e, keys, plain, ViewOf(recorded), ViewOf(last));
  }

  lemma OwnedByOne(list: seq<string>)
    ensures OwnedKeys([list]) == ViewOf(list).kv.Keys && OwnedPlain([list]) == ViewOf(list).plain
  {
    assert [list][..0] == [];
  }

  lemma OwnedByMore(lists: seq<seq<string>>, list: seq<string>)
    ensures OwnedKeys(lists + [list]) == OwnedKeys(lists) + ViewOf(list).kv.Keys
    ensures OwnedPlain(lists + [list]) == OwnedPlain(lists) + ViewOf(list).plain
  {
    assert (lists + [list])[..|lists|] == lists;
  }

  lemma OverlayTwice(e: View, keys: set<string>, plain: set<string>, first: View, second: View)
    ensures MergeView(Overlay(e, keys, plain, first), first, second)
         == Overlay(e, keys + first.kv.Keys, plain + first.plain, second)
  {
    assert MergeView(Overlay(e, keys, plain, first), first, second).kv
        == Overlay(e, keys + first.kv.Keys, plain + first.plain, second).kv;
  }

  /**
   Foreign tags survive a history, leaving the originals overlaid with the last list, exactly when every original
   key or opaque tag that some earlier list also named is named by the last list.
   */
  lemma ForeignKeptExactly(st: Tagged, lists: seq<seq<string>>)
    requires lists != []
    ensures var earlier := [Previous(st.applied)] + lists[..|lists| - 1];
      var last := lists[|lists| - 1];
      ViewOf(RunAll(st, lists).tags) == Overlay(ViewOf(st.tags), {}, {}, ViewOf(last))
      <==> && TagMap(st.tags).Keys * OwnedKeys(earlier) <= TagMap(last).Keys
           && OpaqueSet(st.tags) * OwnedPlain(earlier) <= OpaqueSet(last)
  {
    var earlier := [Previous(st.applied)] + lists[..|lists| - 1];
    HistoryCollapses(st, lists);
    OverlayKeepsExactly(ViewOf(st.tags), OwnedKeys(earlier), OwnedPlain(earlier), ViewOf(lists[|lists| - 1]));
  }

  lemma OverlayKeepsExactly(e: View, keys: set<string>, plain: set<string>, d: View)
    ensures Overlay(e, keys, plain, d) == Overlay(e, {}, {}, d)
      <==> e.kv.Keys * keys <= d.kv.Keys && e.plain * plain <= d.plain
  {
    var left, right := (e.kv - keys) + d.kv, (e.kv - {}) + d.kv;
    if e.kv.Keys * keys <= d.kv.Keys {
      assert left == right;
    }
    if left == right {
      forall k | k in e.kv.Keys * keys ensures k in d.kv.Keys {
        assert k in right;
      }
    }
    assert (e.plain - plain) + d.plain == (e.plain - {}) + d.plain <==> e.plain * plain <= d.plain by {
      if (e.plain - plain) + d.plain == (e.plain - {}) + d.plain {
        forall t | t in e.plain * plain ensures t in d.plain {
          assert t in (e.plain - {}) + d.plain;
        }
      }
    }
  }

  /** An interrupted reconcile run again with the same list, any number of times, ends where one success ends. */
  lemma {:induction false} RetriesConverge(st: Tagged, desired: seq<string>, attempts: seq<Attempt>)
    requires forall a :: a in attempts ==> a.desired == desired
    ensures var merged := MergeView(ViewOf(st.tags), ViewOf(Previous(st.applied)), ViewOf(desired));
      var end := Run(st, attempts);
      && (|| (ViewOf(end.tags) == ViewOf(st.tags) && end.applied == st.applied)
          || (ViewOf(end.tags) == merged && (end.applied == st.applied || end.applied == Some(Normalize(desired)))))
      && (Success(desired) in attempts ==> ViewOf(end.tags) == merged && end.applied == Some(Normalize(desired)))
  {
    if attempts != [] {
      var front, last := attempts[..|attempts| - 1], attempts[|attempts| - 1];
      assert attempts == front + [last];
      var mid := Run(st, front);
      RetriesConverge(st, desired, front);
      ReconcileView(mid, last);
      NormalizeKeepsView(desired);
      MergeAgain(ViewOf(st.tags), ViewOf(Previous(st.applied)), ViewOf(desired));
    }
  }

  lemma MergeAgain(e: View, p: View, d: View)
    ensures MergeView(MergeView(e, p, d), p, d) == MergeView(e, p, d)
    ensures MergeView(MergeView(e, p, d), d, d) == MergeView(e, p, d)
  {
    assert MergeView(MergeView(e, p, d), p, d).kv == MergeView(e, p, d).kv;
    assert MergeView(MergeView(e, p, d), d, d).kv == MergeView(e, p, d).kv;
  }

  /**
   When the list changes between the crash and the next run, the tags of the crashed run stay behind as if they
   were foreign. The next run ends as if the crash had not happened exactly when every tag of the crashed list
   that neither the record nor the new list names was on the instance already, with that value.
   */
  lemma CrashThenChangeExactly(st: Tagged, crashed: seq<string>, desired: seq<string>)
    ensures var interrupted := st.(tags := Target(st, crashed));
      var d, p, e := ViewOf(crashed), ViewOf(Previous(st.applied)), ViewOf(st.tags);
      ViewOf(Target(interrupted, desired)) == ViewOf(Target(st, desired))
      <==> && (forall k :: k in d.kv && k !in p.kv && k !in TagMap(desired) ==> k in e.kv && e.kv[k] == d.kv[k])
           && d.plain - p.plain - OpaqueSet(desired) <= e.plain
  {
    TargetView(st, crashed);
    TargetView(st, desired);
    TargetView(st.(tags := Target(st, crashed)), desired);
    LeftoverPairs(TagMap(st.tags), TagMap(Previous(st.applied)).Keys, TagMap(crashed), TagMap(desired));
    LeftoverPlain(OpaqueSet(st.tags), OpaqueSet(Previous(st.applied)), OpaqueSet(crashed), OpaqueSet(desired));
  }

  lemma LeftoverPairs(e: map<string, string>, p: set<string>, d: map<string, string>, n: map<string, string>)
    ensures (((e - p) + d) - p) + n == (e - p) + n
      <==> forall k :: k in d && k !in p && k !in n ==> k in e && e[k] == d[k]
  {
    var left, right := (((e - p) + d) - p) + n, (e - p) + n;
    if forall k :: k in d && k !in p && k !in n ==> k in e && e[k] == d[k] {
      assert left == right;
    }
    if left == right {
      forall k | k in d && k !in p && k !in n ensures k in e && e[k] == d[k] {
        assert k in left && left[k] == d[k];
      }
    }
  }

  lemma LeftoverPlain(e: set<string>, p: set<string>, d: set<string>, n: set<string>)
    ensures (((e - p) + d) - p) + n == (e - p) + n <==> d - p - n <= e
  {
    if (((e - p) + d) - p) + n == (e - p) + n {
      forall t | t in d - p - n ensures t in e {
        assert t in (((e - p) + d) - p) + n;
      }
    }
  }

  // ---------------------------------------------------------------- provider-managed keys

  /** A key no list names keeps its presence and value through every run of attempts, whatever fails. */
  lemma {:induction false} UnnamedKeyUntouched(st: Tagged, attempts: seq<Attempt>, k: string)
    requires k !in TagMap(Previous(st.applied))
    requires forall a :: a in attempts ==> k !in TagMap(a.desired)
    ensures k in TagMap(Run(st, attempts).tags) <==> k in TagMap(st.tags)
    ensures k in TagMap(st.tags) ==> TagMap(Run(st, attempts).tags)[k] == TagMap(st.tags)[k]
    ensures k !in TagMap(Previous(Run(st, attempts).applied))
  {
    if attempts != [] {
      var front, last := attempts[..|attempts| - 1], attempts[|attempts| - 1];
      assert attempts == front + [last];
      UnnamedKeyUntouched(st, front, k);
      ReconcileView(Run(st, front), last);
      NormalizeKeepsView(last.desired);
    }
  }

  /** Both lists have the key with the same value, or neither has it. */
  ghost predicate SameAt(a: seq<string>, b: seq<string>, k: string) {
    (k in TagMap(a) <==> k in TagMap(b)) && (k in TagMap(a) ==> TagMap(a)[k] == TagMap(b)[k])
  }

  /** If every user list passes validation, no run of in-place updates alters a provider-managed key. */
  lemma ManagedKeysSurvive(st: Tagged, attempts: seq<Attempt>, k: string)
    requires k in RESTRICTED_TAG_KEYS
    requires ValidTags(Previous(st.applied))
    requires forall a :: a in attempts ==> ValidTags(a.desired)
    ensures SameAt(Run(st, attempts).tags, st.tags, k)
  {
    ValidTagsMeaning(Previous(st.applied));
    forall a | a in attempts ensures k !in TagMap(a.desired) {
      ValidTagsMeaning(a.desired);
    }
    UnnamedKeyUntouched(st, attempts, k);
  }

  /** Starting from any tags and a valid record, every step of the run using lists of the family keeps managed keys. */
  ghost predicate KeepsManagedKeys(lists: set<seq<string>>, st: Tagged, attempts: seq<Attempt>) {
    ValidTags(Previous(st.applied)) && (forall a :: a in attempts ==> a.desired in lists) ==>
      forall k :: k in RESTRICTED_TAG_KEYS ==> SameAt(Run(st, attempts).tags, st.tags, k)
  }

  /**
   Over all runs with user lists of a family no provider-managed key is altered exactly when all lists of the family
   pass validation. The controller does not check that they do.
   */
  lemma ManagedKeysSurviveExactly(lists: set<seq<string>>)
    ensures (forall st: Tagged, attempts: seq<Attempt> :: KeepsManagedKeys(lists, st, attempts)) <==> forall l :: l in lists ==> ValidTags(l)
  {
    if forall l :: l in lists ==> ValidTags(l) {
      forall st: Tagged, attempts: seq<Attempt> ensures KeepsManagedKeys(lists, st, attempts) {
        if ValidTags(Previous(st.applied)) && forall a :: a in attempts ==> a.desired in lists {
          forall k | k in RESTRICTED_TAG_KEYS ensures SameAt(Run(st, attempts).tags, st.tags, k) {
            ManagedKeysSurvive(st, attempts, k);
          }
        }
      }
    }
    forall l | l in lists && !ValidTags(l) ensures !KeepsManagedKeys(lists, Tagged([], None), [Success(l)]) {
      InvalidListAlters(lists, l);
    }
  }

  lemma InvalidListAlters(lists: set<seq<string>>, l: seq<string>)
    requires l in lists && !ValidTags(l)
    ensures !KeepsManagedKeys(lists, Tagged([], None), [Success(l)])
  {
    var st, attempts := Tagged([], None), [Success(l)];
    ValidTagsMeaning(l);
    var k :| k in TagMap(l) && k in RESTRICTED_TAG_KEYS;
    assert Run(st, attempts) == Reconcile(st, Success(l)) by {
      assert attempts[..0] == [];
      assert Run(st, attempts[..0]) == st;
      hide Reconcile;
    }
    ReconcileView(st, Success(l));
    assert ValidTags([]) by { ValidTagsMeaning([]); }
    hide Reconcile, Run;
    assert !SameAt(Run(st, attempts).tags, st.tags, k);
  }

  /** The desired list sets the claim key to the mark there is, or does not name it and the previous list does not take it. */
  ghost predicate KeepsClaim(existing: seq<string>, previous: seq<string>, desired: seq<string>) {
    if NODE_CLAIM_TAG_KEY in TagMap(desired) then Marks(existing) == {TagMap(desired)[NODE_CLAIM_TAG_KEY]}
    else Marks(existing) == {} || NODE_CLAIM_TAG_KEY !in TagMap(previous)
  }

  /**
   A merge keeps the mark of an instance that carries at most one exactly when the desired list sets the claim key to
   that mark, or does not name it and the previous list does not take it.
   */
  lemma MergeKeepsMarksExactly(existing: seq<string>, previous: seq<string>, desired: seq<string>)
    requires forall a, b :: a in Marks(existing) && b in Marks(existing) ==> a == b
    ensures Marks(MergedTags(existing, previous, desired)) == Marks(existing) <==> KeepsClaim(existing, previous, desired)
  {
    MarksOfMerge(existing, previous, desired);
    DetectorsReadMarks(existing, "");
    hide Marks, MergedTags, TagMap;
    if NODE_CLAIM_TAG_KEY in TagMap(existing) {
      assert Marks(existing) == {TagMap(existing)[NODE_CLAIM_TAG_KEY]};
    }
  }

  /** The mark after a merge: the desired list's, else the existing one unless the previous list named the claim key. */
  lemma MarksOfMerge(existing: seq<string>, previous: seq<string>, desired: seq<string>)
    ensures Marks(MergedTags(existing, previous, desired)) ==
      if NODE_CLAIM_TAG_KEY in TagMap(desired) then {TagMap(desired)[NODE_CLAIM_TAG_KEY]}
      else if NODE_CLAIM_TAG_KEY in TagMap(existing) && NODE_CLAIM_TAG_KEY !in TagMap(previous)
      then {TagMap(existing)[NODE_CLAIM_TAG_KEY]}
      else {}
  {
    MergeWellFormed(existing, previous, desired);
    MarksOfSorted(MergeView(ViewOf(existing), ViewOf(previous), ViewOf(desired)));
  }

  /**
   A claim tag added to a live class's list moves an instance's mark to it, and taken out again leaves the instance
   unmarked, though it is in use.
   */
  lemma ClaimKeyListUnclaims(existing: seq<string>, value: string)
    requires value != ""
    ensures var list := [Print(NODE_CLAIM_TAG_KEY, value)];
      var moved := MergedTags(existing, [], list);
      && !ValidTags(list)
      && Marks(moved) == {value}
      && Marks(MergedTags(moved, list, [])) == {}
  {
    var list := [Print(NODE_CLAIM_TAG_KEY, value)];
    OnePairMap(NODE_CLAIM_TAG_KEY, value);
    ValidTagsMeaning(list);
    MarksOfMerge(existing, [], list);
    MarksOfMerge(MergedTags(existing, [], list), list, []);
  }

  /** Nothing is invented: every merged tag was on the instance or is desired. */
  lemma MergeSources(existing: seq<string>, previous: seq<string>, desired: seq<string>)
    ensures forall t :: t in MergedTags(existing, previous, desired) ==> t in existing || t in desired
  {
    var v := MergeView(ViewOf(existing), ViewOf(previous), ViewOf(desired));
    TagMapMembers(existing);
    TagMapMembers(desired);
    forall t | t in Printed(v) && t !in v.plain ensures t in existing || t in desired {
      var k :| k in v.kv && t == Print(k, v.kv[k]);
    }
  }
}
