/**
 What the invariant gives: ownership of instances, one pool per key, exact deletes and scales, and the accounting
 of the capacity one Create call asks for. `Reached` states are those any sequence of events leads to.
 */
module ProtocolTheorems {
  import opened ClaimMarks
  import opened CloudModel
  import opened InPlaceTags
  import opened Options
  import opened Protocol
  import opened ProtocolInv
  import opened Tags
  import opened TagText

  ghost predicate Reached(cfg: Config, s: State) {
    exists start, events :: Initial(start) && s == After(cfg, start, events)
  }

  lemma ReachedInv(cfg: Config, s: State)
    requires Reached(cfg, s)
    ensures Inv(cfg, s)
  {
    hide Initial, After, Inv;
    var start, events :| Initial(start) && s == After(cfg, start, events);
    InitialInv(cfg, start);
    RunKeepsInv(cfg, start, events);
  }

  lemma InvKnows(cfg: Config, s: State, p: nat)
    requires Inv(cfg, s) && p in s.procs
    ensures Sound(s.cloud) && UnclaimedForeign(s.cloud) && Knows(s.cloud, s.procs[p]) && ArgsSound(cfg, s.procs[p])
  {
    hide Sound, UnclaimedForeign, ProvidedMarked, LocksHeld, ClaimsDistinct, ArgsSound, Knows;
  }

  lemma {:induction false} RunsCompose(cfg: Config, s: State, first: seq<Event>, second: seq<Event>)
    ensures After(cfg, After(cfg, s, first), second) == After(cfg, s, first + second)
  {
    hide Step;
    if second == [] {
      assert first + second == first;
    } else {
      var all, front := first + second, second[..|second| - 1];
      assert all[..|all| - 1] == first + front;
      RunsCompose(cfg, s, first, front);
    }
  }

  lemma ReachedAfter(cfg: Config, s: State, events: seq<Event>)
    requires Reached(cfg, s)
    ensures Reached(cfg, After(cfg, s, events))
  {
    hide Initial, After;
    var start, before :| Initial(start) && s == After(cfg, start, before);
    RunsCompose(cfg, start, before, events);
  }

  // ---------------------------------------------------------------- ownership

  lemma CarriesMark(c: Cloud, i: nat, claim: string)
    requires i in c.instances && claim != ""
    ensures NodeClaimTag(claim) in c.instances[i].tags <==> Marked(c, i, NormalizeNodeClaimTagValue(claim))
  {
    DetectorsReadMarks(c.instances[i].tags, claim);
  }

  /** In every reachable state with no forged claim at most one live instance carries a claim's tag. */
  lemma AtMostOneHolder(cfg: Config, s: State, claim: string, i: nat, j: nat)
    requires Reached(cfg, s) && !s.cloud.forged && claim != ""
    requires i in s.cloud.instances && NodeClaimTag(claim) in s.cloud.instances[i].tags
    requires j in s.cloud.instances && NodeClaimTag(claim) in s.cloud.instances[j].tags
    ensures i == j
  {
    CarriesMark(s.cloud, i, claim);
    CarriesMark(s.cloud, j, claim);
    hide Marks, NormalizeNodeClaimTagValue, NodeClaimTag, Reached, UnclaimedForeign, ProvidedMarked, LocksHeld, ClaimsDistinct, AllKnow,
         IdsSound, CountsSound, PoolsUnique;
    ReachedInv(cfg, s);
  }

  /** How one event changes the cloud: as some lock holder or the environment may change it. */
  lemma StepMarksKept(cfg: Config, s: State, e: Event)
    requires Inv(cfg, s)
    ensures s.cloud.used <= Step(cfg, s, e).cloud.used
    ensures exists acting, written :: MarksKept(s.cloud, Step(cfg, s, e).cloud, acting, written)
  {
    var c, c' := s.cloud, Step(cfg, s, e).cloud;
    match e
    case Act(p, ch) =>
      hide Sound, UnclaimedForeign, ProvidedMarked, Knows, ArgsAllowed, ProcStep, MarksKept, OtherPoolsKept, LocksHeld, ClaimsDistinct;
      if p in s.procs {
        ProcStepGood(cfg, s, s.procs[p], ch);
        assert MarksKept(c, c', ActingKey(s.procs[p]), WrittenMark(s.procs[p]));
      } else {
        SameMarksKept(c);
      }
    case Provisioned(node, i, tags) =>
      hide Foreign, Sound, UnclaimedForeign, ProvidedMarked, LocksHeld, ClaimsDistinct, AllKnow, MarksKept, OtherPoolsKept;
      if c' != c {
        ProvisionedCloud(c, node, i, tags);
        assert MarksKept(c, c', None, None);
      } else {
        SameMarksKept(c);
      }
    case _ =>
      hide Sound, UnclaimedForeign, MarksKept;
      SameMarksKept(c);
  }

  lemma SameMarksKept(c: Cloud)
    ensures MarksKept(c, c, None, None)
  {}

  /**
   A mark is for life: whatever happens after an instance carries a claim, for as long as the instance lives and no
   in-place update forges a claim it carries that claim and no other.
   */
  lemma {:induction false} ClaimIsForLife(cfg: Config, s: State, events: seq<Event>, i: nat, mark: string)
    requires Inv(cfg, s) && Marked(s.cloud, i, mark)
    ensures var c := After(cfg, s, events).cloud;
      i in c.used && (!c.forged && i in c.instances ==> Marks(c.instances[i].tags) == {mark})
  {
    hide Marks, Step, After, Inv, MarksKept, IdsSound;
    if events == [] {
      MarkedAlone(cfg, s, i, mark);
      AfterNone(cfg, s);
    } else {
      var front, last := events[..|events| - 1], events[|events| - 1];
      var mid := After(cfg, s, front);
      ClaimIsForLife(cfg, s, front, i, mark);
      RunKeepsInv(cfg, s, front);
      InvIds(cfg, mid);
      StepMarksKept(cfg, mid, last);
      var acting, written :| MarksKept(mid.cloud, Step(cfg, mid, last).cloud, acting, written);
      MarkedStable(mid.cloud, Step(cfg, mid, last).cloud, acting, written, i);
      AfterLast(cfg, s, events);
    }
  }

  lemma AfterNone(cfg: Config, s: State)
    ensures After(cfg, s, []) == s
  {}

  /** The lists of an in-place update do not name the claim key. */
  ghost predicate ClaimKeyFree(previous: seq<string>, desired: seq<string>) {
    NODE_CLAIM_TAG_KEY !in TagMap(previous) && NODE_CLAIM_TAG_KEY !in TagMap(desired)
  }

  lemma KeyFreeKeepsClaim(seen: seq<string>, previous: seq<string>, desired: seq<string>)
    requires ClaimKeyFree(previous, desired)
    ensures KeepsClaim(seen, previous, desired)
  {}

  /** Nothing but the write of an in-place update that does not keep the claim forges one. */
  lemma ForgedByUpdate(cfg: Config, s: State, proc: Proc, ch: Choice)
    ensures var c' := ProcStep(cfg, s, proc, ch).cloud;
      c'.forged ==> s.cloud.forged || (proc.Updating? && !ClaimKeyFree(proc.previous, proc.desired))
  {
    hide KeyOf, NodesOf, Matches, ClaimWrite, ResizeAllowed, FirstClaimable, ListedInstances, Unclaimed, NodeClaimTag,
         HasPool, ListsPoolTags, Discovers, ListsNodes, ClaimKeyFree, KeepsClaim, MergedTags, Normalize, Shows, PoolTagsFit,
         OnlyQuoted, CreateStep;
    match proc
    case Creating(call) => CreateForgesNothing(cfg, s.cloud, call, Free(cfg, s, proc), ch);
    case Deleting(_, _) =>
    case Updating(_, previous, desired, WritingTags(seen)) =>
      if ClaimKeyFree(previous, desired) { KeyFreeKeepsClaim(seen, previous, desired); }
    case Updating(_, _, _, _) =>
  }

  lemma CreateForgesNothing(cfg: Config, c: Cloud, call: CreateCall, free: bool, ch: Choice)
    ensures CreateStep(cfg, c, call, free, ch).cloud.forged == c.forged
  {
    hide KeyOf, NodesOf, Matches, ClaimWrite, ResizeAllowed, FirstClaimable, ListedInstances, Unclaimed, NodeClaimTag,
         HasPool, ListsPoolTags, Discovers, ListsNodes, PoolTagsFit, OnlyQuoted;
    match call.pc
    case Starting => case Waiting => case Relooking => case Listing => case Pinning(_, _) => case MakingPool =>
    case Reading(_) => case Scanning(_, _) => case Claiming(_, _, _) => case Verifying(_) => case CheckingPlan(_) =>
    case Scaling(_) => case Unlocking(_) => case Returned(_) =>
  }

  ghost predicate UpdatesClaimKeyFree(s: State) {
    forall p :: p in s.procs && s.procs[p].Updating? ==> ClaimKeyFree(s.procs[p].previous, s.procs[p].desired)
  }

  lemma UpdaterStays(cfg: Config, s: State, proc: Proc, ch: Choice)
    ensures var proc' := ProcStep(cfg, s, proc, ch).proc;
      && (proc'.Updating? <==> proc.Updating?)
      && (proc.Updating? ==> proc'.previous == proc.previous && proc'.desired == proc.desired)
  {
    ProcStepDisciplined(cfg, s, proc, ch);
    hide CreateStep, MergedTags, Normalize, KeepsClaim, Shows, NodesOf, KeyOf, DropPool, DropNode, Disciplined;
  }

  /** In a run whose in-place lists do not name the claim key no claim is forged. */
  lemma {:induction false} RunUnforged(cfg: Config, s: State, events: seq<Event>)
    requires Initial(s) && forall e :: e in events && e.StartUpdate? ==> ClaimKeyFree(e.previous, e.desired)
    ensures !After(cfg, s, events).cloud.forged && UpdatesClaimKeyFree(After(cfg, s, events))
  {
    hide Sound, UnclaimedForeign, ProvidedMarked, ClaimKeyFree, ProcStep, ArgsAllowed, Foreign;
    if events != [] {
      var front, e := events[..|events| - 1], events[|events| - 1];
      assert e in events && forall x :: x in front ==> x in events;
      RunUnforged(cfg, s, front);
      var mid := After(cfg, s, front);
      if e.Act? && e.p in mid.procs {
        ForgedByUpdate(cfg, mid, mid.procs[e.p], e.choice);
        UpdaterStays(cfg, mid, mid.procs[e.p], e.choice);
      }
    }
  }

  /**
   The condition is exact: a step of a reachable state forges exactly when it takes or replaces the claim of an
   instance that lives on.
   */
  lemma ForgedExactly(cfg: Config, s: State, p: nat, ch: Choice)
    requires Inv(cfg, s) && p in s.procs && !s.cloud.forged
    ensures var c, c' := s.cloud, Step(cfg, s, Act(p, ch)).cloud;
      c'.forged <==> (exists i :: i in c.instances && i in c'.instances && Marks(c.instances[i].tags) != {}
                                && Marks(c'.instances[i].tags) != Marks(c.instances[i].tags))
  {
    var c, c', proc := s.cloud, Step(cfg, s, Act(p, ch)).cloud, s.procs[p];
    InvKnows(cfg, s, p);
    StepMarksKept(cfg, s, Act(p, ch));
    hide Inv, Sound, UnclaimedForeign, Marks, ArgsAllowed, ArgsSound, Knows, ProcStep;
    if c'.forged {
      ForgedByUpdate(cfg, s, proc, ch);
      var i := ForgingWrite(cfg, s, proc, ch);
    } else {
      var acting, written :| MarksKept(c, c', acting, written);
    }
  }

  lemma ForgingWrite(cfg: Config, s: State, proc: Proc, ch: Choice) returns (i: nat)
    requires !s.cloud.forged && Knows(s.cloud, proc) && proc.Updating? && ProcStep(cfg, s, proc, ch).cloud.forged
    ensures var c, c' := s.cloud, ProcStep(cfg, s, proc, ch).cloud;
      && i in c.instances && i in c'.instances
      && Marks(c.instances[i].tags) != {} && Marks(c'.instances[i].tags) != Marks(c.instances[i].tags)
  {
    i := proc.target;
    hide MergedTags, Marks, Normalize, KeepsClaim;
    match proc.upc
    case WritingTags(seen) => MergeKeepsMarksExactly(seen, proc.previous, proc.desired);
    case _ =>
  }

  lemma AfterLast(cfg: Config, s: State, events: seq<Event>)
    requires events != []
    ensures After(cfg, s, events) == Step(cfg, After(cfg, s, events[..|events| - 1]), events[|events| - 1])
  {
    hide Step;
  }

  lemma InvIds(cfg: Config, s: State)
    requires Inv(cfg, s)
    ensures IdsSound(s.cloud)
  {
    hide UnclaimedForeign, ProvidedMarked, LocksHeld, ClaimsDistinct, AllKnow, IdsSound, CountsSound, PoolsUnique, MarksUnique;
  }

  lemma MarkedAlone(cfg: Config, s: State, i: nat, mark: string)
    requires Inv(cfg, s) && Marked(s.cloud, i, mark)
    ensures i in s.cloud.used && (!s.cloud.forged ==> Marks(s.cloud.instances[i].tags) == {mark})
  {
    hide Marks, UnclaimedForeign, ProvidedMarked, LocksHeld, ClaimsDistinct, AllKnow, CountsSound, PoolsUnique;
    forall m | m in Marks(s.cloud.instances[i].tags) ensures s.cloud.forged || m == mark {
      assert Marked(s.cloud, i, m);
    }
  }

  ghost predicate LockedBy(cfg: Config, s: State, key: Key, p: nat) {
    Slot(cfg, key) in s.locks && s.locks[Slot(cfg, key)] == p
  }

  /**
   A Create about to write its claim holds the lock of the only key whose pools hold the instance, and the instance,
   if it still lives, is unclaimed.
   */
  lemma ClaimUnderRightLock(cfg: Config, s: State, p: nat, call: CreateCall, snap: Snapshot, i: nat, seen: seq<string>)
    requires Reached(cfg, s) && p in s.procs && s.procs[p] == Creating(call) && call.pc == Claiming(snap, i, seen)
    ensures LockedBy(cfg, s, call.args.key, p)
    ensures forall pool :: pool in s.cloud.pools && InPool(s.cloud, pool, i) ==> KeyOf(s.cloud.pools[pool]) == Some(call.args.key)
    ensures !s.cloud.forged && i in s.cloud.instances ==> Marks(s.cloud.instances[i].tags) == {}
  {
    ReachedInv(cfg, s);
    InvKnows(cfg, s, p);
    InvIds(cfg, s);
    assert LocksHeld(cfg, s) by { hide LocksHeld, Sound, UnclaimedForeign, ProvidedMarked, ClaimsDistinct, AllKnow; }
    hide Reached, Inv, Sound, UnclaimedForeign, KeyOf, Marks, ArgsAllowed, Current, Placed, NoneMarked, NormalizeNodeClaimTagValue,
         IdsSound, InPool;
    PlacedOnlyThere(s.cloud, call.args.key, i);
  }

  // ---------------------------------------------------------------- what a successful Create returns

  /** No live instance carries the claim of a NodeClaim whose tag value strictly extends this one's. */
  ghost predicate NoLongerName(c: Cloud, claim: string) {
    forall j, v :: Marked(c, j, v) && NormalizeNodeClaimTagValue(claim) <= v ==> v == NormalizeNodeClaimTagValue(claim)
  }

  /** No live instance without the claim's own tag has a tag that quotes it. */
  ghost predicate NotQuoted(c: Cloud, claim: string) {
    forall i :: i in c.instances && NodeClaimTag(claim) !in c.instances[i].tags ==>
      !SomeQuotes(c.instances[i].tags, NodeClaimTag(claim))
  }

  lemma MatchMeans(c: Cloud, i: nat, claim: string)
    requires i in c.instances && claim != ""
    ensures Matches(c, i, claim) <==>
      || (exists v :: Marked(c, i, v) && NormalizeNodeClaimTagValue(claim) <= v)
      || SomeQuotes(c.instances[i].tags, NodeClaimTag(claim))
  {
    LookupMatchesExactly(c.instances[i].tags, claim);
    hide Marks, MatchesFilter, NormalizeNodeClaimTagValue, NodeClaimTag, SomeQuotes;
    if v :| v in Marks(c.instances[i].tags) && NormalizeNodeClaimTagValue(claim) <= v {
      assert Marked(c, i, v);
    }
  }

  /**
   The lookup of a Create can only find the claim's own instance exactly when no live instance carries a longer
   name and no other instance has a tag that quotes the claim's.
   */
  lemma LookupPreciseExactly(c: Cloud, claim: string)
    requires MarksUnique(c) && !c.forged && claim != ""
    ensures (forall i :: Matches(c, i, claim) ==> NodeClaimTag(claim) in c.instances[i].tags)
      <==> NoLongerName(c, claim) && NotQuoted(c, claim)
  {
    var mark := NormalizeNodeClaimTagValue(claim);
    forall i | i in c.instances
      ensures Matches(c, i, claim) <==>
        (exists v :: Marked(c, i, v) && mark <= v) || SomeQuotes(c.instances[i].tags, NodeClaimTag(claim))
      ensures NodeClaimTag(claim) in c.instances[i].tags <==> Marked(c, i, mark)
    {
      MatchMeans(c, i, claim);
      CarriesMark(c, i, claim);
    }
    hide Matches, Marks, NodeClaimTag, NormalizeNodeClaimTagValue, SomeQuotes;
    if forall i :: Matches(c, i, claim) ==> NodeClaimTag(claim) in c.instances[i].tags {
      forall j, v | Marked(c, j, v) && mark <= v ensures v == mark {
        assert Matches(c, j, claim);
      }
      assert NotQuoted(c, claim);
    }
    if NoLongerName(c, claim) && NotQuoted(c, claim) {
      forall i | Matches(c, i, claim) ensures NodeClaimTag(claim) in c.instances[i].tags {
        MatchIsLive(c, i, claim);
      }
    }
  }

  lemma MatchIsLive(c: Cloud, i: nat, claim: string)
    requires Matches(c, i, claim)
    ensures i in c.instances
  {
    hide MatchesFilter, NodeClaimTag;
  }

  /** The choice of a listing that puts `i` first. */
  function Shown(i: nat): Choice {
    Choice(Ack, false, i, 0, [], {}, {}, [])
  }

  /** A first lookup that is shown a matching instance ends the call with it at once. */
  lemma ShownIsReturned(cfg: Config, c: Cloud, call: CreateCall, j: nat)
    requires call.pc == Starting && PoolTagsFit(cfg, call.args) && Matches(c, j, call.args.claim)
    ensures StartStep(cfg, c, call, Shown(j)).proc == Creating(call.(pc := Returned(Got(j, OnlyQuoted(c, j, call.args.claim)))))
  {
    hide Matches, PoolTagsFit, OnlyQuoted;
  }

  /** A Create whose first lookup is shown a longer name's instance returns it at once. */
  lemma LongerNameIsReturned(cfg: Config, c: Cloud, call: CreateCall, j: nat, v: string)
    requires MarksUnique(c) && !c.forged && call.args.claim != "" && call.pc == Starting && PoolTagsFit(cfg, call.args)
    requires Marked(c, j, v) && NormalizeNodeClaimTagValue(call.args.claim) < v
    ensures StartStep(cfg, c, call, Shown(j)).proc == Creating(call.(pc := Returned(Got(j, false))))
    ensures NodeClaimTag(call.args.claim) !in c.instances[j].tags
  {
    MatchMeans(c, j, call.args.claim);
    CarriesMark(c, j, call.args.claim);
    hide Matches, Marks, NodeClaimTag, NormalizeNodeClaimTagValue, PoolTagsFit, SomeQuotes, StartStep;
    ShownIsReturned(cfg, c, call, j);
  }

  /**
   A Create whose first lookup is shown an instance of another claim with a tag that quotes this one's returns that
   instance at once. Class tags that pass validation can quote a claim's tag: see QuotingTagMatches.
   */
  lemma QuotingTagIsReturned(cfg: Config, c: Cloud, call: CreateCall, j: nat, v: string)
    requires MarksUnique(c) && !c.forged && call.args.claim != "" && call.pc == Starting && PoolTagsFit(cfg, call.args)
    requires Marked(c, j, v) && !(NormalizeNodeClaimTagValue(call.args.claim) <= v)
    requires SomeQuotes(c.instances[j].tags, NodeClaimTag(call.args.claim))
    ensures StartStep(cfg, c, call, Shown(j)).proc == Creating(call.(pc := Returned(Got(j, true))))
    ensures NodeClaimTag(call.args.claim) !in c.instances[j].tags
  {
    MatchMeans(c, j, call.args.claim);
    CarriesMark(c, j, call.args.claim);
    hide Matches, Marks, NodeClaimTag, NormalizeNodeClaimTagValue, PoolTagsFit, SomeQuotes, StartStep;
    ShownIsReturned(cfg, c, call, j);
  }

  /**
   Why unclaimed instances must not quote a claim: a Create for `a` is answered by the unclaimed instance, which may
   then be updated in place; an update that reads it before a Create for `b` claims it writes the claim away.
   */
  lemma UnclaimedQuoteLosesClaim(c: Cloud, i: nat, a: string, b: string, poolTags: seq<string>, classTags: seq<string>,
                                 previous: seq<string>, desired: seq<string>)
    requires i in c.instances && Marks(c.instances[i].tags) == {} && a != "" && b != ""
    requires SomeQuotes(c.instances[i].tags, NodeClaimTag(a)) && ClaimKeyFree(previous, desired)
    ensures Matches(c, i, a)
    ensures Marks(ClaimWrite(c.instances[i].tags, poolTags, classTags, b)) == {NormalizeNodeClaimTagValue(b)}
    ensures Marks(MergedTags(c.instances[i].tags, previous, desired)) == {}
  {
    var seen := c.instances[i].tags;
    MatchMeans(c, i, a);
    ClaimWriteMeaning(seen, poolTags, classTags, b);
    KeyFreeKeepsClaim(seen, previous, desired);
    MergeKeepsMarksExactly(seen, previous, desired);
    hide Matches, Marks, ClaimWrite, MergedTags, SomeQuotes, NodeClaimTag, NormalizeNodeClaimTagValue, KeepsClaim;
  }

  lemma CallArgs(cfg: Config, s: State, p: nat)
    requires Inv(cfg, s) && p in s.procs && s.procs[p].Creating?
    ensures ArgsAllowed(s.procs[p].call.args)
  {
    hide Sound, UnclaimedForeign, ProvidedMarked, LocksHeld, ClaimsDistinct, ArgsAllowed, Knows, PoolTagsFit;
    assert ArgsSound(cfg, s.procs[p]);
  }

  /** What a call returned is claimed while it lives, and by a mark that begins with the claim's value unless quoted. */
  lemma ReturnedIsClaimed(cfg: Config, s: State, p: nat, call: CreateCall, i: nat, quoted: bool)
    requires Reached(cfg, s) && p in s.procs && s.procs[p] == Creating(call) && call.pc == Returned(Got(i, quoted))
    requires i in s.cloud.instances && !s.cloud.forged
    ensures Marks(s.cloud.instances[i].tags) != {}
    ensures quoted <==> forall v :: Marked(s.cloud, i, v) ==> !(NormalizeNodeClaimTagValue(call.args.claim) <= v)
  {
    ReachedInv(cfg, s);
    InvKnows(cfg, s, p);
    hide Reached, Inv, Sound, UnclaimedForeign, ArgsAllowed, Marked, NormalizeNodeClaimTagValue, Marks;
  }

  /**
   With no longer name on a live instance, the returned instance carries the claim's tag exactly when the lookup that
   found it was not answered by a quoting tag.
   */
  lemma ReturnedIsOwn(cfg: Config, s: State, p: nat, call: CreateCall, i: nat, quoted: bool)
    requires Reached(cfg, s) && p in s.procs && s.procs[p] == Creating(call) && call.pc == Returned(Got(i, quoted))
    requires i in s.cloud.instances && !s.cloud.forged && NoLongerName(s.cloud, call.args.claim)
    ensures NodeClaimTag(call.args.claim) in s.cloud.instances[i].tags <==> !quoted
  {
    ReachedInv(cfg, s);
    CallArgs(cfg, s, p);
    CarriesMark(s.cloud, i, call.args.claim);
    hide Reached, Inv, Marked, NormalizeNodeClaimTagValue, NodeClaimTag, Marks;
    ReturnedIsClaimed(cfg, s, p, call, i, quoted);
  }

  /**
   Two successful Creates for one NodeClaim, whenever they ran, returned the same instance if both live and neither
   lookup was answered by a quoting tag; if exactly one was, they did not.
   */
  lemma SuccessesAgree(cfg: Config, s: State, p: nat, q: nat, a: CreateCall, b: CreateCall,
                       i: nat, j: nat, quotedA: bool, quotedB: bool)
    requires Reached(cfg, s) && p in s.procs && q in s.procs && s.procs[p] == Creating(a) && s.procs[q] == Creating(b)
    requires a.pc == Returned(Got(i, quotedA)) && b.pc == Returned(Got(j, quotedB)) && a.args.claim == b.args.claim
    requires i in s.cloud.instances && j in s.cloud.instances && !s.cloud.forged && NoLongerName(s.cloud, a.args.claim)
    ensures !quotedA && !quotedB ==> i == j
    ensures quotedA != quotedB ==> i != j
  {
    ReachedInv(cfg, s);
    CallArgs(cfg, s, p);
    hide Inv, Reached, NodeClaimTag, NoLongerName;
    ReturnedIsOwn(cfg, s, p, a, i, quotedA);
    ReturnedIsOwn(cfg, s, q, b, j, quotedB);
    if !quotedA && !quotedB {
      AtMostOneHolder(cfg, s, a.args.claim, i, j);
    }
  }

  /**
   Once an instance carries a claim, a later successful Create for it returns that instance, if it still lives,
   exactly when the lookup was not answered by a quoting tag.
   */
  lemma LaterSuccessReturnsHolder(cfg: Config, s: State, events: seq<Event>, i: nat, p: nat, call: CreateCall, j: nat, quoted: bool)
    requires Reached(cfg, s) && i in s.cloud.instances && NodeClaimTag(call.args.claim) in s.cloud.instances[i].tags
    requires var s' := After(cfg, s, events);
      && p in s'.procs && s'.procs[p] == Creating(call) && call.pc == Returned(Got(j, quoted))
      && i in s'.cloud.instances && j in s'.cloud.instances && !s'.cloud.forged && NoLongerName(s'.cloud, call.args.claim)
    ensures i == j <==> !quoted
  {
    var s', claim := After(cfg, s, events), call.args.claim;
    ReachedInv(cfg, s);
    ReachedAfter(cfg, s, events);
    ReachedInv(cfg, s');
    CallArgs(cfg, s', p);
    CarriesMark(s.cloud, i, claim);
    CarriesMark(s'.cloud, i, claim);
    hide Reached, Inv, After, NodeClaimTag, NormalizeNodeClaimTagValue, Marks, NoLongerName;
    ClaimIsForLife(cfg, s, events, i, NormalizeNodeClaimTagValue(claim));
    assert NormalizeNodeClaimTagValue(claim) in Marks(s'.cloud.instances[i].tags);
    ReturnedIsOwn(cfg, s', p, call, j, quoted);
    if !quoted {
      AtMostOneHolder(cfg, s', claim, i, j);
    }
  }

  // ---------------------------------------------------------------- when no lookup is answered by a quoting tag

  ghost predicate EndsQuoted(call: CreateCall) {
    match call.pc
    case Unlocking(Return(Got(_, quoted))) => quoted
    case Returned(Got(_, quoted)) => quoted
    case _ => false
  }

  /** No call for the claim was answered by a quoting tag. */
  ghost predicate NoneEndsQuoted(s: State, claim: string) {
    forall p :: p in s.procs && s.procs[p].Creating? && s.procs[p].call.args.claim == claim ==> !EndsQuoted(s.procs[p].call)
  }

  lemma LookupNotQuoted(c: Cloud, i: nat, claim: string)
    requires claim != "" && NotQuoted(c, claim) && Matches(c, i, claim)
    ensures !OnlyQuoted(c, i, claim)
  {
    MatchIsLive(c, i, claim);
    MatchMeans(c, i, claim);
    CarriesMark(c, i, claim);
    hide Matches, Marks, NodeClaimTag, NormalizeNodeClaimTagValue, SomeQuotes;
  }

  lemma LookupEndsUnquoted(cfg: Config, c: Cloud, call: CreateCall, ch: Choice)
    requires call.args.claim != "" && NotQuoted(c, call.args.claim)
    ensures var e := StartStep(cfg, c, call, ch); e.proc.Creating? && (call.pc.Starting? ==> !EndsQuoted(e.proc.call))
    ensures var e := RelookStep(c, call, ch); e.proc.Creating? && (call.pc.Relooking? ==> !EndsQuoted(e.proc.call))
  {
    if Matches(c, ch.pick, call.args.claim) { LookupNotQuoted(c, ch.pick, call.args.claim); }
    hide Matches, NotQuoted, OnlyQuoted, PoolTagsFit;
  }

  lemma CreateEndsUnquoted(cfg: Config, c: Cloud, call: CreateCall, free: bool, ch: Choice)
    requires call.args.claim != "" && NotQuoted(c, call.args.claim) && !EndsQuoted(call)
    ensures var e := CreateStep(cfg, c, call, free, ch); e.proc.Creating? && !EndsQuoted(e.proc.call)
  {
    hide KeyOf, NodesOf, Matches, ClaimWrite, Resize, ResizeAllowed, CreatePool, SetVersion, WriteTags, FirstClaimable,
         ListedInstances, Unclaimed, NodeClaimTag, HasPool, ListsPoolTags, Discovers, ListsNodes, NotQuoted, StartStep, RelookStep;
    LookupEndsUnquoted(cfg, c, call, ch);
    match call.pc
    case Starting => case Waiting => case Relooking => case Listing => case Pinning(_, _) => case MakingPool =>
    case Reading(_) => case Scanning(_, _) => case Claiming(_, _, _) => case Verifying(_) => case CheckingPlan(_) =>
    case Scaling(_) => case Unlocking(_) => case Returned(_) =>
  }

  lemma StepEndsUnquoted(cfg: Config, s: State, e: Event, claim: string)
    requires Inv(cfg, s) && NotQuoted(s.cloud, claim) && NoneEndsQuoted(s, claim)
    ensures NoneEndsQuoted(Step(cfg, s, e), claim)
  {
    hide CreateStep, DeleteStep, NotQuoted, EndsQuoted, ArgsAllowed, Foreign, Inv;
    match e
    case Act(p, ch) =>
      if p in s.procs && s.procs[p].Creating? {
        var call := s.procs[p].call;
        CallArgs(cfg, s, p);
        ActorKind(cfg, s, p, ch);
        ActorClaim(cfg, s, p, ch);
        if call.args.claim == claim {
          NamedClaim(call.args);
          CreateEndsUnquoted(cfg, s.cloud, call, Free(cfg, s, s.procs[p]), ch);
        }
      } else if p in s.procs {
        ActorKind(cfg, s, p, ch);
      }
    case StartCreate(_, _) => StartsUnquoted();
    case _ =>
  }

  lemma StartsUnquoted()
    ensures forall call: CreateCall :: call.pc == Starting ==> !EndsQuoted(call)
  {}

  lemma NamedClaim(args: CreateArgs)
    ensures ArgsAllowed(args) ==> args.claim != ""
  {}

  lemma ActorClaim(cfg: Config, s: State, p: nat, ch: Choice)
    requires p in s.procs && s.procs[p].Creating?
    ensures var proc := Step(cfg, s, Act(p, ch)).procs[p]; proc.Creating? && proc.call.args == s.procs[p].call.args
  {
    hide ProcStep;
    ProcStepDisciplined(cfg, s, s.procs[p], ch);
  }

  /**
   If before every event of a run no instance of another claim has a tag that quotes the claim's, no Create for the
   claim is answered by a quoting tag.
   */
  lemma {:induction false} RunEndsUnquoted(cfg: Config, s: State, events: seq<Event>, claim: string)
    requires Initial(s)
    requires forall k :: 0 <= k < |events| ==> NotQuoted(After(cfg, s, events[..k]).cloud, claim)
    ensures NoneEndsQuoted(After(cfg, s, events), claim)
  {
    hide Inv, Step, Sound, UnclaimedForeign, ProvidedMarked, NotQuoted, EndsQuoted;
    if events != [] {
      var front := events[..|events| - 1];
      assert forall k :: 0 <= k < |front| ==> front[..k] == events[..k];
      RunEndsUnquoted(cfg, s, front, claim);
      InitialInv(cfg, s);
      RunKeepsInv(cfg, s, front);
      StepEndsUnquoted(cfg, After(cfg, s, front), events[|events| - 1], claim);
    }
  }

  /**
   In a run in which no instance of another claim ever has a tag that quotes the claim's, all successful Creates for
   the claim returned one and the same instance, among those that live, when no longer name is around.
   */
  lemma UnquotedRunsAgree(cfg: Config, s: State, events: seq<Event>, p: nat, q: nat, a: CreateCall, b: CreateCall,
                          i: nat, j: nat, quotedA: bool, quotedB: bool)
    requires Initial(s) && forall k :: 0 <= k < |events| ==> NotQuoted(After(cfg, s, events[..k]).cloud, a.args.claim)
    requires var s' := After(cfg, s, events);
      && p in s'.procs && q in s'.procs && s'.procs[p] == Creating(a) && s'.procs[q] == Creating(b)
      && a.pc == Returned(Got(i, quotedA)) && b.pc == Returned(Got(j, quotedB)) && a.args.claim == b.args.claim
      && i in s'.cloud.instances && j in s'.cloud.instances && !s'.cloud.forged && NoLongerName(s'.cloud, a.args.claim)
    ensures i == j
  {
    hide After, Initial, NotQuoted, NoLongerName;
    RunEndsUnquoted(cfg, s, events, a.args.claim);
    assert Reached(cfg, After(cfg, s, events));
    assert !EndsQuoted(a) && !EndsQuoted(b);
    SuccessesAgree(cfg, After(cfg, s, events), p, q, a, b, i, j, quotedA, quotedB);
  }

  // ---------------------------------------------------------------- the Enterprise filter

  /** The instance's pool tag matches the filter for the pool. */
  ghost predicate Filtered(c: Cloud, id: nat, i: nat) {
    i in c.instances && exists p :: InPool(c, p, i) && Contains(PoolTag(p), PoolTag(id))
  }

  /**
   The Enterprise discovery finds only instances of its pool exactly when no pool with a live instance has a decimal ID
   that strictly extends this one's.
   */
  lemma DiscoveryPreciseExactly(c: Cloud, id: nat)
    requires IdsSound(c)
    ensures (forall i :: Filtered(c, id, i) ==> InPool(c, id, i))
      <==> forall i, p :: i in c.instances && InPool(c, p, i) && Decimal(id) <= Decimal(p) ==> p == id
  {
    forall p ensures Contains(PoolTag(p), PoolTag(id)) <==> Decimal(id) <= Decimal(p) {
      PoolFilterMatchesPrefix(id, p);
    }
    hide PoolTag, Contains, Decimal;
    if forall i :: Filtered(c, id, i) ==> InPool(c, id, i) {
      forall i, p | i in c.instances && InPool(c, p, i) && Decimal(id) <= Decimal(p) ensures p == id {
        assert Filtered(c, id, i);
        OnePoolOf(c, i, p, id);
      }
    }
    if forall i, p :: i in c.instances && InPool(c, p, i) && Decimal(id) <= Decimal(p) ==> p == id {
      forall i | Filtered(c, id, i) ensures InPool(c, id, i) {
        var p :| InPool(c, p, i) && Contains(PoolTag(p), PoolTag(id));
        assert p == id;
      }
    }
  }

  lemma OnePoolOf(c: Cloud, i: nat, p: nat, q: nat)
    requires IdsSound(c) && i in c.instances && InPool(c, p, i) && InPool(c, q, i)
    ensures p == q
  {
    var n :| n in c.nodes && c.nodes[n] == Node(p, i);
    var m :| m in c.nodes && c.nodes[m] == Node(q, i);
    assert c.nodes[n].instance == c.nodes[m].instance != 0;
  }

  // ---------------------------------------------------------------- one pool per key

  /** In every reachable state a NodePool and an instance type have at most one managed pool. */
  lemma OnePoolPerKey(cfg: Config, s: State, a: nat, b: nat)
    requires Reached(cfg, s) && a in s.cloud.pools && b in s.cloud.pools
    requires NodePoolOf(s.cloud.pools[a].tags) == NodePoolOf(s.cloud.pools[b].tags) != None
    requires s.cloud.pools[a].itype == s.cloud.pools[b].itype
    ensures a == b
  {
    assert KeyOf(s.cloud.pools[a]) == KeyOf(s.cloud.pools[b]) != None;
    hide Reached, KeyOf, UnclaimedForeign, ProvidedMarked, LocksHeld, ClaimsDistinct, AllKnow, IdsSound, CountsSound, MarksUnique;
    ReachedInv(cfg, s);
  }

  /** Every tag a Create is about to make a pool with fits Linode's limit. */
  lemma MadePoolTagsFit(cfg: Config, s: State, p: nat, call: CreateCall, tags: seq<string>, t: string)
    requires Reached(cfg, s) && p in s.procs && s.procs[p] == Creating(call) && call.pc == MakingPool
    requires ListsPoolTags(cfg, call.args, tags) && t in tags
    ensures |t| <= 50
  {
    ReachedInv(cfg, s);
    InvKnows(cfg, s, p);
    hide Reached, Inv, Sound, UnclaimedForeign, PoolTagMap, PrintedPairs, NormalizeNodeClaimTagValue;
  }

  // ---------------------------------------------------------------- Delete

  /** A Delete in its critical section holds the lock of the key its pool answers to. */
  lemma DeleteUnderRightLock(cfg: Config, s: State, p: nat, i: nat, pc: DeletePc, n: nat)
    requires Reached(cfg, s) && p in s.procs && s.procs[p] == Deleting(i, pc)
    requires pc.Refinding? || pc.DroppingPool? || pc.DroppingNode?
    requires Shows(s.cloud, i, n)
    ensures KeyOf(s.cloud.pools[s.cloud.nodes[n].pool]) == Some(pc.key)
    ensures LockedBy(cfg, s, pc.key, p)
  {
    ReachedInv(cfg, s);
    InvKnows(cfg, s, p);
    InvIds(cfg, s);
    assert LocksHeld(cfg, s) by { hide LocksHeld, Sound, UnclaimedForeign, ProvidedMarked, ClaimsDistinct, AllKnow; }
    hide Reached, Inv, Sound, UnclaimedForeign, KeyOf, NodesOf;
  }

  /** What a step of Delete(i) may do to the cloud: nothing, or take away i's node, i, and i's pool if that was its last node. */
  ghost predicate RemovesOnly(c: Cloud, c': Cloud, i: nat) {
    c' == c ||
    exists n :: n in c.nodes && c.nodes[n].instance == i && c.nodes[n].pool in c.pools
      && c'.nodes == c.nodes - {n} && c'.instances == c.instances - {i} && c'.used == c.used && c'.forged == c.forged
      && if NodesOf(c, c.nodes[n].pool) == {n} then c'.pools == c.pools - {c.nodes[n].pool}
         else c'.pools.Keys == c.pools.Keys
              && (forall q :: q in c.pools && q != c.nodes[n].pool ==> c'.pools[q] == c.pools[q])
              && c'.pools[c.nodes[n].pool].count == c.pools[c.nodes[n].pool].count - 1
  }

  /** Delete(i) removes exactly instance i, under any interleaving. */
  lemma DeleteRemovesOnly(cfg: Config, s: State, p: nat, i: nat, pc: DeletePc, ch: Choice)
    requires Reached(cfg, s) && p in s.procs && s.procs[p] == Deleting(i, pc)
    ensures RemovesOnly(s.cloud, Step(cfg, s, Act(p, ch)).cloud, i)
  {
    hide Reached, Inv, UnclaimedForeign, Sound, DeleteKnows, DeleteStep, RemovesOnly, Free, LocksAfter;
    ReachedInv(cfg, s);
    InvKnows(cfg, s, p);
    DeleteStepRemovesOnly(s.cloud, i, pc, Free(cfg, s, s.procs[p]), ch);
  }

  lemma DeleteStepRemovesOnly(c: Cloud, i: nat, pc: DeletePc, free: bool, ch: Choice)
    requires Sound(c) && DeleteKnows(c, i, pc)
    ensures RemovesOnly(c, DeleteStep(c, i, pc, free, ch).cloud, i)
  {
    hide Sound, KeyFixed, KeyOf, NodesOf, Removed, NotShown, RemovesOnly, DropPool, DropNode, Shows;
    assert RemovesOnly(c, c, i) by { NothingRemoved(c, i); }
    match pc
    case DroppingPool(key, pool) =>
      var n :| n in c.nodes && c.nodes[n] == Node(pool, i) && NodesOf(c, pool) == {n};
      if !ch.outcome.Fail? { DropPoolRemovesOnly(c, i, key, pool, n); }
    case DroppingNode(key, node) =>
      if !ch.outcome.Fail? { DropNodeRemovesOnly(c, i, key, node); }
    case Finding => case WaitingFor(_) => case Refinding(_) => case Leaving(_, _) => case Gone(_) =>
  }

  lemma NothingRemoved(c: Cloud, i: nat)
    ensures RemovesOnly(c, c, i)
  {}

  lemma DropPoolRemovesOnly(c: Cloud, i: nat, key: Key, pool: nat, n: nat)
    requires Sound(c) && pool in c.pools && KeyOf(c.pools[pool]) == Some(key)
    requires n in c.nodes && c.nodes[n] == Node(pool, i) && NodesOf(c, pool) == {n}
    ensures RemovesOnly(c, DropPool(c, pool), i)
  {
    hide KeyOf, Sound, Rely, NodesOf;
    DropPoolKeeps(c, pool, n);
    hide DropPool;
  }

  lemma DropNodeRemovesOnly(c: Cloud, i: nat, key: Key, node: nat)
    requires Sound(c) && node in c.nodes && c.nodes[node].instance == i && c.nodes[node].pool in c.pools
    requires KeyOf(c.pools[c.nodes[node].pool]) == Some(key) && |NodesOf(c, c.nodes[node].pool)| > 1
    ensures RemovesOnly(c, DropNode(c, node), i)
  {
    hide KeyOf, Sound, Rely, NodesOf;
    DropNodeKeeps(c, node);
    hide DropNode;
  }

  /** A Delete that reported success has removed its instance for good. */
  lemma DeletedIsGone(cfg: Config, s: State, p: nat)
    requires Reached(cfg, s) && p in s.procs && s.procs[p].Deleting? && s.procs[p].pc == Gone(Deleted)
    ensures Removed(s.cloud, s.procs[p].instance)
  {
    ReachedInv(cfg, s);
    hide Reached, Sound, UnclaimedForeign, ProvidedMarked, LocksHeld, ClaimsDistinct, ArgsAllowed, Removed;
    assert Knows(s.cloud, s.procs[p]);
  }

  /** The cloud after the steps of one Delete that nothing interrupts and whose API calls all answer the same way. */
  ghost function DeleteAlone(c: Cloud, i: nat, ch: Choice): Cloud {
    match FindStep(c, i, ch).proc
    case Deleting(_, WaitingFor(key)) =>
      (match RefindStep(c, i, key, ch).proc
       case Deleting(_, DroppingPool(_, pool)) => DropPoolStep(c, i, key, pool, ch).cloud
       case Deleting(_, DroppingNode(_, node)) => DropNodeStep(c, i, key, node, ch).cloud
       case _ => c)
    case _ => c
  }

  /** Instance ID 0 stands for a node still provisioning: Delete(0) takes the one it is shown, with its pool if it is alone. */
  lemma ZeroTakesProvisioningNode(c: Cloud, n: nat)
    requires Sound(c) && Shows(c, 0, n)
    ensures var pool := c.nodes[n].pool;
      var c' := DeleteAlone(c, 0, Shown(0).(node := n));
      && n !in c'.nodes && c' != c
      && (if NodesOf(c, pool) == {n} then c' == DroppedPool(c, pool, n)
          else c.pools[pool].count > 1 && c' == DroppedNode(c, n))
  {
    var pool := c.nodes[n].pool;
    assert n in NodesOf(c, pool);
    assert c.pools[pool].count == |NodesOf(c, pool)| by { hide KeyOf, NodesOf; }
    OneElement(NodesOf(c, pool), n);
    hide KeyOf, Sound, Rely, NodesOf, DropPool, DropNode, DeleteAlone;
    ZeroIsShown(c, n);
    if |NodesOf(c, pool)| <= 1 {
      DropPoolKeeps(c, pool, n);
    } else {
      DropNodeKeeps(c, n);
    }
  }

  lemma ZeroIsShown(c: Cloud, n: nat)
    requires Shows(c, 0, n)
    ensures var pool := c.nodes[n].pool;
      DeleteAlone(c, 0, Shown(0).(node := n)) == if |NodesOf(c, pool)| <= 1 then DropPool(c, pool) else DropNode(c, n)
  {
    hide KeyOf, NodesOf, DropPool, DropNode;
  }

  lemma OneElement(elements: set<nat>, x: nat)
    requires x in elements
    ensures elements == {x} <==> |elements| <= 1
  {
    if |elements| <= 1 { assert |elements - {x}| == 0; }
  }

  /** A Delete(0) can take something away exactly when a managed pool has a node still provisioning. */
  lemma ZeroRemovesExactly(c: Cloud)
    requires Sound(c)
    ensures (exists ch :: DeleteAlone(c, 0, ch) != c) <==> exists n :: Shows(c, 0, n)
  {
    hide Sound, KeyOf, NodesOf, DropPoolStep, DropNodeStep, Shows, RefindStep;
    if n :| Shows(c, 0, n) { ZeroTakesProvisioningNode(c, n); }
  }

  /**
   With two provisioning nodes in pools of different keys, Delete(0) can lock one key and drop the other's node: this
   is why runs start no Delete(0).
   */
  lemma ZeroLocksWrongKey(c: Cloud, n: nat, m: nat)
    requires Sound(c) && Shows(c, 0, n) && Shows(c, 0, m)
    requires KeyOf(c.pools[c.nodes[n].pool]) != KeyOf(c.pools[c.nodes[m].pool])
    ensures var key := KeyOf(c.pools[c.nodes[n].pool]).value;
      && FindStep(c, 0, Shown(0).(node := n)).proc == Deleting(0, WaitingFor(key))
      && RefindStep(c, 0, key, Shown(0).(node := m)).proc
         == Deleting(0, if |NodesOf(c, c.nodes[m].pool)| <= 1 then DroppingPool(key, c.nodes[m].pool) else DroppingNode(key, m))
      && KeyOf(c.pools[c.nodes[m].pool]) != Some(key)
  {
    hide KeyOf, Sound, NodesOf;
  }

  // ---------------------------------------------------------------- capacity

  /** In every reachable state a pool's count is its number of nodes, and balances its increments and deletions. */
  lemma NoIncrementLost(cfg: Config, s: State, id: nat)
    requires Reached(cfg, s) && id in s.cloud.pools
    ensures var pool := s.cloud.pools[id];
      && pool.count == |NodesOf(s.cloud, id)|
      && pool.count == pool.history.base + pool.history.grown - pool.history.shrunk
  {
    hide Reached, UnclaimedForeign, ProvidedMarked, LocksHeld, ClaimsDistinct, AllKnow, IdsSound, PoolsUnique, MarksUnique;
    ReachedInv(cfg, s);
  }

  /** A scale that takes effect, acknowledged or not, adds exactly one node to its pool and changes nothing else. */
  lemma ScaleAddsOne(cfg: Config, s: State, p: nat, call: CreateCall, snap: Snapshot, ch: Choice)
    requires Reached(cfg, s) && p in s.procs && s.procs[p] == Creating(call) && call.pc == Scaling(snap)
    ensures var c' := Step(cfg, s, Act(p, ch)).cloud;
      c' == s.cloud || exists n :: n !in s.cloud.nodes && snap.id in s.cloud.pools && c' == Grown(s.cloud, snap.id, n)
  {
    hide Reached, Inv, Sound, UnclaimedForeign, Current, ScaleStep, NormalizeNodeClaimTagValue, ArgsAllowed, Grown, Free, LocksAfter;
    ReachedInv(cfg, s);
    InvKnows(cfg, s, p);
    var n := ScaleStepAddsOne(s.cloud, call, snap, ch);
  }

  lemma ScaleStepAddsOne(c: Cloud, call: CreateCall, snap: Snapshot, ch: Choice) returns (n: nat)
    requires Sound(c) && Current(c, call.args.key, snap)
    ensures snap.id in c.pools
    ensures var c' := ScaleStep(c, call, snap, ch).cloud; c' == c || (n !in c.nodes && c' == Grown(c, snap.id, n))
  {
    hide Sound, KeyOf, ResizeAllowed, Resize, Rely, Grown, Current, ScaleStep;
    CurrentIsThere(c, call.args.key, snap);
    ScaleEffect(c, call, snap, ch);
    n := 0;
    if !ch.outcome.Fail? && ResizeAllowed(c, snap.id, snap.count + 1, ch.added, ch.gone) {
      n := GrowKeeps(c, snap.id, snap.count + 1, ch.added, ch.gone);
    }
  }

  lemma ScaleEffect(c: Cloud, call: CreateCall, snap: Snapshot, ch: Choice)
    requires snap.id in c.pools
    ensures ScaleStep(c, call, snap, ch).cloud
         == if !ch.outcome.Fail? && ResizeAllowed(c, snap.id, snap.count + 1, ch.added, ch.gone)
            then Resize(c, snap.id, snap.count + 1, ch.added, ch.gone) else c
  {
    hide ResizeAllowed, Resize;
  }

  lemma CurrentIsThere(c: Cloud, key: Key, snap: Snapshot)
    requires Current(c, key, snap)
    ensures snap.id in c.pools && KeyOf(c.pools[snap.id]) != None && c.pools[snap.id].count == snap.count
  {
    hide KeyOf;
  }

  // ---------------------------------------------------------------- the capacity one call asks for

  ghost function Present(c: Cloud, key: Key): nat {
    if HasPool(c, key) then 1 else 0
  }

  /** Pools of the key dropped so far, and the one there now. */
  ghost function Tally(s: State, key: Key): nat {
    Vanished(s, key) + Present(s.cloud, key)
  }

  ghost predicate FlagsSound(call: CreateCall) {
    && (call.createdPool <==> call.pools >= 1) && (call.scaledOnce <==> call.scales >= 1) && call.scales <= 1
    && (call.pc.CheckingPlan? || call.pc.Scaling? ==> !call.createdPool && !call.scaledOnce)
  }

  ghost predicate CallBalanced(call: CreateCall, vanished: nat, tally: nat) {
    && FlagsSound(call)
    && call.vanishedBefore <= vanished
    && (call.pools + call.scales >= 1 ==> call.pools + call.scales + call.vanishedBefore <= tally)
  }

  ghost predicate Balanced(s: State) {
    forall p :: p in s.procs && s.procs[p].Creating? ==>
      CallBalanced(s.procs[p].call, Vanished(s, s.procs[p].call.args.key), Tally(s, s.procs[p].call.args.key))
  }

  /** A pool leaves only as the dropped one, and a step that drops one does not add one. */
  ghost predicate PoolsAccounted(c: Cloud, e: Effect) {
    forall key :: HasPool(c, key) && !HasPool(e.cloud, key) ==> e.dropped == Some(key)
  }

  lemma PoolsStay(c: Cloud, c': Cloud, gone: Option<nat>)
    requires forall p :: p in c.pools && gone != Some(p) ==>
      p in c'.pools && c'.pools[p].tags == c.pools[p].tags && c'.pools[p].itype == c.pools[p].itype
    ensures forall key :: HasPool(c, key) && !HasPool(c', key) ==>
      gone.Some? && gone.value in c.pools && KeyOf(c.pools[gone.value]) == Some(key)
  {
    forall p, key | p in c.pools && gone != Some(p) && KeyOf(c.pools[p]) == Some(key) ensures HasPool(c', key) {
      assert KeyOf(c'.pools[p]) == Some(key);
    }
  }

  /** No pool goes or changes its tags or its type. */
  ghost predicate PoolsKept(c: Cloud, c': Cloud) {
    forall p :: p in c.pools ==> p in c'.pools && c'.pools[p].tags == c.pools[p].tags && c'.pools[p].itype == c.pools[p].itype
  }

  lemma WritesKeepPools(c: Cloud)
    ensures PoolsKept(c, c)
    ensures forall id, node, itype, tags, version :: id !in c.pools ==> PoolsKept(c, CreatePool(c, id, node, itype, tags, version))
    ensures forall id, version :: id in c.pools ==> PoolsKept(c, SetVersion(c, id, version))
    ensures forall i, tags :: i in c.instances ==> PoolsKept(c, WriteTags(c, i, tags))
  {}

  lemma ResizeKeepsPools(c: Cloud, id: nat, count: nat, added: set<nat>, gone: set<nat>)
    requires id in c.pools && ResizeAllowed(c, id, count, added, gone)
    ensures PoolsKept(c, Resize(c, id, count, added, gone))
  {
    hide NodesOf;
  }

  /** A Create keeps all pools with their tags and types. */
  lemma CreateKeepsPools(cfg: Config, c: Cloud, call: CreateCall, free: bool, ch: Choice)
    ensures var e := CreateStep(cfg, c, call, free, ch); e.dropped == None && PoolsKept(c, e.cloud)
  {
    hide KeyOf, NodesOf, Matches, ClaimWrite, ResizeAllowed, Resize, CreatePool, SetVersion, WriteTags, FirstClaimable,
         ListedInstances, Unclaimed, NodeClaimTag, HasPool, ListsPoolTags, Discovers, ListsNodes, PoolTagsFit, OnlyQuoted,
         LookupFinds, PoolsKept;
    WritesKeepPools(c);
    match call.pc
    case Scaling(snap) =>
      if snap.id in c.pools && ResizeAllowed(c, snap.id, snap.count + 1, ch.added, ch.gone) {
        ResizeKeepsPools(c, snap.id, snap.count + 1, ch.added, ch.gone);
      }
    case Starting => case Waiting => case Relooking => case Listing => case Pinning(_, _) => case MakingPool =>
    case Reading(_) => case Scanning(_, _) => case Claiming(_, _, _) => case Verifying(_) => case CheckingPlan(_) =>
    case Unlocking(_) => case Returned(_) =>
  }

  lemma DeleteAccounted(c: Cloud, i: nat, pc: DeletePc, free: bool, ch: Choice)
    ensures PoolsAccounted(c, DeleteStep(c, i, pc, free, ch))
  {
    var e := DeleteStep(c, i, pc, free, ch);
    hide KeyOf, NodesOf, HasPool, Shows;
    match pc
    case DroppingPool(_, pool) => PoolsStay(c, e.cloud, Some(pool));
    case DroppingNode(_, node) =>
      PoolsStay(c, e.cloud, if node in c.nodes then Some(c.nodes[node].pool) else None);
      if node in c.nodes && c.nodes[node].pool in e.cloud.pools { PoolsStay(c, e.cloud, None); }
    case Finding => case WaitingFor(_) => case Refinding(_) => case Leaving(_, _) => case Gone(_) =>
  }

  lemma ProcStepAccounted(cfg: Config, s: State, proc: Proc, ch: Choice)
    ensures PoolsAccounted(s.cloud, ProcStep(cfg, s, proc, ch))
  {
    hide KeyOf, HasPool, CreateStep, DeleteStep, MergedTags, Normalize;
    match proc
    case Creating(call) =>
      CreateKeepsPools(cfg, s.cloud, call, Free(cfg, s, proc), ch);
      PoolsStay(s.cloud, ProcStep(cfg, s, proc, ch).cloud, None);
    case Deleting(i, pc) => DeleteAccounted(s.cloud, i, pc, Free(cfg, s, proc), ch);
    case Updating(_, _, _, _) => PoolsStay(s.cloud, ProcStep(cfg, s, proc, ch).cloud, None);
  }

  /** No event lowers the tally of a key, nor the number of its pools gone. */
  lemma TallyGrows(cfg: Config, s: State, e: Event, key: Key)
    ensures Tally(s, key) <= Tally(Step(cfg, s, e), key) && Vanished(s, key) <= Vanished(Step(cfg, s, e), key)
  {
    hide KeyOf, HasPool, ProcStep, ArgsAllowed, Foreign;
    match e
    case Act(p, ch) => if p in s.procs { ProcStepAccounted(cfg, s, s.procs[p], ch); }
    case Provisioned(_, _, _) => PoolsStay(s.cloud, Step(cfg, s, e).cloud, None);
    case _ =>
  }

  /** What one step does to the counters of a call: nothing, or a pool made where there was none, or the one scale. */
  ghost predicate Counts(c: Cloud, call: CreateCall, c': Cloud, call': CreateCall) {
    && call'.args == call.args && call'.vanishedBefore == call.vanishedBefore && FlagsSound(call')
    && (|| (call'.pools == call.pools && call'.scales == call.scales)
        || (call'.pools == call.pools + 1 && call'.scales == call.scales
            && !HasPool(c, call.args.key) && HasPool(c', call.args.key))
        || (call.pools == call.scales == call'.pools == 0 && call'.scales == 1 && HasPool(c, call.args.key)))
  }

  lemma CreateCounts(cfg: Config, c: Cloud, call: CreateCall, free: bool, ch: Choice)
    requires Sound(c) && UnclaimedForeign(c) && ArgsAllowed(call.args)
    requires CreateKnows(c, call.args, call.pc) && FlagsSound(call)
    ensures var e := CreateStep(cfg, c, call, free, ch);
      e.proc.Creating? && Counts(c, call, e.cloud, e.proc.call)
  {
    hide KeyOf, NodesOf, ResizeAllowed, Resize, HasPool, ListsPoolTags, Sound, UnclaimedForeign, ArgsAllowed, CreatePool,
         NoneMarked, NormalizeNodeClaimTagValue, Rely, Vouched, Placed, Current;
    if call.pc.MakingPool? {
      if !ch.outcome.Fail? && ch.pick !in c.pools && ch.node !in c.nodes && ListsPoolTags(cfg, call.args, ch.tags) {
        MadeCloud(cfg, c, call.args, ch.pick, ch.node, ch.tags, NormalizeNodeClaimTagValue(call.args.claim));
      }
    } else if call.pc.Scaling? {
      CurrentHasPool(c, call.args.key, call.pc.pool);
    } else {
      hide CreateStep, CreateKnows, Counts;
      OtherStepsCount(cfg, c, call, free, ch);
    }
  }

  lemma OtherStepsCount(cfg: Config, c: Cloud, call: CreateCall, free: bool, ch: Choice)
    requires FlagsSound(call) && !call.pc.MakingPool? && !call.pc.Scaling?
    ensures var e := CreateStep(cfg, c, call, free, ch);
      e.proc.Creating? && Counts(c, call, e.cloud, e.proc.call)
  {
    hide Counts, CreateStep, FlagsSound;
    if call.pc.Starting? || call.pc.Waiting? || call.pc.Relooking? || call.pc.Listing? || call.pc.Pinning? {
      EarlyStepsCount(cfg, c, call, free, ch);
    } else {
      LateStepsCount(cfg, c, call, free, ch);
    }
  }

  lemma EarlyStepsCount(cfg: Config, c: Cloud, call: CreateCall, free: bool, ch: Choice)
    requires FlagsSound(call)
    requires call.pc.Starting? || call.pc.Waiting? || call.pc.Relooking? || call.pc.Listing? || call.pc.Pinning?
    ensures var e := CreateStep(cfg, c, call, free, ch);
      e.proc.Creating? && Counts(c, call, e.cloud, e.proc.call)
  {
    hide KeyOf, Matches, HasPool, SetVersion, PoolTagsFit, OnlyQuoted, LookupFinds;
    match call.pc
    case Starting => case Waiting => case Relooking => case Listing => case Pinning(_, _) => case _ =>
  }

  lemma LateStepsCount(cfg: Config, c: Cloud, call: CreateCall, free: bool, ch: Choice)
    requires FlagsSound(call)
    requires call.pc.Reading? || call.pc.Scanning? || call.pc.Claiming? || call.pc.Verifying? || call.pc.CheckingPlan?
          || call.pc.Unlocking? || call.pc.Returned?
    ensures var e := CreateStep(cfg, c, call, free, ch);
      e.proc.Creating? && Counts(c, call, e.cloud, e.proc.call)
  {
    hide NodesOf, ClaimWrite, FirstClaimable, ListedInstances, Unclaimed, NodeClaimTag, HasPool, Discovers, ListsNodes, WriteTags;
    match call.pc
    case Reading(_) => case Scanning(_, _) => case Claiming(_, _, _) => case Verifying(_) => case CheckingPlan(_) =>
    case Unlocking(_) => case Returned(_) => case _ =>
  }

  lemma CurrentHasPool(c: Cloud, key: Key, snap: Snapshot)
    ensures Current(c, key, snap) ==> HasPool(c, key)
  {
    hide KeyOf;
  }

  /** A Create's own step: it scales once at most, and only while it has made no pool. */
  lemma OwnStepBalanced(cfg: Config, s: State, p: nat, ch: Choice)
    requires Inv(cfg, s) && p in s.procs && s.procs[p].Creating? && Balanced(s)
    ensures var s' := Step(cfg, s, Act(p, ch));
      s'.procs[p].Creating? && s'.procs[p].call.args == s.procs[p].call.args
      && CallBalanced(s'.procs[p].call, Vanished(s', s'.procs[p].call.args.key), Tally(s', s'.procs[p].call.args.key))
  {
    var s', call := Step(cfg, s, Act(p, ch)), s.procs[p].call;
    InvKnows(cfg, s, p);
    assert ArgsAllowed(call.args) && CreateKnows(s.cloud, call.args, call.pc) by {
      hide ArgsAllowed, CreateKnows;
    }
    hide Inv, Sound, UnclaimedForeign, ArgsAllowed, CreateKnows, CreateStep, HasPool, Vanished;
    TallyGrows(cfg, s, Act(p, ch), call.args.key);
    CreateCounts(cfg, s.cloud, call, Free(cfg, s, s.procs[p]), ch);
  }

  lemma StepBalanced(cfg: Config, s: State, e: Event)
    requires Inv(cfg, s) && Balanced(s)
    ensures Balanced(Step(cfg, s, e))
  {
    var s' := Step(cfg, s, e);
    forall p | p in s'.procs && s'.procs[p].Creating?
      ensures CallBalanced(s'.procs[p].call, Vanished(s', s'.procs[p].call.args.key), Tally(s', s'.procs[p].call.args.key))
    {
      hide Inv, Step, Balanced, CallBalanced, Tally, Vanished;
      if e.Act? && e.p == p && p in s.procs {
        ActorKind(cfg, s, p, e.choice);
        OwnStepBalanced(cfg, s, p, e.choice);
      } else {
        OtherStepBalanced(cfg, s, e, p);
      }
    }
  }

  lemma OtherStepBalanced(cfg: Config, s: State, e: Event, p: nat)
    requires Balanced(s) && !(e.Act? && e.p == p) && p in Step(cfg, s, e).procs && Step(cfg, s, e).procs[p].Creating?
    ensures var s' := Step(cfg, s, e); var key := s'.procs[p].call.args.key;
      CallBalanced(s'.procs[p].call, Vanished(s', key), Tally(s', key))
  {
    TallyGrows(cfg, s, e, Step(cfg, s, e).procs[p].call.args.key);
    hide ProcStep, ArgsAllowed, Foreign, HasPool;
  }

  lemma ActorKind(cfg: Config, s: State, p: nat, ch: Choice)
    requires p in s.procs
    ensures Step(cfg, s, Act(p, ch)).procs[p].Creating? <==> s.procs[p].Creating?
  {
    hide ProcStep;
    ProcStepDisciplined(cfg, s, s.procs[p], ch);
  }

  lemma {:induction false} RunBalanced(cfg: Config, s: State, events: seq<Event>)
    requires Initial(s)
    ensures Balanced(After(cfg, s, events))
  {
    hide Inv, Step, Sound, UnclaimedForeign, ProvidedMarked, CallBalanced;
    if events != [] {
      var front := events[..|events| - 1];
      RunBalanced(cfg, s, front);
      InitialInv(cfg, s);
      RunKeepsInv(cfg, s, front);
      StepBalanced(cfg, After(cfg, s, front), events[|events| - 1]);
    }
  }

  /**
   Over all attempts of one Create call at most one scale is acknowledged, and a scale comes only before any
   acknowledged pool creation of the call; each further pool creation needs a pool of the key to have gone.
   */
  lemma CapacityOfOneCall(cfg: Config, s: State, p: nat)
    requires Reached(cfg, s) && p in s.procs && s.procs[p].Creating?
    ensures var call := s.procs[p].call;
      && call.scales <= 1
      && call.pools + call.scales <= 1 + Vanished(s, call.args.key) - call.vanishedBefore
      && (call.pc.Scaling? ==> call.pools == call.scales == 0)
  {
    hide Initial, After;
    var start, events :| Initial(start) && s == After(cfg, start, events);
    RunBalanced(cfg, start, events);
  }

  /** The process, if it is a Create, began with at least as many pools of its key gone as there were in s. */
  ghost predicate BeganAfter(s: State, s': State, p: nat) {
    p in s'.procs && s'.procs[p].Creating? ==>
      Vanished(s, s'.procs[p].call.args.key) <= s'.procs[p].call.vanishedBefore
  }

  ghost predicate VanishedMore(s: State, s': State) {
    forall key :: Vanished(s, key) <= Vanished(s', key)
  }

  lemma StepBeganAfter(cfg: Config, s: State, mid: State, e: Event, p: nat)
    requires Inv(cfg, mid) && Balanced(mid) && VanishedMore(s, mid) && BeganAfter(s, mid, p)
    ensures VanishedMore(s, Step(cfg, mid, e)) && BeganAfter(s, Step(cfg, mid, e), p)
  {
    forall key ensures Vanished(s, key) <= Vanished(Step(cfg, mid, e), key) { TallyGrows(cfg, mid, e, key); }
    if e.Act? && e.p == p && p in mid.procs {
      ActorKind(cfg, mid, p, e.choice);
      if mid.procs[p].Creating? { OwnStepCounts(cfg, mid, p, e.choice); }
      hide Inv, Step, Balanced, Vanished;
    } else {
      hide Inv, ProcStep, Balanced, Vanished, ArgsAllowed, Foreign;
    }
  }

  lemma OwnStepCounts(cfg: Config, s: State, p: nat, ch: Choice)
    requires Inv(cfg, s) && p in s.procs && s.procs[p].Creating? && Balanced(s)
    ensures var s' := Step(cfg, s, Act(p, ch));
      s'.procs[p].Creating? && s'.procs[p].call.args == s.procs[p].call.args
      && s'.procs[p].call.vanishedBefore == s.procs[p].call.vanishedBefore
  {
    var call := s.procs[p].call;
    InvKnows(cfg, s, p);
    assert ArgsAllowed(call.args) && CreateKnows(s.cloud, call.args, call.pc) by {
      hide ArgsAllowed, CreateKnows;
    }
    hide Inv, Sound, UnclaimedForeign, ArgsAllowed, CreateKnows, CreateStep, HasPool, Vanished;
    CreateCounts(cfg, s.cloud, call, Free(cfg, s, s.procs[p]), ch);
  }

  lemma {:induction false} RunBeganAfter(cfg: Config, s: State, events: seq<Event>, p: nat)
    requires Inv(cfg, s) && Balanced(s) && p !in s.procs
    ensures var s' := After(cfg, s, events); Balanced(s') && VanishedMore(s, s') && BeganAfter(s, s', p)
  {
    hide Inv, Step, Balanced;
    if events != [] {
      var front := events[..|events| - 1];
      RunBeganAfter(cfg, s, front, p);
      RunKeepsInv(cfg, s, front);
      hide After;
      StepBalanced(cfg, After(cfg, s, front), events[|events| - 1]);
      StepBeganAfter(cfg, s, After(cfg, s, front), events[|events| - 1], p);
      AfterLast(cfg, s, events);
    } else {
      AfterNone(cfg, s);
    }
  }

  /**
   So between a state in which a Create has not begun and any later one, the pools and scales acknowledged to it exceed
   one only by as many pools of its key as went away in between.
   */
  lemma CapacitySinceStart(cfg: Config, s: State, events: seq<Event>, p: nat)
    requires Reached(cfg, s) && p !in s.procs
    requires var s' := After(cfg, s, events); p in s'.procs && s'.procs[p].Creating?
    ensures var s' := After(cfg, s, events); var call := s'.procs[p].call;
      call.pools + call.scales <= 1 + Vanished(s', call.args.key) - Vanished(s, call.args.key)
  {
    assert Balanced(s) by {
      hide Initial, After, Balanced;
      var start, before :| Initial(start) && s == After(cfg, start, before);
      RunBalanced(cfg, start, before);
    }
    ReachedInv(cfg, s);
    ReachedAfter(cfg, s, events);
    hide Reached, Inv, After, Vanished;
    CapacityOfOneCall(cfg, After(cfg, s, events), p);
    RunBeganAfter(cfg, s, events, p);
  }

  /** A step that reports a pool dropped drops the one pool of its key. */
  lemma DroppedWasThere(c: Cloud, i: nat, pc: DeletePc, free: bool, ch: Choice, key: Key)
    requires PoolsUnique(c)
    ensures var e := DeleteStep(c, i, pc, free, ch); e.dropped == Some(key) ==> HasPool(c, key) && !HasPool(e.cloud, key)
  {
    hide KeyOf, NodesOf, Shows, KeyFixed, HasPool, PoolsUnique;
    if DeleteStep(c, i, pc, free, ch).dropped != Some(key) { return; }
    match pc
    case DroppingPool(_, pool) => WithoutThePool(c, DropPool(c, pool), pool, key);
    case DroppingNode(_, node) => WithoutThePool(c, DropNode(c, node), c.nodes[node].pool, key);
    case _ =>
  }

  lemma WithoutThePool(c: Cloud, c': Cloud, pool: nat, key: Key)
    requires PoolsUnique(c) && pool in c.pools && KeyOf(c.pools[pool]) == Some(key) && c'.pools == c.pools - {pool}
    ensures HasPool(c, key) && !HasPool(c', key)
  {
    hide KeyOf;
  }

  /** The number of a key's pools gone rises by one exactly when an event takes the key's pool away. */
  lemma VanishedExactly(cfg: Config, s: State, e: Event, key: Key)
    requires Inv(cfg, s)
    ensures var s' := Step(cfg, s, e);
      Vanished(s', key) == Vanished(s, key) + if HasPool(s.cloud, key) && !HasPool(s'.cloud, key) then 1 else 0
  {
    assert PoolsUnique(s.cloud) by {
      hide PoolsUnique, IdsSound, CountsSound, MarksUnique, UnclaimedForeign, ProvidedMarked, LocksHeld, ClaimsDistinct, AllKnow;
    }
    hide Inv, KeyOf, HasPool, ProcStep, ArgsAllowed, Foreign, PoolsUnique;
    match e
    case Act(p, ch) => if p in s.procs { ActVanishes(cfg, s, p, ch, key); }
    case Provisioned(_, _, _) => PoolsStay(s.cloud, Step(cfg, s, e).cloud, None);
    case _ =>
  }

  lemma ActVanishes(cfg: Config, s: State, p: nat, ch: Choice, key: Key)
    requires PoolsUnique(s.cloud) && p in s.procs
    ensures var s' := Step(cfg, s, Act(p, ch));
      Vanished(s', key) == Vanished(s, key) + if HasPool(s.cloud, key) && !HasPool(s'.cloud, key) then 1 else 0
  {
    hide HasPool, ProcStep, PoolsUnique, LocksAfter;
    ProcStepAccounted(cfg, s, s.procs[p], ch);
    ProcDropped(cfg, s, s.procs[p], ch, key);
  }

  lemma ProcDropped(cfg: Config, s: State, proc: Proc, ch: Choice, key: Key)
    requires PoolsUnique(s.cloud)
    ensures var e := ProcStep(cfg, s, proc, ch); e.dropped == Some(key) ==> HasPool(s.cloud, key) && !HasPool(e.cloud, key)
  {
    hide HasPool, PoolsUnique, CreateStep, DeleteStep, MergedTags, Normalize, KeepsClaim, WriteTags, Free;
    match proc
    case Creating(call) => CreateKeepsPools(cfg, s.cloud, call, Free(cfg, s, proc), ch);
    case Deleting(i, pc) => DroppedWasThere(s.cloud, i, pc, Free(cfg, s, proc), ch, key);
    case Updating(_, _, _, _) =>
  }

  // ---------------------------------------------------------------- no call gets stuck

  lemma {:induction false} ListingOf<T>(elements: set<T>) returns (listed: seq<T>)
    ensures forall x :: x in listed <==> x in elements
    ensures forall i, j :: 0 <= i < j < |listed| ==> listed[i] != listed[j]
    decreases |elements|
  {
    if elements == {} {
      listed := [];
    } else {
      var x :| x in elements;
      var rest := ListingOf(elements - {x});
      listed := [x] + rest;
    }
  }

  lemma {:induction false} UnusedId(used: set<nat>) returns (id: nat)
    ensures id !in used && forall x :: x in used ==> x < id
    decreases |used|
  {
    if used == {} {
      id := 0;
    } else {
      var x :| x in used;
      var above := UnusedId(used - {x});
      id := if x < above then above else x + 1;
      assert forall y :: y in used ==> y == x || y in used - {x};
    }
  }

  lemma LookupAnswers(c: Cloud, claim: string) returns (pick: nat)
    ensures LookupFinds(c, claim, pick, Some(pick)) || LookupFinds(c, claim, pick, None)
  {
    hide MatchesFilter, NodeClaimTag;
    if i :| Matches(c, i, claim) { pick := i; } else { pick := 0; }
  }

  /** What the listing of pools can answer under a key. */
  lemma PoolAnswers(c: Cloud, key: Key) returns (pick: nat)
    ensures (pick in c.pools && KeyOf(c.pools[pick]) == Some(key)) || !HasPool(c, key)
  {
    hide KeyOf;
    pick := 0;
    if HasPool(c, key) { pick :| pick in c.pools && KeyOf(c.pools[pick]) == Some(key); }
  }

  lemma GrowthAllowed(c: Cloud, key: Key, snap: Snapshot) returns (added: set<nat>)
    requires CountsSound(c) && Current(c, key, snap)
    ensures ResizeAllowed(c, snap.id, snap.count + 1, added, {})
  {
    hide KeyOf;
    var node := UnusedId(c.nodes.Keys);
    added := {node};
  }

  predicate Finished(proc: Proc) {
    match proc
    case Creating(call) => call.pc.Returned?
    case Deleting(_, pc) => pc.Gone?
    case Updating(_, _, _, upc) => upc.Updated?
  }

  predicate Waits(proc: Proc) {
    match proc
    case Creating(call) => call.pc.Waiting?
    case Deleting(_, pc) => pc.WaitingFor?
    case Updating(_, _, _, _) => false
  }

  /**
   In every reachable state each unfinished process that does not wait for a taken lock has a next step in which its
   API call succeeds; for a Create that verifies its claim on a live instance this is the step that finds it.
   */
  lemma NeverStuck(cfg: Config, s: State, p: nat) returns (ch: Choice)
    requires Reached(cfg, s) && p in s.procs && !Finished(s.procs[p]) && (Waits(s.procs[p]) ==> Free(cfg, s, s.procs[p]))
    ensures ch.outcome == Ack && ProcStep(cfg, s, s.procs[p], ch).proc != s.procs[p]
    ensures match s.procs[p]
      case Creating(call) =>
        call.pc.Verifying? && call.pc.instance in s.cloud.instances && !s.cloud.forged ==>
          ProcStep(cfg, s, s.procs[p], ch).proc == Creating(call.(pc := Unlocking(Return(Got(call.pc.instance, false)))))
      case _ => true
  {
    ReachedInv(cfg, s);
    InvKnows(cfg, s, p);
    hide Reached, Inv, UnclaimedForeign, ArgsAllowed, NormalizeNodeClaimTagValue, Free, CreateStep, DeleteStep, MergedTags,
         Normalize, PoolTagsFit;
    match s.procs[p]
    case Creating(call) =>
      NamedClaim(call.args);
      ch := CreateMoves(cfg, s.cloud, call, Free(cfg, s, s.procs[p]));
    case Deleting(i, pc) => ch := DeleteMoves(s.cloud, i, pc, Free(cfg, s, s.procs[p]));
    case Updating(_, _, _, _) => ch := Shown(0);
  }

  lemma DeleteMoves(c: Cloud, i: nat, pc: DeletePc, free: bool) returns (ch: Choice)
    requires !pc.Gone? && (pc.WaitingFor? ==> free)
    ensures ch.outcome == Ack && DeleteStep(c, i, pc, free, ch).proc != Deleting(i, pc)
  {
    hide KeyOf, NodesOf, DropPool, DropNode;
    ch := Shown(0);
    if n :| Shows(c, i, n) { ch := ch.(node := n); }
  }

  lemma CreateMoves(cfg: Config, c: Cloud, call: CreateCall, free: bool) returns (ch: Choice)
    requires Sound(c) && CreateKnows(c, call.args, call.pc) && (call.pc.Waiting? ==> free) && !call.pc.Returned?
    requires call.args.claim != ""
    ensures ch.outcome == Ack && CreateStep(cfg, c, call, free, ch).proc != Creating(call)
    ensures call.pc.Verifying? && call.pc.instance in c.instances && !c.forged ==>
      CreateStep(cfg, c, call, free, ch).proc == Creating(call.(pc := Unlocking(Return(Got(call.pc.instance, false)))))
  {
    hide KeyOf, NodesOf, HasPool, Matches, LookupFinds, ResizeAllowed, Resize, CreatePool, ClaimWrite, NoneMarked, Current, Placed,
         Vouched, Marked, NormalizeNodeClaimTagValue, NodeClaimTag, FirstClaimable, ListedInstances, Unclaimed, PoolTagMap,
         IdsSound, CountsSound, PoolsUnique, MarksUnique, Marks, SetVersion, WriteTags, InPool;
    ch := Shown(0);
    match call.pc
    case Starting => var pick := LookupAnswers(c, call.args.claim); ch := Shown(pick);
    case Relooking => var pick := LookupAnswers(c, call.args.claim); ch := Shown(pick);
    case Listing => var pick := PoolAnswers(c, call.args.key); ch := Shown(pick);
    case MakingPool =>
      var id := UnusedId(c.pools.Keys);
      var node := UnusedId(c.nodes.Keys);
      var tags := ListingOf(PrintedPairs(PoolTagMap(cfg.clusterName, call.args.key.nodePool, call.args.nodeClass)));
      ch := Choice(Ack, false, id, node, [], {}, {}, tags);
    case Reading(snap) =>
      if !cfg.enterprise {
        var listed := ListingOf(NodesOf(c, snap.id));
        ch := ch.(listed := listed);
      }
    case Verifying(i) =>
      if i in c.instances && !c.forged { CarriesMark(c, i, call.args.claim); } else { ch := ch.(flag := true); }
    case Scaling(snap) =>
      var added := GrowthAllowed(c, call.args.key, snap);
      ch := ch.(added := added);
    case _ =>
  }
}
