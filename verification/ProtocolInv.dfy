/**
 The inductive invariant of the protocol: what each process knows at each of its steps, that no step of another
 process takes this knowledge away, and that every event keeps the invariant.
 */
module ProtocolInv {
  import opened ClaimMarks
  import opened CloudModel
  import opened InPlaceTags
  import opened Options
  import opened Protocol
  import opened Tags
  import opened TagText

  // ---------------------------------------------------------------- what a process knows

  ghost predicate NoneMarked(c: Cloud, mark: string) {
    forall i :: c.forged || !Marked(c, i, mark)
  }

  /** The snapshot is of a live pool of this key, with the count it still has. */
  ghost predicate Current(c: Cloud, key: Key, snap: Snapshot) {
    && snap.id in c.pools && KeyOf(c.pools[snap.id]) == Some(key)
    && c.pools[snap.id].count == snap.count
  }

  /** A node of a pool of this key holds the instance. */
  ghost predicate Placed(c: Cloud, key: Key, i: nat) {
    exists n :: n in c.nodes && c.nodes[n].instance == i && c.nodes[n].pool in c.pools
             && KeyOf(c.pools[c.nodes[n].pool]) == Some(key)
  }

  /** What a finished Create vouches for: while it lives, the instance is claimed, and by a mark the lookup matches unless quoted. */
  ghost predicate Vouched(c: Cloud, i: nat, mark: string, quoted: bool) {
    && i in c.used
    && (!c.forged && i in c.instances ==>
          && Marks(c.instances[i].tags) != {}
          && (quoted <==> forall v :: Marked(c, i, v) ==> !(mark <= v)))
  }

  ghost predicate CreateKnows(c: Cloud, args: CreateArgs, pc: CreatePc) {
    var mark := NormalizeNodeClaimTagValue(args.claim);
    match pc
    case Starting => true
    case Waiting => true
    case Relooking => true
    case Listing => NoneMarked(c, mark)
    case Pinning(snap, _) => NoneMarked(c, mark) && Current(c, args.key, snap)
    case MakingPool => NoneMarked(c, mark) && !HasPool(c, args.key)
    case Reading(snap) => NoneMarked(c, mark) && Current(c, args.key, snap)
    case Scanning(snap, todo) =>
      && NoneMarked(c, mark) && Current(c, args.key, snap)
      && forall i :: i in todo && i != 0 ==> Placed(c, args.key, i)
    case Claiming(snap, i, seen) =>
      && NoneMarked(c, mark) && Current(c, args.key, snap) && Placed(c, args.key, i)
      && i != 0 && Marks(seen) == {} && (!c.forged && i in c.instances ==> c.instances[i].tags == seen)
    case Verifying(i) => i in c.used && (!c.forged && i in c.instances ==> Marked(c, i, mark))
    case CheckingPlan(snap) => Current(c, args.key, snap)
    case Scaling(snap) => Current(c, args.key, snap)
    case Unlocking(Return(Got(i, quoted))) => Vouched(c, i, mark, quoted)
    case Unlocking(_) => true
    case Returned(Got(i, quoted)) => Vouched(c, i, mark, quoted)
    case Returned(Errored) => true
  }

  /** The key a Delete locks is the key of every managed pool its instance can be in. */
  ghost predicate KeyFixed(c: Cloud, i: nat, key: Key) {
    i in c.used && forall n :: Shows(c, i, n) ==> KeyOf(c.pools[c.nodes[n].pool]) == Some(key)
  }

  ghost predicate DeleteKnows(c: Cloud, i: nat, pc: DeletePc) {
    i != 0 &&
    match pc
    case Finding => true
    case WaitingFor(key) => KeyFixed(c, i, key)
    case Refinding(key) => KeyFixed(c, i, key)
    case DroppingPool(key, pool) =>
      && pool in c.pools && KeyOf(c.pools[pool]) == Some(key)
      && exists n :: n in c.nodes && c.nodes[n] == Node(pool, i) && NodesOf(c, pool) == {n}
    case DroppingNode(key, node) =>
      && node in c.nodes && c.nodes[node].instance == i
      && c.nodes[node].pool in c.pools && KeyOf(c.pools[c.nodes[node].pool]) == Some(key)
      && |NodesOf(c, c.nodes[node].pool)| > 1
    case Leaving(_, result) =>
      && (result.Deleted? ==> Removed(c, i))
      && (result.NotFound? ==> i in c.used && NotShown(c, i))
    case Gone(result) => result.Deleted? ==> Removed(c, i)
  }

  /** No node of a managed pool holds the instance. */
  ghost predicate NotShown(c: Cloud, i: nat) {
    forall n :: !Shows(c, i, n)
  }

  /** The instance existed and is gone for good: its ID is spent, and no instance and no node has it. */
  ghost predicate Removed(c: Cloud, i: nat) {
    i in c.used && i !in c.instances && forall n :: n in c.nodes ==> c.nodes[n].instance != i
  }

  ghost predicate UpdateKnows(c: Cloud, i: nat, upc: UpdatePc) {
    && i in c.used && (!c.forged && i in c.instances ==> Marks(c.instances[i].tags) != {})
    && match upc
       case WritingTags(seen) =>
         !c.forged ==>
           && (forall a, b :: a in Marks(seen) && b in Marks(seen) ==> a == b)
           && (i in c.instances ==> Marks(c.instances[i].tags) == Marks(seen))
       case _ => true
  }

  /** Past its length check, a call's pool tags fit the limit. */
  ghost predicate ArgsSound(cfg: Config, proc: Proc) {
    proc.Creating? ==>
      && ArgsAllowed(proc.call.args)
      && (proc.call.pc.Starting? || proc.call.pc.Returned? || PoolTagsFit(cfg, proc.call.args))
  }

  ghost predicate Knows(c: Cloud, proc: Proc) {
    match proc
    case Creating(call) => CreateKnows(c, call.args, call.pc)
    case Deleting(i, pc) => DeleteKnows(c, i, pc)
    case Updating(i, _, _, upc) => UpdateKnows(c, i, upc)
  }

  // ---------------------------------------------------------------- knowledge is stable under others' steps

  lemma CurrentStable(c: Cloud, c': Cloud, acting: Option<Key>, key: Key, snap: Snapshot)
    requires OtherPoolsKept(c, c', acting) && Some(key) != acting && Current(c, key, snap)
    ensures Current(c', key, snap)
  {
    hide KeyOf, NodesOf;
  }

  lemma PlacedStable(c: Cloud, c': Cloud, acting: Option<Key>, key: Key, i: nat)
    requires IdsSound(c) && OtherPoolsKept(c, c', acting) && Some(key) != acting && i != 0 && Placed(c, key, i)
    ensures Placed(c', key, i) && i in c.used
  {
    hide KeyOf;
    var n :| n in c.nodes && c.nodes[n].instance == i && c.nodes[n].pool in c.pools
          && KeyOf(c.pools[c.nodes[n].pool]) == Some(key);
    assert n in NodesOf(c, c.nodes[n].pool);
    assert n in NodesOf(c', c.nodes[n].pool);
  }

  lemma NoneMarkedStable(c: Cloud, c': Cloud, acting: Option<Key>, written: Option<string>, mark: string)
    requires MarksKept(c, c', acting, written) && written != Some(mark) && NoneMarked(c, mark)
    ensures NoneMarked(c', mark)
  {
    hide Marks, KeyOf;
    forall i ensures c'.forged || !Marked(c', i, mark) {
      assert c.forged || !Marked(c, i, mark);
    }
  }

  lemma NoPoolStable(c: Cloud, c': Cloud, acting: Option<Key>, key: Key)
    requires OtherPoolsKept(c, c', acting) && Some(key) != acting && !HasPool(c, key)
    ensures !HasPool(c', key)
  {
    hide KeyOf, NodesOf;
  }

  /** Marks never go away while their instance lives. */
  lemma MarkedStable(c: Cloud, c': Cloud, acting: Option<Key>, written: Option<string>, i: nat)
    requires IdsSound(c) && MarksKept(c, c', acting, written) && i in c.used
    requires !c.forged && i in c.instances ==> Marks(c.instances[i].tags) != {}
    ensures c.forged ==> c'.forged
    ensures !c'.forged && i in c'.instances ==> i in c.instances && Marks(c'.instances[i].tags) == Marks(c.instances[i].tags)
  {
    hide Marks, KeyOf;
  }

  lemma VouchedStable(c: Cloud, c': Cloud, acting: Option<Key>, written: Option<string>, i: nat, mark: string, quoted: bool)
    requires IdsSound(c) && MarksKept(c, c', acting, written) && c.used <= c'.used && Vouched(c, i, mark, quoted)
    ensures Vouched(c', i, mark, quoted)
  {
    MarkedStable(c, c', acting, written, i);
    hide Marks, MarksKept, IdsSound;
    assert !c'.forged && i in c'.instances ==> forall v :: Marked(c', i, v) <==> Marked(c, i, v);
  }

  /** An unmarked instance placed under a key keeps its tags while nobody else acts on that key. */
  lemma SeenStable(c: Cloud, c': Cloud, acting: Option<Key>, written: Option<string>, key: Key, i: nat, seen: seq<string>)
    requires IdsSound(c) && MarksKept(c, c', acting, written) && Some(key) != acting
    requires i != 0 && Placed(c, key, i) && Marks(seen) == {} && (!c.forged && i in c.instances ==> c.instances[i].tags == seen)
    ensures !c'.forged && i in c'.instances ==> c'.instances[i].tags == seen
  {
    PlacedOnlyThere(c, key, i);
    hide Marks, KeyOf;
  }

  /** No pool of another key holds the instance. */
  lemma PlacedOnlyThere(c: Cloud, key: Key, i: nat)
    requires IdsSound(c) && i != 0 && Placed(c, key, i)
    ensures i in c.used
    ensures forall p :: p in c.pools && InPool(c, p, i) ==> KeyOf(c.pools[p]) == Some(key)
  {
    hide KeyOf;
    var n :| n in c.nodes && c.nodes[n].instance == i && c.nodes[n].pool in c.pools
          && KeyOf(c.pools[c.nodes[n].pool]) == Some(key);
    forall p | p in c.pools && InPool(c, p, i) ensures KeyOf(c.pools[p]) == Some(key) {
      var m :| m in c.nodes && c.nodes[m] == Node(p, i);
      assert m == n;
    }
  }

  lemma CreateStable(c: Cloud, c': Cloud, acting: Option<Key>, written: Option<string>, args: CreateArgs, pc: CreatePc)
    requires IdsSound(c) && Rely(c, c', acting, written) && CreateKnows(c, args, pc)
    requires HoldsLock(Creating(CreateCall(args, pc, false, false, 0, 0, 0))) ==> Some(args.key) != acting
    requires !pc.Returned? ==> written != Some(NormalizeNodeClaimTagValue(args.claim))
    ensures CreateKnows(c', args, pc)
  {
    hide KeyOf, Marks, OtherPoolsKept, MarksKept, Current, Placed, NoneMarked, HasPool, Vouched, IdsSound, Marked;
    var mark := NormalizeNodeClaimTagValue(args.claim);
    assert c.used <= c'.used;
    match pc
    case Starting => case Waiting => case Relooking =>
    case Listing => NoneMarkedStable(c, c', acting, written, mark);
    case Pinning(snap, _) =>
      NoneMarkedStable(c, c', acting, written, mark);
      CurrentStable(c, c', acting, args.key, snap);
    case MakingPool =>
      NoneMarkedStable(c, c', acting, written, mark);
      NoPoolStable(c, c', acting, args.key);
    case Reading(snap) =>
      NoneMarkedStable(c, c', acting, written, mark);
      CurrentStable(c, c', acting, args.key, snap);
    case Scanning(snap, todo) =>
      NoneMarkedStable(c, c', acting, written, mark);
      CurrentStable(c, c', acting, args.key, snap);
      forall i | i in todo && i != 0 ensures Placed(c', args.key, i) {
        PlacedStable(c, c', acting, args.key, i);
      }
    case Claiming(snap, i, seen) =>
      NoneMarkedStable(c, c', acting, written, mark);
      CurrentStable(c, c', acting, args.key, snap);
      PlacedStable(c, c', acting, args.key, i);
      SeenStable(c, c', acting, written, args.key, i, seen);
    case Verifying(i) => VerifiedStable(c, c', acting, written, i, mark);
    case CheckingPlan(snap) => CurrentStable(c, c', acting, args.key, snap);
    case Scaling(snap) => CurrentStable(c, c', acting, args.key, snap);
    case Unlocking(Return(Got(i, quoted))) => VouchedStable(c, c', acting, written, i, mark, quoted);
    case Unlocking(_) =>
    case Returned(Got(i, quoted)) => VouchedStable(c, c', acting, written, i, mark, quoted);
    case Returned(Errored) =>
  }

  lemma VerifiedStable(c: Cloud, c': Cloud, acting: Option<Key>, written: Option<string>, i: nat, mark: string)
    requires IdsSound(c) && MarksKept(c, c', acting, written)
    requires i in c.used && (!c.forged && i in c.instances ==> Marked(c, i, mark))
    ensures !c'.forged && i in c'.instances ==> Marked(c', i, mark)
  {
    hide Marks, KeyOf;
    MarkedStable(c, c', acting, written, i);
  }

  lemma KeyFixedStable(c: Cloud, c': Cloud, i: nat, key: Key)
    requires PlacesKept(c, c') && i != 0 && KeyFixed(c, i, key)
    ensures KeyFixed(c', i, key)
  {
    hide KeyOf;
    forall n | Shows(c', i, n) ensures KeyOf(c'.pools[c'.nodes[n].pool]) == Some(key) {
      assert Shows(c, i, n);
    }
  }

  lemma RemovedStable(c: Cloud, c': Cloud, acting: Option<Key>, written: Option<string>, i: nat)
    requires IdsSound(c') && PlacesKept(c, c') && MarksKept(c, c', acting, written) && i != 0 && Removed(c, i)
    ensures Removed(c', i)
  {
    hide KeyOf, Marks;
  }

  lemma NotShownStable(c: Cloud, c': Cloud, i: nat)
    requires PlacesKept(c, c') && i != 0 && i in c.used && NotShown(c, i)
    ensures i in c'.used && NotShown(c', i)
  {
    hide KeyOf;
    forall n ensures Shows(c', i, n) ==> Shows(c, i, n) {}
  }

  lemma DeleteStable(c: Cloud, c': Cloud, acting: Option<Key>, written: Option<string>, i: nat, pc: DeletePc)
    requires IdsSound(c) && IdsSound(c') && Rely(c, c', acting, written) && DeleteKnows(c, i, pc)
    requires HoldsLock(Deleting(i, pc)) ==> KeyOfProc(Deleting(i, pc)) != acting
    ensures DeleteKnows(c', i, pc)
  {
    hide KeyOf, Marks, MarksKept, Removed, NotShown;
    match pc
    case Leaving(_, result) =>
      if result.Deleted? { RemovedStable(c, c', acting, written, i); }
      if result.NotFound? { NotShownStable(c, c', i); }
    case Gone(result) => if result.Deleted? { RemovedStable(c, c', acting, written, i); }
    case WaitingFor(key) => KeyFixedStable(c, c', i, key);
    case Refinding(key) => KeyFixedStable(c, c', i, key);
    case DroppingPool(key, pool) =>
      var n :| n in c.nodes && c.nodes[n] == Node(pool, i) && NodesOf(c, pool) == {n};
      assert n in NodesOf(c', pool);
      assert c'.nodes[n] == Node(pool, i);
    case DroppingNode(key, node) =>
      var pool := c.nodes[node].pool;
      assert node in NodesOf(c, pool);
      assert node in NodesOf(c', pool);
    case _ =>
  }

  lemma UpdateStable(c: Cloud, c': Cloud, acting: Option<Key>, written: Option<string>, i: nat, upc: UpdatePc)
    requires IdsSound(c) && MarksKept(c, c', acting, written) && c.used <= c'.used && UpdateKnows(c, i, upc)
    ensures UpdateKnows(c', i, upc)
  {
    MarkedStable(c, c', acting, written, i);
    hide KeyOf, Marks, MarksKept, IdsSound;
  }

  /** Main stability result: what a process knows survives any step of another process that respects the lock. */
  lemma Stable(c: Cloud, c': Cloud, acting: Option<Key>, written: Option<string>, q: Proc)
    requires IdsSound(c) && IdsSound(c') && Rely(c, c', acting, written) && Knows(c, q)
    requires HoldsLock(q) ==> KeyOfProc(q) != acting
    requires Active(q) ==> written != Some(Mark(q))
    ensures Knows(c', q)
  {
    hide KeyOf, IdsSound, OtherPoolsKept, MarksKept, CreateKnows, DeleteKnows, UpdateKnows;
    match q
    case Creating(call) => CreateStable(c, c', acting, written, call.args, call.pc);
    case Deleting(i, pc) => DeleteStable(c, c', acting, written, i, pc);
    case Updating(i, _, _, upc) => UpdateStable(c, c', acting, written, i, upc);
  }

  // ---------------------------------------------------------------- a process's own steps

  ghost predicate GivenMarked(c: Cloud, given: Option<nat>) {
    given.Some? ==>
      given.value in c.used && (!c.forged && given.value in c.instances ==> Marks(c.instances[given.value].tags) != {})
  }

  /** What every own step leaves: a sound cloud, changed as others may rely on, and the next step's knowledge. */
  ghost predicate Good(c: Cloud, e: Effect, acting: Option<Key>, written: Option<string>) {
    && Sound(e.cloud) && UnclaimedForeign(e.cloud) && Rely(c, e.cloud, acting, written)
    && Knows(e.cloud, e.proc) && GivenMarked(e.cloud, e.given)
  }

  lemma Unmoved(c: Cloud, e: Effect, acting: Option<Key>, written: Option<string>)
    requires Sound(c) && UnclaimedForeign(c) && e.cloud == c && Knows(c, e.proc) && GivenMarked(c, e.given)
    ensures Good(c, e, acting, written)
  {
    RelyRefl(c, acting, written);
    hide KeyOf, Marks, Knows, Rely, UnclaimedForeign;
  }

  lemma VouchedMarked(c: Cloud, i: nat, mark: string, quoted: bool)
    requires Vouched(c, i, mark, quoted)
    ensures GivenMarked(c, Some(i))
  {
    hide Marks;
  }

  /** A lookup finds only claimed instances. */
  lemma LookupVouches(c: Cloud, i: nat, claim: string)
    requires Sound(c) && UnclaimedForeign(c) && Matches(c, i, claim)
    ensures Vouched(c, i, NormalizeNodeClaimTagValue(claim), OnlyQuoted(c, i, claim)) && GivenMarked(c, Some(i))
  {
    if !c.forged && Marks(c.instances[i].tags) == {} {
      ForeignUnmatched(c.instances[i].tags, claim);
    }
    hide Marks, KeyOf, CountsSound, PoolsUnique, MarksUnique, NormalizeNodeClaimTagValue;
  }

  /** An empty lookup means no live instance carries the claim's mark. */
  lemma LookupExcludes(c: Cloud, claim: string)
    requires claim != "" && forall i :: !Matches(c, i, claim)
    ensures NoneMarked(c, NormalizeNodeClaimTagValue(claim))
  {
    forall i ensures !Marked(c, i, NormalizeNodeClaimTagValue(claim)) {
      assert !Matches(c, i, claim);
      if i in c.instances {
        ExactTagMeansMark(c.instances[i].tags, claim);
        ContainsItself(NodeClaimTag(claim));
      }
    }
  }

  lemma LookupStepsGood(cfg: Config, c: Cloud, call: CreateCall, ch: Choice, acting: Option<Key>)
    requires Sound(c) && UnclaimedForeign(c) && call.args.claim != ""
    requires call.pc.Starting? || call.pc.Relooking?
    ensures Good(c, if call.pc.Starting? then StartStep(cfg, c, call, ch) else RelookStep(c, call, ch), acting, None)
  {
    hide Sound, UnclaimedForeign, Matches, Vouched, NoneMarked, NormalizeNodeClaimTagValue, Rely, GivenMarked, PoolTagsFit,
         OnlyQuoted;
    var e := if call.pc.Starting? then StartStep(cfg, c, call, ch) else RelookStep(c, call, ch);
    NothingGiven(c);
    if Matches(c, ch.pick, call.args.claim) {
      LookupVouches(c, ch.pick, call.args.claim);
    } else if forall i :: !Matches(c, i, call.args.claim) {
      LookupExcludes(c, call.args.claim);
    }
    Unmoved(c, e, acting, None);
  }

  lemma NothingGiven(c: Cloud)
    ensures GivenMarked(c, None)
  {}

  lemma WaitStepGood(c: Cloud, call: CreateCall, free: bool, ch: Choice, acting: Option<Key>)
    requires Sound(c) && UnclaimedForeign(c)
    ensures Good(c, WaitStep(c, call, free, ch), acting, None) || call.pc != Waiting
  {
    hide Sound, UnclaimedForeign;
    if call.pc == Waiting {
      Unmoved(c, WaitStep(c, call, free, ch), acting, None);
    }
  }

  lemma ListStepGood(c: Cloud, call: CreateCall, ch: Choice, acting: Option<Key>)
    requires Sound(c) && UnclaimedForeign(c) && call.pc == Listing
    requires NoneMarked(c, NormalizeNodeClaimTagValue(call.args.claim))
    ensures Good(c, ListStep(c, call, ch), acting, None)
  {
    hide KeyOf, NoneMarked, Sound, NormalizeNodeClaimTagValue;
    Unmoved(c, ListStep(c, call, ch), acting, None);
  }

  lemma PinStepGood(c: Cloud, call: CreateCall, snap: Snapshot, version: string, ch: Choice, acting: Option<Key>)
    requires Sound(c) && UnclaimedForeign(c) && call.pc == Pinning(snap, version)
    requires NoneMarked(c, NormalizeNodeClaimTagValue(call.args.claim)) && Current(c, call.args.key, snap)
    ensures Good(c, PinStep(c, call, snap, version, ch), acting, None)
  {
    var e := PinStep(c, call, snap, version, ch);
    var mark := NormalizeNodeClaimTagValue(call.args.claim);
    hide Sound, UnclaimedForeign, Rely, NormalizeNodeClaimTagValue, KeyOf, NoneMarked;
    if ch.outcome.Fail? {
      Unmoved(c, e, acting, None);
    } else {
      PinnedCloud(c, snap.id, version, acting, call.args.key, snap, mark);
      hide Current;
    }
  }

  lemma PinnedCloud(c: Cloud, id: nat, version: string, acting: Option<Key>, key: Key, snap: Snapshot, mark: string)
    requires Sound(c) && UnclaimedForeign(c) && snap.id == id && Current(c, key, snap) && NoneMarked(c, mark)
    ensures var c' := SetVersion(c, id, version);
      Sound(c') && UnclaimedForeign(c') && Rely(c, c', acting, None) && Current(c', key, snap) && NoneMarked(c', mark)
  {
    var c' := SetVersion(c, id, version);
    SetVersionKeeps(c, id, version);
    hide Marks, Sound, Rely;
    assert Rely(c, c', acting, None) by { RelyWeaken(c, c', acting, None); }
    hide KeyOf;
    assert forall i :: Marked(c', i, mark) ==> Marked(c, i, mark);
  }

  /** A change that respects every key respects all but one. */
  lemma RelyWeaken(c: Cloud, c': Cloud, acting: Option<Key>, written: Option<string>)
    requires Rely(c, c', None, None)
    ensures Rely(c, c', acting, written)
  {
    hide KeyOf, Marks, NodesOf;
  }

  lemma MakePoolStepGood(cfg: Config, c: Cloud, call: CreateCall, ch: Choice)
    requires Sound(c) && UnclaimedForeign(c) && call.pc == MakingPool && ArgsAllowed(call.args)
    requires NoneMarked(c, NormalizeNodeClaimTagValue(call.args.claim)) && !HasPool(c, call.args.key)
    ensures Good(c, MakePoolStep(cfg, c, call, ch), Some(call.args.key), None)
  {
    var e := MakePoolStep(cfg, c, call, ch);
    var key := call.args.key;
    var mark := NormalizeNodeClaimTagValue(call.args.claim);
    hide Sound, UnclaimedForeign, Rely, NormalizeNodeClaimTagValue, KeyOf, NoneMarked, HasPool, ListsPoolTags;
    if ch.outcome.Fail? || ch.pick in c.pools || ch.node in c.nodes || !ListsPoolTags(cfg, call.args, ch.tags) {
      Unmoved(c, e, Some(key), None);
    } else {
      MadeCloud(cfg, c, call.args, ch.pick, ch.node, ch.tags, mark);
      hide Current, CreatePool;
    }
  }

  lemma MadeCloud(cfg: Config, c: Cloud, args: CreateArgs, id: nat, node: nat, tags: seq<string>, mark: string)
    requires Sound(c) && UnclaimedForeign(c) && ArgsAllowed(args) && ListsPoolTags(cfg, args, tags)
    requires id !in c.pools && node !in c.nodes && !HasPool(c, args.key) && NoneMarked(c, mark)
    ensures var c' := CreatePool(c, id, node, args.key.itype, tags, args.pin);
      && Sound(c') && UnclaimedForeign(c') && Rely(c, c', Some(args.key), None) && HasPool(c', args.key)
      && Current(c', args.key, Snapshot(id, 1, tags)) && NoneMarked(c', mark)
  {
    var c' := CreatePool(c, id, node, args.key.itype, tags, args.pin);
    assert KeyOf(Pool(args.key.itype, tags, args.pin, 1, History(1, 0, 0))) == Some(args.key) by {
      CreatedPoolReadsBack(tags, cfg.clusterName, args.key.nodePool, args.nodeClass);
    }
    hide KeyOf, Marks, Sound, Rely, ListsPoolTags, HasPool, Foreign;
    CreatePoolKeeps(c, id, node, args.key.itype, tags, args.pin, args.key);
    assert c'.pools[id] == Pool(args.key.itype, tags, args.pin, 1, History(1, 0, 0));
    assert forall i :: Marked(c', i, mark) ==> Marked(c, i, mark);
  }

  lemma UnclaimedUnmarked(tags: seq<string>)
    ensures Unclaimed(tags) <==> Marks(tags) == {}
  {
    DetectorsReadMarks(tags, "");
  }

  lemma ReadStepGood(cfg: Config, c: Cloud, call: CreateCall, snap: Snapshot, ch: Choice, acting: Option<Key>)
    requires Sound(c) && UnclaimedForeign(c) && call.pc == Reading(snap)
    requires NoneMarked(c, NormalizeNodeClaimTagValue(call.args.claim)) && Current(c, call.args.key, snap)
    ensures Good(c, ReadStep(cfg, c, call, snap, ch), acting, None)
  {
    var key := call.args.key;
    var e := ReadStep(cfg, c, call, snap, ch);
    hide Sound, UnclaimedForeign, NormalizeNodeClaimTagValue, NoneMarked, Current, Placed, Marks, Unclaimed;
    if ch.outcome.Ack? && cfg.enterprise && Discovers(c, snap.id, ch.listed) {
      var found := FirstClaimable(c, key.itype, ch.listed);
      if found.Some? {
        InPoolPlaced(c, key, snap, found.value);
        ClaimableKnown(c, found.value);
      }
    } else if ch.outcome.Ack? && !cfg.enterprise && ListsNodes(c, snap.id, ch.listed) {
      NodesPlaced(c, key, snap, ch.listed);
    }
    hide Discovers, ListsNodes, FirstClaimable, ListedInstances;
    Unmoved(c, e, acting, None);
  }

  lemma ClaimableKnown(c: Cloud, i: nat)
    requires Sound(c) && i in c.instances && Unclaimed(c.instances[i].tags)
    ensures i != 0 && Marks(c.instances[i].tags) == {}
  {
    UnclaimedUnmarked(c.instances[i].tags);
    hide KeyOf, Marks, Unclaimed;
  }

  lemma InPoolPlaced(c: Cloud, key: Key, snap: Snapshot, i: nat)
    requires Current(c, key, snap) && InPool(c, snap.id, i)
    ensures Placed(c, key, i)
  {
    hide KeyOf;
    var n :| n in c.nodes && c.nodes[n] == Node(snap.id, i);
  }

  lemma NodesPlaced(c: Cloud, key: Key, snap: Snapshot, listed: seq<nat>)
    requires Current(c, key, snap) && ListsNodes(c, snap.id, listed)
    ensures forall i :: i in ListedInstances(c, listed) && i != 0 ==> Placed(c, key, i)
  {
    hide KeyOf;
    var todo := ListedInstances(c, listed);
    forall i | i in todo && i != 0 ensures Placed(c, key, i) {
      var j :| 0 <= j < |todo| && todo[j] == i;
      assert listed[j] in NodesOf(c, snap.id);
    }
  }

  lemma ScanStepGood(c: Cloud, call: CreateCall, snap: Snapshot, todo: seq<nat>, ch: Choice, acting: Option<Key>)
    requires Sound(c) && UnclaimedForeign(c) && call.pc == Scanning(snap, todo)
    requires NoneMarked(c, NormalizeNodeClaimTagValue(call.args.claim)) && Current(c, call.args.key, snap)
    requires forall i :: i in todo && i != 0 ==> Placed(c, call.args.key, i)
    ensures Good(c, ScanStep(c, call, snap, todo, ch), acting, None)
  {
    hide Sound, UnclaimedForeign, NormalizeNodeClaimTagValue, NoneMarked, Current, Placed, Marks, Unclaimed;
    if todo != [] {
      if todo[0] in c.instances && Unclaimed(c.instances[todo[0]].tags) {
        ClaimableKnown(c, todo[0]);
      }
      assert forall i :: i in todo[1..] ==> i in todo;
    }
    Unmoved(c, ScanStep(c, call, snap, todo, ch), acting, None);
  }

  lemma ClaimStepGood(c: Cloud, call: CreateCall, snap: Snapshot, i: nat, seen: seq<string>, ch: Choice)
    requires Sound(c) && UnclaimedForeign(c) && call.pc == Claiming(snap, i, seen)
    requires call.args.claim != "" && Marks(seen) == {} && Placed(c, call.args.key, i)
    requires NoneMarked(c, NormalizeNodeClaimTagValue(call.args.claim))
    requires !c.forged && i in c.instances ==> c.instances[i].tags == seen
    ensures Good(c, ClaimStep(c, call, snap, i, seen, ch), Some(call.args.key), Some(NormalizeNodeClaimTagValue(call.args.claim)))
  {
    var args := call.args;
    var acting, written := Some(args.key), Some(NormalizeNodeClaimTagValue(args.claim));
    var e := ClaimStep(c, call, snap, i, seen, ch);
    hide Sound, UnclaimedForeign, Rely, NormalizeNodeClaimTagValue, NoneMarked, Placed, Marks, ClaimWrite, Foreign, KeyOf;
    if ch.outcome.Fail? || i !in c.instances {
      Unmoved(c, e, acting, written);
    } else {
      ClaimedCloud(c, args, snap.tags, i, seen);
      hide WriteTags;
    }
  }

  lemma ClaimedCloud(c: Cloud, args: CreateArgs, poolTags: seq<string>, i: nat, seen: seq<string>)
    requires Sound(c) && UnclaimedForeign(c) && args.claim != "" && Marks(seen) == {} && Placed(c, args.key, i)
    requires NoneMarked(c, NormalizeNodeClaimTagValue(args.claim))
    requires i in c.instances && (c.forged || c.instances[i].tags == seen)
    ensures var mark := NormalizeNodeClaimTagValue(args.claim);
      var c' := WriteTags(c, i, ClaimWrite(seen, poolTags, args.classTags, args.claim));
      && Sound(c') && UnclaimedForeign(c') && Rely(c, c', Some(args.key), Some(mark))
      && i in c'.used && i in c'.instances && Marked(c', i, mark)
  {
    var mark := NormalizeNodeClaimTagValue(args.claim);
    var tags := ClaimWrite(seen, poolTags, args.classTags, args.claim);
    assert Marks(tags) == {mark} by { ClaimWriteMeaning(seen, poolTags, args.classTags, args.claim); }
    PlacedInPool(c, args.key, i);
    hide ClaimWrite, Marks, KeyOf, NormalizeNodeClaimTagValue, Sound, UnclaimedForeign, Rely, Placed;
    WriteTagsGood(c, i, tags, Some(args.key), Some(mark));
  }

  lemma PlacedInPool(c: Cloud, key: Key, i: nat)
    requires Placed(c, key, i)
    ensures exists p :: p in c.pools && KeyOf(c.pools[p]) == Some(key) && InPool(c, p, i)
  {
    hide KeyOf;
    var n :| n in c.nodes && c.nodes[n].instance == i && c.nodes[n].pool in c.pools
          && KeyOf(c.pools[c.nodes[n].pool]) == Some(key);
    assert InPool(c, c.nodes[n].pool, i);
  }

  lemma WriteTagsGood(c: Cloud, i: nat, tags: seq<string>, acting: Option<Key>, written: Option<string>)
    requires Sound(c) && UnclaimedForeign(c) && i in c.instances
    requires
      || c.forged
      || Marks(tags) == Marks(c.instances[i].tags) != {}
      || (&& Marks(c.instances[i].tags) == {} && written != None && Marks(tags) == {written.value}
          && NoneMarked(c, written.value)
          && exists p :: p in c.pools && KeyOf(c.pools[p]) == acting && InPool(c, p, i))
    ensures var c' := WriteTags(c, i, tags);
      Sound(c') && UnclaimedForeign(c') && Rely(c, c', acting, written) && i in c'.used && i in c'.instances
      && (forall m :: Marked(c', i, m) <==> m in Marks(tags))
  {
    hide KeyOf, Marks;
    WriteTagsKeeps(c, i, tags, acting, written);
    hide Rely, CountsSound, PoolsUnique, MarksUnique;
  }

  lemma VerifyStepGood(c: Cloud, call: CreateCall, i: nat, ch: Choice, acting: Option<Key>)
    requires Sound(c) && UnclaimedForeign(c) && call.pc == Verifying(i) && call.args.claim != ""
    requires i in c.used && (!c.forged && i in c.instances ==> Marked(c, i, NormalizeNodeClaimTagValue(call.args.claim)))
    ensures Good(c, VerifyStep(c, call, i, ch), acting, None)
  {
    hide Sound, UnclaimedForeign, NormalizeNodeClaimTagValue, Marks, NodeClaimTag;
    Unmoved(c, VerifyStep(c, call, i, ch), acting, None);
  }

  lemma UnlockStepGood(c: Cloud, call: CreateCall, next: Next, acting: Option<Key>)
    requires Sound(c) && UnclaimedForeign(c) && call.pc == Unlocking(next) && CreateKnows(c, call.args, call.pc)
    ensures Good(c, UnlockStep(c, call, next), acting, None)
  {
    hide Sound, UnclaimedForeign, NormalizeNodeClaimTagValue, Vouched, GivenMarked;
    NothingGiven(c);
    if next.Return? && next.result.Got? {
      VouchedMarked(c, next.result.instance, NormalizeNodeClaimTagValue(call.args.claim), next.result.quoted);
    }
    Unmoved(c, UnlockStep(c, call, next), acting, None);
  }

  lemma PlanStepGood(c: Cloud, call: CreateCall, snap: Snapshot, ch: Choice, acting: Option<Key>)
    requires Sound(c) && UnclaimedForeign(c) && Current(c, call.args.key, snap)
    ensures Good(c, PlanStep(c, call, snap, ch), acting, None)
  {
    hide Sound, UnclaimedForeign, NormalizeNodeClaimTagValue, Current;
    Unmoved(c, PlanStep(c, call, snap, ch), acting, None);
  }

  lemma ScaleStepGood(c: Cloud, call: CreateCall, snap: Snapshot, ch: Choice)
    requires Sound(c) && UnclaimedForeign(c) && call.pc == Scaling(snap) && Current(c, call.args.key, snap)
    ensures Good(c, ScaleStep(c, call, snap, ch), Some(call.args.key), None)
  {
    var e := ScaleStep(c, call, snap, ch);
    hide Sound, UnclaimedForeign, Rely, NormalizeNodeClaimTagValue, KeyOf, ResizeAllowed;
    if ch.outcome.Fail? || !ResizeAllowed(c, snap.id, snap.count + 1, ch.added, ch.gone) {
      Unmoved(c, e, Some(call.args.key), None);
    } else {
      ScaledCloud(c, snap.id, snap.count + 1, ch.added, ch.gone);
      hide Resize;
    }
  }

  lemma ScaledCloud(c: Cloud, id: nat, count: nat, added: set<nat>, gone: set<nat>)
    requires Sound(c) && UnclaimedForeign(c) && id in c.pools && KeyOf(c.pools[id]) != None
    requires count == c.pools[id].count + 1 && ResizeAllowed(c, id, count, added, gone)
    ensures var c' := Resize(c, id, count, added, gone);
      Sound(c') && UnclaimedForeign(c') && Rely(c, c', KeyOf(c.pools[id]), None)
  {
    hide Sound, Rely, Resize, ResizeAllowed;
    var node := GrowKeeps(c, id, count, added, gone);
    var c' := Grown(c, id, node);
    assert KeyOf(c'.pools[id]) == KeyOf(c.pools[id]);
    hide KeyOf;
  }

  /** Each step of a Create keeps the cloud sound, respects the others, and leaves what its next step needs. */
  lemma CreateStepGood(cfg: Config, c: Cloud, call: CreateCall, free: bool, ch: Choice)
    requires Sound(c) && UnclaimedForeign(c) && Knows(c, Creating(call)) && ArgsAllowed(call.args)
    ensures Good(c, CreateStep(cfg, c, call, free, ch), Some(call.args.key),
                 if call.pc.Claiming? then Some(NormalizeNodeClaimTagValue(call.args.claim)) else None)
  {
    hide Good, Sound, UnclaimedForeign, ValidTags, StartStep, WaitStep, RelookStep, ListStep, PinStep, MakePoolStep, ReadStep,
         ScanStep, ClaimStep, VerifyStep, PlanStep, ScaleStep, UnlockStep, NormalizeNodeClaimTagValue,
         KeyOf, Foreign, Marks, Placed, NoneMarked, Vouched, HasPool, Contains;
    var acting := Some(call.args.key);
    match call.pc
    case Starting => LookupStepsGood(cfg, c, call, ch, acting);
    case Waiting => WaitStepGood(c, call, free, ch, acting);
    case Relooking => LookupStepsGood(cfg, c, call, ch, acting);
    case Listing => ListStepGood(c, call, ch, acting);
    case Pinning(snap, version) => PinStepGood(c, call, snap, version, ch, acting);
    case MakingPool => MakePoolStepGood(cfg, c, call, ch);
    case Reading(snap) => ReadStepGood(cfg, c, call, snap, ch, acting);
    case Scanning(snap, todo) => ScanStepGood(c, call, snap, todo, ch, acting);
    case Claiming(snap, i, seen) => ClaimStepGood(c, call, snap, i, seen, ch);
    case Verifying(i) => VerifyStepGood(c, call, i, ch, acting);
    case CheckingPlan(snap) => PlanStepGood(c, call, snap, ch, acting);
    case Scaling(snap) => ScaleStepGood(c, call, snap, ch);
    case Unlocking(next) => UnlockStepGood(c, call, next, acting);
    case Returned(_) => Unmoved(c, Stay(c, Creating(call)), acting, None);
  }

  // ---------------------------------------------------------------- the steps of a Delete and of an update

  lemma ShownKey(c: Cloud, i: nat, node: nat)
    requires Sound(c) && i != 0 && Shows(c, i, node)
    ensures KeyFixed(c, i, KeyOf(c.pools[c.nodes[node].pool]).value)
  {
    hide KeyOf, CountsSound, MarksUnique;
    forall n | Shows(c, i, n) ensures n == node {}
  }

  lemma FindStepGood(c: Cloud, i: nat, ch: Choice)
    requires Sound(c) && UnclaimedForeign(c) && i != 0
    ensures Good(c, FindStep(c, i, ch), None, None)
  {
    hide Sound, UnclaimedForeign, KeyFixed, KeyOf;
    if Shows(c, i, ch.node) {
      ShownKey(c, i, ch.node);
    }
    Unmoved(c, FindStep(c, i, ch), None, None);
  }

  lemma RefindStepGood(c: Cloud, i: nat, key: Key, ch: Choice)
    requires Sound(c) && UnclaimedForeign(c) && i != 0 && KeyFixed(c, i, key)
    ensures Good(c, RefindStep(c, i, key, ch), Some(key), None)
  {
    hide Sound, UnclaimedForeign, KeyOf;
    if Shows(c, i, ch.node) {
      var pool := c.nodes[ch.node].pool;
      assert ch.node in NodesOf(c, pool);
      if |NodesOf(c, pool)| <= 1 {
        assert |NodesOf(c, pool) - {ch.node}| == 0;
        assert NodesOf(c, pool) == {ch.node};
        assert c.nodes[ch.node] == Node(pool, i);
      }
    }
    Unmoved(c, RefindStep(c, i, key, ch), Some(key), None);
  }

  lemma DropPoolStepGood(c: Cloud, i: nat, key: Key, pool: nat, node: nat, ch: Choice)
    requires Sound(c) && UnclaimedForeign(c) && i != 0 && pool in c.pools && KeyOf(c.pools[pool]) == Some(key)
    requires node in c.nodes && c.nodes[node] == Node(pool, i) && NodesOf(c, pool) == {node}
    ensures Good(c, DropPoolStep(c, i, key, pool, ch), Some(key), None)
  {
    var e := DropPoolStep(c, i, key, pool, ch);
    hide Sound, UnclaimedForeign, KeyOf, Rely, NodesOf, Removed;
    if ch.outcome.Fail? {
      Unmoved(c, e, Some(key), None);
    } else {
      DropPoolKeeps(c, pool, node);
      ForeignShrinks(c, DropPool(c, pool));
      RemovedWithNode(c, DropPool(c, pool), i, node);
      hide DropPool;
    }
  }

  lemma RemovedWithNode(c: Cloud, c': Cloud, i: nat, node: nat)
    requires Sound(c) && i != 0 && node in c.nodes && c.nodes[node].instance == i
    requires c'.nodes == c.nodes - {node} && c'.instances == c.instances - {i} && c'.used == c.used
    ensures Removed(c', i)
  {
    hide KeyOf, CountsSound, MarksUnique, PoolsUnique;
  }

  lemma ForeignShrinks(c: Cloud, c': Cloud)
    requires UnclaimedForeign(c)
    requires forall i :: i in c'.instances ==> i in c.instances && c'.instances[i] == c.instances[i]
    requires c'.forged == c.forged
    ensures UnclaimedForeign(c')
  {
    hide Foreign, Marks;
  }

  lemma DropNodeStepGood(c: Cloud, i: nat, key: Key, node: nat, ch: Choice)
    requires Sound(c) && UnclaimedForeign(c) && i != 0 && node in c.nodes && c.nodes[node].pool in c.pools
    requires KeyOf(c.pools[c.nodes[node].pool]) == Some(key) && |NodesOf(c, c.nodes[node].pool)| > 1
    requires c.nodes[node].instance == i
    ensures Good(c, DropNodeStep(c, i, key, node, ch), Some(key), None)
  {
    var e := DropNodeStep(c, i, key, node, ch);
    hide Sound, UnclaimedForeign, KeyOf, Rely, NodesOf, Removed;
    if ch.outcome.Fail? {
      Unmoved(c, e, Some(key), None);
    } else {
      DropNodeKeeps(c, node);
      ForeignShrinks(c, DropNode(c, node));
      RemovedWithNode(c, DropNode(c, node), i, node);
      hide DropNode;
    }
  }

  lemma DeleteStepGood(c: Cloud, i: nat, pc: DeletePc, free: bool, ch: Choice)
    requires Sound(c) && UnclaimedForeign(c) && Knows(c, Deleting(i, pc))
    ensures Good(c, DeleteStep(c, i, pc, free, ch), KeyOfProc(Deleting(i, pc)), None)
  {
    hide Good, Sound, UnclaimedForeign, KeyOf, KeyFixed, FindStep, RefindStep, DropPoolStep, DropNodeStep, NodesOf, Removed, NotShown;
    match pc
    case Finding => FindStepGood(c, i, ch);
    case WaitingFor(key) => Unmoved(c, DeleteStep(c, i, pc, free, ch), Some(key), None);
    case Refinding(key) => RefindStepGood(c, i, key, ch);
    case DroppingPool(key, pool) =>
      var n :| n in c.nodes && c.nodes[n] == Node(pool, i) && NodesOf(c, pool) == {n};
      DropPoolStepGood(c, i, key, pool, n, ch);
    case DroppingNode(key, node) => DropNodeStepGood(c, i, key, node, ch);
    case Leaving(key, _) => Unmoved(c, DeleteStep(c, i, pc, free, ch), Some(key), None);
    case Gone(_) => Unmoved(c, DeleteStep(c, i, pc, free, ch), None, None);
  }

  lemma MarksOfOne(c: Cloud, i: nat)
    requires Sound(c) && i in c.instances && !c.forged
    ensures forall a, b :: a in Marks(c.instances[i].tags) && b in Marks(c.instances[i].tags) ==> a == b
  {
    hide Marks, KeyOf, NodesOf;
    forall a, b | a in Marks(c.instances[i].tags) && b in Marks(c.instances[i].tags) ensures a == b {
      assert Marked(c, i, a) && Marked(c, i, b);
    }
  }

  /** The cloud after an in-place write of a merge of tags read earlier. */
  ghost function Rewritten(c: Cloud, i: nat, seen: seq<string>, previous: seq<string>, desired: seq<string>): Cloud
    requires i in c.instances
  {
    var c' := WriteTags(c, i, MergedTags(seen, previous, desired));
    if KeepsClaim(seen, previous, desired) then c' else c'.(forged := true)
  }

  /** The marks the update read are the marks still there, and it writes them back or forges a claim. */
  lemma UpdatedCloud(c: Cloud, i: nat, seen: seq<string>, previous: seq<string>, desired: seq<string>)
    requires Sound(c) && UnclaimedForeign(c) && i in c.instances
    requires !c.forged ==> Marks(c.instances[i].tags) == Marks(seen) != {}
    requires !c.forged ==> forall a, b :: a in Marks(seen) && b in Marks(seen) ==> a == b
    ensures var c' := Rewritten(c, i, seen, previous, desired);
      && Sound(c') && UnclaimedForeign(c') && Rely(c, c', None, None)
      && i in c'.used && (!c'.forged ==> Marks(c'.instances[i].tags) == Marks(c.instances[i].tags))
  {
    var tags := MergedTags(seen, previous, desired);
    if !c.forged { MergeKeepsMarksExactly(seen, previous, desired); }
    hide MergedTags, Marks, Foreign, KeepsClaim, Rely, CountsSound, PoolsUnique, MarksUnique, KeyOf;
    if KeepsClaim(seen, previous, desired) {
      WriteTagsGood(c, i, tags, None, None);
    } else {
      ForgedWriteKeeps(c, i, tags, None);
    }
  }

  lemma UpdateStepGood(c: Cloud, proc: Proc, ch: Choice)
    requires Sound(c) && UnclaimedForeign(c) && proc.Updating? && Knows(c, proc)
    ensures Good(c, UpdateStep(c, proc, ch), None, None)
  {
    var e := UpdateStep(c, proc, ch);
    hide Sound, UnclaimedForeign, Rely, MergedTags, Normalize, Marks, Foreign, KeepsClaim;
    var i := proc.target;
    match proc.upc
    case ReadingTags =>
      if i in c.instances && !c.forged {
        MarksOfOne(c, i);
      }
      Unmoved(c, e, None, None);
    case WritingTags(seen) =>
      if ch.outcome.Fail? || i !in c.instances {
        Unmoved(c, e, None, None);
      } else {
        UpdatedCloud(c, i, seen, proc.previous, proc.desired);
        hide WriteTags;
      }
    case Updated => Unmoved(c, e, None, None);
  }

  // ---------------------------------------------------------------- the invariant of the whole system

  /** Whoever is in a critical section holds its lock. */
  ghost predicate LocksHeld(cfg: Config, s: State) {
    forall p :: p in s.procs && HoldsLock(s.procs[p]) ==>
      && Slot(cfg, KeyOfProc(s.procs[p]).value) in s.locks
      && s.locks[Slot(cfg, KeyOfProc(s.procs[p]).value)] == p
  }

  ghost predicate ClaimsDistinct(s: State) {
    forall p, q :: p in s.procs && q in s.procs && p != q && Active(s.procs[p]) && Active(s.procs[q]) ==>
      Mark(s.procs[p]) != Mark(s.procs[q])
  }

  ghost predicate AllKnow(cfg: Config, s: State) {
    forall p :: p in s.procs ==> Knows(s.cloud, s.procs[p]) && ArgsSound(cfg, s.procs[p])
  }

  ghost predicate Inv(cfg: Config, s: State) {
    && Sound(s.cloud) && UnclaimedForeign(s.cloud) && ProvidedMarked(s.cloud, s.provided)
    && LocksHeld(cfg, s) && ClaimsDistinct(s) && AllKnow(cfg, s)
  }

  lemma InitialInv(cfg: Config, s: State)
    requires Initial(s)
    ensures Inv(cfg, s)
  {
    hide Sound, UnclaimedForeign, ProvidedMarked, Knows;
  }

  ghost function ActingKey(proc: Proc): Option<Key> {
    if proc.Updating? then None else KeyOfProc(proc)
  }

  ghost function WrittenMark(proc: Proc): Option<string> {
    if proc.Creating? && proc.call.pc.Claiming? then Some(Mark(proc)) else None
  }

  lemma ProcStepGood(cfg: Config, s: State, proc: Proc, ch: Choice)
    requires Sound(s.cloud) && UnclaimedForeign(s.cloud) && Knows(s.cloud, proc) && ArgsSound(cfg, proc)
    ensures Good(s.cloud, ProcStep(cfg, s, proc, ch), ActingKey(proc), WrittenMark(proc))
  {
    hide Good, Sound, UnclaimedForeign, Knows, CreateStep, DeleteStep, UpdateStep, ArgsAllowed, NormalizeNodeClaimTagValue;
    match proc
    case Creating(call) => CreateStepGood(cfg, s.cloud, call, Free(cfg, s, proc), ch);
    case Deleting(i, pc) => DeleteStepGood(s.cloud, i, pc, Free(cfg, s, proc), ch);
    case Updating(_, _, _, _) => UpdateStepGood(s.cloud, proc, ch);
  }

  /** Taking needs a free lock, only its holder leaves it, and no other step changes who is in the critical section. */
  ghost predicate Disciplined(proc: Proc, free: bool, e: Effect) {
    match e.lock
    case Take => free && !HoldsLock(proc) && HoldsLock(e.proc) && KeyOfProc(e.proc) == KeyOfProc(proc)
    case Release => HoldsLock(proc) && !HoldsLock(e.proc)
    case Keep => (HoldsLock(e.proc) <==> HoldsLock(proc)) && (HoldsLock(proc) ==> KeyOfProc(e.proc) == KeyOfProc(proc))
  }

  /** A step stays within its call, and outside the critical section only an update changes the cloud. */
  ghost predicate Contained(cfg: Config, c: Cloud, proc: Proc, e: Effect) {
    && (proc.Creating? <==> e.proc.Creating?)
    && (proc.Creating? ==> e.proc.call.args == proc.call.args && (Active(e.proc) ==> Active(proc)))
    && (proc.Creating? && proc.call.pc.Starting? && !e.proc.call.pc.Starting? && !e.proc.call.pc.Returned? ==>
          PoolTagsFit(cfg, proc.call.args))
    && (e.cloud == c || HoldsLock(proc) || proc.Updating?)
  }

  lemma ProcStepDisciplined(cfg: Config, s: State, proc: Proc, ch: Choice)
    ensures var e := ProcStep(cfg, s, proc, ch);
      Disciplined(proc, Free(cfg, s, proc), e) && Contained(cfg, s.cloud, proc, e)
  {
    hide Disciplined, Contained, CreateStep, DeleteStep, Free;
    match proc
    case Creating(call) => CreateStepDisciplined(cfg, s.cloud, call, Free(cfg, s, proc), ch);
    case Deleting(i, pc) => DeleteStepDisciplined(cfg, s.cloud, i, pc, Free(cfg, s, proc), ch);
    case Updating(_, _, _, _) => UpdateStepDisciplined(cfg, s.cloud, proc, Free(cfg, s, proc), ch);
  }

  lemma CreateStepDisciplined(cfg: Config, c: Cloud, call: CreateCall, free: bool, ch: Choice)
    ensures var e := CreateStep(cfg, c, call, free, ch);
      Disciplined(Creating(call), free, e) && Contained(cfg, c, Creating(call), e)
  {
    hide Disciplined, Contained, CreateStep;
    if call.pc.Starting? || call.pc.Waiting? || call.pc.Relooking? || call.pc.Listing? || call.pc.Pinning? || call.pc.MakingPool? {
      EarlyStepDisciplined(cfg, c, call, free, ch);
    } else {
      LateStepDisciplined(cfg, c, call, free, ch);
    }
  }

  lemma EarlyStepDisciplined(cfg: Config, c: Cloud, call: CreateCall, free: bool, ch: Choice)
    requires call.pc.Starting? || call.pc.Waiting? || call.pc.Relooking? || call.pc.Listing? || call.pc.Pinning? || call.pc.MakingPool?
    ensures var e := CreateStep(cfg, c, call, free, ch);
      Disciplined(Creating(call), free, e) && Contained(cfg, c, Creating(call), e)
  {
    hide KeyOf, Matches, CreatePool, SetVersion, HasPool, ListsPoolTags, LookupFinds, PoolTagsFit, OnlyQuoted;
    match call.pc
    case Starting => case Waiting => case Relooking => case Listing => case Pinning(_, _) => case MakingPool => case _ =>
  }

  lemma LateStepDisciplined(cfg: Config, c: Cloud, call: CreateCall, free: bool, ch: Choice)
    requires call.pc.Reading? || call.pc.Scanning? || call.pc.Claiming? || call.pc.Verifying? || call.pc.CheckingPlan?
          || call.pc.Scaling? || call.pc.Unlocking? || call.pc.Returned?
    ensures var e := CreateStep(cfg, c, call, free, ch);
      Disciplined(Creating(call), free, e) && Contained(cfg, c, Creating(call), e)
  {
    hide NodesOf, ClaimWrite, Resize, ResizeAllowed, WriteTags, FirstClaimable, ListedInstances, Unclaimed, NodeClaimTag,
         Discovers, ListsNodes;
    match call.pc
    case Reading(_) => case Scanning(_, _) => case Claiming(_, _, _) => case Verifying(_) => case CheckingPlan(_) =>
    case Scaling(_) => case Unlocking(_) => case Returned(_) => case _ =>
  }

  lemma DeleteStepDisciplined(cfg: Config, c: Cloud, i: nat, pc: DeletePc, free: bool, ch: Choice)
    ensures var e := DeleteStep(c, i, pc, free, ch);
      Disciplined(Deleting(i, pc), free, e) && Contained(cfg, c, Deleting(i, pc), e)
  {
    hide KeyOf, NodesOf, DropPool, DropNode, Shows;
  }

  lemma UpdateStepDisciplined(cfg: Config, c: Cloud, proc: Proc, free: bool, ch: Choice)
    requires proc.Updating?
    ensures var e := UpdateStep(c, proc, ch); Disciplined(proc, free, e) && Contained(cfg, c, proc, e)
  {
    hide MergedTags, Normalize, WriteTags;
  }

  lemma ProvidedStable(c: Cloud, c': Cloud, acting: Option<Key>, written: Option<string>, provided: set<nat>)
    requires IdsSound(c) && MarksKept(c, c', acting, written) && c.used <= c'.used && ProvidedMarked(c, provided)
    ensures ProvidedMarked(c', provided)
  {
    forall i | i in provided ensures i in c'.used && (!c'.forged && i in c'.instances ==> Marks(c'.instances[i].tags) != {}) {
      MarkedStable(c, c', acting, written, i);
    }
  }

  lemma CommitLocks(cfg: Config, s: State, p: nat, proc: Proc, e: Effect)
    requires p in s.procs && s.procs[p] == proc && LocksHeld(cfg, s) && Disciplined(proc, Free(cfg, s, proc), e)
    ensures LocksHeld(cfg, Commit(cfg, s, p, proc, e))
  {}

  lemma CommitClaims(cfg: Config, s: State, p: nat, proc: Proc, e: Effect)
    requires p in s.procs && s.procs[p] == proc && ClaimsDistinct(s) && Contained(cfg, s.cloud, proc, e)
    ensures ClaimsDistinct(Commit(cfg, s, p, proc, e))
  {
    hide NormalizeNodeClaimTagValue;
  }

  /** Two processes in critical sections of one key are the same process. */
  lemma Exclusion(cfg: Config, s: State, p: nat, q: nat)
    requires LocksHeld(cfg, s) && p in s.procs && q in s.procs
    requires HoldsLock(s.procs[p]) && HoldsLock(s.procs[q]) && KeyOfProc(s.procs[p]) == KeyOfProc(s.procs[q])
    ensures p == q
  {}

  lemma OthersKnow(cfg: Config, s: State, p: nat, q: nat, ch: Choice)
    requires Inv(cfg, s) && p in s.procs && q in s.procs && p != q
    ensures Knows(ProcStep(cfg, s, s.procs[p], ch).cloud, s.procs[q])
  {
    var proc, other := s.procs[p], s.procs[q];
    var e := ProcStep(cfg, s, proc, ch);
    hide Sound, UnclaimedForeign, ProvidedMarked, Knows, Rely, ArgsAllowed, ProcStep, NormalizeNodeClaimTagValue, GivenMarked;
    ProcStepGood(cfg, s, proc, ch);
    ProcStepDisciplined(cfg, s, proc, ch);
    if e.cloud != s.cloud {
      if HoldsLock(other) && HoldsLock(proc) && KeyOfProc(proc) == KeyOfProc(other) {
        Exclusion(cfg, s, p, q);
      }
      SoundIds(s.cloud);
      SoundIds(e.cloud);
      Stable(s.cloud, e.cloud, ActingKey(proc), WrittenMark(proc), other);
    }
  }

  lemma SoundIds(c: Cloud)
    ensures Sound(c) ==> IdsSound(c)
  {}

  lemma ActKeepsInv(cfg: Config, s: State, p: nat, ch: Choice)
    requires Inv(cfg, s) && p in s.procs
    ensures Inv(cfg, Step(cfg, s, Act(p, ch)))
  {
    var proc := s.procs[p];
    var e := ProcStep(cfg, s, proc, ch);
    var s' := Commit(cfg, s, p, proc, e);
    hide Sound, UnclaimedForeign, Knows, ArgsAllowed, ProcStep, NormalizeNodeClaimTagValue;
    ProcStepGood(cfg, s, proc, ch);
    ProcStepDisciplined(cfg, s, proc, ch);
    assert LocksHeld(cfg, s') by { CommitLocks(cfg, s, p, proc, e); }
    assert ClaimsDistinct(s') by { CommitClaims(cfg, s, p, proc, e); }
    assert AllKnow(cfg, s') by {
      forall q | q in s'.procs ensures Knows(s'.cloud, s'.procs[q]) && ArgsSound(cfg, s'.procs[q]) {
        if q != p { OthersKnow(cfg, s, p, q, ch); }
      }
    }
    assert ProvidedMarked(s'.cloud, s'.provided) by {
      SoundIds(s.cloud);
      ProvidedStable(s.cloud, e.cloud, ActingKey(proc), WrittenMark(proc), s.provided);
      hide Marks, OtherPoolsKept, MarksKept;
    }
  }

  lemma ProvisionedCloud(c: Cloud, node: nat, i: nat, tags: seq<string>)
    requires Sound(c) && UnclaimedForeign(c) && Foreign(tags) && i != 0 && i !in c.used
    requires node in c.nodes && c.nodes[node].instance == 0 && c.nodes[node].pool in c.pools
    ensures var c' := Provision(c, node, i, tags);
      Sound(c') && UnclaimedForeign(c') && Rely(c, c', None, None)
  {
    assert Marks(tags) == {} by { ForeignUnmatched(tags, ""); }
    hide Marks, Foreign, KeyOf, Sound, Rely;
    assert UnclaimedForeign(Provision(c, node, i, tags));
    hide UnclaimedForeign, Provision;
    ProvisionKeeps(c, node, i, tags);
  }

  /** A change of the cloud that every process may rely on keeps the invariant. */
  lemma CloudMoves(cfg: Config, s: State, c': Cloud)
    requires Inv(cfg, s) && Sound(c') && UnclaimedForeign(c') && Rely(s.cloud, c', None, None)
    ensures Inv(cfg, s.(cloud := c'))
  {
    hide Knows, ArgsAllowed, NormalizeNodeClaimTagValue, Sound, UnclaimedForeign, ProvidedMarked, OtherPoolsKept, MarksKept, KeyOf;
    SoundIds(s.cloud);
    SoundIds(c');
    assert ProvidedMarked(c', s.provided) by {
      ProvidedStable(s.cloud, c', None, None, s.provided);
    }
    forall q | q in s.procs ensures Knows(c', s.procs[q]) {
      Stable(s.cloud, c', None, None, s.procs[q]);
    }
  }

  lemma ProvisionedKeepsInv(cfg: Config, s: State, node: nat, i: nat, tags: seq<string>)
    requires Inv(cfg, s)
    ensures Inv(cfg, Step(cfg, s, Provisioned(node, i, tags)))
  {
    var s' := Step(cfg, s, Provisioned(node, i, tags));
    if s' != s {
      hide Foreign, Sound, UnclaimedForeign, ProvidedMarked, LocksHeld, ClaimsDistinct, AllKnow, Rely;
      ProvisionedCloud(s.cloud, node, i, tags);
      hide Provision, Inv;
      CloudMoves(cfg, s, s'.cloud);
    }
  }

  /** A new process that holds nothing and whose claim overlaps with no other keeps the invariant. */
  lemma ProcJoins(cfg: Config, s: State, p: nat, proc: Proc)
    requires Inv(cfg, s) && p !in s.procs && !HoldsLock(proc) && Knows(s.cloud, proc) && ArgsSound(cfg, proc)
    requires Active(proc) ==> forall q :: q in s.procs && Active(s.procs[q]) ==> Mark(s.procs[q]) != Mark(proc)
    ensures Inv(cfg, s.(procs := s.procs[p := proc]))
  {
    hide Sound, UnclaimedForeign, ProvidedMarked, Knows, ArgsAllowed, NormalizeNodeClaimTagValue;
    var s' := s.(procs := s.procs[p := proc]);
    assert LocksHeld(cfg, s');
    assert ClaimsDistinct(s');
  }

  lemma StartKeepsInv(cfg: Config, s: State, e: Event)
    requires Inv(cfg, s) && (e.StartCreate? || e.StartDelete? || e.StartUpdate?)
    ensures Inv(cfg, Step(cfg, s, e))
  {
    var s' := Step(cfg, s, e);
    if s' != s {
      hide Inv, Marks, ArgsAllowed, NormalizeNodeClaimTagValue;
      assert ProvidedMarked(s.cloud, s.provided) by { InvProvided(cfg, s); }
      ProcJoins(cfg, s, e.p, s'.procs[e.p]);
    }
  }

  lemma InvProvided(cfg: Config, s: State)
    ensures Inv(cfg, s) ==> ProvidedMarked(s.cloud, s.provided)
  {
    hide Sound, UnclaimedForeign, ProvidedMarked, LocksHeld, ClaimsDistinct, AllKnow;
  }

  /** Every event keeps the invariant. */
  lemma StepKeepsInv(cfg: Config, s: State, e: Event)
    requires Inv(cfg, s)
    ensures Inv(cfg, Step(cfg, s, e))
  {
    match e
    case StartCreate(_, _) => StartKeepsInv(cfg, s, e);
    case StartDelete(_, _) => StartKeepsInv(cfg, s, e);
    case StartUpdate(_, _, _, _) => StartKeepsInv(cfg, s, e);
    case Act(p, ch) => if p in s.procs { ActKeepsInv(cfg, s, p, ch); }
    case Provisioned(node, i, tags) => ProvisionedKeepsInv(cfg, s, node, i, tags);
    case Restart => hide Sound, UnclaimedForeign, ProvidedMarked;
  }

  /** The invariant holds in every reachable state, whatever the interleaving, the failures and the restarts. */
  lemma {:induction false} RunKeepsInv(cfg: Config, s: State, events: seq<Event>)
    requires Inv(cfg, s)
    ensures Inv(cfg, After(cfg, s, events))
  {
    hide Inv, Step;
    if events != [] {
      RunKeepsInv(cfg, s, events[..|events| - 1]);
      StepKeepsInv(cfg, After(cfg, s, events[..|events| - 1]), events[|events| - 1]);
    }
  }
}
