/**
 What the calls do: how a Create that acts alone and whose API calls are acknowledged proceeds from one reading of the
 cloud to its result, what a failed and a lost response lead to, and what each result of a Delete means.
 */
module ProtocolProgress {
  import opened ClaimMarks
  import opened CloudModel
  import opened InPlaceTags
  import opened Options
  import opened Protocol
  import opened ProtocolInv
  import opened ProtocolTheorems
  import opened Tags
  import opened TagText

  // ---------------------------------------------------------------- one process acting alone

  /** The events in which process p acts with the given choices, one after the other. */
  function Acting(p: nat, choices: seq<Choice>): seq<Event> {
    seq(|choices|, i requires 0 <= i < |choices| => Act(p, choices[i]))
  }

  /** The state with another cloud and another call of process p. */
  function At(s: State, c: Cloud, p: nat, call: CreateCall): State {
    s.(cloud := c, procs := s.procs[p := Creating(call)])
  }

  function Acks(n: nat): seq<Choice> {
    seq(n, _ => Shown(0))
  }

  lemma ActsThen(cfg: Config, s: State, p: nat, first: seq<Choice>, second: seq<Choice>)
    ensures After(cfg, s, Acting(p, first + second)) == After(cfg, After(cfg, s, Acting(p, first)), Acting(p, second))
  {
    hide Step, After;
    assert Acting(p, first + second) == Acting(p, first) + Acting(p, second);
    RunsCompose(cfg, s, Acting(p, first), Acting(p, second));
  }

  lemma ActsOnce(cfg: Config, s: State, p: nat, ch: Choice)
    ensures After(cfg, s, Acting(p, [ch])) == Step(cfg, s, Act(p, ch))
  {
    hide Step;
    assert Acting(p, [ch]) == [Act(p, ch)] && [Act(p, ch)][..0] == [];
    assert After(cfg, s, []) == s;
  }

  /** A step that leaves the mutex, the dropped pools and the returned instances alone. */
  lemma StepMoves(cfg: Config, s: State, p: nat, call: CreateCall, ch: Choice)
    requires p in s.procs && s.procs[p] == Creating(call)
    ensures var e := CreateStep(cfg, s.cloud, call, Free(cfg, s, s.procs[p]), ch);
      e.proc.Creating? && e.lock == Keep && e.dropped == None && e.given == None ==>
        After(cfg, s, Acting(p, [ch])) == At(s, e.cloud, p, e.proc.call)
  {
    hide CreateStep, After, Slot;
    ActsOnce(cfg, s, p, ch);
  }

  // ---------------------------------------------------------------- looking for a free instance

  /** The instance lives and carries no claim. */
  ghost predicate FreeInstance(c: Cloud, i: nat) {
    i in c.instances && Marks(c.instances[i].tags) == {}
  }

  /** What a Create does when it finds no free instance. */
  function WhenNoneFree(call: CreateCall, snap: Snapshot): CreateCall {
    call.(pc := if call.createdPool || call.scaledOnce then Unlocking(Retry) else CheckingPlan(snap))
  }

  lemma ScansOne(cfg: Config, s: State, p: nat, call: CreateCall, snap: Snapshot, todo: seq<nat>)
    requires 0 !in s.cloud.instances && p in s.procs && s.procs[p] == Creating(call) && call.pc == Scanning(snap, todo)
    ensures todo == [] ==> After(cfg, s, Acting(p, Acks(1))) == At(s, s.cloud, p, WhenNoneFree(call, snap))
    ensures todo != [] && FreeInstance(s.cloud, todo[0]) ==>
      After(cfg, s, Acting(p, Acks(1)))
      == At(s, s.cloud, p, call.(pc := Claiming(snap, todo[0], s.cloud.instances[todo[0]].tags)))
    ensures todo != [] && !FreeInstance(s.cloud, todo[0]) ==>
      After(cfg, s, Acting(p, Acks(1))) == At(s, s.cloud, p, call.(pc := Scanning(snap, todo[1..])))
  {
    assert Acks(1) == [Shown(0)];
    StepMoves(cfg, s, p, call, Shown(0));
    if todo != [] && todo[0] in s.cloud.instances { UnclaimedUnmarked(s.cloud.instances[todo[0]].tags); }
    hide After, Unclaimed, Marks;
  }

  /** The k-th of these is the first to be a free instance. */
  ghost predicate FirstFreeAt(c: Cloud, ids: seq<nat>, k: nat) {
    k < |ids| && FreeInstance(c, ids[k]) && forall j :: 0 <= j < k ==> !FreeInstance(c, ids[j])
  }

  lemma FirstFreeTail(c: Cloud, ids: seq<nat>, k: nat)
    requires k > 0 && FirstFreeAt(c, ids, k)
    ensures ids != [] && !FreeInstance(c, ids[0]) && FirstFreeAt(c, ids[1..], k - 1) && ids[1..][k - 1] == ids[k]
  {
    hide FreeInstance;
    assert forall j :: 0 <= j < k - 1 ==> ids[1..][j] == ids[j + 1];
  }

  lemma FirstFreeIsThere(c: Cloud, ids: seq<nat>, k: nat)
    requires FirstFreeAt(c, ids, k)
    ensures k < |ids| && FreeInstance(c, ids[k]) && ids[k] in c.instances
  {
    hide Marks;
  }

  /** The call about to claim the instance with the tags it has. */
  function ClaimingOf(c: Cloud, call: CreateCall, snap: Snapshot, i: nat): CreateCall
    requires i in c.instances
  {
    call.(pc := Claiming(snap, i, c.instances[i].tags))
  }

  /** The scan of a standard pool ends at the first free instance, which is then claimed with the tags it has. */
  lemma {:induction false} ScanFindsFirst(cfg: Config, s: State, p: nat, call: CreateCall, snap: Snapshot,
                                            todo: seq<nat>, k: nat)
    requires 0 !in s.cloud.instances && p in s.procs && s.procs[p] == Creating(call) && call.pc == Scanning(snap, todo)
    requires FirstFreeAt(s.cloud, todo, k)
    ensures k < |todo| && todo[k] in s.cloud.instances
    ensures After(cfg, s, Acting(p, Acks(k + 1))) == At(s, s.cloud, p, ClaimingOf(s.cloud, call, snap, todo[k]))
    decreases k
  {
    hide After, FreeInstance, FirstFreeAt;
    FirstFreeIsThere(s.cloud, todo, k);
    ScansOne(cfg, s, p, call, snap, todo);
    if k > 0 {
      FirstFreeTail(s.cloud, todo, k);
      var call' := call.(pc := Scanning(snap, todo[1..]));
      var s' := At(s, s.cloud, p, call');
      ScanFindsFirst(cfg, s', p, call', snap, todo[1..], k - 1);
      TwoActs(cfg, s, p, k, s', At(s, s.cloud, p, ClaimingOf(s.cloud, call, snap, todo[k])));
    }
  }

  ghost predicate NoneFree(c: Cloud, ids: seq<nat>) {
    forall i :: i in ids ==> !FreeInstance(c, i)
  }

  lemma NoneFreeTail(c: Cloud, ids: seq<nat>)
    requires ids != [] && NoneFree(c, ids)
    ensures !FreeInstance(c, ids[0]) && NoneFree(c, ids[1..])
  {
    hide FreeInstance;
  }

  /** A scan that meets no free instance goes on to scale, or to wait when the call has already added capacity. */
  lemma {:induction false} ScanFindsNone(cfg: Config, s: State, p: nat, call: CreateCall, snap: Snapshot, todo: seq<nat>)
    requires 0 !in s.cloud.instances && p in s.procs && s.procs[p] == Creating(call) && call.pc == Scanning(snap, todo)
    requires NoneFree(s.cloud, todo)
    ensures After(cfg, s, Acting(p, Acks(|todo| + 1))) == At(s, s.cloud, p, WhenNoneFree(call, snap))
    decreases |todo|
  {
    hide After, FreeInstance, NoneFree, WhenNoneFree;
    ScansOne(cfg, s, p, call, snap, todo);
    if todo != [] {
      NoneFreeTail(s.cloud, todo);
      var call' := call.(pc := Scanning(snap, todo[1..]));
      var s' := At(s, s.cloud, p, call');
      SameFlags(call, call', snap);
      ScanFindsNone(cfg, s', p, call', snap, todo[1..]);
      TwoActs(cfg, s, p, |todo|, s', At(s, s.cloud, p, WhenNoneFree(call, snap)));
    }
  }

  /** One step, then more of them. */
  lemma TwoActs(cfg: Config, s: State, p: nat, n: nat, mid: State, end: State)
    requires After(cfg, s, Acting(p, Acks(1))) == mid && After(cfg, mid, Acting(p, Acks(n))) == end
    ensures After(cfg, s, Acting(p, Acks(n + 1))) == end
  {
    hide After;
    assert Acks(1) + Acks(n) == Acks(n + 1);
    ActsThen(cfg, s, p, Acks(1), Acks(n));
  }

  lemma SameFlags(a: CreateCall, b: CreateCall, snap: Snapshot)
    requires b == a.(pc := b.pc)
    ensures WhenNoneFree(b, snap) == WhenNoneFree(a, snap)
  {}

  /** The choice of a response that lists the elements in this order. */
  function Lists(listed: seq<nat>): Choice {
    Shown(0).(listed := listed)
  }

  /** The instances of the listed nodes, 0 for one still provisioning. */
  ghost predicate HasInstances(c: Cloud, listed: seq<nat>, ids: seq<nat>) {
    |ids| == |listed| && forall j :: 0 <= j < |listed| ==> listed[j] in c.nodes && ids[j] == c.nodes[listed[j]].instance
  }

  lemma ReadsPool(cfg: Config, s: State, p: nat, call: CreateCall, snap: Snapshot, listed: seq<nat>, ids: seq<nat>)
    requires !cfg.enterprise && p in s.procs && s.procs[p] == Creating(call) && call.pc == Reading(snap)
    requires snap.id in s.cloud.pools && ListsNodes(s.cloud, snap.id, listed) && HasInstances(s.cloud, listed, ids)
    ensures After(cfg, s, Acting(p, [Lists(listed)])) == At(s, s.cloud, p, call.(pc := Scanning(snap, ids)))
  {
    StepMoves(cfg, s, p, call, Lists(listed));
    assert ListedInstances(s.cloud, listed) == ids;
    hide After, ListedInstances, ListsNodes;
  }

  /**
   A Create that has its pool claims the instance of the first listed node that has a free one: provisioning nodes,
   instances that are gone and claimed instances are passed over.
   */
  lemma FirstFreeIsClaimed(cfg: Config, s: State, p: nat, call: CreateCall, snap: Snapshot,
                           listed: seq<nat>, ids: seq<nat>, k: nat)
    requires !cfg.enterprise && p in s.procs && s.procs[p] == Creating(call) && call.pc == Reading(snap)
    requires 0 !in s.cloud.instances
    requires snap.id in s.cloud.pools && ListsNodes(s.cloud, snap.id, listed) && HasInstances(s.cloud, listed, ids)
    requires FirstFreeAt(s.cloud, ids, k)
    ensures k < |ids| && ids[k] in s.cloud.instances
    ensures After(cfg, s, Acting(p, [Lists(listed)] + Acks(k + 1)))
         == At(s, s.cloud, p, ClaimingOf(s.cloud, call, snap, ids[k]))
  {
    ReadsPool(cfg, s, p, call, snap, listed, ids);
    var call' := call.(pc := Scanning(snap, ids));
    hide After, FirstFreeAt, ListsNodes, HasInstances;
    ScanFindsFirst(cfg, At(s, s.cloud, p, call'), p, call', snap, ids, k);
    ActsThen(cfg, s, p, [Lists(listed)], Acks(k + 1));
  }

  /** With no free instance in the pool it goes on to scale, or to wait when it has added capacity already. */
  lemma NoneFreeIsScaled(cfg: Config, s: State, p: nat, call: CreateCall, snap: Snapshot, listed: seq<nat>, ids: seq<nat>)
    requires !cfg.enterprise && p in s.procs && s.procs[p] == Creating(call) && call.pc == Reading(snap)
    requires 0 !in s.cloud.instances
    requires snap.id in s.cloud.pools && ListsNodes(s.cloud, snap.id, listed) && HasInstances(s.cloud, listed, ids)
    requires NoneFree(s.cloud, ids)
    ensures After(cfg, s, Acting(p, [Lists(listed)] + Acks(|ids| + 1))) == At(s, s.cloud, p, WhenNoneFree(call, snap))
  {
    ReadsPool(cfg, s, p, call, snap, listed, ids);
    var call' := call.(pc := Scanning(snap, ids));
    hide After, NoneFree, ListsNodes, HasInstances, WhenNoneFree;
    SameFlags(call, call', snap);
    ScanFindsNone(cfg, At(s, s.cloud, p, call'), p, call', snap, ids);
    ActsThen(cfg, s, p, [Lists(listed)], Acks(|ids| + 1));
  }

  /** A free instance of the type, as the Enterprise discovery looks for. */
  ghost predicate FreeOfType(c: Cloud, itype: string, i: nat) {
    FreeInstance(c, i) && c.instances[i].itype == itype
  }

  /** The Enterprise tier claims the first discovered free instance of its type. */
  lemma FirstFreeIsClaimedEnterprise(cfg: Config, s: State, p: nat, call: CreateCall, snap: Snapshot, listed: seq<nat>, k: nat)
    requires cfg.enterprise && p in s.procs && s.procs[p] == Creating(call) && call.pc == Reading(snap)
    requires Discovers(s.cloud, snap.id, listed) && k < |listed| && FreeOfType(s.cloud, call.args.key.itype, listed[k])
    requires forall j :: 0 <= j < k ==> !FreeOfType(s.cloud, call.args.key.itype, listed[j])
    ensures After(cfg, s, Acting(p, [Lists(listed)]))
         == At(s, s.cloud, p, call.(pc := Claiming(snap, listed[k], s.cloud.instances[listed[k]].tags)))
  {
    var c, itype := s.cloud, call.args.key.itype;
    StepMoves(cfg, s, p, call, Lists(listed));
    forall i ensures Claimable(c, itype, i) <==> FreeOfType(c, itype, i) { ClaimableIsFree(c, itype, i); }
    hide After, Discovers, Claimable, FreeOfType, FirstClaimable;
    var found := FirstClaimable(c, itype, listed);
    assert listed[k] in listed;
    var m :| 0 <= m < |listed| && listed[m] == found.value && forall j :: 0 <= j < m ==> !Claimable(c, itype, listed[j]);
    assert m == k;
  }

  /** ... and with none goes on as the standard tier does. */
  lemma NoneFreeIsScaledEnterprise(cfg: Config, s: State, p: nat, call: CreateCall, snap: Snapshot, listed: seq<nat>)
    requires cfg.enterprise && p in s.procs && s.procs[p] == Creating(call) && call.pc == Reading(snap)
    requires Discovers(s.cloud, snap.id, listed)
    requires forall i :: i in listed ==> !FreeOfType(s.cloud, call.args.key.itype, i)
    ensures After(cfg, s, Acting(p, [Lists(listed)])) == At(s, s.cloud, p, WhenNoneFree(call, snap))
  {
    var c, itype := s.cloud, call.args.key.itype;
    StepMoves(cfg, s, p, call, Lists(listed));
    forall i ensures Claimable(c, itype, i) <==> FreeOfType(c, itype, i) { ClaimableIsFree(c, itype, i); }
    hide After, Discovers, Claimable, FreeOfType, FirstClaimable;
    FoundIsListed(c, itype, listed);
  }

  lemma FoundIsListed(c: Cloud, itype: string, listed: seq<nat>)
    ensures FirstClaimable(c, itype, listed).Some? ==>
      FirstClaimable(c, itype, listed).value in listed && Claimable(c, itype, FirstClaimable(c, itype, listed).value)
  {
    hide Claimable;
  }

  lemma ClaimableIsFree(c: Cloud, itype: string, i: nat)
    ensures Claimable(c, itype, i) <==> FreeOfType(c, itype, i)
  {
    if i in c.instances { UnclaimedUnmarked(c.instances[i].tags); }
  }

  // ---------------------------------------------------------------- the other steps of a Create acting alone

  function SlotOf(cfg: Config, call: CreateCall): nat {
    Slot(cfg, call.args.key)
  }

  /** A Create takes a free lock, unless its deadline has passed. */
  lemma TakesLock(cfg: Config, s: State, p: nat, call: CreateCall)
    requires p in s.procs && s.procs[p] == Creating(call) && call.pc == Waiting && SlotOf(cfg, call) !in s.locks
    ensures After(cfg, s, Acting(p, [Shown(0)]))
         == At(s.(locks := s.locks[SlotOf(cfg, call) := p]), s.cloud, p, call.(pc := Relooking))
  {
    ActsOnce(cfg, s, p, Shown(0));
    hide After, MakePoolKey;
  }

  lemma DeadlineEnds(cfg: Config, s: State, p: nat, call: CreateCall)
    requires p in s.procs && s.procs[p] == Creating(call) && call.pc == Waiting
    ensures After(cfg, s, Acting(p, [Shown(0).(flag := true)])) == At(s, s.cloud, p, call.(pc := Returned(Errored)))
  {
    StepMoves(cfg, s, p, call, Shown(0).(flag := true));
    hide After;
  }

  /** Leaving the critical section frees the lock; a result becomes the call's, anything else is tried again. */
  lemma ReleasesLock(cfg: Config, s: State, p: nat, call: CreateCall, next: Next)
    requires p in s.procs && s.procs[p] == Creating(call) && call.pc == Unlocking(next)
    ensures After(cfg, s, Acting(p, [Shown(0)])) ==
      var freed := s.(locks := s.locks - {SlotOf(cfg, call)});
      match next
      case Retry => At(freed, s.cloud, p, call.(pc := Waiting))
      case Return(Errored) => At(freed, s.cloud, p, call.(pc := Returned(Errored)))
      case Return(Got(i, quoted)) =>
        At(freed.(provided := s.provided + {i}), s.cloud, p, call.(pc := Returned(Got(i, quoted))))
  {
    ActsOnce(cfg, s, p, Shown(0));
    hide After, MakePoolKey;
  }

  /** The lookup under the lock: a matching instance is the result, and with none the pools are listed. */
  lemma RelooksAlone(cfg: Config, s: State, p: nat, call: CreateCall, i: nat)
    requires p in s.procs && s.procs[p] == Creating(call) && call.pc == Relooking
    ensures Matches(s.cloud, i, call.args.claim) ==>
      After(cfg, s, Acting(p, [Shown(i)]))
      == At(s, s.cloud, p, call.(pc := Unlocking(Return(Got(i, OnlyQuoted(s.cloud, i, call.args.claim))))))
    ensures (forall j :: !Matches(s.cloud, j, call.args.claim)) ==>
      After(cfg, s, Acting(p, [Shown(i)])) == At(s, s.cloud, p, call.(pc := Listing))
  {
    StepMoves(cfg, s, p, call, Shown(i));
    hide After, Matches, OnlyQuoted;
  }

  /** The first lookup, before any lock: pool tags too long end the call; a match is the result; else it asks for the lock. */
  lemma StartsAlone(cfg: Config, s: State, p: nat, call: CreateCall, i: nat)
    requires p in s.procs && s.procs[p] == Creating(call) && call.pc == Starting
    ensures !PoolTagsFit(cfg, call.args) ==>
      After(cfg, s, Acting(p, [Shown(i)])) == At(s, s.cloud, p, call.(pc := Returned(Errored)))
    ensures PoolTagsFit(cfg, call.args) && Matches(s.cloud, i, call.args.claim) ==>
      After(cfg, s, Acting(p, [Shown(i)]))
      == At(s.(provided := s.provided + {i}), s.cloud, p, call.(pc := Returned(Got(i, OnlyQuoted(s.cloud, i, call.args.claim)))))
    ensures PoolTagsFit(cfg, call.args) && (forall j :: !Matches(s.cloud, j, call.args.claim)) ==>
      After(cfg, s, Acting(p, [Shown(i)])) == At(s, s.cloud, p, call.(pc := Waiting))
  {
    ActsOnce(cfg, s, p, Shown(i));
    hide After, Matches, OnlyQuoted, PoolTagsFit, MakePoolKey;
  }

  function SnapshotOf(c: Cloud, id: nat): Snapshot
    requires id in c.pools
  {
    Snapshot(id, c.pools[id].count, c.pools[id].tags)
  }

  /** A managed pool of the NodePool and the type is used, after pinning its version when another one is asked for. */
  lemma ListsAlone(cfg: Config, s: State, p: nat, call: CreateCall, id: nat)
    requires p in s.procs && s.procs[p] == Creating(call) && call.pc == Listing
    ensures id in s.cloud.pools && KeyOf(s.cloud.pools[id]) == Some(call.args.key) ==>
      After(cfg, s, Acting(p, [Shown(id)])) == At(s, s.cloud, p, call.(
        pc := if call.args.pin == None || s.cloud.pools[id].version == call.args.pin then Reading(SnapshotOf(s.cloud, id))
              else Pinning(SnapshotOf(s.cloud, id), call.args.pin.value)))
    ensures !HasPool(s.cloud, call.args.key) ==>
      After(cfg, s, Acting(p, [Shown(id)])) == At(s, s.cloud, p, call.(pc := MakingPool))
  {
    StepMoves(cfg, s, p, call, Shown(id));
    hide After, KeyOf;
  }

  /** Pinning gives the pool the version and changes nothing else. */
  lemma PinsAlone(cfg: Config, s: State, p: nat, call: CreateCall, snap: Snapshot, version: string)
    requires p in s.procs && s.procs[p] == Creating(call) && call.pc == Pinning(snap, version) && snap.id in s.cloud.pools
    ensures var c' := s.cloud.(pools := s.cloud.pools[snap.id := s.cloud.pools[snap.id].(version := Some(version))]);
      After(cfg, s, Acting(p, [Shown(0)])) == At(s, c', p, call.(pc := Reading(snap)))
  {
    StepMoves(cfg, s, p, call, Shown(0));
    hide After;
  }

  /** The pool made has the call's type, version and tags, and one node that is still provisioning. */
  lemma MakesAlone(cfg: Config, s: State, p: nat, call: CreateCall, id: nat, node: nat, tags: seq<string>)
    requires p in s.procs && s.procs[p] == Creating(call) && call.pc == MakingPool
    requires id !in s.cloud.pools && node !in s.cloud.nodes && ListsPoolTags(cfg, call.args, tags)
    ensures var c' := s.cloud.(pools := s.cloud.pools[id := Pool(call.args.key.itype, tags, call.args.pin, 1, History(1, 0, 0))],
                               nodes := s.cloud.nodes[node := Node(id, 0)]);
      After(cfg, s, Acting(p, [Shown(id).(node := node, tags := tags)]))
      == At(s, c', p, call.(createdPool := true, pools := call.pools + 1, pc := Reading(Snapshot(id, 1, tags))))
  {
    StepMoves(cfg, s, p, call, Shown(id).(node := node, tags := tags));
    hide After, ListsPoolTags;
  }

  /** The claim is written on the live instance; a gone one is not claimed and the attempt is repeated. */
  lemma ClaimsAlone(cfg: Config, s: State, p: nat, call: CreateCall, snap: Snapshot, i: nat, seen: seq<string>)
    requires p in s.procs && s.procs[p] == Creating(call) && call.pc == Claiming(snap, i, seen)
    ensures i in s.cloud.instances ==>
      After(cfg, s, Acting(p, [Shown(0)]))
      == At(s, s.cloud.(instances := s.cloud.instances[i := Instance(s.cloud.instances[i].itype,
                          ClaimWrite(seen, snap.tags, call.args.classTags, call.args.claim))]),
            p, call.(pc := Verifying(i)))
    ensures i !in s.cloud.instances ==> After(cfg, s, Acting(p, [Shown(0)])) == At(s, s.cloud, p, call.(pc := Unlocking(Retry)))
  {
    StepMoves(cfg, s, p, call, Shown(0));
    hide After, ClaimWrite;
  }

  /** A claim that shows is the result; one that does not is looked for until the call gives up and tries again. */
  lemma VerifiesAlone(cfg: Config, s: State, p: nat, call: CreateCall, i: nat)
    requires p in s.procs && s.procs[p] == Creating(call) && call.pc == Verifying(i)
    ensures After(cfg, s, Acting(p, [Shown(0)])) == At(s, s.cloud, p,
      if i in s.cloud.instances && NodeClaimTag(call.args.claim) in s.cloud.instances[i].tags
      then call.(pc := Unlocking(Return(Got(i, false)))) else call)
    ensures After(cfg, s, Acting(p, [Shown(0).(flag := true)])) == At(s, s.cloud, p, call.(pc := Unlocking(Retry)))
  {
    StepMoves(cfg, s, p, call, Shown(0));
    StepMoves(cfg, s, p, call, Shown(0).(flag := true));
    hide After, NodeClaimTag;
  }

  /** A plan reported as sold out ends the call; otherwise the pool is scaled. */
  lemma ChecksAlone(cfg: Config, s: State, p: nat, call: CreateCall, snap: Snapshot, soldOut: bool)
    requires p in s.procs && s.procs[p] == Creating(call) && call.pc == CheckingPlan(snap)
    ensures After(cfg, s, Acting(p, [Shown(0).(flag := soldOut)]))
         == At(s, s.cloud, p, call.(pc := if soldOut then Unlocking(Return(Errored)) else Scaling(snap)))
  {
    StepMoves(cfg, s, p, call, Shown(0).(flag := soldOut));
    hide After;
  }

  /** Scaling a pool whose count is the one read adds one node to it, and the call tries again. */
  lemma ScalesAlone(cfg: Config, s: State, p: nat, call: CreateCall, snap: Snapshot, node: nat)
    requires p in s.procs && s.procs[p] == Creating(call) && call.pc == Scaling(snap)
    requires CountsSound(s.cloud) && Current(s.cloud, call.args.key, snap) && node !in s.cloud.nodes
    ensures After(cfg, s, Acting(p, [Adds(node)]))
         == At(s, Grown(s.cloud, snap.id, node), p,
               call.(scaledOnce := true, scales := call.scales + 1, pc := Unlocking(Retry)))
  {
    hide After, Current, CountsSound, ScaleStep, Grown;
    StepMoves(cfg, s, p, call, Adds(node));
    CurrentIsThere(s.cloud, call.args.key, snap);
    ScaleGrows(s.cloud, call, snap, node);
  }

  function Adds(node: nat): Choice {
    Shown(0).(added := {node})
  }

  lemma ScaleGrows(c: Cloud, call: CreateCall, snap: Snapshot, node: nat)
    requires CountsSound(c) && node !in c.nodes && snap.id in c.pools && c.pools[snap.id].count == snap.count
    ensures ScaleStep(c, call, snap, Adds(node))
         == Effect(Grown(c, snap.id, node),
                   Creating(call.(scaledOnce := true, scales := call.scales + 1, pc := Unlocking(Retry))), Keep, None, None)
  {
    assert ResizeAllowed(c, snap.id, snap.count + 1, {node}, {});
    hide NodesOf, CountsSound;
    OneAdded(c, snap.id, snap.count + 1, node);
    hide Resize, ResizeAllowed, Grown;
  }

  lemma OneAdded(c: Cloud, id: nat, count: nat, node: nat)
    requires id in c.pools && count == c.pools[id].count + 1 && ResizeAllowed(c, id, count, {node}, {})
    ensures Resize(c, id, count, {node}, {}) == Grown(c, id, node)
  {
    assert Remove(c, {}) == c;
  }

  // ---------------------------------------------------------------- a whole Create acting alone

  lemma RunsOn(cfg: Config, s: State, p: nat, first: seq<Choice>, second: seq<Choice>, mid: State, end: State)
    requires After(cfg, s, Acting(p, first)) == mid && After(cfg, mid, Acting(p, second)) == end
    ensures After(cfg, s, Acting(p, first + second)) == end
  {
    hide After;
    ActsThen(cfg, s, p, first, second);
  }

  lemma AtIs(s: State, c: Cloud, p: nat, call: CreateCall)
    ensures var t := At(s, c, p, call);
      && t.cloud == c && p in t.procs && t.procs[p] == Creating(call)
      && t.locks == s.locks && t.provided == s.provided && t.vanished == s.vanished
  {}

  /** Only the last cloud and the last step count. */
  lemma AtAgain(s: State, c: Cloud, p: nat, call: CreateCall, c': Cloud, call': CreateCall)
    ensures At(At(s, c, p, call), c', p, call') == At(s, c', p, call')
    ensures forall locks, provided ::
      At(At(s, c, p, call).(locks := locks, provided := provided), c', p, call')
      == At(s.(locks := locks, provided := provided), c', p, call')
    ensures forall locks ::
      At(At(s, c, p, call).(locks := locks), c', p, call') == At(s.(locks := locks), c', p, call')
  {}

  /** The state in which the process holds its lock. */
  function Holding(cfg: Config, s: State, p: nat, call: CreateCall): State {
    s.(locks := s.locks[SlotOf(cfg, call) := p])
  }

  /** No instance answers the lookup of the claim. */
  ghost predicate NoneMatches(c: Cloud, claim: string) {
    forall j :: !Matches(c, j, claim)
  }

  /** Under its lock, with no instance to find again, the call gets to its managed pool. */
  lemma LoneCreateReads(cfg: Config, s: State, p: nat, call: CreateCall, id: nat)
    requires p in s.procs && s.procs[p] == Creating(call) && call.pc == Waiting && SlotOf(cfg, call) !in s.locks
    requires NoneMatches(s.cloud, call.args.claim)
    requires id in s.cloud.pools && KeyOf(s.cloud.pools[id]) == Some(call.args.key)
    requires call.args.pin == None || s.cloud.pools[id].version == call.args.pin
    ensures After(cfg, s, Acting(p, [Shown(0), Shown(0), Shown(id)]))
         == At(Holding(cfg, s, p, call), s.cloud, p, call.(pc := Reading(SnapshotOf(s.cloud, id))))
  {
    hide After, KeyOf, Matches, SlotOf, At;
    var held, c, relooking, listing := Holding(cfg, s, p, call), s.cloud, call.(pc := Relooking), call.(pc := Listing);
    var reading := call.(pc := Reading(SnapshotOf(c, id)));
    var s1, s2, s3 := At(held, c, p, relooking), At(held, c, p, listing), At(held, c, p, reading);
    AtIs(held, c, p, relooking);
    AtIs(held, c, p, listing);
    AtAgain(held, c, p, relooking, c, listing);
    AtAgain(held, c, p, listing, c, reading);
    TakesLock(cfg, s, p, call);
    RelooksAlone(cfg, s1, p, relooking, 0);
    ListsAlone(cfg, s2, p, listing, id);
    RunsOn(cfg, s, p, [Shown(0)], [Shown(0)], s1, s2);
    RunsOn(cfg, s, p, [Shown(0)] + [Shown(0)], [Shown(id)], s2, s3);
    assert [Shown(0)] + [Shown(0)] + [Shown(id)] == [Shown(0), Shown(0), Shown(id)];
  }

  /** The instance with the claim written over the tags it had. */
  ghost function Claimed(c: Cloud, i: nat, snap: Snapshot, args: CreateArgs): Cloud
    requires i in c.instances
  {
    c.(instances := c.instances[i := Instance(c.instances[i].itype,
                                              ClaimWrite(c.instances[i].tags, snap.tags, args.classTags, args.claim))])
  }

  lemma ClaimShows(seen: seq<string>, poolTags: seq<string>, classTags: seq<string>, claim: string)
    requires claim != ""
    ensures NodeClaimTag(claim) in ClaimWrite(seen, poolTags, classTags, claim)
  {
    ClaimWriteMeaning(seen, poolTags, classTags, claim);
    DetectorsReadMarks(ClaimWrite(seen, poolTags, classTags, claim), claim);
    hide ClaimWrite, Marks, NodeClaimTag, NormalizeNodeClaimTagValue;
  }

  /** A call that claims a live instance writes the claim, sees it, frees the lock and returns the instance. */
  lemma LoneCreateReturns(cfg: Config, s: State, p: nat, call: CreateCall, snap: Snapshot, i: nat)
    requires p in s.procs && s.procs[p] == Creating(call) && i in s.cloud.instances && call.args.claim != ""
    requires call.pc == Claiming(snap, i, s.cloud.instances[i].tags)
    ensures After(cfg, s, Acting(p, Acks(3)))
         == At(s.(locks := s.locks - {SlotOf(cfg, call)}, provided := s.provided + {i}), Claimed(s.cloud, i, snap, call.args), p,
               call.(pc := Returned(Got(i, false))))
  {
    hide After, ClaimWrite, NodeClaimTag, Slot, At;
    var c', got := Claimed(s.cloud, i, snap, call.args), Got(i, false);
    var verifying, leaving := call.(pc := Verifying(i)), call.(pc := Unlocking(Return(got)));
    var returned := call.(pc := Returned(got));
    var s1, s2 := At(s, c', p, verifying), At(s, c', p, leaving);
    var s3 := At(s.(locks := s.locks - {SlotOf(cfg, call)}, provided := s.provided + {i}), c', p, returned);
    AtIs(s, c', p, verifying);
    AtIs(s, c', p, leaving);
    AtAgain(s, c', p, verifying, c', leaving);
    AtAgain(s, c', p, leaving, c', returned);
    ClaimsAlone(cfg, s, p, call, snap, i, s.cloud.instances[i].tags);
    ClaimShows(s.cloud.instances[i].tags, snap.tags, call.args.classTags, call.args.claim);
    VerifiesAlone(cfg, s1, p, verifying, i);
    ReleasesLock(cfg, s2, p, leaving, Return(got));
    assert After(cfg, s2, Acting(p, [Shown(0)])) == s3;
    hide Claimed;
    RunsOn(cfg, s, p, [Shown(0)], [Shown(0)], s1, s2);
    RunsOn(cfg, s, p, [Shown(0)] + [Shown(0)], [Shown(0)], s2, s3);
    assert [Shown(0)] + [Shown(0)] + [Shown(0)] == Acks(3);
  }

  /** The end of the attempt as seen from its start: the lock is as it was. */
  lemma HeldCreateReturns(cfg: Config, s: State, p: nat, call: CreateCall, snap: Snapshot, i: nat)
    requires SlotOf(cfg, call) !in s.locks && i in s.cloud.instances && call.args.claim != ""
    ensures After(cfg, At(Holding(cfg, s, p, call), s.cloud, p, ClaimingOf(s.cloud, call, snap, i)), Acting(p, Acks(3)))
         == At(s.(provided := s.provided + {i}), Claimed(s.cloud, i, snap, call.args), p, call.(pc := Returned(Got(i, false))))
  {
    hide After, Claimed, Slot, At;
    var held, claiming := Holding(cfg, s, p, call), call.(pc := Claiming(snap, i, s.cloud.instances[i].tags));
    AtIs(held, s.cloud, p, claiming);
    AtAgain(held, s.cloud, p, claiming, Claimed(s.cloud, i, snap, call.args), call.(pc := Returned(Got(i, false))));
    LoneCreateReturns(cfg, At(held, s.cloud, p, claiming), p, claiming, snap, i);
    assert held.locks - {SlotOf(cfg, call)} == s.locks;
  }

  /** Its pool has no node with a free instance before the k-th listed one, and that one has. */
  ghost predicate FirstFree(c: Cloud, id: nat, listed: seq<nat>, ids: seq<nat>, k: nat) {
    ListsNodes(c, id, listed) && HasInstances(c, listed, ids) && FirstFreeAt(c, ids, k)
  }

  lemma HeldCreateFinds(cfg: Config, s: State, p: nat, call: CreateCall, id: nat, listed: seq<nat>, ids: seq<nat>, k: nat)
    requires !cfg.enterprise && 0 !in s.cloud.instances && id in s.cloud.pools && FirstFree(s.cloud, id, listed, ids, k)
    ensures k < |ids| && ids[k] in s.cloud.instances
    ensures var snap, held := SnapshotOf(s.cloud, id), Holding(cfg, s, p, call);
      After(cfg, At(held, s.cloud, p, call.(pc := Reading(snap))), Acting(p, [Lists(listed)] + Acks(k + 1)))
      == At(held, s.cloud, p, call.(pc := Claiming(snap, ids[k], s.cloud.instances[ids[k]].tags)))
  {
    FirstFreeIsThere(s.cloud, ids, k);
    hide After, FreeInstance, FirstFreeAt, ListsNodes, HasInstances, Slot, At;
    var snap, held := SnapshotOf(s.cloud, id), Holding(cfg, s, p, call);
    var reading, claiming := call.(pc := Reading(snap)), call.(pc := Claiming(snap, ids[k], s.cloud.instances[ids[k]].tags));
    AtIs(held, s.cloud, p, reading);
    AtAgain(held, s.cloud, p, reading, s.cloud, claiming);
    FirstFreeIsClaimed(cfg, At(held, s.cloud, p, reading), p, reading, snap, listed, ids, k);
  }

  /**
   A whole attempt: a Create of the standard tier that acts alone and finds its pool returns the first free instance
   of the pool's nodes, with the claim written on it, the lock as it was and everything else untouched.
   */
  lemma LoneCreateClaims(cfg: Config, s: State, p: nat, call: CreateCall, id: nat, listed: seq<nat>, ids: seq<nat>, k: nat)
    requires !cfg.enterprise && p in s.procs && s.procs[p] == Creating(call) && call.pc == Waiting && call.args.claim != ""
    requires SlotOf(cfg, call) !in s.locks && NoneMatches(s.cloud, call.args.claim) && 0 !in s.cloud.instances
    requires id in s.cloud.pools && KeyOf(s.cloud.pools[id]) == Some(call.args.key)
    requires call.args.pin == None || s.cloud.pools[id].version == call.args.pin
    requires FirstFree(s.cloud, id, listed, ids, k)
    ensures k < |ids| && ids[k] in s.cloud.instances
    ensures After(cfg, s, Acting(p, [Shown(0), Shown(0), Shown(id)] + ([Lists(listed)] + Acks(k + 1)) + Acks(3)))
         == At(s.(provided := s.provided + {ids[k]}), Claimed(s.cloud, ids[k], SnapshotOf(s.cloud, id), call.args), p,
               call.(pc := Returned(Got(ids[k], false))))
  {
    hide After, KeyOf, NoneMatches, FirstFree, Claimed, Slot, At, Holding;
    LoneCreateReads(cfg, s, p, call, id);
    HeldCreateFinds(cfg, s, p, call, id, listed, ids, k);
    HeldCreateReturns(cfg, s, p, call, SnapshotOf(s.cloud, id), ids[k]);
    ThreeRuns(cfg, s, p, [Shown(0), Shown(0), Shown(id)], [Lists(listed)] + Acks(k + 1), Acks(3));
  }

  lemma ThreeRuns(cfg: Config, s: State, p: nat, first: seq<Choice>, second: seq<Choice>, third: seq<Choice>)
    ensures After(cfg, s, Acting(p, first + second + third))
         == After(cfg, After(cfg, After(cfg, s, Acting(p, first)), Acting(p, second)), Acting(p, third))
  {
    hide After;
    ActsThen(cfg, s, p, first, second);
    ActsThen(cfg, s, p, first + second, third);
  }

  lemma HeldCreateFindsNone(cfg: Config, s: State, p: nat, call: CreateCall, id: nat, listed: seq<nat>, ids: seq<nat>)
    requires !cfg.enterprise && 0 !in s.cloud.instances && id in s.cloud.pools && !call.createdPool && !call.scaledOnce
    requires ListsNodes(s.cloud, id, listed) && HasInstances(s.cloud, listed, ids) && NoneFree(s.cloud, ids)
    ensures var snap, held := SnapshotOf(s.cloud, id), Holding(cfg, s, p, call);
      After(cfg, At(held, s.cloud, p, call.(pc := Reading(snap))), Acting(p, [Lists(listed)] + Acks(|ids| + 1)))
      == At(held, s.cloud, p, call.(pc := CheckingPlan(snap)))
  {
    hide After, NoneFree, ListsNodes, HasInstances, Slot, At, WhenNoneFree, Holding;
    var snap, held := SnapshotOf(s.cloud, id), Holding(cfg, s, p, call);
    var reading, checking := call.(pc := Reading(snap)), call.(pc := CheckingPlan(snap));
    assert held.cloud == s.cloud by { HoldingIs(cfg, s, p, call); }
    AtIs(held, s.cloud, p, reading);
    AtAgain(held, s.cloud, p, reading, s.cloud, checking);
    FirstScale(reading, snap);
    NoneFreeIsScaled(cfg, At(held, s.cloud, p, reading), p, reading, snap, listed, ids);
  }

  lemma HoldingIs(cfg: Config, s: State, p: nat, call: CreateCall)
    ensures Holding(cfg, s, p, call).cloud == s.cloud
    ensures SlotOf(cfg, call) !in s.locks ==>
      Holding(cfg, s, p, call).(locks := Holding(cfg, s, p, call).locks - {SlotOf(cfg, call)}) == s
  {
    hide Slot;
    if SlotOf(cfg, call) !in s.locks {
      assert Holding(cfg, s, p, call).locks - {SlotOf(cfg, call)} == s.locks;
    }
  }

  lemma HeldScaleRetries(cfg: Config, s: State, p: nat, call: CreateCall, snap: Snapshot, node: nat)
    requires SlotOf(cfg, call) !in s.locks && call.pc == Waiting
    requires CountsSound(s.cloud) && Current(s.cloud, call.args.key, snap) && node !in s.cloud.nodes
    ensures snap.id in s.cloud.pools
    ensures After(cfg, At(Holding(cfg, s, p, call), s.cloud, p, call.(pc := CheckingPlan(snap))),
                  Acting(p, [Shown(0), Adds(node), Shown(0)]))
         == At(s, Grown(s.cloud, snap.id, node), p, call.(scaledOnce := true, scales := call.scales + 1))
  {
    hide After, CountsSound, Current, Slot, Grown, At, Holding;
    CurrentIsThere(s.cloud, call.args.key, snap);
    HoldingIs(cfg, s, p, call);
    var held, checking := Holding(cfg, s, p, call), call.(pc := CheckingPlan(snap));
    var scaled := call.(scaledOnce := true, scales := call.scales + 1);
    AtIs(held, s.cloud, p, checking);
    AtAgain(held, s.cloud, p, checking, Grown(s.cloud, snap.id, node), scaled);
    ScaleRetries(cfg, At(held, s.cloud, p, checking), p, checking, snap, node);
  }

  /** ... and one whose pool has no free instance gives it one more node, once, and waits for its turn again. */
  lemma LoneCreateScales(cfg: Config, s: State, p: nat, call: CreateCall, id: nat, listed: seq<nat>, ids: seq<nat>, node: nat)
    requires !cfg.enterprise && p in s.procs && s.procs[p] == Creating(call) && call.pc == Waiting
    requires !call.createdPool && !call.scaledOnce && CountsSound(s.cloud) && node !in s.cloud.nodes
    requires SlotOf(cfg, call) !in s.locks && NoneMatches(s.cloud, call.args.claim) && 0 !in s.cloud.instances
    requires id in s.cloud.pools && KeyOf(s.cloud.pools[id]) == Some(call.args.key)
    requires call.args.pin == None || s.cloud.pools[id].version == call.args.pin
    requires ListsNodes(s.cloud, id, listed) && HasInstances(s.cloud, listed, ids) && NoneFree(s.cloud, ids)
    ensures After(cfg, s, Acting(p, [Shown(0), Shown(0), Shown(id)] + ([Lists(listed)] + Acks(|ids| + 1))
                                    + [Shown(0), Adds(node), Shown(0)]))
         == At(s, Grown(s.cloud, id, node), p, call.(scaledOnce := true, scales := call.scales + 1))
  {
    assert Current(s.cloud, call.args.key, SnapshotOf(s.cloud, id)) by { hide KeyOf; }
    hide After, KeyOf, NoneMatches, NoneFree, ListsNodes, HasInstances, Slot, Current, CountsSound, At, Grown, Holding;
    LoneCreateReads(cfg, s, p, call, id);
    HeldCreateFindsNone(cfg, s, p, call, id, listed, ids);
    HeldScaleRetries(cfg, s, p, call, SnapshotOf(s.cloud, id), node);
    ThreeRuns(cfg, s, p, [Shown(0), Shown(0), Shown(id)], [Lists(listed)] + Acks(|ids| + 1), [Shown(0), Adds(node), Shown(0)]);
  }

  lemma FirstScale(call: CreateCall, snap: Snapshot)
    requires !call.createdPool && !call.scaledOnce
    ensures WhenNoneFree(call, snap) == call.(pc := CheckingPlan(snap))
  {}

  lemma ScaleRetries(cfg: Config, s: State, p: nat, call: CreateCall, snap: Snapshot, node: nat)
    requires p in s.procs && s.procs[p] == Creating(call) && call.pc == CheckingPlan(snap)
    requires CountsSound(s.cloud) && Current(s.cloud, call.args.key, snap) && node !in s.cloud.nodes
    ensures snap.id in s.cloud.pools
    ensures After(cfg, s, Acting(p, [Shown(0), Adds(node), Shown(0)]))
         == At(s.(locks := s.locks - {SlotOf(cfg, call)}), Grown(s.cloud, snap.id, node), p,
               call.(scaledOnce := true, scales := call.scales + 1, pc := Waiting))
  {
    hide After, CountsSound, Current, Slot, Grown, At;
    CurrentIsThere(s.cloud, call.args.key, snap);
    var c', scaling := Grown(s.cloud, snap.id, node), call.(pc := Scaling(snap));
    var leaving := call.(scaledOnce := true, scales := call.scales + 1, pc := Unlocking(Retry));
    var s1, s2 := At(s, s.cloud, p, scaling), At(s, c', p, leaving);
    AtIs(s, s.cloud, p, scaling);
    AtIs(s, c', p, leaving);
    AtAgain(s, s.cloud, p, scaling, c', leaving);
    AtAgain(s, c', p, leaving, c', leaving.(pc := Waiting));
    ChecksAlone(cfg, s, p, call, snap, false);
    assert Shown(0).(flag := false) == Shown(0);
    ScalesAlone(cfg, s1, p, scaling, snap, node);
    ReleasesLock(cfg, s2, p, leaving, Retry);
    var end := At(s.(locks := s.locks - {SlotOf(cfg, call)}), c', p, leaving.(pc := Waiting));
    assert After(cfg, s2, Acting(p, [Shown(0)])) == end;
    RunsOn(cfg, s, p, [Shown(0)], [Adds(node)], s1, s2);
    RunsOn(cfg, s, p, [Shown(0)] + [Adds(node)], [Shown(0)], s2, end);
    assert [Shown(0)] + [Adds(node)] + [Shown(0)] == [Shown(0), Adds(node), Shown(0)];
  }

  // ---------------------------------------------------------------- failed and lost responses

  predicate ReadsOnly(pc: CreatePc) {
    pc.Starting? || pc.Relooking? || pc.Listing? || pc.Reading? || (pc.Scanning? && pc.todo != [] && pc.todo[0] != 0)
  }

  predicate Writes(pc: CreatePc) {
    pc.Pinning? || pc.MakingPool? || pc.Claiming? || pc.Scaling?
  }

  /**
   Where an error leads: before the lock it ends the call; a claim that failed is tried again; any other error is
   tried again if it is retryable and is the result if not, in both cases after the lock is freed.
   */
  function AfterFailure(pc: CreatePc, retryable: bool): CreatePc {
    match pc
    case Starting => Returned(Errored)
    case Claiming(_, _, _) => Unlocking(Retry)
    case _ => Unlocking(if retryable then Retry else Return(Errored))
  }

  /** A call that fails, and a read whose response is lost, change nothing but where the Create is. */
  lemma FailureIsHandled(cfg: Config, s: State, p: nat, call: CreateCall, ch: Choice)
    requires p in s.procs && s.procs[p] == Creating(call)
    requires (ch.outcome.Fail? && (ReadsOnly(call.pc) || Writes(call.pc))) || (ch.outcome.Lost? && ReadsOnly(call.pc))
    ensures After(cfg, s, Acting(p, [ch])) == At(s, s.cloud, p, call.(pc := AfterFailure(call.pc, ch.outcome.retryable)))
  {
    hide After, At, CreateStep;
    StepMoves(cfg, s, p, call, ch);
    FailedStep(cfg, s.cloud, call, Free(cfg, s, s.procs[p]), ch);
  }

  lemma FailedStep(cfg: Config, c: Cloud, call: CreateCall, free: bool, ch: Choice)
    requires (ch.outcome.Fail? && (ReadsOnly(call.pc) || Writes(call.pc))) || (ch.outcome.Lost? && ReadsOnly(call.pc))
    ensures CreateStep(cfg, c, call, free, ch)
         == Effect(c, Creating(call.(pc := AfterFailure(call.pc, ch.outcome.retryable))), Keep, None, None)
  {
    hide Unclaimed, Resize, ResizeAllowed, WriteTags, ClaimWrite, SetVersion, CreatePool, ListsPoolTags, LookupFinds, KeyOf,
         PoolTagsFit, Discovers, ListsNodes, HasPool, FirstClaimable, ListedInstances, OnlyQuoted;
    match call.pc
    case Starting => case Relooking => case Listing => case Pinning(_, _) => case MakingPool =>
    case Reading(_) => case Scanning(_, _) => case Claiming(_, _, _) => case Scaling(_) => case _ =>
  }

  /** A write whose response is lost has the effect of an acknowledged one, and is handled like a failed one. */
  lemma LostWriteTakesEffect(cfg: Config, s: State, p: nat, call: CreateCall, ch: Choice, retryable: bool)
    requires p in s.procs && s.procs[p] == Creating(call) && Writes(call.pc) && ch.outcome.Ack?
    requires After(cfg, s, Acting(p, [ch])).cloud != s.cloud
    ensures After(cfg, s, Acting(p, [ch.(outcome := Lost(retryable))]))
         == At(s, After(cfg, s, Acting(p, [ch])).cloud, p, call.(pc := AfterFailure(call.pc, retryable)))
  {
    hide After, At, CreateStep;
    LostStep(cfg, s.cloud, call, Free(cfg, s, s.procs[p]), ch, retryable);
    StepMoves(cfg, s, p, call, ch.(outcome := Lost(retryable)));
    ActsOnce(cfg, s, p, ch);
  }

  lemma LostStep(cfg: Config, c: Cloud, call: CreateCall, free: bool, ch: Choice, retryable: bool)
    requires Writes(call.pc) && ch.outcome.Ack?
    ensures var e := CreateStep(cfg, c, call, free, ch);
      e.cloud != c ==>
        (CreateStep(cfg, c, call, free, ch.(outcome := Lost(retryable)))
         == Effect(e.cloud, Creating(call.(pc := AfterFailure(call.pc, retryable))), Keep, None, None))
  {
    hide Resize, ResizeAllowed, WriteTags, ClaimWrite, SetVersion, CreatePool, ListsPoolTags;
    match call.pc
    case Pinning(_, _) => case MakingPool => case Claiming(_, _, _) => case Scaling(_) => case _ =>
  }

  // ---------------------------------------------------------------- the results of a Delete

  predicate EndsIn(pc: DeletePc, result: DeleteResult) {
    (pc.Leaving? || pc.Gone?) && pc.result == result
  }

  /** A Delete has just come to this result. */
  predicate Concludes(was: DeletePc, pc: DeletePc, result: DeleteResult) {
    EndsIn(pc, result) && !EndsIn(was, result)
  }

  predicate CallsApi(pc: DeletePc) {
    pc.Finding? || pc.Refinding? || pc.DroppingPool? || pc.DroppingNode?
  }

  /**
   What a step of Delete(i) may report: NotFound only when no managed pool shows the instance, found out by a look that
   was answered; Deleted only when the instance is removed, by a drop that was acknowledged; an error exactly when an
   API call fails or its response is lost. A failed call changes nothing.
   */
  ghost predicate ReportsTruly(c: Cloud, c': Cloud, i: nat, pc: DeletePc, pc': DeletePc, ch: Choice) {
    && (!pc.Gone? && EndsIn(pc', NotFound) ==> NotShown(c', i))
    && (EndsIn(pc', Deleted) ==> Removed(c', i))
    && (Concludes(pc, pc', DeleteErrored) <==> CallsApi(pc) && !ch.outcome.Ack?)
    && (Concludes(pc, pc', Deleted) <==> (pc.DroppingPool? || pc.DroppingNode?) && ch.outcome.Ack?)
    && (Concludes(pc, pc', NotFound) <==> (pc.Finding? || pc.Refinding?) && ch.outcome.Ack? && NotShown(c, i))
    && (ch.outcome.Fail? ==> c' == c)
  }

  /** In every reachable state every step of a Delete reports truly. */
  lemma DeleteResultMeans(cfg: Config, s: State, p: nat, i: nat, pc: DeletePc, ch: Choice)
    requires Reached(cfg, s) && p in s.procs && s.procs[p] == Deleting(i, pc)
    ensures var s' := Step(cfg, s, Act(p, ch));
      s'.procs[p].Deleting? && s'.procs[p].instance == i && ReportsTruly(s.cloud, s'.cloud, i, pc, s'.procs[p].pc, ch)
  {
    ReachedInv(cfg, s);
    InvKnows(cfg, s, p);
    assert DeleteKnows(s.cloud, i, pc);
    hide Reached, Inv, UnclaimedForeign, Sound, DeleteStep, Free, ReportsTruly, DeleteKnows, Step;
    DeleteActs(cfg, s, p, i, pc, ch);
    DeleteStepReports(s.cloud, i, pc, Free(cfg, s, s.procs[p]), ch);
  }

  lemma DeleteActs(cfg: Config, s: State, p: nat, i: nat, pc: DeletePc, ch: Choice)
    requires p in s.procs && s.procs[p] == Deleting(i, pc)
    ensures var s', e := Step(cfg, s, Act(p, ch)), DeleteStep(s.cloud, i, pc, Free(cfg, s, s.procs[p]), ch);
      p in s'.procs && s'.procs[p] == e.proc && s'.cloud == e.cloud
  {
    hide DeleteStep, Free, LocksAfter, Vanished;
  }

  lemma DeleteStepReports(c: Cloud, i: nat, pc: DeletePc, free: bool, ch: Choice)
    requires Sound(c) && UnclaimedForeign(c) && DeleteKnows(c, i, pc)
    ensures var e := DeleteStep(c, i, pc, free, ch);
      e.proc.Deleting? && e.proc.instance == i && ReportsTruly(c, e.cloud, i, pc, e.proc.pc, ch)
  {
    hide UnclaimedForeign, Sound, DeleteStep, DeleteKnows, NotShown, Removed, Rely, CallsApi, Concludes, GivenMarked;
    var e := DeleteStep(c, i, pc, free, ch);
    DeleteStepGood(c, i, pc, free, ch);
    DeleteStepMeans(c, i, pc, free, ch);
    EndKnown(e.cloud, i, e.proc.pc);
  }

  lemma EndKnown(c: Cloud, i: nat, pc: DeletePc)
    requires DeleteKnows(c, i, pc)
    ensures EndsIn(pc, Deleted) ==> Removed(c, i)
    ensures pc.Leaving? && EndsIn(pc, NotFound) ==> NotShown(c, i)
  {
    hide KeyFixed, KeyOf, NodesOf, Removed, NotShown;
  }

  lemma DeleteStepMeans(c: Cloud, i: nat, pc: DeletePc, free: bool, ch: Choice)
    requires DeleteKnows(c, i, pc)
    ensures var e := DeleteStep(c, i, pc, free, ch);
      && e.proc.Deleting? && e.proc.instance == i
      && var pc' := e.proc.pc;
         && (!pc.Gone? && pc'.Gone? && EndsIn(pc', NotFound) ==> NotShown(e.cloud, i))
         && (Concludes(pc, pc', DeleteErrored) <==> CallsApi(pc) && !ch.outcome.Ack?)
         && (Concludes(pc, pc', Deleted) <==> (pc.DroppingPool? || pc.DroppingNode?) && ch.outcome.Ack?)
         && (Concludes(pc, pc', NotFound) <==> (pc.Finding? || pc.Refinding?) && ch.outcome.Ack? && NotShown(c, i))
         && (ch.outcome.Fail? ==> e.cloud == c)
  {
    hide KeyFixed, KeyOf, NodesOf, Removed, DropPool, DropNode, Shows;
    if Shows(c, i, ch.node) { assert !NotShown(c, i); }
    match pc
    case Finding => case WaitingFor(_) => case Refinding(_) => case DroppingPool(_, _) => case DroppingNode(_, _) =>
    case Leaving(_, _) => case Gone(_) =>
  }

  /** A drop whose response is lost takes the same effect as an acknowledged one, though the Delete reports an error. */
  lemma LostDropTakesEffect(cfg: Config, s: State, p: nat, i: nat, pc: DeletePc, ch: Choice, retryable: bool)
    requires p in s.procs && s.procs[p] == Deleting(i, pc) && (pc.DroppingPool? || pc.DroppingNode?) && ch.outcome.Ack?
    ensures var acked, lost := Step(cfg, s, Act(p, ch)), Step(cfg, s, Act(p, ch.(outcome := Lost(retryable))));
      lost.cloud == acked.cloud && lost.vanished == acked.vanished && lost.locks == acked.locks
  {
    hide KeyOf, NodesOf, DropPool, DropNode, Slot;
  }

  /** The state with another cloud and the Delete at another step. */
  function DeletingAt(s: State, c: Cloud, p: nat, i: nat, pc: DeletePc): State {
    s.(cloud := c, procs := s.procs[p := Deleting(i, pc)])
  }

  lemma DeletingIs(s: State, c: Cloud, p: nat, i: nat, pc: DeletePc)
    ensures var t := DeletingAt(s, c, p, i, pc);
      && t.cloud == c && p in t.procs && t.procs[p] == Deleting(i, pc) && t.locks == s.locks && t.vanished == s.vanished
  {}

  lemma DeletingAgain(s: State, c: Cloud, p: nat, i: nat, pc: DeletePc, c': Cloud, pc': DeletePc)
    ensures forall locks, vanished ::
      DeletingAt(DeletingAt(s, c, p, i, pc).(locks := locks, vanished := vanished), c', p, i, pc')
      == DeletingAt(s.(locks := locks, vanished := vanished), c', p, i, pc')
    ensures DeletingAt(DeletingAt(s, c, p, i, pc), c', p, i, pc') == DeletingAt(s, c', p, i, pc')
    ensures forall locks ::
      DeletingAt(DeletingAt(s, c, p, i, pc).(locks := locks), c', p, i, pc') == DeletingAt(s.(locks := locks), c', p, i, pc')
    ensures forall vanished ::
      DeletingAt(DeletingAt(s, c, p, i, pc).(vanished := vanished), c', p, i, pc')
      == DeletingAt(s.(vanished := vanished), c', p, i, pc')
  {}

  lemma DeleteMovesTo(cfg: Config, s: State, p: nat, i: nat, pc: DeletePc, ch: Choice)
    requires p in s.procs && s.procs[p] == Deleting(i, pc)
    ensures var e := DeleteStep(s.cloud, i, pc, Free(cfg, s, s.procs[p]), ch);
      After(cfg, s, Acting(p, [ch])) == Commit(cfg, s, p, s.procs[p], e)
  {
    hide DeleteStep, After, Slot, Commit;
    ActsOnce(cfg, s, p, ch);
  }

  /** The first look: the key of the pool that shows the instance is the one to lock; shown nowhere, it is not found. */
  lemma FindsAlone(cfg: Config, s: State, p: nat, i: nat, n: nat)
    requires p in s.procs && s.procs[p] == Deleting(i, Finding)
    ensures Shows(s.cloud, i, n) ==>
      (After(cfg, s, Acting(p, [Shown(0).(node := n)]))
       == DeletingAt(s, s.cloud, p, i, WaitingFor(KeyOf(s.cloud.pools[s.cloud.nodes[n].pool]).value)))
    ensures NotShown(s.cloud, i)
      ==> After(cfg, s, Acting(p, [Shown(0).(node := n)])) == DeletingAt(s, s.cloud, p, i, Gone(NotFound))
  {
    DeleteMovesTo(cfg, s, p, i, Finding, Shown(0).(node := n));
    hide After, KeyOf;
  }

  lemma EntersAlone(cfg: Config, s: State, p: nat, i: nat, key: Key, ch: Choice)
    requires p in s.procs && s.procs[p] == Deleting(i, WaitingFor(key)) && Slot(cfg, key) !in s.locks
    ensures After(cfg, s, Acting(p, [ch])) == DeletingAt(s.(locks := s.locks[Slot(cfg, key) := p]), s.cloud, p, i, Refinding(key))
  {
    DeleteMovesTo(cfg, s, p, i, WaitingFor(key), ch);
    hide After, Slot;
  }

  /** The second look, under the lock: the pool goes when the node is its last, otherwise the node. */
  lemma RefindsAlone(cfg: Config, s: State, p: nat, i: nat, key: Key, n: nat)
    requires p in s.procs && s.procs[p] == Deleting(i, Refinding(key)) && Shows(s.cloud, i, n)
    ensures var pool := s.cloud.nodes[n].pool;
      After(cfg, s, Acting(p, [Shown(0).(node := n)])) == DeletingAt(s, s.cloud, p, i,
        if |NodesOf(s.cloud, pool)| <= 1 then DroppingPool(key, pool) else DroppingNode(key, n))
  {
    DeleteMovesTo(cfg, s, p, i, Refinding(key), Shown(0).(node := n));
    hide After, KeyOf, Slot, NodesOf;
  }

  function WithGone(s: State, key: Key): State {
    s.(vanished := s.vanished[key := Vanished(s, key) + 1])
  }

  lemma DropsPoolAlone(cfg: Config, s: State, p: nat, i: nat, key: Key, pool: nat, node: nat)
    requires p in s.procs && s.procs[p] == Deleting(i, DroppingPool(key, pool)) && Sound(s.cloud)
    requires pool in s.cloud.pools && KeyOf(s.cloud.pools[pool]) == Some(key)
    requires node in s.cloud.nodes && NodesOf(s.cloud, pool) == {node}
    ensures After(cfg, s, Acting(p, [Shown(0).(node := node)]))
         == DeletingAt(WithGone(s, key), DroppedPool(s.cloud, pool, node), p, i, Leaving(key, Deleted))
  {
    hide Sound, Rely, NodesOf, KeyOf, DropPool, Slot, After, DroppedPool;
    DeleteMovesTo(cfg, s, p, i, DroppingPool(key, pool), Shown(0).(node := node));
    DropPoolKeeps(s.cloud, pool, node);
  }

  lemma DropsNodeAlone(cfg: Config, s: State, p: nat, i: nat, key: Key, node: nat)
    requires p in s.procs && s.procs[p] == Deleting(i, DroppingNode(key, node)) && Sound(s.cloud)
    requires node in s.cloud.nodes && s.cloud.nodes[node].pool in s.cloud.pools
    requires KeyOf(s.cloud.pools[s.cloud.nodes[node].pool]) == Some(key) && |NodesOf(s.cloud, s.cloud.nodes[node].pool)| > 1
    ensures s.cloud.pools[s.cloud.nodes[node].pool].count > 1
    ensures After(cfg, s, Acting(p, [Shown(0).(node := node)]))
         == DeletingAt(s, DroppedNode(s.cloud, node), p, i, Leaving(key, Deleted))
  {
    assert s.cloud.pools[s.cloud.nodes[node].pool].count > 1 by { hide KeyOf, NodesOf; }
    hide Sound, NodesOf, KeyOf, DropNodeStep, Slot, After, DroppedNode;
    DeleteMovesTo(cfg, s, p, i, DroppingNode(key, node), Shown(0).(node := node));
    DropNodeEffect(s.cloud, i, key, node);
  }

  lemma DropNodeEffect(c: Cloud, i: nat, key: Key, node: nat)
    requires Sound(c) && node in c.nodes && c.nodes[node].pool in c.pools
    requires KeyOf(c.pools[c.nodes[node].pool]) != None && |NodesOf(c, c.nodes[node].pool)| > 1
    requires c.pools[c.nodes[node].pool].count > 0
    ensures DropNodeStep(c, i, key, node, Shown(0).(node := node))
         == Effect(DroppedNode(c, node), Deleting(i, Leaving(key, Deleted)), Keep, None, None)
  {
    hide Sound, Rely, NodesOf, KeyOf, DropNode, DroppedNode;
    DropNodeKeeps(c, node);
    PoolStays(c, node);
  }

  lemma PoolStays(c: Cloud, node: nat)
    requires node in c.nodes && c.nodes[node].pool in c.pools && c.pools[c.nodes[node].pool].count > 0
    ensures c.nodes[node].pool in DroppedNode(c, node).pools
  {}

  lemma LeavesAlone(cfg: Config, s: State, p: nat, i: nat, key: Key, result: DeleteResult, ch: Choice)
    requires p in s.procs && s.procs[p] == Deleting(i, Leaving(key, result))
    ensures After(cfg, s, Acting(p, [ch])) == DeletingAt(s.(locks := s.locks - {Slot(cfg, key)}), s.cloud, p, i, Gone(result))
  {
    DeleteMovesTo(cfg, s, p, i, Leaving(key, result), ch);
    hide After, Slot;
  }

  function Locked(cfg: Config, s: State, p: nat, key: Key): State {
    s.(locks := s.locks[Slot(cfg, key) := p])
  }

  /** From the first look to the drop. */
  lemma LoneDeleteDrops(cfg: Config, s: State, p: nat, i: nat, n: nat, key: Key)
    requires p in s.procs && s.procs[p] == Deleting(i, Finding) && Shows(s.cloud, i, n) && Slot(cfg, key) !in s.locks
    requires KeyOf(s.cloud.pools[s.cloud.nodes[n].pool]) == Some(key)
    ensures var pool := s.cloud.nodes[n].pool;
      After(cfg, s, Acting(p, Showing(n, 3))) == DeletingAt(Locked(cfg, s, p, key), s.cloud, p, i,
        if |NodesOf(s.cloud, pool)| <= 1 then DroppingPool(key, pool) else DroppingNode(key, n))
  {
    hide After, NodesOf, KeyOf, Slot, DeletingAt;
    var c, ch, held := s.cloud, Shown(0).(node := n), Locked(cfg, s, p, key);
    var dropping := if |NodesOf(c, c.nodes[n].pool)| <= 1 then DroppingPool(key, c.nodes[n].pool) else DroppingNode(key, n);
    var s1, s2 := DeletingAt(s, c, p, i, WaitingFor(key)), DeletingAt(held, c, p, i, Refinding(key));
    var s3 := DeletingAt(held, c, p, i, dropping);
    DeletingIs(s, c, p, i, WaitingFor(key));
    DeletingIs(held, c, p, i, Refinding(key));
    DeletingAgain(s, c, p, i, WaitingFor(key), c, Refinding(key));
    DeletingAgain(held, c, p, i, Refinding(key), c, dropping);
    FindsAlone(cfg, s, p, i, n);
    EntersAlone(cfg, s1, p, i, key, ch);
    RefindsAlone(cfg, s2, p, i, key, n);
    RunsOn(cfg, s, p, [ch], [ch], s1, s2);
    RunsOn(cfg, s, p, [ch] + [ch], [ch], s2, s3);
    assert [ch] + [ch] + [ch] == Showing(n, 3);
  }

  /**
   A Delete that acts alone removes the node that holds its instance, and the pool with it when it is the pool's
   last, counts the pool as gone, frees its lock and reports success.
   */
  lemma LoneDelete(cfg: Config, s: State, p: nat, i: nat, n: nat, key: Key)
    requires p in s.procs && s.procs[p] == Deleting(i, Finding) && Sound(s.cloud) && Shows(s.cloud, i, n)
    requires KeyOf(s.cloud.pools[s.cloud.nodes[n].pool]) == Some(key) && Slot(cfg, key) !in s.locks
    ensures var pool := s.cloud.nodes[n].pool;
      var end := After(cfg, s, Acting(p, Showing(n, 5)));
      if NodesOf(s.cloud, pool) == {n}
      then end == DeletingAt(WithGone(s, key), DroppedPool(s.cloud, pool, n), p, i, Gone(Deleted))
      else s.cloud.pools[pool].count > 1 && end == DeletingAt(s, DroppedNode(s.cloud, n), p, i, Gone(Deleted))
  {
    var c, pool := s.cloud, s.cloud.nodes[n].pool;
    assert n in NodesOf(c, pool);
    OneElement(NodesOf(c, pool), n);
    hide After, Sound, KeyOf, NodesOf, Slot, DroppedPool, DroppedNode, DeletingAt, WithGone;
    LoneDeleteDrops(cfg, s, p, i, n, key);
    if NodesOf(c, pool) == {n} {
      LonePoolDrop(cfg, s, p, i, n, key);
    } else {
      LoneNodeDrop(cfg, s, p, i, n, key);
    }
  }

  lemma LonePoolDrop(cfg: Config, s: State, p: nat, i: nat, n: nat, key: Key)
    requires Sound(s.cloud) && Slot(cfg, key) !in s.locks && n in s.cloud.nodes && s.cloud.nodes[n].pool in s.cloud.pools
    requires var pool := s.cloud.nodes[n].pool;
      && KeyOf(s.cloud.pools[pool]) == Some(key) && NodesOf(s.cloud, pool) == {n}
      && After(cfg, s, Acting(p, Showing(n, 3))) == DeletingAt(Locked(cfg, s, p, key), s.cloud, p, i, DroppingPool(key, pool))
    ensures After(cfg, s, Acting(p, Showing(n, 5)))
         == DeletingAt(WithGone(s, key), DroppedPool(s.cloud, s.cloud.nodes[n].pool, n), p, i, Gone(Deleted))
  {
    var c, pool, held := s.cloud, s.cloud.nodes[n].pool, Locked(cfg, s, p, key);
    hide After, Sound, KeyOf, NodesOf, Slot, DroppedPool, DeletingAt, WithGone, Locked;
    var s1 := DeletingAt(held, c, p, i, DroppingPool(key, pool));
    DeletingIs(held, c, p, i, DroppingPool(key, pool));
    GoneAgain(cfg, s, p, key, held, c, i, DroppingPool(key, pool), DroppedPool(c, pool, n), Leaving(key, Deleted));
    DropsPoolAlone(cfg, s1, p, i, key, pool, n);
    DroppedAndLeft(cfg, s, p, i, key, n, s1, WithGone(held, key), WithGone(s, key), DroppedPool(c, pool, n));
  }

  lemma GoneAgain(cfg: Config, s: State, p: nat, key: Key, held: State, c: Cloud, i: nat, pc: DeletePc,
                  c': Cloud, pc': DeletePc)
    requires held == Locked(cfg, s, p, key) && Slot(cfg, key) !in s.locks
    ensures DeletingAt(WithGone(DeletingAt(held, c, p, i, pc), key), c', p, i, pc')
         == DeletingAt(WithGone(held, key), c', p, i, pc')
    ensures WithGone(held, key).(locks := WithGone(held, key).locks - {Slot(cfg, key)}) == WithGone(s, key)
  {
    hide Slot;
    assert held.locks - {Slot(cfg, key)} == s.locks;
  }

  lemma LoneNodeDrop(cfg: Config, s: State, p: nat, i: nat, n: nat, key: Key)
    requires Sound(s.cloud) && Slot(cfg, key) !in s.locks && n in s.cloud.nodes && s.cloud.nodes[n].pool in s.cloud.pools
    requires var pool := s.cloud.nodes[n].pool;
      && KeyOf(s.cloud.pools[pool]) == Some(key) && |NodesOf(s.cloud, pool)| > 1
      && After(cfg, s, Acting(p, Showing(n, 3))) == DeletingAt(Locked(cfg, s, p, key), s.cloud, p, i, DroppingNode(key, n))
    ensures s.cloud.pools[s.cloud.nodes[n].pool].count > 1
    ensures After(cfg, s, Acting(p, Showing(n, 5))) == DeletingAt(s, DroppedNode(s.cloud, n), p, i, Gone(Deleted))
  {
    var c, held := s.cloud, Locked(cfg, s, p, key);
    hide After, Sound, KeyOf, NodesOf, Slot, DeletingAt;
    var s1 := DeletingAt(held, c, p, i, DroppingNode(key, n));
    DeletingIs(held, c, p, i, DroppingNode(key, n));
    DropsNodeAlone(cfg, s1, p, i, key, n);
    hide DroppedNode;
    DeletingAgain(held, c, p, i, DroppingNode(key, n), DroppedNode(c, n), Leaving(key, Deleted));
    assert held.locks - {Slot(cfg, key)} == s.locks;
    DroppedAndLeft(cfg, s, p, i, key, n, s1, held, s, DroppedNode(c, n));
  }

  lemma DroppedAndLeft(cfg: Config, s: State, p: nat, i: nat, key: Key, n: nat, s1: State, held: State, freed: State, c': Cloud)
    requires After(cfg, s, Acting(p, Showing(n, 3))) == s1
    requires After(cfg, s1, Acting(p, [Shown(0).(node := n)])) == DeletingAt(held, c', p, i, Leaving(key, Deleted))
    requires held.(locks := held.locks - {Slot(cfg, key)}) == freed
    ensures After(cfg, s, Acting(p, Showing(n, 5))) == DeletingAt(freed, c', p, i, Gone(Deleted))
  {
    hide After, Slot, DeletingAt;
    var ch := Shown(0).(node := n);
    DeletingIs(held, c', p, i, Leaving(key, Deleted));
    DeletingAgain(held, c', p, i, Leaving(key, Deleted), c', Gone(Deleted));
    LeavesAlone(cfg, DeletingAt(held, c', p, i, Leaving(key, Deleted)), p, i, key, Deleted, ch);
    ThreeRuns(cfg, s, p, Showing(n, 3), [ch], [ch]);
    assert Showing(n, 3) + [ch] + [ch] == Showing(n, 5);
  }

  function Showing(node: nat, steps: nat): seq<Choice> {
    seq(steps, _ => Shown(0).(node := node))
  }

  // ---------------------------------------------------------------- an update acting alone, and a restart

  function ReplyOf(outcome: Outcome): Reply {
    match outcome
    case Ack => Applied
    case Fail(_) => Refused
    case Lost(_) => AppliedButLost
  }

  /** The two steps of an update that nothing interrupts leave the tags one reconcile leaves, and touch nothing else. */
  lemma LoneUpdateReconciles(cfg: Config, s: State, p: nat, i: nat, previous: seq<string>, desired: seq<string>,
                             read: Choice, write: Choice, patch: Reply)
    requires p in s.procs && s.procs[p] == Updating(i, previous, desired, ReadingTags) && i in s.cloud.instances
    ensures var c, c' := s.cloud, After(cfg, s, Acting(p, [read] + [write])).cloud;
      var attempt := Attempt(desired, read.outcome.Ack?, ReplyOf(write.outcome), patch);
      var tags := Reconcile(Tagged(c.instances[i].tags, Some(previous)), attempt).tags;
      && c'.instances == c.instances[i := Instance(c.instances[i].itype, tags)]
      && c'.pools == c.pools && c'.nodes == c.nodes && c'.used == c.used
  {
    hide After, MergedTags, Normalize, KeepsClaim;
    ActsThen(cfg, s, p, [read], [write]);
    ActsOnce(cfg, s, p, read);
    ActsOnce(cfg, Step(cfg, s, Act(p, read)), p, write);
  }

  /** A restart of the provider over unforged claims is a start: whatever was in flight, the runs begin anew. */
  lemma RestartIsStart(cfg: Config, s: State)
    requires Reached(cfg, s) && !s.cloud.forged
    ensures Initial(Step(cfg, s, Restart)) && Step(cfg, s, Restart).cloud == s.cloud
  {
    ReachedInv(cfg, s);
    hide Reached, Sound, UnclaimedForeign, ProvidedMarked, LocksHeld, ClaimsDistinct, AllKnow;
  }
}
