/**
 The claim-or-scale protocol of pkg/providers/lke: concurrent Create and Delete calls, and in-place tag updates,
 as processes that take one step at a time. A step is one Linode API call with its outcome, or taking or leaving
 the pool mutex. `Step` is total: an event that is not possible in a state leaves the state alone, so every
 sequence of events is a run.
 */
module Protocol {
  import opened ClaimMarks
  import opened CloudModel
  import opened InPlaceTags
  import opened Options
  import opened Tags
  import opened TagText

  /** `slotOf` is the hash by which the keyed mutex picks one of its locks; different keys may share a lock. */
  datatype Config = Config(enterprise: bool, clusterName: string, slotOf: string -> nat)

  // ---------------------------------------------------------------- outcomes

  /** An API call succeeds, or fails without effect, or takes effect but returns an error. */
  datatype Outcome = Ack | Fail(retryable: bool) | Lost(retryable: bool)

  /** Everything the environment decides in one step of a process. */
  datatype Choice = Choice(
    outcome: Outcome,
    flag: bool,           // deadline passed, backing off, verification given up, plan sold out: by position
    pick: nat,            // the pool or instance an API response puts first
    node: nat,            // the node an API response shows, or the node a new pool gets
    listed: seq<nat>,     // the order in which a listing returns its elements
    added: set<nat>,      // the nodes a pool update adds
    gone: set<nat>,       // the nodes a pool update takes away
    tags: seq<string>)    // the order in which a new pool's tags are listed

  // ---------------------------------------------------------------- Create

  /** `quoted` records that the lookup which found the instance matched no mark, only a tag quoting the claim's. */
  datatype Result = Got(instance: nat, quoted: bool) | Errored

  datatype Next = Retry | Return(result: Result)

  /** The pool as the call last read it. */
  datatype Snapshot = Snapshot(id: nat, count: nat, tags: seq<string>)

  datatype CreatePc =
    | Starting
    | Waiting
    | Relooking
    | Listing
    | Pinning(pool: Snapshot, version: string)
    | MakingPool
    | Reading(pool: Snapshot)
    | Scanning(pool: Snapshot, todo: seq<nat>)
    | Claiming(pool: Snapshot, instance: nat, seen: seq<string>)
    | Verifying(instance: nat)
    | CheckingPlan(pool: Snapshot)
    | Scaling(pool: Snapshot)
    | Unlocking(next: Next)
    | Returned(result: Result)

  datatype CreateArgs = CreateArgs(claim: string, key: Key, nodeClass: string, classTags: seq<string>, pin: Option<string>)

  /**
   One Create call. `createdPool` and `scaledOnce` are the flags kept across its attempts; `pools` and `scales`
   count its acknowledged pool creations and scales, `vanishedBefore` the pools of its key gone before it began.
   */
  datatype CreateCall = CreateCall(args: CreateArgs, pc: CreatePc, createdPool: bool, scaledOnce: bool,
                                   pools: nat, scales: nat, vanishedBefore: nat)

  // ---------------------------------------------------------------- Delete and in-place update

  datatype DeleteResult = Deleted | NotFound | DeleteErrored

  datatype DeletePc =
    | Finding
    | WaitingFor(key: Key)
    | Refinding(key: Key)
    | DroppingPool(key: Key, pool: nat)
    | DroppingNode(key: Key, node: nat)
    | Leaving(key: Key, result: DeleteResult)
    | Gone(result: DeleteResult)

  datatype UpdatePc = ReadingTags | WritingTags(seen: seq<string>) | Updated

  datatype Proc =
    | Creating(call: CreateCall)
    | Deleting(instance: nat, pc: DeletePc)
    | Updating(target: nat, previous: seq<string>, desired: seq<string>, upc: UpdatePc)

  // ---------------------------------------------------------------- the state

  /** `vanished` counts, by key, the pools dropped so far; `provided` the instances Create calls have returned. */
  datatype State = State(cloud: Cloud, procs: map<nat, Proc>, locks: map<nat, nat>,
                         vanished: map<Key, nat>, provided: set<nat>)

  datatype Event =
    | StartCreate(p: nat, args: CreateArgs)
    | StartDelete(p: nat, instance: nat)
    | StartUpdate(p: nat, instance: nat, previous: seq<string>, desired: seq<string>)
    | Act(p: nat, choice: Choice)
    | Provisioned(node: nat, instance: nat, tags: seq<string>)
    | Restart

  function MakePoolKey(key: Key): string {
    key.nodePool + "|" + key.itype
  }

  function Slot(cfg: Config, key: Key): nat {
    cfg.slotOf(MakePoolKey(key))
  }

  function Vanished(s: State, key: Key): nat {
    if key in s.vanished then s.vanished[key] else 0
  }

  // ---------------------------------------------------------------- one step of a process

  datatype LockAct = Keep | Take | Release

  /** What a step of a process does: the new cloud and process, the mutex, a pool key dropped, an instance returned. */
  datatype Effect = Effect(cloud: Cloud, proc: Proc, lock: LockAct, dropped: Option<Key>, given: Option<nat>)

  function Move(c: Cloud, call: CreateCall, pc: CreatePc): Effect {
    Effect(c, Creating(call.(pc := pc)), Keep, None, None)
  }

  function Stay(c: Cloud, proc: Proc): Effect {
    Effect(c, proc, Keep, None, None)
  }

  function AfterError(retryable: bool): Next {
    if retryable then Retry else Return(Errored)
  }

  ghost predicate Matches(c: Cloud, i: nat, claim: string) {
    i in c.instances && MatchesFilter(c.instances[i].tags, NodeClaimTag(claim))
  }

  /** lookupExistingInstance: the instance the listing puts first, None when nothing matches. */
  ghost predicate LookupFinds(c: Cloud, claim: string, pick: nat, found: Option<nat>) {
    match found
    case Some(i) => i == pick && Matches(c, i, claim)
    case None => forall i :: !Matches(c, i, claim)
  }

  predicate Unclaimed(tags: seq<string>) {
    NODE_CLAIM_TAG_KEY !in TagMap(tags)
  }

  /** No mark of the instance starts with the claim's value. */
  ghost predicate OnlyQuoted(c: Cloud, i: nat, claim: string) {
    forall v :: Marked(c, i, v) ==> !(NormalizeNodeClaimTagValue(claim) <= v)
  }

  /** ValidateTagLengths on the tags a pool is created with. */
  ghost predicate PoolTagsFit(cfg: Config, args: CreateArgs) {
    TagLengthsValid(PrintedPairs(PoolTagMap(cfg.clusterName, args.key.nodePool, args.nodeClass)))
  }

  /** A Create begins with the length check and the first lookup. */
  ghost function StartStep(cfg: Config, c: Cloud, call: CreateCall, ch: Choice): Effect {
    if !PoolTagsFit(cfg, call.args) || !ch.outcome.Ack? then Move(c, call, Returned(Errored))
    else if LookupFinds(c, call.args.claim, ch.pick, Some(ch.pick)) then
      Move(c, call, Returned(Got(ch.pick, OnlyQuoted(c, ch.pick, call.args.claim)))).(given := Some(ch.pick))
    else if LookupFinds(c, call.args.claim, ch.pick, None) then
      Move(c, call, if ch.flag then Returned(Errored) else Waiting)
    else Stay(c, Creating(call))
  }

  /** The top of the retry loop: give up at the deadline, or take the mutex when it is free. */
  function WaitStep(c: Cloud, call: CreateCall, free: bool, ch: Choice): Effect {
    if ch.flag then Move(c, call, Returned(Errored))
    else if free then Move(c, call, Relooking).(lock := Take)
    else Stay(c, Creating(call))
  }

  ghost function RelookStep(c: Cloud, call: CreateCall, ch: Choice): Effect {
    if !ch.outcome.Ack? then Move(c, call, Unlocking(AfterError(ch.outcome.retryable)))
    else if LookupFinds(c, call.args.claim, ch.pick, Some(ch.pick)) then
      Move(c, call, Unlocking(Return(Got(ch.pick, OnlyQuoted(c, ch.pick, call.args.claim)))))
    else if LookupFinds(c, call.args.claim, ch.pick, None) then Move(c, call, Listing)
    else Stay(c, Creating(call))
  }

  ghost function ListStep(c: Cloud, call: CreateCall, ch: Choice): Effect {
    if !ch.outcome.Ack? then Move(c, call, Unlocking(AfterError(ch.outcome.retryable)))
    else if ch.pick in c.pools && KeyOf(c.pools[ch.pick]) == Some(call.args.key) then
      var pool := c.pools[ch.pick];
      var snap := Snapshot(ch.pick, pool.count, pool.tags);
      Move(c, call,
           if call.args.pin.Some? && pool.version != call.args.pin then Pinning(snap, call.args.pin.value)
           else Reading(snap))
    else if !HasPool(c, call.args.key) then Move(c, call, MakingPool)
    else Stay(c, Creating(call))
  }

  /** reconcilePoolVersion. */
  function PinStep(c: Cloud, call: CreateCall, snap: Snapshot, version: string, ch: Choice): Effect {
    if ch.outcome.Fail? then Move(c, call, Unlocking(AfterError(ch.outcome.retryable)))
    else if snap.id !in c.pools then Move(c, call, Unlocking(Return(Errored)))
    else
      var c' := SetVersion(c, snap.id, version);
      Move(c', call, if ch.outcome.Ack? then Reading(snap) else Unlocking(AfterError(ch.outcome.retryable)))
  }

  /** Tags of a new pool: the provider's map printed in some order. */
  ghost predicate ListsPoolTags(cfg: Config, args: CreateArgs, tags: seq<string>) {
    forall t :: t in tags <==> t in PrintedPairs(PoolTagMap(cfg.clusterName, args.key.nodePool, args.nodeClass))
  }

  ghost function MakePoolStep(cfg: Config, c: Cloud, call: CreateCall, ch: Choice): Effect {
    if ch.outcome.Fail? then Move(c, call, Unlocking(AfterError(ch.outcome.retryable)))
    else if ch.pick in c.pools || ch.node in c.nodes || !ListsPoolTags(cfg, call.args, ch.tags) then Stay(c, Creating(call))
    else
      var c' := CreatePool(c, ch.pick, ch.node, call.args.key.itype, ch.tags, call.args.pin);
      if ch.outcome.Ack? then
        Move(c', call.(createdPool := true, pools := call.pools + 1), Reading(Snapshot(ch.pick, 1, ch.tags)))
      else Move(c', call, Unlocking(AfterError(ch.outcome.retryable)))
  }

  /** No claimable instance: wait if this call already added capacity, else go on to scale. */
  function NoneClaimable(c: Cloud, call: CreateCall, snap: Snapshot): Effect {
    Move(c, call, if call.createdPool || call.scaledOnce then Unlocking(Retry) else CheckingPlan(snap))
  }

  ghost predicate ListsNodes(c: Cloud, id: nat, listed: seq<nat>) {
    && (forall n :: n in listed <==> n in NodesOf(c, id))
    && (forall i, j :: 0 <= i < j < |listed| ==> listed[i] != listed[j])
  }

  /** The instance IDs a pool's listing shows. */
  function ListedInstances(c: Cloud, listed: seq<nat>): (ids: seq<nat>)
    ensures |ids| == |listed|
    ensures forall i :: 0 <= i < |ids| && listed[i] in c.nodes ==> ids[i] == c.nodes[listed[i]].instance
  {
    seq(|listed|, i requires 0 <= i < |listed| => if listed[i] in c.nodes then c.nodes[listed[i]].instance else 0)
  }

  /** The discovery by instance tags returns instances of this pool, not necessarily all of them yet. */
  ghost predicate Discovers(c: Cloud, id: nat, listed: seq<nat>) {
    forall i :: i in listed ==> i in c.instances && InPool(c, id, i)
  }

  predicate Claimable(c: Cloud, itype: string, i: nat) {
    i in c.instances && c.instances[i].itype == itype && Unclaimed(c.instances[i].tags)
  }

  /** The first listed instance of the right type that carries no claim. */
  function FirstClaimable(c: Cloud, itype: string, listed: seq<nat>): (r: Option<nat>)
    ensures r.Some? ==> Claimable(c, itype, r.value)
    ensures r.Some? ==> FirstOf(c, itype, listed, r.value)
    ensures r.None? ==> forall i :: i in listed ==> !Claimable(c, itype, i)
  {
    if listed == [] then None
    else if Claimable(c, itype, listed[0]) then
      assert FirstOf(c, itype, listed, listed[0]);
      Some(listed[0])
    else
      var r := FirstClaimable(c, itype, listed[1..]);
      assert r.Some? ==> FirstOf(c, itype, listed, r.value) by {
        if r.Some? { NotTheFirst(c, itype, listed, r.value); }
      }
      r
  }

  /** The instance is listed, and claimable before any other that is. */
  ghost predicate FirstOf(c: Cloud, itype: string, listed: seq<nat>, i: nat) {
    exists k :: 0 <= k < |listed| && listed[k] == i && forall j :: 0 <= j < k ==> !Claimable(c, itype, listed[j])
  }

  lemma NotTheFirst(c: Cloud, itype: string, listed: seq<nat>, i: nat)
    requires listed != [] && !Claimable(c, itype, listed[0]) && FirstOf(c, itype, listed[1..], i)
    ensures FirstOf(c, itype, listed, i)
  {
    var rest := listed[1..];
    var k :| 0 <= k < |rest| && rest[k] == i && forall j :: 0 <= j < k ==> !Claimable(c, itype, rest[j]);
    forall j | 0 <= j < k + 1 ensures !Claimable(c, itype, listed[j]) {
      if j > 0 { assert listed[j] == rest[j - 1]; }
    }
    assert listed[k + 1] == rest[k];
  }

  ghost function ReadStep(cfg: Config, c: Cloud, call: CreateCall, snap: Snapshot, ch: Choice): Effect {
    if !ch.outcome.Ack? then Move(c, call, Unlocking(AfterError(ch.outcome.retryable)))
    else if cfg.enterprise then
      if !Discovers(c, snap.id, ch.listed) then Stay(c, Creating(call))
      else match FirstClaimable(c, call.args.key.itype, ch.listed)
        case Some(i) => Move(c, call, Claiming(snap, i, c.instances[i].tags))
        case None => NoneClaimable(c, call, snap)
    else if snap.id !in c.pools then Move(c, call, Unlocking(Return(Errored)))
    else if !ListsNodes(c, snap.id, ch.listed) then Stay(c, Creating(call))
    else Move(c, call, Scanning(snap, ListedInstances(c, ch.listed)))
  }

  /** One turn of the loop over the pool's nodes: skip provisioning, missing and claimed ones. */
  function ScanStep(c: Cloud, call: CreateCall, snap: Snapshot, todo: seq<nat>, ch: Choice): Effect {
    if todo == [] then NoneClaimable(c, call, snap)
    else if todo[0] == 0 then Move(c, call, Scanning(snap, todo[1..]))
    else if !ch.outcome.Ack? then Move(c, call, Unlocking(AfterError(ch.outcome.retryable)))
    else if todo[0] in c.instances && Unclaimed(c.instances[todo[0]].tags) then
      Move(c, call, Claiming(snap, todo[0], c.instances[todo[0]].tags))
    else Move(c, call, Scanning(snap, todo[1..]))
  }

  /** claimInstance writes the merged tags; any failure is retried. */
  ghost function ClaimStep(c: Cloud, call: CreateCall, snap: Snapshot, i: nat, seen: seq<string>, ch: Choice): Effect {
    if ch.outcome.Fail? || i !in c.instances then Move(c, call, Unlocking(Retry))
    else
      var c' := WriteTags(c, i, ClaimWrite(seen, snap.tags, call.args.classTags, call.args.claim));
      Move(c', call, if ch.outcome.Ack? then Verifying(i) else Unlocking(Retry))
  }

  /** verifyTagsApplied polls until the exact tag shows or it gives up. */
  function VerifyStep(c: Cloud, call: CreateCall, i: nat, ch: Choice): Effect {
    if ch.flag then Move(c, call, Unlocking(Retry))
    else if ch.outcome.Ack? && i in c.instances && NodeClaimTag(call.args.claim) in c.instances[i].tags then
      Move(c, call, Unlocking(Return(Got(i, false))))
    else Stay(c, Creating(call))
  }

  function PlanStep(c: Cloud, call: CreateCall, snap: Snapshot, ch: Choice): Effect {
    Move(c, call, if ch.flag then Unlocking(Return(Errored)) else Scaling(snap))
  }

  /** UpdateLKENodePool with one more node than the snapshot's count. */
  function ScaleStep(c: Cloud, call: CreateCall, snap: Snapshot, ch: Choice): Effect {
    if ch.outcome.Fail? then Move(c, call, Unlocking(AfterError(ch.outcome.retryable)))
    else if snap.id !in c.pools then Move(c, call, Unlocking(Return(Errored)))
    else if !ResizeAllowed(c, snap.id, snap.count + 1, ch.added, ch.gone) then Stay(c, Creating(call))
    else
      var c' := Resize(c, snap.id, snap.count + 1, ch.added, ch.gone);
      if ch.outcome.Ack? then Move(c', call.(scaledOnce := true, scales := call.scales + 1), Unlocking(Retry))
      else Move(c', call, Unlocking(AfterError(ch.outcome.retryable)))
  }

  function UnlockStep(c: Cloud, call: CreateCall, next: Next): Effect {
    match next
    case Retry => Move(c, call, Waiting).(lock := Release)
    case Return(Got(i, quoted)) => Move(c, call, Returned(Got(i, quoted))).(lock := Release, given := Some(i))
    case Return(Errored) => Move(c, call, Returned(Errored)).(lock := Release)
  }

  ghost function CreateStep(cfg: Config, c: Cloud, call: CreateCall, free: bool, ch: Choice): Effect {
    match call.pc
    case Starting => StartStep(cfg, c, call, ch)
    case Waiting => WaitStep(c, call, free, ch)
    case Relooking => RelookStep(c, call, ch)
    case Listing => ListStep(c, call, ch)
    case Pinning(snap, version) => PinStep(c, call, snap, version, ch)
    case MakingPool => MakePoolStep(cfg, c, call, ch)
    case Reading(snap) => ReadStep(cfg, c, call, snap, ch)
    case Scanning(snap, todo) => ScanStep(c, call, snap, todo, ch)
    case Claiming(snap, i, seen) => ClaimStep(c, call, snap, i, seen, ch)
    case Verifying(i) => VerifyStep(c, call, i, ch)
    case CheckingPlan(snap) => PlanStep(c, call, snap, ch)
    case Scaling(snap) => ScaleStep(c, call, snap, ch)
    case Unlocking(next) => UnlockStep(c, call, next)
    case Returned(_) => Stay(c, Creating(call))
  }

  // ---------------------------------------------------------------- Delete, step by step

  /** findLKENodePoolFromLinodeInstanceID shows `node`: a node of a managed pool holding the instance. */
  predicate Shows(c: Cloud, instance: nat, node: nat) {
    && node in c.nodes && c.nodes[node].instance == instance
    && c.nodes[node].pool in c.pools && KeyOf(c.pools[c.nodes[node].pool]) != None
  }

  ghost function FindStep(c: Cloud, i: nat, ch: Choice): Effect {
    if !ch.outcome.Ack? then Stay(c, Deleting(i, Gone(DeleteErrored)))
    else if Shows(c, i, ch.node) then Stay(c, Deleting(i, WaitingFor(KeyOf(c.pools[c.nodes[ch.node].pool]).value)))
    else if forall n :: !Shows(c, i, n) then Stay(c, Deleting(i, Gone(NotFound)))
    else Stay(c, Deleting(i, Finding))
  }

  ghost function RefindStep(c: Cloud, i: nat, key: Key, ch: Choice): Effect {
    if !ch.outcome.Ack? then Stay(c, Deleting(i, Leaving(key, DeleteErrored)))
    else if Shows(c, i, ch.node) then
      var pool := c.nodes[ch.node].pool;
      Stay(c, Deleting(i, if |NodesOf(c, pool)| <= 1 then DroppingPool(key, pool) else DroppingNode(key, ch.node)))
    else if forall n :: !Shows(c, i, n) then Stay(c, Deleting(i, Leaving(key, NotFound)))
    else Stay(c, Deleting(i, Refinding(key)))
  }

  function DropResult(outcome: Outcome): DeleteResult {
    if outcome.Ack? then Deleted else DeleteErrored
  }

  function DropPoolStep(c: Cloud, i: nat, key: Key, pool: nat, ch: Choice): Effect {
    if ch.outcome.Fail? then Stay(c, Deleting(i, Leaving(key, DeleteErrored)))
    else if pool !in c.pools then Stay(c, Deleting(i, Leaving(key, NotFound)))
    else
      Stay(DropPool(c, pool), Deleting(i, Leaving(key, DropResult(ch.outcome)))).(dropped := KeyOf(c.pools[pool]))
  }

  function DropNodeStep(c: Cloud, i: nat, key: Key, node: nat, ch: Choice): Effect {
    if ch.outcome.Fail? then Stay(c, Deleting(i, Leaving(key, DeleteErrored)))
    else if node !in c.nodes || c.nodes[node].pool !in c.pools then Stay(c, Deleting(i, Leaving(key, NotFound)))
    else
      var c' := DropNode(c, node);
      var pool := c.nodes[node].pool;
      Stay(c', Deleting(i, Leaving(key, DropResult(ch.outcome)))).(
        dropped := if pool in c'.pools then None else KeyOf(c.pools[pool]))
  }

  ghost function DeleteStep(c: Cloud, i: nat, pc: DeletePc, free: bool, ch: Choice): Effect {
    match pc
    case Finding => FindStep(c, i, ch)
    case WaitingFor(key) =>
      if free then Stay(c, Deleting(i, Refinding(key))).(lock := Take) else Stay(c, Deleting(i, pc))
    case Refinding(key) => RefindStep(c, i, key, ch)
    case DroppingPool(key, pool) => DropPoolStep(c, i, key, pool, ch)
    case DroppingNode(key, node) => DropNodeStep(c, i, key, node, ch)
    case Leaving(key, result) => Stay(c, Deleting(i, Gone(result))).(lock := Release)
    case Gone(_) => Stay(c, Deleting(i, pc))
  }

  // ---------------------------------------------------------------- the in-place tag update

  ghost function UpdateStep(c: Cloud, proc: Proc, ch: Choice): Effect
    requires proc.Updating?
  {
    var i := proc.target;
    match proc.upc
    case ReadingTags =>
      if !ch.outcome.Ack? || i !in c.instances then Stay(c, proc.(upc := Updated))
      else
        var seen := c.instances[i].tags;
        if Normalize(seen) == MergedTags(seen, proc.previous, proc.desired) then Stay(c, proc.(upc := Updated))
        else Stay(c, proc.(upc := WritingTags(seen)))
    case WritingTags(seen) =>
      if ch.outcome.Fail? || i !in c.instances then Stay(c, proc.(upc := Updated))
      else
        var c' := WriteTags(c, i, MergedTags(seen, proc.previous, proc.desired));
        Stay(if KeepsClaim(seen, proc.previous, proc.desired) then c' else c'.(forged := true), proc.(upc := Updated))
    case Updated => Stay(c, proc)
  }

  // ---------------------------------------------------------------- the whole system

  /** The key a process holds or asks the mutex for. */
  function KeyOfProc(proc: Proc): Option<Key> {
    match proc
    case Creating(call) => Some(call.args.key)
    case Deleting(_, WaitingFor(key)) => Some(key)
    case Deleting(_, Refinding(key)) => Some(key)
    case Deleting(_, DroppingPool(key, _)) => Some(key)
    case Deleting(_, DroppingNode(key, _)) => Some(key)
    case Deleting(_, Leaving(key, _)) => Some(key)
    case _ => None
  }

  predicate HoldsLock(proc: Proc) {
    match proc
    case Creating(call) => !call.pc.Starting? && !call.pc.Waiting? && !call.pc.Returned?
    case Deleting(_, pc) => pc.Refinding? || pc.DroppingPool? || pc.DroppingNode? || pc.Leaving?
    case Updating(_, _, _, _) => false
  }

  predicate Free(cfg: Config, s: State, proc: Proc) {
    KeyOfProc(proc).Some? && Slot(cfg, KeyOfProc(proc).value) !in s.locks
  }

  ghost function ProcStep(cfg: Config, s: State, proc: Proc, ch: Choice): Effect {
    match proc
    case Creating(call) => CreateStep(cfg, s.cloud, call, Free(cfg, s, proc), ch)
    case Deleting(i, pc) => DeleteStep(s.cloud, i, pc, Free(cfg, s, proc), ch)
    case Updating(_, _, _, _) => UpdateStep(s.cloud, proc, ch)
  }

  function LocksAfter(cfg: Config, s: State, p: nat, proc: Proc, lock: LockAct): map<nat, nat> {
    if KeyOfProc(proc).None? then s.locks
    else
      var slot := Slot(cfg, KeyOfProc(proc).value);
      match lock
      case Keep => s.locks
      case Take => s.locks[slot := p]
      case Release => s.locks - {slot}
  }

  function Commit(cfg: Config, s: State, p: nat, proc: Proc, e: Effect): State {
    State(e.cloud, s.procs[p := e.proc], LocksAfter(cfg, s, p, proc, e.lock),
          match e.dropped case None => s.vanished case Some(key) => s.vanished[key := Vanished(s, key) + 1],
          match e.given case None => s.provided case Some(i) => s.provided + {i})
  }

  predicate Active(proc: Proc) {
    proc.Creating? && !proc.call.pc.Returned?
  }

  function Mark(proc: Proc): string
    requires proc.Creating?
  {
    NormalizeNodeClaimTagValue(proc.call.args.claim)
  }

  /** Calls for one claim do not overlap, and calls that do overlap have different claim tags. */
  predicate NoOverlap(s: State, claim: string) {
    forall q :: q in s.procs && Active(s.procs[q]) ==> Mark(s.procs[q]) != NormalizeNodeClaimTagValue(claim)
  }

  /** Claims and NodePools are named. */
  predicate ArgsAllowed(args: CreateArgs) {
    args.claim != "" && args.key.nodePool != ""
  }

  ghost function Step(cfg: Config, s: State, e: Event): State {
    match e
    case StartCreate(p, args) =>
      if p !in s.procs && ArgsAllowed(args) && NoOverlap(s, args.claim)
      then s.(procs := s.procs[p := Creating(CreateCall(args, Starting, false, false, 0, 0, Vanished(s, args.key)))])
      else s
    case StartDelete(p, i) =>
      if p !in s.procs && i != 0 then s.(procs := s.procs[p := Deleting(i, Finding)]) else s
    case StartUpdate(p, i, previous, desired) =>
      if p !in s.procs && i in s.provided
      then s.(procs := s.procs[p := Updating(i, previous, desired, ReadingTags)])
      else s
    case Act(p, ch) =>
      if p in s.procs then Commit(cfg, s, p, s.procs[p], ProcStep(cfg, s, s.procs[p], ch)) else s
    case Provisioned(node, i, tags) =>
      if node in s.cloud.nodes && s.cloud.nodes[node].instance == 0 && s.cloud.nodes[node].pool in s.cloud.pools
         && i != 0 && i !in s.cloud.used && Foreign(tags)
      then s.(cloud := Provision(s.cloud, node, i, tags))
      else s
    case Restart => s.(procs := map[], locks := map[])
  }

  /** The state after a sequence of events. */
  ghost function After(cfg: Config, s: State, events: seq<Event>): State {
    if events == [] then s
    else Step(cfg, After(cfg, s, events[..|events| - 1]), events[|events| - 1])
  }

  /** Instances of known NodeClaims carry a mark for as long as they live, unless claims were forged. */
  ghost predicate ProvidedMarked(c: Cloud, provided: set<nat>) {
    forall i :: i in provided ==> i in c.used && (!c.forged && i in c.instances ==> Marks(c.instances[i].tags) != {})
  }

  /** Tags of an unclaimed instance do not have the claim text in them. */
  ghost predicate UnclaimedForeign(c: Cloud) {
    forall i :: !c.forged && i in c.instances && Marks(c.instances[i].tags) == {} ==> Foreign(c.instances[i].tags)
  }

  /** A start of the provider: no call in flight over a sound cloud. */
  ghost predicate Initial(s: State) {
    && s.procs == map[] && s.locks == map[] && !s.cloud.forged
    && Sound(s.cloud) && UnclaimedForeign(s.cloud) && ProvidedMarked(s.cloud, s.provided)
  }
}
