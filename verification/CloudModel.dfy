/**
 The Linode side: LKE pools with their nodes, instances with their tags, and the effect of each API call that
 changes them. A node's instance is 0 while it is being provisioned.
 */
module CloudModel {
  import opened ClaimMarks
  import opened Options
  import opened Tags
  import opened TagText

  /** The lock and pool key of a NodePool and an instance type. */
  datatype Key = Key(nodePool: string, itype: string)

  /** Nodes at the pool's start, capacity increments applied and node deletions applied since. */
  datatype History = History(base: nat, grown: nat, shrunk: nat)

  datatype Pool = Pool(itype: string, tags: seq<string>, version: Option<string>, count: nat, history: History)

  datatype Node = Node(pool: nat, instance: nat)

  datatype Instance = Instance(itype: string, tags: seq<string>)

  /**
   `used` holds every instance ID given out so far; `forged` records that an in-place update has replaced or removed
   the claim on some instance.
   */
  datatype Cloud = Cloud(pools: map<nat, Pool>, nodes: map<nat, Node>, instances: map<nat, Instance>, used: set<nat>,
                         forged: bool)

  /** The key a pool answers to; None when Karpenter does not manage it. */
  function KeyOf(pool: Pool): Option<Key> {
    match NodePoolOf(pool.tags)
    case None => None
    case Some(nodePool) => Some(Key(nodePool, pool.itype))
  }

  function NodesOf(c: Cloud, pool: nat): set<nat> {
    set n | n in c.nodes && c.nodes[n].pool == pool
  }

  ghost predicate HasPool(c: Cloud, key: Key) {
    exists p :: p in c.pools && KeyOf(c.pools[p]) == Some(key)
  }

  ghost predicate InPool(c: Cloud, pool: nat, instance: nat) {
    exists n :: n in c.nodes && c.nodes[n] == Node(pool, instance)
  }

  ghost predicate Marked(c: Cloud, i: nat, mark: string) {
    i in c.instances && mark in Marks(c.instances[i].tags)
  }

  // ---------------------------------------------------------------- API calls

  function CreatePool(c: Cloud, id: nat, node: nat, itype: string, tags: seq<string>, version: Option<string>): Cloud {
    c.(pools := c.pools[id := Pool(itype, tags, version, 1, History(1, 0, 0))],
       nodes := c.nodes[node := Node(id, 0)])
  }

  function SetVersion(c: Cloud, id: nat, version: string): Cloud
    requires id in c.pools
  {
    c.(pools := c.pools[id := c.pools[id].(version := Some(version))])
  }

  function Remove(c: Cloud, gone: set<nat>): Cloud
    requires gone <= c.nodes.Keys
  {
    c.(nodes := c.nodes - gone,
       instances := c.instances - (set n | n in gone :: c.nodes[n].instance))
  }

  /** Which nodes an update to `count` may add or take away: exactly as many as reach the requested count. */
  predicate ResizeAllowed(c: Cloud, id: nat, count: nat, added: set<nat>, gone: set<nat>) {
    && added !! c.nodes.Keys
    && gone <= NodesOf(c, id)
    && (count == 0 ==> added == {} && gone == {})
    && (count > 0 ==> |NodesOf(c, id)| + |added| - |gone| == count && (added == {} || gone == {}))
  }

  /** An update whose count is 0 leaves the pool alone: the field is then omitted from the request. */
  function Resize(c: Cloud, id: nat, count: nat, added: set<nat>, gone: set<nat>): Cloud
    requires id in c.pools && ResizeAllowed(c, id, count, added, gone)
  {
    if count == 0 then c else
      var pool := c.pools[id];
      var history := pool.history.(grown := pool.history.grown + 1);
      var c' := Remove(c, gone);
      c'.(pools := c.pools[id := pool.(count := count, history := history)],
          nodes := c'.nodes + map n | n in added :: Node(id, 0))
  }

  function DropPool(c: Cloud, id: nat): Cloud {
    var c' := Remove(c, NodesOf(c, id));
    c'.(pools := c'.pools - {id})
  }

  /** Deleting a pool's last node deletes the pool. */
  function DropNode(c: Cloud, node: nat): Cloud
    requires node in c.nodes && c.nodes[node].pool in c.pools
  {
    var id := c.nodes[node].pool;
    var pool := c.pools[id];
    var rest := NodesOf(c, id) - {node};
    var c' := Remove(c, {node});
    if rest == {} then c'.(pools := c.pools - {id})
    else c'.(pools := c.pools[id := pool.(count := |rest|,
                                          history := pool.history.(shrunk := pool.history.shrunk + 1))])
  }

  function WriteTags(c: Cloud, i: nat, tags: seq<string>): Cloud
    requires i in c.instances
  {
    c.(instances := c.instances[i := c.instances[i].(tags := tags)])
  }

  /** A provisioning node gets its instance. */
  function Provision(c: Cloud, node: nat, i: nat, tags: seq<string>): Cloud
    requires node in c.nodes && c.nodes[node].pool in c.pools
  {
    c.(nodes := c.nodes[node := c.nodes[node].(instance := i)],
       instances := c.instances[i := Instance(c.pools[c.nodes[node].pool].itype, tags)],
       used := c.used + {i})
  }

  // ---------------------------------------------------------------- what every call keeps

  ghost predicate IdsSound(c: Cloud) {
    && 0 !in c.used
    && c.instances.Keys <= c.used
    && (forall n :: n in c.nodes ==> c.nodes[n].pool in c.pools)
    && (forall n :: n in c.nodes && c.nodes[n].instance != 0 ==> c.nodes[n].instance in c.used)
    && (forall n, m :: n in c.nodes && m in c.nodes && c.nodes[n].instance == c.nodes[m].instance != 0 ==> n == m)
  }

  /** No capacity is lost or invented: the count is the number of nodes and the balance of the pool's history. */
  ghost predicate CountsSound(c: Cloud) {
    forall p :: p in c.pools ==>
      && c.pools[p].count == |NodesOf(c, p)|
      && c.pools[p].count + c.pools[p].history.shrunk == c.pools[p].history.base + c.pools[p].history.grown
  }

  ghost predicate PoolsUnique(c: Cloud) {
    forall p, q :: p in c.pools && q in c.pools && KeyOf(c.pools[p]) == KeyOf(c.pools[q]) != None ==> p == q
  }

  /** Unless claims were forged, an instance carries at most one mark and a mark is on at most one instance. */
  ghost predicate MarksUnique(c: Cloud) {
    !c.forged ==>
    && (forall i, a, b :: Marked(c, i, a) && Marked(c, i, b) ==> a == b)
    && (forall i, j, a :: Marked(c, i, a) && Marked(c, j, a) ==> i == j)
  }

  ghost predicate Sound(c: Cloud) {
    IdsSound(c) && CountsSound(c) && PoolsUnique(c) && MarksUnique(c)
  }

  // ---------------------------------------------------------------- what one call may change for others

  /** Pools of other keys keep their identity, their count and their nodes. */
  ghost predicate OtherPoolsKept(c: Cloud, c': Cloud, key: Option<Key>) {
    && (forall p :: p in c.pools && KeyOf(c.pools[p]) != None && KeyOf(c.pools[p]) != key ==>
          p in c'.pools && KeyOf(c'.pools[p]) == KeyOf(c.pools[p]) && c'.pools[p].count == c.pools[p].count
          && NodesOf(c', p) == NodesOf(c, p))
    && (forall p :: p in c'.pools && KeyOf(c'.pools[p]) != None && KeyOf(c'.pools[p]) != key ==>
          p in c.pools && KeyOf(c.pools[p]) == KeyOf(c'.pools[p]))
    && (forall n :: n in c.nodes && n in c'.nodes && c.nodes[n].instance != 0 ==> c'.nodes[n] == c.nodes[n])
  }

  /** A node never moves: an instance seen in a pool was there before, under the same key, or is new. */
  ghost predicate PlacesKept(c: Cloud, c': Cloud) {
    && c.used <= c'.used
    && (forall n :: n in c'.nodes && c'.nodes[n].instance != 0 && c'.nodes[n].pool in c'.pools ==>
          || c'.nodes[n].instance !in c.used
          || (&& n in c.nodes && c.nodes[n] == c'.nodes[n] && c.nodes[n].pool in c.pools
              && KeyOf(c.pools[c.nodes[n].pool]) == KeyOf(c'.pools[c.nodes[n].pool])))
  }

  /**
   Unless claims are forged: a mark stays for as long as its instance lives; an instance that was known and unmarked keeps its tags unless
   it gets the mark `mark` in a pool of `key`; an instance that appears is new and unmarked.
   */
  ghost predicate MarksKept(c: Cloud, c': Cloud, key: Option<Key>, mark: Option<string>) {
    && (c.forged ==> c'.forged)
    && (forall i :: i in c'.instances && i !in c.instances ==> i !in c.used)
    && (!c'.forged ==> LiveMarksKept(c, c', key, mark))
  }

  ghost predicate LiveMarksKept(c: Cloud, c': Cloud, key: Option<Key>, mark: Option<string>) {
    && (forall i :: i in c'.instances && i !in c.instances ==> Marks(c'.instances[i].tags) == {})
    && (forall i :: i in c'.instances && i in c.instances ==>
          || c'.instances[i] == c.instances[i]
          || Marks(c'.instances[i].tags) == Marks(c.instances[i].tags) != {}
          || (&& Marks(c.instances[i].tags) == {}
              && mark != None && Marks(c'.instances[i].tags) == {mark.value}
              && exists p :: p in c.pools && KeyOf(c.pools[p]) == key && InPool(c, p, i)))
  }

  ghost predicate Rely(c: Cloud, c': Cloud, key: Option<Key>, mark: Option<string>) {
    OtherPoolsKept(c, c', key) && PlacesKept(c, c') && MarksKept(c, c', key, mark)
  }

  lemma RelyRefl(c: Cloud, key: Option<Key>, mark: Option<string>)
    requires IdsSound(c)
    ensures Rely(c, c, key, mark)
  {}

  // ---------------------------------------------------------------- the calls, one by one

  /** A call that writes no tags and adds no instance keeps all marks. */
  lemma InstancesShrink(c: Cloud, c': Cloud, key: Option<Key>, mark: Option<string>)
    requires MarksUnique(c) && c'.forged == c.forged
    requires forall i :: i in c'.instances ==> i in c.instances && c'.instances[i] == c.instances[i]
    ensures MarksUnique(c') && MarksKept(c, c', key, mark)
  {
    assert forall i, a :: Marked(c', i, a) ==> Marked(c, i, a);
  }

  /** A call that changes pools of one key only, and whose nodes keep pool and instance, keeps all other pools. */
  lemma PoolsOfOneKeyChange(c: Cloud, c': Cloud, key: Option<Key>)
    requires IdsSound(c)
    requires forall p :: p in c.pools && KeyOf(c.pools[p]) != key ==> p in c'.pools && c'.pools[p] == c.pools[p]
    requires forall p :: p in c'.pools && p !in c.pools ==> KeyOf(c'.pools[p]) == key
    requires forall p :: p in c'.pools && p in c.pools ==> KeyOf(c'.pools[p]) == KeyOf(c.pools[p])
    requires forall n :: n in c'.nodes ==>
      if n in c.nodes then c'.nodes[n] == c.nodes[n]
      else c'.nodes[n].instance == 0 && c'.nodes[n].pool in c'.pools && KeyOf(c'.pools[c'.nodes[n].pool]) == key
    requires forall n :: n in c.nodes && c.nodes[n].pool in c.pools && KeyOf(c.pools[c.nodes[n].pool]) != key ==> n in c'.nodes
    requires c'.used == c.used
    ensures OtherPoolsKept(c, c', key) && PlacesKept(c, c')
  {
    hide KeyOf;
    forall p | p in c.pools && KeyOf(c.pools[p]) != None && KeyOf(c.pools[p]) != key ensures NodesOf(c', p) == NodesOf(c, p) {
      forall n ensures n in NodesOf(c', p) <==> n in NodesOf(c, p) {}
    }
  }

  /** Every pool that stays keeps its key. */
  lemma KeysShrink(c: Cloud, c': Cloud)
    requires PoolsUnique(c)
    requires forall p :: p in c'.pools ==> p in c.pools && KeyOf(c'.pools[p]) == KeyOf(c.pools[p])
    ensures PoolsUnique(c')
  {}

  lemma NodesShrink(c: Cloud, c': Cloud)
    requires IdsSound(c)
    requires c'.instances.Keys <= c.instances.Keys && c'.used == c.used
    requires forall n :: n in c'.nodes ==> n in c.nodes && c'.nodes[n] == c.nodes[n] && c.nodes[n].pool in c'.pools
    ensures IdsSound(c')
  {}

  lemma CreatePoolKeeps(c: Cloud, id: nat, node: nat, itype: string, tags: seq<string>, version: Option<string>, key: Key)
    requires Sound(c) && id !in c.pools && node !in c.nodes
    requires KeyOf(Pool(itype, tags, version, 1, History(1, 0, 0))) == Some(key)
    requires !HasPool(c, key)
    ensures var c' := CreatePool(c, id, node, itype, tags, version);
      Sound(c') && Rely(c, c', Some(key), None) && HasPool(c', key) && NodesOf(c', id) == {node}
  {
    var c' := CreatePool(c, id, node, itype, tags, version);
    hide KeyOf, Marks, NodesOf, HasPool, OtherPoolsKept, PlacesKept, MarksKept, IdsSound, CountsSound, PoolsUnique, MarksUnique;
    InstancesShrink(c, c', Some(key), None);
    hide CreatePool;
    CreatedCounts(c, id, node, itype, tags, version);
    CreatedKeys(c, id, node, itype, tags, version, key);
    CreatedOthers(c, id, node, itype, tags, version, key);
  }

  lemma CreatedCounts(c: Cloud, id: nat, node: nat, itype: string, tags: seq<string>, version: Option<string>)
    requires IdsSound(c) && CountsSound(c) && id !in c.pools && node !in c.nodes
    ensures var c' := CreatePool(c, id, node, itype, tags, version); IdsSound(c') && CountsSound(c') && NodesOf(c', id) == {node}
  {
    var c' := CreatePool(c, id, node, itype, tags, version);
    assert forall p :: p in c.pools ==> NodesOf(c', p) == NodesOf(c, p);
    assert NodesOf(c', id) == {node};
    hide NodesOf;
  }

  lemma CreatedKeys(c: Cloud, id: nat, node: nat, itype: string, tags: seq<string>, version: Option<string>, key: Key)
    requires PoolsUnique(c) && id !in c.pools && !HasPool(c, key)
    requires KeyOf(Pool(itype, tags, version, 1, History(1, 0, 0))) == Some(key)
    ensures var c' := CreatePool(c, id, node, itype, tags, version); PoolsUnique(c') && HasPool(c', key)
  {
    hide KeyOf;
    var c' := CreatePool(c, id, node, itype, tags, version);
    assert c'.pools[id] == Pool(itype, tags, version, 1, History(1, 0, 0));
  }

  lemma CreatedOthers(c: Cloud, id: nat, node: nat, itype: string, tags: seq<string>, version: Option<string>, key: Key)
    requires IdsSound(c) && id !in c.pools && node !in c.nodes
    requires KeyOf(Pool(itype, tags, version, 1, History(1, 0, 0))) == Some(key)
    ensures var c' := CreatePool(c, id, node, itype, tags, version); OtherPoolsKept(c, c', Some(key)) && PlacesKept(c, c')
  {
    hide KeyOf, NodesOf, OtherPoolsKept, PlacesKept;
    PoolsOfOneKeyChange(c, CreatePool(c, id, node, itype, tags, version), Some(key));
  }

  lemma SetVersionKeeps(c: Cloud, id: nat, version: string)
    requires Sound(c) && id in c.pools
    ensures var c' := SetVersion(c, id, version);
      && Sound(c') && Rely(c, c', None, None)
      && KeyOf(c'.pools[id]) == KeyOf(c.pools[id]) && c'.pools[id].count == c.pools[id].count
      && c'.pools.Keys == c.pools.Keys && c'.nodes == c.nodes && c'.instances == c.instances
  {
    var c' := SetVersion(c, id, version);
    assert forall p :: p in c.pools ==> KeyOf(c'.pools[p]) == KeyOf(c.pools[p]) && c'.pools[p].count == c.pools[p].count
                                        && c'.pools[p].history == c.pools[p].history;
    assert c'.pools.Keys == c.pools.Keys;
    PoolsRenamed(c, c');
    InstancesShrink(c, c', None, None);
    hide KeyOf, Marks, NodesOf, SetVersion, OtherPoolsKept, PlacesKept, MarksKept, IdsSound, CountsSound, PoolsUnique, MarksUnique;
  }

  /** A change that leaves keys, counts, nodes and instances alone changes nothing that matters to others. */
  lemma PoolsRenamed(c: Cloud, c': Cloud)
    requires IdsSound(c) && CountsSound(c) && PoolsUnique(c)
    requires c'.pools.Keys == c.pools.Keys && c'.nodes == c.nodes && c'.used == c.used
    requires c'.instances.Keys == c.instances.Keys
    requires forall p :: p in c.pools ==>
      KeyOf(c'.pools[p]) == KeyOf(c.pools[p]) && c'.pools[p].count == c.pools[p].count && c'.pools[p].history == c.pools[p].history
    ensures IdsSound(c') && CountsSound(c') && PoolsUnique(c') && OtherPoolsKept(c, c', None) && PlacesKept(c, c')
  {
    hide KeyOf;
    assert forall p :: NodesOf(c', p) == NodesOf(c, p);
    hide NodesOf;
  }

  /** The cloud with one more node in a pool. */
  ghost function Grown(c: Cloud, id: nat, node: nat): Cloud
    requires id in c.pools
  {
    c.(pools := c.pools[id := c.pools[id].(count := c.pools[id].count + 1,
                              history := c.pools[id].history.(grown := c.pools[id].history.grown + 1))],
       nodes := c.nodes[node := Node(id, 0)])
  }

  /** Asking for one more than the current count adds exactly one node and touches nothing else. */
  lemma GrowKeeps(c: Cloud, id: nat, count: nat, added: set<nat>, gone: set<nat>) returns (node: nat)
    requires Sound(c) && id in c.pools && KeyOf(c.pools[id]) != None
    requires count == c.pools[id].count + 1 && ResizeAllowed(c, id, count, added, gone)
    ensures var c' := Resize(c, id, count, added, gone);
      && node !in c.nodes && c' == Grown(c, id, node)
      && Sound(c') && Rely(c, c', KeyOf(c.pools[id]), None)
  {
    node := GrowShape(c, id, count, added, gone);
    GrownKeeps(c, id, node);
  }

  lemma GrownKeeps(c: Cloud, id: nat, node: nat)
    requires Sound(c) && id in c.pools && node !in c.nodes && KeyOf(c.pools[id]) != None
    ensures Sound(Grown(c, id, node)) && Rely(c, Grown(c, id, node), KeyOf(c.pools[id]), None)
  {
    var c' := Grown(c, id, node);
    assert IdsSound(c') by { GrownIds(c, id, node); }
    assert CountsSound(c') by { GrownCounts(c, id, node); }
    GrownOthers(c, id, node);
    assert MarksUnique(c') && MarksKept(c, c', KeyOf(c.pools[id]), None) by {
      InstancesShrink(c, c', KeyOf(c.pools[id]), None);
    }
    hide KeyOf, Marks, NodesOf, Grown, OtherPoolsKept, PlacesKept, MarksKept, IdsSound, CountsSound, PoolsUnique, MarksUnique;
  }

  lemma GrownOthers(c: Cloud, id: nat, node: nat)
    requires IdsSound(c) && PoolsUnique(c) && id in c.pools && node !in c.nodes
    ensures var c' := Grown(c, id, node);
      PoolsUnique(c') && OtherPoolsKept(c, c', KeyOf(c.pools[id])) && PlacesKept(c, c')
  {
    var c' := Grown(c, id, node);
    assert KeyOf(c'.pools[id]) == KeyOf(c.pools[id]);
    hide KeyOf, NodesOf, OtherPoolsKept, PlacesKept, PoolsUnique;
    KeysShrink(c, c');
    PoolsOfOneKeyChange(c, c', KeyOf(c.pools[id]));
  }

  lemma GrownIds(c: Cloud, id: nat, node: nat)
    requires IdsSound(c) && id in c.pools && node !in c.nodes
    ensures IdsSound(Grown(c, id, node))
  {}

  lemma GrowShape(c: Cloud, id: nat, count: nat, added: set<nat>, gone: set<nat>) returns (node: nat)
    requires CountsSound(c) && id in c.pools
    requires count == c.pools[id].count + 1 && ResizeAllowed(c, id, count, added, gone)
    ensures node !in c.nodes && Resize(c, id, count, added, gone) == Grown(c, id, node)
  {
    assert |gone| == 0 && |added| == 1;
    node :| node in added;
    assert |added - {node}| == 0;
    assert added == {node};
    assert Remove(c, gone) == c;
  }

  lemma GrownCounts(c: Cloud, id: nat, node: nat)
    requires CountsSound(c) && id in c.pools && node !in c.nodes
    ensures CountsSound(Grown(c, id, node))
    ensures NodesOf(Grown(c, id, node), id) == NodesOf(c, id) + {node}
  {
    var c' := Grown(c, id, node);
    assert forall p :: p != id ==> NodesOf(c', p) == NodesOf(c, p);
    assert NodesOf(c', id) == NodesOf(c, id) + {node};
  }

  lemma WriteTagsKeeps(c: Cloud, i: nat, tags: seq<string>, key: Option<Key>, mark: Option<string>)
    requires Sound(c) && i in c.instances
    requires
      || c.forged
      || Marks(tags) == Marks(c.instances[i].tags) != {}
      || (&& Marks(c.instances[i].tags) == {} && mark != None && Marks(tags) == {mark.value}
          && (forall j :: !Marked(c, j, mark.value))
          && exists p :: p in c.pools && KeyOf(c.pools[p]) == key && InPool(c, p, i))
    ensures Sound(WriteTags(c, i, tags)) && Rely(c, WriteTags(c, i, tags), key, mark)
  {
    var c' := WriteTags(c, i, tags);
    PoolsRenamed(c, c');
    OtherKeyKept(c, c', key);
    assert IdsSound(c');
    assert MarksUnique(c') && MarksKept(c, c', key, mark) by { WrittenMarks(c, i, tags, key, mark); }
    hide Marks, KeyOf, NodesOf, OtherPoolsKept, PlacesKept, MarksKept, IdsSound, CountsSound, PoolsUnique, MarksUnique;
  }

  lemma OtherKeyKept(c: Cloud, c': Cloud, key: Option<Key>)
    requires OtherPoolsKept(c, c', None)
    ensures OtherPoolsKept(c, c', key)
  {
    hide KeyOf, NodesOf;
  }

  lemma WrittenMarks(c: Cloud, i: nat, tags: seq<string>, key: Option<Key>, mark: Option<string>)
    requires MarksUnique(c) && i in c.instances
    requires
      || c.forged
      || Marks(tags) == Marks(c.instances[i].tags) != {}
      || (&& Marks(c.instances[i].tags) == {} && mark != None && Marks(tags) == {mark.value}
          && (forall j :: !Marked(c, j, mark.value))
          && exists p :: p in c.pools && KeyOf(c.pools[p]) == key && InPool(c, p, i))
    ensures MarksUnique(WriteTags(c, i, tags)) && MarksKept(c, WriteTags(c, i, tags), key, mark)
  {
    hide Marks, KeyOf;
    var c' := WriteTags(c, i, tags);
    forall j, a ensures Marked(c', j, a) <==> if j == i then a in Marks(tags) else Marked(c, j, a) {}
    assert forall a :: a in Marks(c.instances[i].tags) ==> Marked(c, i, a);
  }

  /** A tag write that forges a claim still respects everything but the marks. */
  lemma ForgedWriteKeeps(c: Cloud, i: nat, tags: seq<string>, key: Option<Key>)
    requires Sound(c) && i in c.instances
    ensures var c' := WriteTags(c, i, tags).(forged := true); Sound(c') && Rely(c, c', key, None)
  {
    var c' := WriteTags(c, i, tags).(forged := true);
    PoolsRenamed(c, c');
    OtherKeyKept(c, c', key);
    hide KeyOf, NodesOf, OtherPoolsKept, PlacesKept, IdsSound, CountsSound, PoolsUnique;
  }

  lemma ProvisionKeeps(c: Cloud, node: nat, i: nat, tags: seq<string>)
    requires Sound(c) && node in c.nodes && c.nodes[node].instance == 0
    requires i != 0 && i !in c.used && Marks(tags) == {}
    ensures Sound(Provision(c, node, i, tags)) && Rely(c, Provision(c, node, i, tags), None, None)
  {
    hide KeyOf, Marks, NodesOf, OtherPoolsKept, PlacesKept, MarksKept, CountsSound, PoolsUnique, MarksUnique;
    assert c.nodes[node].pool in c.pools;
    hide IdsSound, Provision;
    ProvisionIds(c, node, i, tags);
    ProvisionMarks(c, node, i, tags);
    ProvisionPools(c, node, i, tags);
  }

  lemma ProvisionPools(c: Cloud, node: nat, i: nat, tags: seq<string>)
    requires CountsSound(c) && PoolsUnique(c) && node in c.nodes && c.nodes[node].instance == 0 && c.nodes[node].pool in c.pools
    ensures var c' := Provision(c, node, i, tags); CountsSound(c') && PoolsUnique(c') && OtherPoolsKept(c, c', None)
  {
    hide KeyOf;
    var c' := Provision(c, node, i, tags);
    assert forall p :: NodesOf(c', p) == NodesOf(c, p);
    hide NodesOf;
  }

  lemma ProvisionIds(c: Cloud, node: nat, i: nat, tags: seq<string>)
    requires IdsSound(c) && node in c.nodes && c.nodes[node].instance == 0
    requires i != 0 && i !in c.used
    ensures IdsSound(Provision(c, node, i, tags)) && PlacesKept(c, Provision(c, node, i, tags))
  {
    hide KeyOf;
  }

  lemma ProvisionMarks(c: Cloud, node: nat, i: nat, tags: seq<string>)
    requires IdsSound(c) && MarksUnique(c) && node in c.nodes
    requires i !in c.used && Marks(tags) == {}
    ensures MarksUnique(Provision(c, node, i, tags)) && MarksKept(c, Provision(c, node, i, tags), None, None)
  {
    hide Marks, KeyOf;
    assert forall j, a :: Marked(Provision(c, node, i, tags), j, a) <==> Marked(c, j, a);
  }

  /** The cloud without one node and its instance, and without its pool. */
  ghost function DroppedPool(c: Cloud, id: nat, node: nat): Cloud
    requires node in c.nodes
  {
    Cloud(c.pools - {id}, c.nodes - {node}, c.instances - {c.nodes[node].instance}, c.used, c.forged)
  }

  /** Dropping a one-node pool removes that node, its instance and the pool, and nothing else. */
  lemma DropPoolKeeps(c: Cloud, id: nat, node: nat)
    requires Sound(c) && id in c.pools && KeyOf(c.pools[id]) != None
    requires node in c.nodes && NodesOf(c, id) == {node}
    ensures var c' := DropPool(c, id);
      Sound(c') && Rely(c, c', KeyOf(c.pools[id]), None) && c' == DroppedPool(c, id, node)
  {
    var c' := DroppedPool(c, id, node);
    assert node in NodesOf(c, id);
    assert forall n :: n in c.nodes && c.nodes[n].pool == id ==> n in NodesOf(c, id);
    DropPoolShape(c, id, node);
    hide Marks, KeyOf, NodesOf;
    KeysShrink(c, c');
    NodesShrink(c, c');
    InstancesShrink(c, c', KeyOf(c.pools[id]), None);
    PoolsOfOneKeyChange(c, c', KeyOf(c.pools[id]));
  }

  lemma DropPoolShape(c: Cloud, id: nat, node: nat)
    requires CountsSound(c) && node in c.nodes && NodesOf(c, id) == {node}
    ensures DropPool(c, id) == DroppedPool(c, id, node) && CountsSound(DroppedPool(c, id, node))
  {
    assert node in NodesOf(c, id);
    assert (set n | n in {node} :: c.nodes[n].instance) == {c.nodes[node].instance};
    assert forall p :: p != id ==> NodesOf(DroppedPool(c, id, node), p) == NodesOf(c, p);
  }

  /** The cloud without one node and its instance, the pool's count one lower. */
  ghost function DroppedNode(c: Cloud, node: nat): Cloud
    requires node in c.nodes && c.nodes[node].pool in c.pools && c.pools[c.nodes[node].pool].count > 0
  {
    var id := c.nodes[node].pool;
    Cloud(c.pools[id := c.pools[id].(count := c.pools[id].count - 1,
                        history := c.pools[id].history.(shrunk := c.pools[id].history.shrunk + 1))],
          c.nodes - {node}, c.instances - {c.nodes[node].instance}, c.used, c.forged)
  }

  /** Dropping one of several nodes removes that node and its instance, lowers the count by one, and nothing else. */
  lemma DropNodeKeeps(c: Cloud, node: nat)
    requires Sound(c) && node in c.nodes && KeyOf(c.pools[c.nodes[node].pool]) != None
    requires |NodesOf(c, c.nodes[node].pool)| > 1
    ensures var c' := DropNode(c, node);
      Sound(c') && Rely(c, c', KeyOf(c.pools[c.nodes[node].pool]), None) && c' == DroppedNode(c, node)
  {
    hide KeyOf, Marks, NodesOf, OtherPoolsKept, PlacesKept, MarksKept, CountsSound, PoolsUnique, MarksUnique, DropNode;
    assert c.nodes[node].pool in c.pools;
    hide IdsSound;
    DropNodeShape(c, node);
    InstancesShrink(c, DroppedNode(c, node), KeyOf(c.pools[c.nodes[node].pool]), None);
    hide DroppedNode;
    DroppedNodeOthers(c, node);
  }

  lemma DroppedNodeOthers(c: Cloud, node: nat)
    requires IdsSound(c) && PoolsUnique(c) && node in c.nodes && c.nodes[node].pool in c.pools
    requires c.pools[c.nodes[node].pool].count > 0
    ensures var c' := DroppedNode(c, node);
      && IdsSound(c') && PoolsUnique(c') && PlacesKept(c, c')
      && OtherPoolsKept(c, c', KeyOf(c.pools[c.nodes[node].pool]))
  {
    var c' := DroppedNode(c, node);
    assert forall p :: p in c.pools ==> KeyOf(c'.pools[p]) == KeyOf(c.pools[p]);
    hide KeyOf, NodesOf, PoolsUnique, OtherPoolsKept, PlacesKept;
    KeysShrink(c, c');
    PoolsOfOneKeyChange(c, c', KeyOf(c.pools[c.nodes[node].pool]));
    NodesShrink(c, c');
  }

  lemma DropNodeShape(c: Cloud, node: nat)
    requires CountsSound(c) && node in c.nodes && c.nodes[node].pool in c.pools
    requires |NodesOf(c, c.nodes[node].pool)| > 1
    ensures c.pools[c.nodes[node].pool].count > 0
    ensures DropNode(c, node) == DroppedNode(c, node) && CountsSound(DroppedNode(c, node))
  {
    var id := c.nodes[node].pool;
    var c' := DroppedNode(c, node);
    assert node in NodesOf(c, id);
    assert |NodesOf(c, id) - {node}| == |NodesOf(c, id)| - 1;
    assert (set n | n in {node} :: c.nodes[n].instance) == {c.nodes[node].instance};
    assert forall p :: p != id ==> NodesOf(c', p) == NodesOf(c, p);
    assert NodesOf(c', id) == NodesOf(c, id) - {node};
  }
}
