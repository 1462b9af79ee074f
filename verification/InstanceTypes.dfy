/**
 The instance-type provider of pkg/providers/instancetype: the cached list of instance types per NodeClass, and the
 capacity that registered nodes report, kept per type and image set and laid over what the resolver predicts.
 The resolver is any function of the type's data and the NodeClass's kubelet configuration.
 */
module InstanceTypes {
  import opened Options
  import opened OfferingCache

  datatype LinodeType = LinodeType(vcpus: nat, memory: nat, disk: nat)

  type Capacity = map<string, int>

  datatype InstanceType = InstanceType(capacity: Capacity, overhead: map<string, int>)

  /** `images` and `kubelet` are the hashes of the image set and of the kubelet configuration. */
  datatype NodeClass = NodeClass(name: string, images: Hash, kubelet: Hash)

  type Resolver = (LinodeType, Hash) -> Option<InstanceType>

  const MEMORY := "memory"
  const STORAGE := "ephemeral-storage"

  /** The key of the cached list. */
  function ListKey(nodeClass: NodeClass): string {
    nodeClass.images + "-" + nodeClass.name + "-" + nodeClass.kubelet
  }

  lemma ListKeyNamesAll(a: NodeClass, b: NodeClass)
    requires ListKey(a) == ListKey(b)
    ensures a == b
  {
    var ka, kb := ListKey(a), ListKey(b);
    assert ka[..16] == a.images && kb[..16] == b.images;
    assert ka[17..|ka| - 17] == a.name && kb[17..|kb| - 17] == b.name;
    assert ka[|ka| - 16..] == a.kubelet && kb[|kb| - 16..] == b.kubelet;
  }

  /** The provider's data and caches. */
  datatype Provider = Provider(info: map<string, LinodeType>, offered: Availability,
                               lists: map<string, map<string, InstanceType>>, discovered: map<string, Capacity>)

  function Discovered(p: Provider, itype: string, images: Hash): Capacity {
    if CacheKey(itype, images) in p.discovered then p.discovered[CacheKey(itype, images)] else map[]
  }

  /** Reported quantities replace predicted ones. */
  function Overlaid(it: InstanceType, reported: Capacity): InstanceType {
    it.(capacity := it.capacity + reported)
  }

  /** The private get: resolve, then overlay; None when the type is unknown or does not resolve. */
  function Resolved(resolve: Resolver, p: Provider, nodeClass: NodeClass, name: string): Option<InstanceType> {
    if name !in p.info then None
    else match resolve(p.info[name], nodeClass.kubelet)
      case None => None
      case Some(it) => Some(Overlaid(it, Discovered(p, name, nodeClass.images)))
  }

  function FreshList(resolve: Resolver, p: Provider, nodeClass: NodeClass): map<string, InstanceType> {
    map name | name in p.info && Resolved(resolve, p, nodeClass, name).Some? :: Resolved(resolve, p, nodeClass, name).value
  }

  /** List and Get fail until types and offerings are known. */
  predicate Ready(p: Provider) {
    p.info != map[] && p.offered != map[]
  }

  function Listed(resolve: Resolver, p: Provider, nodeClass: NodeClass): Option<map<string, InstanceType>> {
    if !Ready(p) then None
    else if ListKey(nodeClass) in p.lists then Some(p.lists[ListKey(nodeClass)])
    else Some(FreshList(resolve, p, nodeClass))
  }

  function Got(resolve: Resolver, p: Provider, nodeClass: NodeClass, name: string): Option<InstanceType> {
    if !Ready(p) then None
    else if ListKey(nodeClass) in p.lists && name in p.lists[ListKey(nodeClass)] then Some(p.lists[ListKey(nodeClass)][name])
    else Resolved(resolve, p, nodeClass, name)
  }

  /** Only these two quantities of a node are taken over. */
  function Reported(node: Capacity): Capacity {
    map r | r in node && (r == MEMORY || r == STORAGE) :: node[r]
  }

  /** A report replaces what is not known yet and lowers what is. */
  function Lowered(known: Capacity, reported: Capacity): Capacity {
    map r | r in known.Keys + reported.Keys ::
      if r in reported && (r !in known || reported[r] <= known[r]) then reported[r] else known[r]
  }

  function AfterReport(p: Provider, nodeClass: NodeClass, itype: string, node: Capacity): Provider {
    var known := Discovered(p, itype, nodeClass.images);
    var lowered := Lowered(known, Reported(node));
    if Reported(node) == map[] then p
    else p.(discovered := p.discovered[CacheKey(itype, nodeClass.images) := lowered],
            lists := if lowered != known then p.lists - {ListKey(nodeClass)} else p.lists)
  }

  /** One line of the region availability. */
  datatype PlanReport = PlanReport(plan: string, region: string, available: bool)

  ghost predicate Collects(avail: Availability, reports: seq<PlanReport>) {
    && (forall plan :: plan in avail <==> exists i :: 0 <= i < |reports| && reports[i].plan == plan)
    && (forall plan, region :: Offered(avail, plan, region) <==> PlanReport(plan, region, true) in reports)
  }

  class InstanceTypeProvider {
    const resolve: Resolver
    const offeringProvider: OfferingProvider
    var instanceTypesInfo: map<string, LinodeType>
    var instanceTypesOfferings: Availability
    var instanceTypesCache: map<string, map<string, InstanceType>>
    var discoveredCapacityCache: map<string, Capacity>

    function Contents(): Provider
      reads this
    {
      Provider(instanceTypesInfo, instanceTypesOfferings, instanceTypesCache, discoveredCapacityCache)
    }

    constructor (resolve: Resolver, offeringProvider: OfferingProvider)
      ensures this.resolve == resolve && this.offeringProvider == offeringProvider
      ensures Contents() == Provider(map[], map[], map[], map[])
    {
      this.resolve, this.offeringProvider := resolve, offeringProvider;
      instanceTypesInfo, instanceTypesOfferings := map[], map[];
      instanceTypesCache, discoveredCapacityCache := map[], map[];
    }

    method List(nodeClass: NodeClass) returns (types: Option<map<string, InstanceType>>)
      modifies this`instanceTypesCache
      ensures types == Listed(resolve, old(Contents()), nodeClass)
      ensures types.None? <==> old(instanceTypesInfo) == map[] || old(instanceTypesOfferings) == map[]
      ensures Contents() == match types
                            case None => old(Contents())
                            case Some(list) => old(Contents()).(lists := old(instanceTypesCache)[ListKey(nodeClass) := list])
    {
      if instanceTypesInfo == map[] || instanceTypesOfferings == map[] { return None; }
      var key := ListKey(nodeClass);
      if key in instanceTypesCache {
        assert instanceTypesCache[key := instanceTypesCache[key]] == instanceTypesCache;
        return Some(instanceTypesCache[key]);
      }
      var p := Contents();
      var list: map<string, InstanceType> := map[];
      var left := instanceTypesInfo.Keys;
      while left != {}
        invariant left <= p.info.Keys
        invariant list == map name | name in p.info.Keys - left && Resolved(resolve, p, nodeClass, name).Some? ::
                            Resolved(resolve, p, nodeClass, name).value
        decreases |left|
      {
        var name :| name in left;
        var it := Resolved(resolve, p, nodeClass, name);
        if it.Some? { list := list[name := it.value]; }
        left := left - {name};
      }
      assert list == FreshList(resolve, p, nodeClass);
      instanceTypesCache := instanceTypesCache[key := list];
      types := Some(list);
    }

    method Get(nodeClass: NodeClass, name: string) returns (found: Option<InstanceType>)
      ensures found == Got(resolve, Contents(), nodeClass, name)
      ensures instanceTypesInfo == map[] || instanceTypesOfferings == map[] ==> found.None?
    {
      if instanceTypesInfo == map[] || instanceTypesOfferings == map[] { return None; }
      var key := ListKey(nodeClass);
      if key in instanceTypesCache && name in instanceTypesCache[key] { return Some(instanceTypesCache[key][name]); }
      found := Resolved(resolve, Contents(), nodeClass, name);
    }

    /** The change monitor reports a difference, or anything once it has forgotten what it saw last. */
    method UpdateInstanceTypes(info: map<string, LinodeType>, forgotten: bool)
      modifies this
      ensures Contents() == old(Contents()).(
        info := info,
        lists := if forgotten || info != old(instanceTypesInfo) then map[] else old(instanceTypesCache))
    {
      if forgotten || info != instanceTypesInfo { instanceTypesCache := map[]; }
      instanceTypesInfo := info;
    }

    /** Collects the regions of each plan and drops both caches when they changed. */
    method UpdateInstanceTypeOfferings(reports: seq<PlanReport>, forgotten: bool)
      modifies this, offeringProvider
      ensures Collects(instanceTypesOfferings, reports)
      ensures var changed := forgotten || instanceTypesOfferings != old(instanceTypesOfferings);
        && Contents() == old(Contents()).(offered := instanceTypesOfferings,
                                          lists := if changed then map[] else old(instanceTypesCache))
        && offeringProvider.Contents() ==
           if changed then old(offeringProvider.Contents()).(cache := map[]) else old(offeringProvider.Contents())
    {
      var collected: Availability := map[];
      for i := 0 to |reports|
        invariant forall plan :: plan in collected <==> exists j :: 0 <= j < i && reports[j].plan == plan
        invariant forall plan, region :: Offered(collected, plan, region) <==> PlanReport(plan, region, true) in reports[..i]
        invariant Contents() == old(Contents()) && offeringProvider.Contents() == old(offeringProvider.Contents())
      {
        var report := reports[i];
        assert reports[..i + 1] == reports[..i] + [report];
        var regions := if report.plan in collected then collected[report.plan] else {};
        collected := collected[report.plan := if report.available then regions + {report.region} else regions];
      }
      assert reports[..|reports|] == reports;
      if forgotten || collected != instanceTypesOfferings {
        instanceTypesCache := map[];
        offeringProvider.InvalidateCache();
      }
      instanceTypesOfferings := collected;
    }

    method UpdateInstanceTypeCapacityFromNode(nodeClass: NodeClass, itype: string, node: Capacity)
      modifies this
      ensures Contents() == AfterReport(old(Contents()), nodeClass, itype, node)
    {
      var actual: Capacity := map[];
      if MEMORY in node { actual := actual[MEMORY := node[MEMORY]]; }
      if STORAGE in node { actual := actual[STORAGE := node[STORAGE]]; }
      assert actual == Reported(node);
      if actual == map[] { return; }
      var key := CacheKey(itype, nodeClass.images);
      var known: Capacity := if key in discoveredCapacityCache then discoveredCapacityCache[key] else map[];
      var capacity, refresh, changed := Lower(known, actual);
      if refresh {
        discoveredCapacityCache := discoveredCapacityCache[key := capacity];
        if changed { instanceTypesCache := instanceTypesCache - {ListKey(nodeClass)}; }
      }
    }

    /** The loop over the reported quantities. */
    static method Lower(known: Capacity, actual: Capacity) returns (capacity: Capacity, refresh: bool, changed: bool)
      ensures capacity == Lowered(known, actual)
      ensures changed <==> capacity != known
      ensures refresh <==> exists r :: r in actual && (r !in known || actual[r] <= known[r])
    {
      capacity, refresh, changed := known, false, false;
      var left := actual.Keys;
      while left != {}
        invariant left <= actual.Keys && LoweredSoFar(known, actual, left, capacity)
        invariant changed <==> SomeLower(known, actual, left)
        invariant refresh <==> SomeAtMost(known, actual, left)
        decreases |left|
      {
        var r :| r in left;
        SomeStep(known, actual, left, r);
        LowerStep(known, actual, left, r, capacity);
        hide SomeLower, SomeAtMost, LoweredSoFar;
        if r !in capacity || actual[r] <= capacity[r] {
          if r !in capacity || actual[r] < capacity[r] { changed := true; }
          capacity := capacity[r := actual[r]];
          refresh := true;
        }
        left := left - {r};
      }
      LoweredIs(known, actual, capacity);
    }
  }

  /** The node has less memory or storage than is known, or one of them is not known yet. */
  ghost predicate LowersSome(known: Capacity, node: Capacity) {
    exists r :: r in {"memory", "ephemeral-storage"} && r in node && (r !in known || node[r] < known[r])
  }

  /** A report drops the class's cached list exactly when it lowers, or is the first to give, the memory or the storage. */
  lemma ReportDropsList(p: Provider, nodeClass: NodeClass, itype: string, node: Capacity)
    ensures AfterReport(p, nodeClass, itype, node).lists
         == if LowersSome(Discovered(p, itype, nodeClass.images), node) then p.lists - {ListKey(nodeClass)} else p.lists
  {
    var known, reported := Discovered(p, itype, nodeClass.images), Reported(node);
    hide Discovered, ListKey, CacheKey;
    if LowersSome(known, node) {
      var r :| r in {"memory", "ephemeral-storage"} && r in node && (r !in known || node[r] < known[r]);
      assert r in reported && r in Lowered(known, reported) && Lowered(known, reported)[r] == node[r];
    } else {
      assert Lowered(known, reported) == known;
    }
  }

  ghost predicate LoweredSoFar(known: Capacity, actual: Capacity, left: set<string>, capacity: Capacity) {
    && capacity.Keys == known.Keys + (actual.Keys - left)
    && forall r :: r in capacity ==>
      capacity[r] == if r in actual && r !in left && (r !in known || actual[r] <= known[r]) then actual[r] else known[r]
  }

  ghost predicate SomeLower(known: Capacity, actual: Capacity, left: set<string>) {
    exists r :: r in actual && r !in left && (r !in known || actual[r] < known[r])
  }

  ghost predicate SomeAtMost(known: Capacity, actual: Capacity, left: set<string>) {
    exists r :: r in actual && r !in left && (r !in known || actual[r] <= known[r])
  }

  lemma LowerStep(known: Capacity, actual: Capacity, left: set<string>, r: string, capacity: Capacity)
    requires r in left && r in actual && LoweredSoFar(known, actual, left, capacity)
    ensures r in capacity <==> r in known
    ensures r in capacity ==> capacity[r] == known[r]
    ensures LoweredSoFar(known, actual, left - {r},
                         if r !in capacity || actual[r] <= capacity[r] then capacity[r := actual[r]] else capacity)
  {}

  lemma SomeStep(known: Capacity, actual: Capacity, left: set<string>, r: string)
    requires r in left && r in actual
    ensures SomeLower(known, actual, left - {r}) <==> SomeLower(known, actual, left) || r !in known || actual[r] < known[r]
    ensures SomeAtMost(known, actual, left - {r}) <==> SomeAtMost(known, actual, left) || r !in known || actual[r] <= known[r]
  {
    assert forall k :: k !in left - {r} <==> k !in left || k == r;
  }

  lemma LoweredIs(known: Capacity, actual: Capacity, capacity: Capacity)
    requires LoweredSoFar(known, actual, {}, capacity)
    ensures capacity == Lowered(known, actual)
    ensures capacity != known <==> SomeLower(known, actual, {})
  {
    if SomeLower(known, actual, {}) {
      var r :| r in actual && (r !in known || actual[r] < known[r]);
      assert r in capacity;
    } else {
      assert capacity == known;
    }
  }

  // ---------------------------------------------------------------- runs

  /** `outlived`: keys of lists under which a discovered entry of their image set has expired since they were cached. */
  datatype State = State(p: Provider, outlived: set<string>)

  datatype Event =
    | List(nodeClass: NodeClass)
    | Observe(nodeClass: NodeClass, itype: string, node: Capacity)
    | UpdateTypes(info: map<string, LinodeType>, forgotten: bool)
    | UpdateOfferings(offered: Availability, forgotten: bool)
    | ListExpires(key: string)
    | DiscoveredExpires(itype: string, images: Hash)

  /** The cached lists of an image set: their keys begin with its hash. */
  function ListsOf(p: Provider, images: Hash): set<string> {
    set key | key in p.lists && images <= key
  }

  function Step(resolve: Resolver, s: State, e: Event): State {
    match e
    case List(nodeClass) =>
      var listed, key := Listed(resolve, s.p, nodeClass), ListKey(nodeClass);
      if listed.None? then s
      else s.(p := s.p.(lists := s.p.lists[key := listed.value]),
              outlived := if key in s.p.lists then s.outlived else s.outlived - {key})
    case Observe(nodeClass, itype, node) => s.(p := AfterReport(s.p, nodeClass, itype, node))
    case UpdateTypes(info, forgotten) =>
      s.(p := s.p.(info := info, lists := if forgotten || info != s.p.info then map[] else s.p.lists))
    case UpdateOfferings(offered, forgotten) =>
      s.(p := s.p.(offered := offered, lists := if forgotten || offered != s.p.offered then map[] else s.p.lists))
    case ListExpires(key) => s.(p := s.p.(lists := s.p.lists - {key}))
    case DiscoveredExpires(itype, images) =>
      if CacheKey(itype, images) !in s.p.discovered then s
      else s.(p := s.p.(discovered := s.p.discovered - {CacheKey(itype, images)}),
              outlived := s.outlived + ListsOf(s.p, images))
  }

  function After(resolve: Resolver, events: seq<Event>): State {
    if events == [] then State.State(Provider(map[], map[], map[], map[]), {})
    else Step(resolve, After(resolve, events[..|events| - 1]), events[|events| - 1])
  }

  // ---------------------------------------------------------------- discovered capacity is the minimum

  /** The capacities of the nodes of the type and image set that registered since their entry last started. */
  function ReportsSince(events: seq<Event>, itype: string, images: Hash): seq<Capacity> {
    if events == [] then []
    else
      var before := ReportsSince(events[..|events| - 1], itype, images);
      match events[|events| - 1]
      case Observe(nodeClass, t, node) =>
        if t == itype && nodeClass.images == images then before + [node] else before
      case DiscoveredExpires(t, i) => if t == itype && i == images then [] else before
      case _ => before
  }

  /** The memory and the storage of the nodes that have it, each the least one reported, and nothing else. */
  ghost predicate IsMinimum(reports: seq<Capacity>, capacity: Capacity) {
    && capacity.Keys <= {"memory", "ephemeral-storage"}
    && (forall r :: r in capacity ==> exists o :: o in reports && r in o && o[r] == capacity[r])
    && (forall o, r :: o in reports && r in o && r in {"memory", "ephemeral-storage"} ==> r in capacity && capacity[r] <= o[r])
  }

  lemma LoweredIsMinimum(reports: seq<Capacity>, known: Capacity, node: Capacity)
    requires IsMinimum(reports, known)
    ensures IsMinimum(reports + [node], Lowered(known, Reported(node)))
    ensures Reported(node) == map[] ==> Lowered(known, Reported(node)) == known
  {
    var all, last, lowered := reports + [node], Reported(node), Lowered(known, Reported(node));
    assert forall o :: o in all <==> o in reports || o == node;
    forall r | r in lowered ensures exists o :: o in all && r in o && o[r] == lowered[r] {
      if r in last && (r !in known || last[r] <= known[r]) {
        assert node in all && node[r] == last[r];
      } else {
        var o :| o in reports && r in o && o[r] == known[r];
        assert o in all;
      }
    }
  }

  lemma ObserveKeepsMinimum(p: Provider, nodeClass: NodeClass, t: string, node: Capacity, itype: string, images: Hash,
                            reports: seq<Capacity>)
    requires IsMinimum(reports, Discovered(p, itype, images))
    ensures IsMinimum(if t == itype && nodeClass.images == images then reports + [node] else reports,
                      Discovered(AfterReport(p, nodeClass, t, node), itype, images))
  {
    if CacheKey(t, nodeClass.images) == CacheKey(itype, images) {
      CacheKeyNamesType(t, itype, nodeClass.images, images);
      LoweredIsMinimum(reports, Discovered(p, itype, images), node);
    }
    hide IsMinimum, Lowered, Reported, CacheKey;
  }

  lemma DiscoveredAfterExpiry(resolve: Resolver, s: State, t: string, i: Hash, itype: string, images: Hash)
    ensures Discovered(Step(resolve, s, DiscoveredExpires(t, i)).p, itype, images)
         == if t == itype && i == images then map[] else Discovered(s.p, itype, images)
  {
    if CacheKey(t, i) == CacheKey(itype, images) { CacheKeyNamesType(t, itype, i, images); }
    hide CacheKey, ListsOf;
  }

  lemma OthersKeepDiscovered(resolve: Resolver, s: State, e: Event)
    requires !e.Observe? && !e.DiscoveredExpires?
    ensures Step(resolve, s, e).p.discovered == s.p.discovered
  {
    hide Listed, ListKey;
  }

  /**
   After any run the discovered capacity of a type and an image set is the least memory and the least storage of the
   nodes that registered since its entry last started.
   */
  lemma {:induction false} DiscoveredIsMinimum(resolve: Resolver, events: seq<Event>, itype: string, images: Hash)
    ensures IsMinimum(ReportsSince(events, itype, images), Discovered(After(resolve, events).p, itype, images))
  {
    NothingIsMinimum();
    hide IsMinimum, Step, Reported, AfterReport;
    if events != [] {
      var front, e := events[..|events| - 1], events[|events| - 1];
      var s, before := After(resolve, front), ReportsSince(front, itype, images);
      DiscoveredIsMinimum(resolve, front, itype, images);
      match e
      case Observe(nodeClass, t, node) =>
        ObserveKeepsMinimum(s.p, nodeClass, t, node, itype, images, before);
        ObserveStep(resolve, s, nodeClass, t, node);
      case DiscoveredExpires(t, i) => DiscoveredAfterExpiry(resolve, s, t, i, itype, images);
      case _ => OthersKeepDiscovered(resolve, s, e);
    }
  }

  lemma ObserveStep(resolve: Resolver, s: State, nodeClass: NodeClass, t: string, node: Capacity)
    ensures Step(resolve, s, Observe(nodeClass, t, node)).p == AfterReport(s.p, nodeClass, t, node)
  {}

  lemma NothingIsMinimum()
    ensures IsMinimum([], map[])
  {}

  /**
   After any run a fresh resolve succeeds exactly for a known type the resolver accepts. It has the predicted overhead,
   and of each quantity the least one reported since the entry started, or the predicted one when none was.
   */
  lemma ResolvedByHistory(resolve: Resolver, events: seq<Event>, nodeClass: NodeClass, name: string)
    ensures var p := After(resolve, events).p;
      && (Resolved(resolve, p, nodeClass, name).Some? <==> name in p.info && resolve(p.info[name], nodeClass.kubelet).Some?)
      && (Resolved(resolve, p, nodeClass, name).Some? ==>
            OverlaysMinimum(ReportsSince(events, name, nodeClass.images), resolve(p.info[name], nodeClass.kubelet).value,
                            Resolved(resolve, p, nodeClass, name).value))
  {
    DiscoveredIsMinimum(resolve, events, name, nodeClass.images);
    hide After, IsMinimum, Discovered, ReportsSince;
  }

  ghost predicate OverlaysMinimum(reports: seq<Capacity>, predicted: InstanceType, it: InstanceType) {
    && it.overhead == predicted.overhead
    && exists least ::
      && IsMinimum(reports, least)
      && (forall r :: r in it.capacity <==> r in predicted.capacity || r in least)
      && (forall r :: r in it.capacity ==> it.capacity[r] == if r in least then least[r] else predicted.capacity[r])
  }

  /** So the order and the number of the reports do not matter, only which reports there were. */
  lemma OrderDoesNotMatter(resolve: Resolver, first: seq<Event>, second: seq<Event>, itype: string, images: Hash)
    requires forall o :: o in ReportsSince(first, itype, images) <==> o in ReportsSince(second, itype, images)
    ensures Discovered(After(resolve, first).p, itype, images) == Discovered(After(resolve, second).p, itype, images)
  {
    DiscoveredIsMinimum(resolve, first, itype, images);
    DiscoveredIsMinimum(resolve, second, itype, images);
    MinimumIsUnique(ReportsSince(first, itype, images), ReportsSince(second, itype, images),
                    Discovered(After(resolve, first).p, itype, images), Discovered(After(resolve, second).p, itype, images));
  }

  lemma MinimumIsUnique(first: seq<Capacity>, second: seq<Capacity>, a: Capacity, b: Capacity)
    requires IsMinimum(first, a) && IsMinimum(second, b) && forall o :: o in first <==> o in second
    ensures a == b
  {
    forall r | r in a ensures r in b && b[r] <= a[r] {
      var o :| o in first && r in o && o[r] == a[r];
      assert o in second;
    }
    forall r | r in b ensures r in a && a[r] <= b[r] {
      var o :| o in second && r in o && o[r] == b[r];
      assert o in first;
    }
  }

  // ---------------------------------------------------------------- the cached lists agree

  ghost predicate Uses(events: seq<Event>, classes: set<NodeClass>) {
    forall e :: e in events && (e.List? || e.Observe?) ==> e.nodeClass in classes
  }

  /** Classes with one image set share one key: the same name and kubelet configuration. */
  predicate SharesKeys(classes: set<NodeClass>) {
    forall a, b :: a in classes && b in classes && a.images == b.images ==> ListKey(a) == ListKey(b)
  }

  /** The class's list is cached, and a discovered entry of its image set has expired since it was. */
  predicate Outlived(s: State, nodeClass: NodeClass) {
    ListKey(nodeClass) in s.p.lists && ListKey(nodeClass) in s.outlived
  }

  ghost predicate ListAgrees(resolve: Resolver, s: State, nodeClass: NodeClass) {
    ListKey(nodeClass) in s.p.lists && ListKey(nodeClass) !in s.outlived ==>
      s.p.lists[ListKey(nodeClass)] == FreshList(resolve, s.p, nodeClass)
  }

  lemma SameDiscoveredSameList(resolve: Resolver, p: Provider, p': Provider, nodeClass: NodeClass)
    requires p'.info == p.info
    requires forall name :: Discovered(p', name, nodeClass.images) == Discovered(p, name, nodeClass.images)
    ensures FreshList(resolve, p', nodeClass) == FreshList(resolve, p, nodeClass)
  {
    forall name ensures Resolved(resolve, p', nodeClass, name) == Resolved(resolve, p, nodeClass, name) {}
  }

  lemma ObserveAgrees(resolve: Resolver, s: State, other: NodeClass, itype: string, node: Capacity, nodeClass: NodeClass)
    requires ListAgrees(resolve, s, nodeClass) && (other.images == nodeClass.images ==> ListKey(other) == ListKey(nodeClass))
    ensures ListAgrees(resolve, Step(resolve, s, Observe(other, itype, node)), nodeClass)
  {
    var p' := AfterReport(s.p, other, itype, node);
    if ListKey(nodeClass) in p'.lists {
      forall name ensures Discovered(p', name, nodeClass.images) == Discovered(s.p, name, nodeClass.images) {
        if CacheKey(itype, other.images) == CacheKey(name, nodeClass.images) {
          CacheKeyNamesType(itype, name, other.images, nodeClass.images);
        }
      }
      SameDiscoveredSameList(resolve, s.p, p', nodeClass);
    }
  }

  lemma ExpiryAgrees(resolve: Resolver, s: State, itype: string, images: Hash, nodeClass: NodeClass)
    requires ListAgrees(resolve, s, nodeClass)
    ensures ListAgrees(resolve, Step(resolve, s, DiscoveredExpires(itype, images)), nodeClass)
  {
    var s' := Step(resolve, s, DiscoveredExpires(itype, images));
    if ListKey(nodeClass) in s'.p.lists && ListKey(nodeClass) !in s'.outlived {
      KeyBegins(nodeClass, images);
      forall name ensures Discovered(s'.p, name, nodeClass.images) == Discovered(s.p, name, nodeClass.images) {
        if CacheKey(itype, images) == CacheKey(name, nodeClass.images) {
          CacheKeyNamesType(itype, name, images, nodeClass.images);
        }
      }
      SameDiscoveredSameList(resolve, s.p, s'.p, nodeClass);
    }
  }

  lemma KeyBegins(nodeClass: NodeClass, images: Hash)
    ensures images <= ListKey(nodeClass) <==> images == nodeClass.images
  {
    assert ListKey(nodeClass)[..16] == nodeClass.images;
  }

  lemma {:induction false} RunAgrees(resolve: Resolver, events: seq<Event>, classes: set<NodeClass>, nodeClass: NodeClass)
    requires SharesKeys(classes) && Uses(events, classes) && nodeClass in classes
    ensures ListAgrees(resolve, After(resolve, events), nodeClass)
  {
    if events != [] {
      var front, e := events[..|events| - 1], events[|events| - 1];
      assert Uses(front, classes);
      assert e in events;
      RunAgrees(resolve, front, classes, nodeClass);
      var s, s' := After(resolve, front), After(resolve, events);
      match e
      case List(other) =>
        RunAgrees(resolve, front, classes, other);
        ListStepAgrees(resolve, s, other, nodeClass);
      case Observe(other, itype, node) => ObserveAgrees(resolve, s, other, itype, node, nodeClass);
      case DiscoveredExpires(itype, images) => ExpiryAgrees(resolve, s, itype, images, nodeClass);
      case ListExpires(_) => SameDiscoveredSameList(resolve, s.p, s'.p, nodeClass);
      case UpdateTypes(_, _) => if s'.p.info == s.p.info { SameDiscoveredSameList(resolve, s.p, s'.p, nodeClass); }
      case UpdateOfferings(_, _) => SameDiscoveredSameList(resolve, s.p, s'.p, nodeClass);
    }
  }

  lemma ListStepAgrees(resolve: Resolver, s: State, other: NodeClass, nodeClass: NodeClass)
    requires ListAgrees(resolve, s, other) && ListAgrees(resolve, s, nodeClass)
    ensures ListAgrees(resolve, Step(resolve, s, List(other)), nodeClass)
  {
    if ListKey(other) == ListKey(nodeClass) { ListKeyNamesAll(other, nodeClass); }
    SameDiscoveredSameList(resolve, s.p, Step(resolve, s, List(other)).p, nodeClass);
    hide FreshList, ListKey;
  }

  /** List and Get answer as a fresh resolve overlaid with the discovered minimum would. */
  ghost predicate AnswersFresh(resolve: Resolver, p: Provider, nodeClass: NodeClass) {
    && (Ready(p) ==>
          && Listed(resolve, p, nodeClass).Some?
          && forall name ::
            && (name in Listed(resolve, p, nodeClass).value <==> Resolved(resolve, p, nodeClass, name).Some?)
            && (Resolved(resolve, p, nodeClass, name).Some? ==>
                  Listed(resolve, p, nodeClass).value[name] == Resolved(resolve, p, nodeClass, name).value))
    && (forall name :: Ready(p) ==> Got(resolve, p, nodeClass, name) == Resolved(resolve, p, nodeClass, name))
  }

  /** With shared keys the answers are fresh unless a discovered entry has expired under the cached list. */
  lemma SharedKeysAnswerFresh(resolve: Resolver, events: seq<Event>, classes: set<NodeClass>, nodeClass: NodeClass)
    requires SharesKeys(classes) && Uses(events, classes) && nodeClass in classes
    requires !Outlived(After(resolve, events), nodeClass)
    ensures AnswersFresh(resolve, After(resolve, events).p, nodeClass)
  {
    RunAgrees(resolve, events, classes, nodeClass);
  }

  /** The first two events of the runs below: one type and one plan become known. */
  function Begin(itype: string, info: LinodeType, plan: string): seq<Event> {
    [UpdateTypes(map[itype := info], true), Event.UpdateOfferings(map[plan := {}], true)]
  }

  lemma AfterBegin(resolve: Resolver, itype: string, info: LinodeType, plan: string)
    ensures After(resolve, Begin(itype, info, plan))
         == State.State(Provider(map[itype := info], map[plan := {}], map[], map[]), {})
    ensures Ready(After(resolve, Begin(itype, info, plan)).p)
  {
    var events := Begin(itype, info, plan);
    assert events == [] + [events[0]] + [events[1]];
    OneMore(resolve, [], events[0]);
    OneMore(resolve, [] + [events[0]], events[1]);
    assert After(resolve, []) == State.State(Provider(map[], map[], map[], map[]), {});
    hide After;
    var offered: Availability := map[plan := {}];
    var known := map[itype := info];
    assert itype in known && plan in offered;
  }

  lemma OneMore(resolve: Resolver, events: seq<Event>, e: Event)
    ensures After(resolve, events + [e]) == Step(resolve, After(resolve, events), e)
  {
    hide Step;
    assert (events + [e])[..|events|] == events;
  }

  /** A quantity no prediction of the type has. */
  function Unpredicted(it: InstanceType): int {
    if MEMORY in it.capacity then it.capacity[MEMORY] - 1 else 0
  }

  /** Otherwise a report through one class leaves the other's cached list as it was. */
  lemma SharedImagesGoStale(resolve: Resolver, a: NodeClass, b: NodeClass, itype: string, info: LinodeType, plan: string)
      returns (events: seq<Event>)
    requires a.images == b.images && ListKey(a) != ListKey(b) && resolve(info, a.kubelet).Some?
    ensures Uses(events, {a, b}) && !AnswersFresh(resolve, After(resolve, events).p, a)
    ensures !Outlived(After(resolve, events), a)
  {
    var it := resolve(info, a.kubelet).value;
    var node: Capacity := map[MEMORY := Unpredicted(it)];
    var first := Begin(itype, info, plan);
    events := first + [List(a)] + [Observe(b, itype, node)];
    AfterBegin(resolve, itype, info, plan);
    OneMore(resolve, first, List(a));
    OneMore(resolve, first + [List(a)], Observe(b, itype, node));
    var s := After(resolve, first);
    var listed := Step(resolve, s, List(a));
    hide After;
    assert listed == State.State(s.p.(lists := map[ListKey(a) := FreshList(resolve, s.p, a)]), {});
    assert MEMORY in Reported(node);
    var p := Step(resolve, listed, Observe(b, itype, node)).p;
    assert MEMORY in Discovered(p, itype, a.images) && Discovered(p, itype, a.images)[MEMORY] == Unpredicted(it);
    StaleWhen(resolve, p, a, itype, it);
  }

  /** And a discovered entry that expires under a cached list leaves the list as it was. */
  lemma ExpiryGoesStale(resolve: Resolver, a: NodeClass, itype: string, info: LinodeType, plan: string)
      returns (events: seq<Event>)
    requires resolve(info, a.kubelet).Some?
    ensures Uses(events, {a}) && !AnswersFresh(resolve, After(resolve, events).p, a)
  {
    var it := resolve(info, a.kubelet).value;
    var node: Capacity := map[MEMORY := Unpredicted(it)];
    var first := Begin(itype, info, plan);
    var second := first + [Observe(a, itype, node)];
    var third := second + [List(a)];
    var expires := DiscoveredExpires(itype, a.images);
    events := third + [expires];
    AfterBegin(resolve, itype, info, plan);
    OneMore(resolve, first, Observe(a, itype, node));
    OneMore(resolve, second, List(a));
    OneMore(resolve, third, expires);
    var s := After(resolve, first);
    var seen := Step(resolve, s, Observe(a, itype, node));
    hide After;
    assert MEMORY in Reported(node);
    assert Discovered(seen.p, itype, a.images) == Reported(node);
    var listed := Step(resolve, seen, List(a));
    assert listed.p.lists == map[ListKey(a) := FreshList(resolve, seen.p, a)];
    var p := Step(resolve, listed, expires).p;
    assert Discovered(p, itype, a.images) == map[];
    StaleWhen(resolve, p, a, itype, it);
  }

  /** The cached list has one capacity of the type and the discovered entry, or its absence, gives another. */
  lemma StaleWhen(resolve: Resolver, p: Provider, a: NodeClass, itype: string, it: InstanceType)
    requires Ready(p) && itype in p.info && resolve(p.info[itype], a.kubelet) == Some(it)
    requires ListKey(a) in p.lists && itype in p.lists[ListKey(a)]
    requires p.lists[ListKey(a)][itype].capacity != (it.capacity + Discovered(p, itype, a.images))
    ensures !AnswersFresh(resolve, p, a)
  {
    assert Got(resolve, p, a, itype) != Resolved(resolve, p, a, itype);
  }

  /**
   Over all runs with these classes the answers are fresh exactly when classes with one image set share their key and
   runs in which a discovered entry expires under a cached list are left out, for any resolver that accepts some type
   for each class.
   */
  lemma FreshExactly(resolve: Resolver, classes: set<NodeClass>, info: LinodeType, withOutlived: bool)
    requires forall nodeClass :: nodeClass in classes ==> resolve(info, nodeClass.kubelet).Some?
    ensures (forall events, nodeClass ::
               Uses(events, classes) && nodeClass in classes && (withOutlived || !Outlived(After(resolve, events), nodeClass)) ==>
                 AnswersFresh(resolve, After(resolve, events).p, nodeClass))
       <==> SharesKeys(classes) && (withOutlived ==> classes == {})
  {
    if SharesKeys(classes) && (withOutlived ==> classes == {}) {
      forall events, nodeClass |
        Uses(events, classes) && nodeClass in classes && (withOutlived || !Outlived(After(resolve, events), nodeClass))
        ensures AnswersFresh(resolve, After(resolve, events).p, nodeClass)
      {
        SharedKeysAnswerFresh(resolve, events, classes, nodeClass);
      }
    } else if !SharesKeys(classes) {
      var a, b :| a in classes && b in classes && a.images == b.images && ListKey(a) != ListKey(b);
      var events := SharedImagesGoStale(resolve, a, b, "g6-standard-1", info, "g6-standard-1");
      assert Uses(events, classes);
    } else {
      var a :| a in classes;
      var events := ExpiryGoesStale(resolve, a, "g6-standard-1", info, "g6-standard-1");
      assert Uses(events, classes);
    }
  }
}
