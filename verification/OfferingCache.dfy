/**
 The offering cache of pkg/providers/instancetype/offering, guarded by the sequence numbers of
 pkg/cache/unavailableofferings.go. A cached answer is used when the sum of two counters is what it was when the
 answer was stored; marks expire silently and are counted only when they are evicted or deleted.
 */
module OfferingCache {

  /** Lifetime of a mark and of a cached answer, in seconds. */
  const MARK_TTL: nat := 180
  const ANSWER_TTL: nat := 300

  /** Marks by (instance type, region) and by region, with their expiry, and the two counters. */
  datatype Marks = Marks(offering: map<(string, string), nat>, region: map<string, nat>,
                         typeSeq: map<string, nat>, regionSeq: nat)

  function TypeSeq(m: Marks, itype: string): nat {
    if itype in m.typeSeq then m.typeSeq[itype] else 0
  }

  function SeqNum(m: Marks, itype: string): nat {
    TypeSeq(m, itype) + m.regionSeq
  }

  predicate IsUnavailable(m: Marks, itype: string, region: string, now: nat) {
    || ((itype, region) in m.offering && now <= m.offering[(itype, region)])
    || (region in m.region && now <= m.region[region])
  }

  function StoreMark(m: Marks, itype: string, region: string, now: nat): Marks {
    m.(offering := m.offering[(itype, region) := now + MARK_TTL])
  }

  function StoreRegion(m: Marks, region: string, now: nat): Marks {
    m.(region := m.region[region := now + MARK_TTL])
  }

  function DropMark(m: Marks, itype: string, region: string): Marks {
    m.(offering := m.offering - {(itype, region)})
  }

  function DropRegion(m: Marks, region: string): Marks {
    m.(region := m.region - {region})
  }

  function CountType(m: Marks, itype: string): Marks {
    m.(typeSeq := m.typeSeq[itype := TypeSeq(m, itype) + 1])
  }

  function CountRegion(m: Marks): Marks {
    m.(regionSeq := m.regionSeq + 1)
  }

  /** The offerings of a type in the regions whose mark has expired. */
  function Expired(m: Marks, now: nat): set<(string, string)> {
    set k | k in m.offering && m.offering[k] < now
  }

  function OfType(keys: set<(string, string)>, itype: string): set<(string, string)> {
    set k | k in keys && k.0 == itype
  }

  class UnavailableOfferings {
    var offeringCache: map<(string, string), nat>
    var offeringCacheSeqNum: map<string, nat>
    var regionCache: map<string, nat>
    var regionCacheSeqNum: nat

    function Contents(): Marks
      reads this
    {
      Marks(offeringCache, regionCache, offeringCacheSeqNum, regionCacheSeqNum)
    }

    constructor ()
      ensures Contents() == Marks(map[], map[], map[], 0)
    {
      offeringCache, offeringCacheSeqNum, regionCache, regionCacheSeqNum := map[], map[], map[], 0;
    }

    method MarkUnavailable(itype: string, region: string, now: nat)
      modifies this
      ensures Contents() == CountType(StoreMark(old(Contents()), itype, region, now), itype)
    {
      offeringCache := offeringCache[(itype, region) := now + MARK_TTL];
      Bump(itype);
    }

    method MarkRegionUnavailable(region: string, now: nat)
      modifies this
      ensures Contents() == CountRegion(StoreRegion(old(Contents()), region, now))
    {
      regionCache := regionCache[region := now + MARK_TTL];
      regionCacheSeqNum := regionCacheSeqNum + 1;
    }

    method Bump(itype: string)
      modifies this
      ensures Contents() == CountType(old(Contents()), itype)
    {
      var v := 0;
      if itype in offeringCacheSeqNum { v := offeringCacheSeqNum[itype]; }
      offeringCacheSeqNum := offeringCacheSeqNum[itype := v + 1];
    }

    /** Deleting a mark that is there, expired or not, runs the eviction callback. */
    method Delete(itype: string, region: string)
      modifies this
      ensures Contents() == if (itype, region) in old(offeringCache)
                            then CountType(DropMark(old(Contents()), itype, region), itype) else old(Contents())
    {
      if (itype, region) in offeringCache {
        offeringCache := offeringCache - {(itype, region)};
        Bump(itype);
      }
    }

    /** The janitor takes all expired marks out and then runs the callback for each. */
    method EvictExpired(now: nat)
      modifies this
      ensures var was := old(Contents());
        && (forall k :: k in offeringCache <==> k in was.offering && now <= was.offering[k])
        && (forall k :: k in offeringCache ==> offeringCache[k] == was.offering[k])
        && regionCache == was.region && regionCacheSeqNum == was.regionSeq
        && (forall itype ::
              TypeSeq(Contents(), itype)
              == TypeSeq(was, itype) + |set k | k in was.offering && was.offering[k] < now && k.0 == itype|)
    {
      ghost var was := Contents();
      var expired := Expired(Contents(), now);
      offeringCache := offeringCache - expired;
      var left := expired;
      while left != {}
        invariant left <= expired
        invariant offeringCache == was.offering - expired && regionCache == was.region && regionCacheSeqNum == was.regionSeq
        invariant forall itype ::
          TypeSeq(Contents(), itype) + |OfType(left, itype)| == TypeSeq(was, itype) + |OfType(expired, itype)|
        decreases |left|
      {
        var k :| k in left;
        ghost var before := Contents();
        Bump(k.0);
        forall itype ensures |OfType(left, itype)| == |OfType(left - {k}, itype)| + (if itype == k.0 then 1 else 0) {
          if itype == k.0 {
            assert k in OfType(left, itype) && OfType(left - {k}, itype) == OfType(left, itype) - {k};
          } else {
            assert OfType(left - {k}, itype) == OfType(left, itype);
          }
        }
        assert forall itype :: TypeSeq(Contents(), itype) == TypeSeq(before, itype) + (if itype == k.0 then 1 else 0);
        left := left - {k};
      }
      forall itype ensures OfType(expired, itype) == set k | k in was.offering && was.offering[k] < now && k.0 == itype {}
    }

    /** Evicting one expired region mark. */
    method EvictRegion(region: string, now: nat)
      modifies this
      ensures Contents() == if region in old(regionCache) && old(regionCache)[region] < now
                            then CountRegion(DropRegion(old(Contents()), region)) else old(Contents())
    {
      if region in regionCache && regionCache[region] < now {
        regionCache := regionCache - {region};
        regionCacheSeqNum := regionCacheSeqNum + 1;
      }
    }
  }

  // ---------------------------------------------------------------- createOfferings

  /** The availability of a type in each region. */
  type Offerings = map<string, bool>

  /** A cached answer; its expiry tells when it was computed. */
  datatype Answer = Answer(offerings: Offerings, expiresAt: nat)

  /** Answers by cache key and, by type, the sequence number at which the last one was stored. */
  datatype Store = Store(cache: map<string, Answer>, lastSeq: map<string, nat>)

  /** The regions in which each plan is offered. */
  type Availability = map<string, set<string>>

  function AllRegions(avail: Availability): set<string> {
    set plan, region | plan in avail && region in avail[plan] :: region
  }

  predicate Offered(avail: Availability, itype: string, region: string) {
    itype in avail && region in avail[itype]
  }

  /** What a computation from scratch gives. */
  function Computed(m: Marks, avail: Availability, itype: string, now: nat): Offerings {
    map region | region in AllRegions(avail) :: Offered(avail, itype, region) && !IsUnavailable(m, itype, region, now)
  }

  /** A 64-bit hash printed with 16 hexadecimal digits. */
  type Hash = s: string | |s| == 16 witness "0000000000000000"

  /** A type's name and the hash of its region requirement. */
  function CacheKey(itype: string, regionsHash: Hash): string {
    itype + "-" + regionsHash
  }

  lemma CacheKeyNamesType(a: string, b: string, ha: Hash, hb: Hash)
    requires CacheKey(a, ha) == CacheKey(b, hb)
    ensures a == b && ha == hb
  {
    assert CacheKey(a, ha)[..|a|] == a && CacheKey(b, hb)[..|b|] == b;
    assert CacheKey(a, ha)[|a| + 1..] == ha && CacheKey(b, hb)[|b| + 1..] == hb;
  }

  predicate Fresh(st: Store, m: Marks, itype: string, key: string, now: nat) {
    && key in st.cache && now <= st.cache[key].expiresAt
    && itype in st.lastSeq && st.lastSeq[itype] == SeqNum(m, itype)
  }

  function Returned(st: Store, m: Marks, avail: Availability, itype: string, key: string, now: nat): Offerings {
    if Fresh(st, m, itype, key, now) then st.cache[key].offerings else Computed(m, avail, itype, now)
  }

  function Stored(st: Store, m: Marks, avail: Availability, itype: string, key: string, now: nat): Store {
    if Fresh(st, m, itype, key, now) then st
    else Store(st.cache[key := Answer(Computed(m, avail, itype, now), now + ANSWER_TTL)],
               st.lastSeq[itype := SeqNum(m, itype)])
  }

  class OfferingProvider {
    const unavailable: UnavailableOfferings
    var cache: map<string, Answer>
    var lastSeqNum: map<string, nat>

    function Contents(): Store
      reads this
    {
      Store(cache, lastSeqNum)
    }

    constructor (unavailable: UnavailableOfferings)
      ensures this.unavailable == unavailable && Contents() == Store(map[], map[])
    {
      this.unavailable := unavailable;
      cache, lastSeqNum := map[], map[];
    }

    method InvalidateCache()
      modifies this
      ensures Contents() == old(Contents()).(cache := map[])
    {
      cache := map[];
    }

    /** A type with no stored sequence number is recomputed: the default 0 is an int and equals no uint64. */
    method CreateOfferings(itype: string, regionsHash: Hash, avail: Availability, now: nat) returns (offerings: Offerings)
      modifies this
      ensures offerings == Returned(old(Contents()), unavailable.Contents(), avail, itype, CacheKey(itype, regionsHash), now)
      ensures Contents() == Stored(old(Contents()), unavailable.Contents(), avail, itype, CacheKey(itype, regionsHash), now)
    {
      var key := CacheKey(itype, regionsHash);
      var seqNum := SeqNum(unavailable.Contents(), itype);
      if key in cache && now <= cache[key].expiresAt && itype in lastSeqNum && lastSeqNum[itype] == seqNum {
        return cache[key].offerings;
      }
      offerings := map[];
      var left := AllRegions(avail);
      while left != {}
        invariant left <= AllRegions(avail)
        invariant offerings == map region | region in AllRegions(avail) - left ::
                    Offered(avail, itype, region) && !IsUnavailable(unavailable.Contents(), itype, region, now)
        decreases |left|
      {
        var region :| region in left;
        var sold := IsUnavailable(unavailable.Contents(), itype, region, now);
        offerings := offerings[region := Offered(avail, itype, region) && !sold];
        left := left - {region};
      }
      cache := cache[key := Answer(offerings, now + ANSWER_TTL)];
      lastSeqNum := lastSeqNum[itype := seqNum];
    }

    /** Answers the types, given with their region hashes, one after the other. */
    method InjectOfferings(types: seq<(string, Hash)>, avail: Availability, now: nat) returns (all: seq<Offerings>)
      modifies this
      ensures (all, Contents()) == AnswerAll(old(Contents()), unavailable.Contents(), avail, types, now)
    {
      hide Returned, Stored, CacheKey;
      all := [];
      for i := 0 to |types|
        invariant (all, Contents()) == AnswerAll(old(Contents()), unavailable.Contents(), avail, types[..i], now)
      {
        assert types[..i + 1][..i] == types[..i];
        var offerings := CreateOfferings(types[i].0, types[i].1, avail, now);
        all := all + [offerings];
      }
      assert types[..|types|] == types;
    }
  }

  /** The answers to several types in turn, and the store they leave. */
  ghost function AnswerAll(st: Store, m: Marks, avail: Availability, types: seq<(string, Hash)>, now: nat)
    : (seq<Offerings>, Store)
  {
    if types == [] then ([], st)
    else
      var (itype, regionsHash) := types[|types| - 1];
      var (before, st') := AnswerAll(st, m, avail, types[..|types| - 1], now);
      var key := CacheKey(itype, regionsHash);
      (before + [Returned(st', m, avail, itype, key, now)], Stored(st', m, avail, itype, key, now))
  }

  // ---------------------------------------------------------------- runs

  /** Changes of a cache whose counter has not moved yet: marks stored and dropped, by type and of regions. */
  datatype Debt = Debt(stored: map<string, nat>, dropped: map<string, nat>, regionsStored: nat, regionsDropped: nat)

  /** Every call changes the cache first and the counter after; `owed` is what is still to be counted. */
  datatype State = State(marks: Marks, store: Store, avail: Availability, now: nat, owed: Debt)

  datatype Event =
    | Mark(itype: string, region: string)
    | Unmark(itype: string, region: string)    // a deletion, or the eviction of an expired mark
    | MarkRegion(region: string)
    | UnmarkRegion(region: string)
    | CountStored(itype: string)
    | CountDropped(itype: string)
    | CountRegionStored
    | CountRegionDropped
    | Refresh(avail: Availability, forgotten: bool)
    | Create(itype: string)
    | Wait(time: nat)

  function Owed(counts: map<string, nat>, itype: string): nat {
    if itype in counts then counts[itype] else 0
  }

  /** Every mark stored so far has been counted, for this type and for regions. */
  predicate StoresCounted(s: State, itype: string) {
    Owed(s.owed.stored, itype) == 0 && s.owed.regionsStored == 0
  }

  /** Every change so far has been counted. */
  predicate Settled(s: State, itype: string) {
    StoresCounted(s, itype) && Owed(s.owed.dropped, itype) == 0 && s.owed.regionsDropped == 0
  }

  /** `hashOf` gives each type its one region hash. */
  function Step(hashOf: string -> Hash, s: State, e: Event): State {
    var owed := s.owed;
    match e
    case Mark(t, r) =>
      s.(marks := StoreMark(s.marks, t, r, s.now), owed := owed.(stored := owed.stored[t := Owed(owed.stored, t) + 1]))
    case Unmark(t, r) =>
      s.(marks := DropMark(s.marks, t, r), owed := owed.(dropped := owed.dropped[t := Owed(owed.dropped, t) + 1]))
    case MarkRegion(r) =>
      s.(marks := StoreRegion(s.marks, r, s.now), owed := owed.(regionsStored := owed.regionsStored + 1))
    case UnmarkRegion(r) =>
      s.(marks := DropRegion(s.marks, r), owed := owed.(regionsDropped := owed.regionsDropped + 1))
    case CountStored(t) =>
      if Owed(owed.stored, t) == 0 then s
      else s.(marks := CountType(s.marks, t), owed := owed.(stored := owed.stored[t := Owed(owed.stored, t) - 1]))
    case CountDropped(t) =>
      if Owed(owed.dropped, t) == 0 then s
      else s.(marks := CountType(s.marks, t), owed := owed.(dropped := owed.dropped[t := Owed(owed.dropped, t) - 1]))
    case CountRegionStored =>
      if owed.regionsStored == 0 then s
      else s.(marks := CountRegion(s.marks), owed := owed.(regionsStored := owed.regionsStored - 1))
    case CountRegionDropped =>
      if owed.regionsDropped == 0 then s
      else s.(marks := CountRegion(s.marks), owed := owed.(regionsDropped := owed.regionsDropped - 1))
    case Refresh(avail, forgotten) =>
      s.(avail := avail, store := if forgotten || avail != s.avail then s.store.(cache := map[]) else s.store)
    case Create(t) =>
      s.(store := Stored(s.store, s.marks, s.avail, t, CacheKey(t, hashOf(t)), s.now))
    case Wait(time) => s.(now := s.now + time)
  }

  function After(hashOf: string -> Hash, s: State, events: seq<Event>): State {
    if events == [] then s
    else Step(hashOf, After(hashOf, s, events[..|events| - 1]), events[|events| - 1])
  }

  /** What a call of createOfferings returns in a state. */
  function Answered(hashOf: string -> Hash, s: State, itype: string): Offerings {
    Returned(s.store, s.marks, s.avail, itype, CacheKey(itype, hashOf(itype)), s.now)
  }

  predicate Initial(s: State) {
    s.store == Store(map[], map[]) && s.owed == Debt(map[], map[], 0, 0)
  }

  /** A usable answer is what the current marks gave when it was stored. */
  ghost predicate Agrees(hashOf: string -> Hash, s: State, itype: string) {
    var key := CacheKey(itype, hashOf(itype));
    && (itype in s.store.lastSeq ==> s.store.lastSeq[itype] <= SeqNum(s.marks, itype))
    && (key in s.store.cache ==> ANSWER_TTL <= s.store.cache[key].expiresAt <= s.now + ANSWER_TTL)
    && (key in s.store.cache && itype in s.store.lastSeq && s.store.lastSeq[itype] == SeqNum(s.marks, itype)
        && Settled(s, itype) ==>
          s.store.cache[key].offerings == Computed(s.marks, s.avail, itype, s.store.cache[key].expiresAt - ANSWER_TTL))
  }

  lemma ComputedAgain(m: Marks, m': Marks, avail: Availability, itype: string, now: nat)
    requires m.region == m'.region
    requires forall r :: (itype, r) in m.offering <==> (itype, r) in m'.offering
    requires forall r :: (itype, r) in m.offering ==> m.offering[(itype, r)] == m'.offering[(itype, r)]
    ensures Computed(m, avail, itype, now) == Computed(m', avail, itype, now)
  {
    forall r ensures IsUnavailable(m, itype, r, now) <==> IsUnavailable(m', itype, r, now) {}
  }

  lemma CreateAgrees(hashOf: string -> Hash, s: State, created: string, itype: string)
    requires Agrees(hashOf, s, itype)
    ensures Agrees(hashOf, Step(hashOf, s, Create(created)), itype)
  {
    hide Computed, CacheKey;
    if CacheKey(created, hashOf(created)) == CacheKey(itype, hashOf(itype)) {
      CacheKeyNamesType(created, itype, hashOf(created), hashOf(itype));
    }
  }

  lemma StepAgrees(hashOf: string -> Hash, s: State, e: Event, itype: string)
    requires Agrees(hashOf, s, itype)
    ensures Agrees(hashOf, Step(hashOf, s, e), itype)
  {
    var s' := Step(hashOf, s, e);
    var key := CacheKey(itype, hashOf(itype));
    hide Computed, CacheKey, Stored;
    if e.Create? {
      CreateAgrees(hashOf, s, e.itype, itype);
    } else if key in s.store.cache && s.marks.region == s'.marks.region
              && !((e.Mark? || e.Unmark?) && e.itype == itype) {
      ComputedAgain(s.marks, s'.marks, s.avail, itype, s.store.cache[key].expiresAt - ANSWER_TTL);
    }
  }

  lemma {:induction false} RunAgrees(hashOf: string -> Hash, s: State, events: seq<Event>, itype: string)
    requires Initial(s)
    ensures Agrees(hashOf, After(hashOf, s, events), itype)
  {
    if events != [] {
      RunAgrees(hashOf, s, events[..|events| - 1], itype);
      StepAgrees(hashOf, After(hashOf, s, events[..|events| - 1]), events[|events| - 1], itype);
    }
  }

  /** A usable answer names every region and offers none that is marked now, if no mark is stored but uncounted. */
  ghost predicate OffersNothingMarked(hashOf: string -> Hash, s: State, itype: string) {
    var key := CacheKey(itype, hashOf(itype));
    && (itype in s.store.lastSeq ==> s.store.lastSeq[itype] <= SeqNum(s.marks, itype))
    && (key in s.store.cache && itype in s.store.lastSeq && s.store.lastSeq[itype] == SeqNum(s.marks, itype)
        && StoresCounted(s, itype) ==>
          NothingMarked(s.store.cache[key].offerings, s.marks, s.avail, itype, s.now))
  }

  ghost predicate NothingMarked(answer: Offerings, m: Marks, avail: Availability, itype: string, now: nat) {
    && answer.Keys == AllRegions(avail)
    && forall r :: r in answer && answer[r] ==> Offered(avail, itype, r) && !IsUnavailable(m, itype, r, now)
  }

  lemma ComputedOffersNothingMarked(m: Marks, avail: Availability, itype: string, now: nat)
    ensures NothingMarked(Computed(m, avail, itype, now), m, avail, itype, now)
  {}

  /** Fewer marks that bear on the type, at the same time or later, leave an answer safe. */
  lemma FewerMarks(answer: Offerings, m: Marks, m': Marks, avail: Availability, itype: string, now: nat, later: nat)
    requires NothingMarked(answer, m, avail, itype, now) && now <= later
    requires forall r :: IsUnavailable(m', itype, r, later) ==> IsUnavailable(m, itype, r, now)
    ensures NothingMarked(answer, m', avail, itype, later)
  {}

  lemma CreateOffersNothingMarked(hashOf: string -> Hash, s: State, created: string, itype: string)
    requires OffersNothingMarked(hashOf, s, itype)
    ensures OffersNothingMarked(hashOf, Step(hashOf, s, Create(created)), itype)
  {
    ComputedOffersNothingMarked(s.marks, s.avail, itype, s.now);
    hide Computed, CacheKey, NothingMarked;
    if CacheKey(created, hashOf(created)) == CacheKey(itype, hashOf(itype)) {
      CacheKeyNamesType(created, itype, hashOf(created), hashOf(itype));
    }
  }

  lemma StepOffersNothingMarked(hashOf: string -> Hash, s: State, e: Event, itype: string)
    requires OffersNothingMarked(hashOf, s, itype)
    ensures OffersNothingMarked(hashOf, Step(hashOf, s, e), itype)
  {
    var s' := Step(hashOf, s, e);
    var key := CacheKey(itype, hashOf(itype));
    if e.Create? {
      CreateOffersNothingMarked(hashOf, s, e.itype, itype);
    } else {
      StepMarksFewer(hashOf, s, e, itype);
      hide NothingMarked, CacheKey, Stored, IsUnavailable, StoreMark, StoreRegion, DropMark, DropRegion;
      if key in s.store.cache && s'.store == s.store && s'.avail == s.avail && StoresCounted(s', itype) && StoresCounted(s, itype)
         && NothingMarked(s.store.cache[key].offerings, s.marks, s.avail, itype, s.now) {
        FewerMarks(s.store.cache[key].offerings, s.marks, s'.marks, s.avail, itype, s.now, s'.now);
      }
    }
  }

  /** An event that stores no mark that bears on the type makes no region of it unavailable. */
  lemma StepMarksFewer(hashOf: string -> Hash, s: State, e: Event, itype: string)
    requires !e.Create?
    ensures var s' := Step(hashOf, s, e);
      && s.now <= s'.now
      && (StoresCounted(s', itype) ==>
            forall r :: IsUnavailable(s'.marks, itype, r, s'.now) ==> IsUnavailable(s.marks, itype, r, s.now))
  {}

  lemma {:induction false} RunOffersNothingMarked(hashOf: string -> Hash, s: State, events: seq<Event>, itype: string)
    requires Initial(s)
    ensures OffersNothingMarked(hashOf, After(hashOf, s, events), itype)
  {
    hide Step;
    if events != [] {
      RunOffersNothingMarked(hashOf, s, events[..|events| - 1], itype);
      StepOffersNothingMarked(hashOf, After(hashOf, s, events[..|events| - 1]), events[|events| - 1], itype);
    }
  }

  /** An answer names every region and offers none that a computation from scratch would not offer now. */
  ghost predicate Safe(hashOf: string -> Hash, s: State, itype: string) {
    var answer, fromScratch := Answered(hashOf, s, itype), Computed(s.marks, s.avail, itype, s.now);
    answer.Keys == fromScratch.Keys && forall r :: r in answer && answer[r] ==> fromScratch[r]
  }

  /** After any run, once every stored mark is counted, answers are safe, whatever drops are still to be counted. */
  lemma AnswersAreSafe(hashOf: string -> Hash, s: State, events: seq<Event>, itype: string)
    requires Initial(s) && StoresCounted(After(hashOf, s, events), itype)
    ensures Safe(hashOf, After(hashOf, s, events), itype)
  {
    RunOffersNothingMarked(hashOf, s, events, itype);
    hide After;
  }

  /** Over all runs answers are safe exactly when states with a stored but uncounted mark are left out. */
  lemma SafeExactly(hashOf: string -> Hash, withUncounted: bool)
    ensures (forall s: State, events: seq<Event>, itype: string ::
               Initial(s) && (withUncounted || StoresCounted(After(hashOf, s, events), itype)) ==>
                 Safe(hashOf, After(hashOf, s, events), itype))
       <==> !withUncounted
  {
    if withUncounted {
      var itype, region := "g6-standard-1", "us-east";
      var s := State(Marks(map[], map[], map[], 0), Store(map[], map[]), map[itype := {region}], 0, Debt(map[], map[], 0, 0));
      var events := [Create(itype), Mark(itype, region)];
      UncountedMarkIsUnsafe(hashOf, s, itype, region);
      assert Initial(s) && !Safe(hashOf, After(hashOf, s, events), itype);
    } else {
      forall s: State, events: seq<Event>, itype: string | Initial(s) && StoresCounted(After(hashOf, s, events), itype)
        ensures Safe(hashOf, After(hashOf, s, events), itype)
      {
        AnswersAreSafe(hashOf, s, events, itype);
      }
    }
  }

  lemma UncountedMarkIsUnsafe(hashOf: string -> Hash, s: State, itype: string, region: string)
    requires Initial(s) && Offered(s.avail, itype, region) && !IsUnavailable(s.marks, itype, region, s.now)
    ensures !Safe(hashOf, After(hashOf, s, [Create(itype), Mark(itype, region)]), itype)
  {
    ShortRun(hashOf, s, [Create(itype), Mark(itype, region)]);
    UncountedMarkIsMissed(s.marks, s.avail, itype, region, CacheKey(itype, hashOf(itype)), s.now);
    hide After;
  }

  /** The type is offered in the region, which was marked then, and all its marks have expired now. */
  ghost predicate Reopened(m: Marks, avail: Availability, itype: string, region: string, stored: nat, now: nat) {
    Offered(avail, itype, region) && IsUnavailable(m, itype, region, stored) && !IsUnavailable(m, itype, region, now)
  }

  /** The answer under the key was stored when the result says. */
  function StoredAt(st: Store, key: string): int {
    if key in st.cache then st.cache[key].expiresAt - ANSWER_TTL else 0
  }

  /**
   ... and, changes being counted, it is the computation from scratch exactly when the cache is not used or no region
   has reopened since the answer was stored.
   */
  lemma AnswersAreExact(hashOf: string -> Hash, s: State, events: seq<Event>, itype: string)
    requires Initial(s) && Settled(After(hashOf, s, events), itype)
    ensures var s', key := After(hashOf, s, events), CacheKey(itype, hashOf(itype));
      && StoredAt(s'.store, key) >= 0
      && (Answered(hashOf, s', itype) == Computed(s'.marks, s'.avail, itype, s'.now)
          <==> (Fresh(s'.store, s'.marks, itype, key, s'.now) ==>
                  forall r :: !Reopened(s'.marks, s'.avail, itype, r, StoredAt(s'.store, key), s'.now)))
  {
    RunAgrees(hashOf, s, events, itype);
    hide After, Agrees, Computed, Reopened, CacheKey, Fresh, Settled;
    AgreedIsExact(hashOf, After(hashOf, s, events), itype);
  }

  lemma AgreedIsExact(hashOf: string -> Hash, s: State, itype: string)
    requires Agrees(hashOf, s, itype) && Settled(s, itype)
    ensures var key := CacheKey(itype, hashOf(itype));
      && StoredAt(s.store, key) >= 0
      && (Answered(hashOf, s, itype) == Computed(s.marks, s.avail, itype, s.now)
          <==> (Fresh(s.store, s.marks, itype, key, s.now) ==>
                  forall r :: !Reopened(s.marks, s.avail, itype, r, StoredAt(s.store, key), s.now)))
  {
    hide Computed, Reopened, CacheKey;
    var key := CacheKey(itype, hashOf(itype));
    if key in s.store.cache {
      ReopenedMatters(s.marks, s.avail, itype, StoredAt(s.store, key), s.now);
    }
  }

  lemma ReopenedMatters(m: Marks, avail: Availability, itype: string, storedAt: nat, now: nat)
    ensures storedAt <= now ==>
      (Computed(m, avail, itype, storedAt) == Computed(m, avail, itype, now)
       <==> forall r :: !Reopened(m, avail, itype, r, storedAt, now))
  {
    if storedAt <= now {
      var was, anew := Computed(m, avail, itype, storedAt), Computed(m, avail, itype, now);
      forall r ensures Reopened(m, avail, itype, r, storedAt, now) <==> r in was && was[r] != anew[r] {
        assert r in was <==> r in AllRegions(avail);
        assert Offered(avail, itype, r) ==> r in AllRegions(avail);
      }
      hide Computed, Reopened;
      assert was.Keys == anew.Keys by { SameRegions(m, avail, itype, storedAt, now); }
    }
  }

  lemma SameRegions(m: Marks, avail: Availability, itype: string, a: nat, b: nat)
    ensures Computed(m, avail, itype, a).Keys == Computed(m, avail, itype, b).Keys
  {}

  /** No mark that bears on the type is expired and still there. */
  ghost predicate NoneLingers(s: State, itype: string) {
    && (forall r :: (itype, r) in s.marks.offering ==> s.now <= s.marks.offering[(itype, r)])
    && (forall r :: r in s.marks.region ==> s.now <= s.marks.region[r])
  }

  /** In particular when no expired mark awaits its eviction. */
  lemma NoneLingersIsExact(hashOf: string -> Hash, s: State, events: seq<Event>, itype: string)
    requires Initial(s)
    requires Settled(After(hashOf, s, events), itype) && NoneLingers(After(hashOf, s, events), itype)
    ensures var s' := After(hashOf, s, events);
      Answered(hashOf, s', itype) == Computed(s'.marks, s'.avail, itype, s'.now)
  {
    AnswersAreExact(hashOf, s, events, itype);
    RunAgrees(hashOf, s, events, itype);
    hide After;
  }

  // ---------------------------------------------------------------- calls that count at once

  /** The calls as one step each: what is stored or dropped is counted before anything else happens. */
  datatype Call =
    | MarkUnavailable(itype: string, region: string)
    | MarkRegionUnavailable(region: string)
    | Delete(itype: string, region: string)
    | EvictRegion(region: string)
    | UpdateOfferings(avail: Availability, forgotten: bool)
    | CreateOfferings(itype: string)
    | Pass(time: nat)

  function EventsOf(s: State, call: Call): seq<Event> {
    match call
    case MarkUnavailable(t, r) => [Mark(t, r), CountStored(t)]
    case MarkRegionUnavailable(r) => [MarkRegion(r), CountRegionStored]
    case Delete(t, r) => if (t, r) in s.marks.offering then [Unmark(t, r), CountDropped(t)] else []
    case EvictRegion(r) => if r in s.marks.region && s.marks.region[r] < s.now then [UnmarkRegion(r), CountRegionDropped] else []
    case UpdateOfferings(avail, forgotten) => [Refresh(avail, forgotten)]
    case CreateOfferings(t) => [Create(t)]
    case Pass(time) => [Wait(time)]
  }

  /** The events of a sequence of calls. */
  function Trace(hashOf: string -> Hash, s: State, calls: seq<Call>): seq<Event> {
    if calls == [] then []
    else
      var before := Trace(hashOf, s, calls[..|calls| - 1]);
      before + EventsOf(After(hashOf, s, before), calls[|calls| - 1])
  }

  lemma {:induction false} RunsCompose(hashOf: string -> Hash, s: State, first: seq<Event>, second: seq<Event>)
    ensures After(hashOf, s, first + second) == After(hashOf, After(hashOf, s, first), second)
  {
    hide Step;
    if second == [] {
      assert first + second == first;
    } else {
      var all, front := first + second, second[..|second| - 1];
      assert all[..|all| - 1] == first + front;
      RunsCompose(hashOf, s, first, front);
    }
  }

  lemma ShortRun(hashOf: string -> Hash, s: State, events: seq<Event>)
    requires |events| <= 2
    ensures After(hashOf, s, events) ==
      if events == [] then s
      else if |events| == 1 then Step(hashOf, s, events[0])
      else Step(hashOf, Step(hashOf, s, events[0]), events[1])
  {
    hide Step;
    if |events| >= 1 {
      assert events[..1][..0] == [];
      assert After(hashOf, s, events[..1]) == Step(hashOf, s, events[0]);
    }
    if |events| == 1 { assert events == events[..1]; }
  }

  lemma CallSettles(hashOf: string -> Hash, s: State, call: Call, itype: string)
    requires forall t :: Settled(s, t)
    ensures Settled(After(hashOf, s, EventsOf(s, call)), itype)
  {
    ShortRun(hashOf, s, EventsOf(s, call));
    assert Settled(s, itype);
    hide After, Stored, StoreMark, StoreRegion, DropMark, DropRegion, CountType, CountRegion, CacheKey;
  }

  lemma {:induction false} CallsSettle(hashOf: string -> Hash, s: State, calls: seq<Call>)
    requires Initial(s)
    ensures forall t :: Settled(After(hashOf, s, Trace(hashOf, s, calls)), t)
  {
    if calls != [] {
      var front, last := calls[..|calls| - 1], calls[|calls| - 1];
      var before := Trace(hashOf, s, front);
      CallsSettle(hashOf, s, front);
      RunsCompose(hashOf, s, before, EventsOf(After(hashOf, s, before), last));
      forall t ensures Settled(After(hashOf, s, Trace(hashOf, s, calls)), t) {
        CallSettles(hashOf, After(hashOf, s, before), last, t);
      }
    }
  }

  /** After any sequence of calls an answer is safe, and exact when no expired mark awaits its eviction. */
  lemma CallsAnswerSafely(hashOf: string -> Hash, s: State, calls: seq<Call>, itype: string)
    requires Initial(s)
    ensures var s' := After(hashOf, s, Trace(hashOf, s, calls));
      && Safe(hashOf, s', itype)
      && (NoneLingers(s', itype) ==> Answered(hashOf, s', itype) == Computed(s'.marks, s'.avail, itype, s'.now))
  {
    CallsSettle(hashOf, s, calls);
    var events := Trace(hashOf, s, calls);
    assert Settled(After(hashOf, s, events), itype);
    hide After, Trace, Safe, NoneLingers, Computed;
    AnswersAreSafe(hashOf, s, events, itype);
    if NoneLingers(After(hashOf, s, events), itype) {
      NoneLingersIsExact(hashOf, s, events, itype);
    }
  }

  // ---------------------------------------------------------------- what the guarantees rest on

  /** Between the store of a mark and its count a cached answer still offers the marked region. */
  lemma UncountedMarkIsMissed(m: Marks, avail: Availability, itype: string, region: string, key: string, now: nat)
    requires Offered(avail, itype, region) && !IsUnavailable(m, itype, region, now)
    ensures var st := Stored(Store(map[], map[]), m, avail, itype, key, now);
      var m' := StoreMark(m, itype, region, now);
      && region in AllRegions(avail)
      && Returned(st, m', avail, itype, key, now)[region] && !Computed(m', avail, itype, now)[region]
      && !Returned(st, CountType(m', itype), avail, itype, key, now)[region]
  {
    assert region in AllRegions(avail);
  }

  /** With two cache keys for one type, an answer under one key hides a change from the other. */
  lemma TwoKeysGoStale(m: Marks, avail: Availability, itype: string, region: string, a: string, b: string, now: nat)
    requires Offered(avail, itype, region) && !IsUnavailable(m, itype, region, now) && a != b
    ensures var m' := CountType(StoreMark(m, itype, region, now), itype);
      var st := Stored(Stored(Store(map[], map[]), m, avail, itype, a, now), m', avail, itype, b, now);
      && region in AllRegions(avail)
      && !Returned(st, m', avail, itype, b, now)[region]
      && !Computed(m', avail, itype, now)[region]
      && (Returned(st, m', avail, itype, a, now)[region])
  {
    assert region in AllRegions(avail);
  }

  /** A mark that has expired but is not evicted leaves the cached answer as it was. */
  lemma LingeringMarkIsKept(m: Marks, avail: Availability, itype: string, region: string, key: string, now: nat)
    requires Offered(avail, itype, region) && region !in m.region
    ensures var m' := StoreMark(m, itype, region, now);
      var st := Stored(Store(map[], map[]), m', avail, itype, key, now);
      var later := now + MARK_TTL + 1;
      && region in AllRegions(avail)
      && !Returned(st, m', avail, itype, key, later)[region] && Computed(m', avail, itype, later)[region]
  {
    assert region in AllRegions(avail);
  }
}
