/**
 The answers of the offering cache by the history of a run: which regions a recomputation offers, and which no answer
 offers, in terms of the events that marked and unmarked a type and its regions and of the time since.
 */
module OfferingHistory {
  import opened OfferingCache
  import opened Options

  /** The time after the events of a run that started at `start`. */
  function Clock(start: nat, events: seq<Event>): nat {
    if events == [] then start
    else
      var before := Clock(start, events[..|events| - 1]);
      match events[|events| - 1]
      case Wait(time) => before + time
      case _ => before
  }

  /** When a mark with this expiry was stored. */
  function StoredFor(expiry: int): Option<int> {
    Some(expiry - 180)
  }

  /** When the type was last marked in the region, if that mark was not dropped since. */
  function OwnMark(s: State, events: seq<Event>, itype: string, region: string): Option<int> {
    if events == [] then
      if (itype, region) in s.marks.offering then StoredFor(s.marks.offering[(itype, region)]) else None
    else
      var front, last := events[..|events| - 1], events[|events| - 1];
      if last == Mark(itype, region) then Some(Clock(s.now, front))
      else if last == Unmark(itype, region) then None
      else OwnMark(s, front, itype, region)
  }

  /** When the region was last marked as a whole, if that mark was not dropped since. */
  function RegionMark(s: State, events: seq<Event>, region: string): Option<int> {
    if events == [] then
      if region in s.marks.region then StoredFor(s.marks.region[region]) else None
    else
      var front, last := events[..|events| - 1], events[|events| - 1];
      if last == MarkRegion(region) then Some(Clock(s.now, front))
      else if last == UnmarkRegion(region) then None
      else RegionMark(s, front, region)
  }

  /** The regions of each plan as last fetched. */
  function LastFetched(s: State, events: seq<Event>): Availability {
    if events == [] then s.avail
    else
      match events[|events| - 1]
      case Refresh(avail, _) => avail
      case _ => LastFetched(s, events[..|events| - 1])
  }

  predicate Recent(mark: Option<int>, now: nat) {
    mark.Some? && now <= mark.value + 180
  }

  /** The type is offered there, and neither its own last mark nor the region's is still there and at most 180 seconds old. */
  predicate Open(s: State, events: seq<Event>, itype: string, region: string) {
    var avail, now := LastFetched(s, events), Clock(s.now, events);
    && itype in avail && region in avail[itype]
    && !Recent(OwnMark(s, events, itype, region), now)
    && !Recent(RegionMark(s, events, region), now)
  }

  /** The time, the regions and the marks of a state are those of its history. */
  ghost predicate Recalls(s: State, events: seq<Event>, s': State) {
    && s'.now == Clock(s.now, events) && s'.avail == LastFetched(s, events)
    && (forall t, r ::
          OwnMark(s, events, t, r) == if (t, r) in s'.marks.offering then StoredFor(s'.marks.offering[(t, r)]) else None)
    && (forall r :: RegionMark(s, events, r) == if r in s'.marks.region then StoredFor(s'.marks.region[r]) else None)
  }

  lemma {:induction false} StateByHistory(hashOf: string -> Hash, s: State, events: seq<Event>)
    ensures Recalls(s, events, After(hashOf, s, events))
  {
    if events != [] {
      var front, last := events[..|events| - 1], events[|events| - 1];
      StateByHistory(hashOf, s, front);
      hide After, Recalls, Step;
      StepByHistory(hashOf, s, events, After(hashOf, s, front));
      LastStep(hashOf, s, events);
    }
  }

  lemma LastStep(hashOf: string -> Hash, s: State, events: seq<Event>)
    requires events != []
    ensures After(hashOf, s, events) == Step(hashOf, After(hashOf, s, events[..|events| - 1]), events[|events| - 1])
  {
    hide Step;
  }

  lemma StepByHistory(hashOf: string -> Hash, s: State, events: seq<Event>, mid: State)
    requires events != [] && Recalls(s, events[..|events| - 1], mid)
    ensures Recalls(s, events, Step(hashOf, mid, events[|events| - 1]))
  {
    var front := events[..|events| - 1];
    TimeStep(hashOf, s, events, mid);
    forall t, r
      ensures var m := Step(hashOf, mid, events[|events| - 1]).marks.offering;
        OwnMark(s, events, t, r) == if (t, r) in m then StoredFor(m[(t, r)]) else None
    {
      assert OwnMark(s, front, t, r) == if (t, r) in mid.marks.offering then StoredFor(mid.marks.offering[(t, r)]) else None;
      OwnStep(hashOf, s, events, mid, t, r);
    }
    forall r
      ensures var m := Step(hashOf, mid, events[|events| - 1]).marks.region;
        RegionMark(s, events, r) == if r in m then StoredFor(m[r]) else None
    {
      assert RegionMark(s, front, r) == if r in mid.marks.region then StoredFor(mid.marks.region[r]) else None;
      RegionStep(hashOf, s, events, mid, r);
    }
    hide Step, OwnMark, RegionMark, Clock, LastFetched;
  }

  lemma TimeStep(hashOf: string -> Hash, s: State, events: seq<Event>, mid: State)
    requires events != []
    requires mid.now == Clock(s.now, events[..|events| - 1]) && mid.avail == LastFetched(s, events[..|events| - 1])
    ensures var s' := Step(hashOf, mid, events[|events| - 1]);
      s'.now == Clock(s.now, events) && s'.avail == LastFetched(s, events)
  {
    hide Stored, CacheKey, CountType, CountRegion, StoreMark, StoreRegion, DropMark, DropRegion;
  }

  /** Only marking and unmarking the type there changes its mark. */
  lemma OwnAfter(hashOf: string -> Hash, mid: State, e: Event, t: string, r: string)
    ensures var m := Step(hashOf, mid, e).marks.offering;
      if e == Mark(t, r) then (t, r) in m && m[(t, r)] == mid.now + 180
      else if e == Unmark(t, r) then (t, r) !in m
      else ((t, r) in m <==> (t, r) in mid.marks.offering) && ((t, r) in m ==> m[(t, r)] == mid.marks.offering[(t, r)])
  {
    hide Stored, CacheKey, Owed, TypeSeq;
    match e
    case Mark(_, _) => case Unmark(_, _) => case MarkRegion(_) => case UnmarkRegion(_) => case CountStored(_) =>
    case CountDropped(_) => case CountRegionStored => case CountRegionDropped => case Refresh(_, _) =>
    case Create(_) => case Wait(_) =>
  }

  lemma RegionAfter(hashOf: string -> Hash, mid: State, e: Event, r: string)
    ensures var m := Step(hashOf, mid, e).marks.region;
      if e == MarkRegion(r) then r in m && m[r] == mid.now + 180
      else if e == UnmarkRegion(r) then r !in m
      else (r in m <==> r in mid.marks.region) && (r in m ==> m[r] == mid.marks.region[r])
  {
    hide Stored, CacheKey, Owed, TypeSeq;
    match e
    case Mark(_, _) => case Unmark(_, _) => case MarkRegion(_) => case UnmarkRegion(_) => case CountStored(_) =>
    case CountDropped(_) => case CountRegionStored => case CountRegionDropped => case Refresh(_, _) =>
    case Create(_) => case Wait(_) =>
  }

  lemma OwnStep(hashOf: string -> Hash, s: State, events: seq<Event>, mid: State, t: string, r: string)
    requires events != [] && mid.now == Clock(s.now, events[..|events| - 1])
    requires OwnMark(s, events[..|events| - 1], t, r)
          == if (t, r) in mid.marks.offering then StoredFor(mid.marks.offering[(t, r)]) else None
    ensures var m := Step(hashOf, mid, events[|events| - 1]).marks.offering;
      OwnMark(s, events, t, r) == if (t, r) in m then StoredFor(m[(t, r)]) else None
  {
    OwnAfter(hashOf, mid, events[|events| - 1], t, r);
    hide Step, Clock;
  }

  lemma RegionStep(hashOf: string -> Hash, s: State, events: seq<Event>, mid: State, r: string)
    requires events != [] && mid.now == Clock(s.now, events[..|events| - 1])
    requires RegionMark(s, events[..|events| - 1], r) == if r in mid.marks.region then StoredFor(mid.marks.region[r]) else None
    ensures var m := Step(hashOf, mid, events[|events| - 1]).marks.region;
      RegionMark(s, events, r) == if r in m then StoredFor(m[r]) else None
  {
    RegionAfter(hashOf, mid, events[|events| - 1], r);
    hide Step, Clock;
  }

  /**
   A computation from scratch names exactly the regions some plan is offered in, and offers the type exactly where it
   is open by the history.
   */
  lemma ComputedByHistory(hashOf: string -> Hash, s: State, events: seq<Event>, itype: string)
    ensures var s' := After(hashOf, s, events);
      var offerings := Computed(s'.marks, s'.avail, itype, s'.now);
      && (forall r :: r in offerings <==> exists plan :: plan in s'.avail && r in s'.avail[plan])
      && (forall r :: r in offerings ==> (offerings[r] <==> Open(s, events, itype, r)))
  {
    StateByHistory(hashOf, s, events);
    hide After, OwnMark, RegionMark, Clock, LastFetched;
  }

  /**
   With every stored mark counted, no answer, cached or not, offers the type in a region where it or the region was
   marked at most 180 seconds ago and the mark is still there, or where it is not offered; and every region is named.
   */
  lemma AnswersByHistory(hashOf: string -> Hash, s: State, events: seq<Event>, itype: string)
    requires Initial(s) && StoresCounted(After(hashOf, s, events), itype)
    ensures var s' := After(hashOf, s, events);
      var answer := Answered(hashOf, s', itype);
      && (forall r :: r in answer <==> exists plan :: plan in s'.avail && r in s'.avail[plan])
      && (forall r :: r in answer && answer[r] ==> Open(s, events, itype, r))
  {
    AnswersAreSafe(hashOf, s, events, itype);
    ComputedByHistory(hashOf, s, events, itype);
    hide After, Computed, Open, Answered, StoresCounted;
  }

  /** An answer is used for 300 seconds while the sequence number stays, and is then computed anew. */
  lemma AnswerLives(m: Marks, m': Marks, avail: Availability, avail': Availability,
                    itype: string, key: string, now: nat, later: nat)
    requires SeqNum(m', itype) == SeqNum(m, itype) && now <= later
    ensures var st := Stored(Store(map[], map[]), m, avail, itype, key, now);
      Returned(st, m', avail', itype, key, later)
      == if later <= now + 300 then Computed(m, avail, itype, now) else Computed(m', avail', itype, later)
  {
    hide Computed, SeqNum;
  }

  /** Nor is it used once a mark of the type or of a region has been counted. */
  lemma CountedMarkRecomputes(m: Marks, avail: Availability, itype: string, region: string, key: string,
                              now: nat, later: nat, whole: bool)
    ensures var st := Stored(Store(map[], map[]), m, avail, itype, key, now);
      var m' := if whole then CountRegion(StoreRegion(m, region, later)) else CountType(StoreMark(m, itype, region, later), itype);
      Returned(st, m', avail, itype, key, later) == Computed(m', avail, itype, later)
  {
    hide Computed;
  }
}
