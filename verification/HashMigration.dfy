/**
 The migration of NodeClass hashes to a new hash version (pkg/controllers/nodeclass/hash) and the drift check that
 reads them (pkg/cloudprovider/drift.go), with patches that fail, or take effect and still return an error.
 */
module HashMigration {
  import opened Options

  /** The version the controller writes. */
  const HASH_VERSION := "v1alpha1"

  /** The hash and hash-version annotations of a NodeClass or a NodeClaim. */
  datatype Notes = Notes(hash: Option<string>, version: Option<string>)

  /** `drifted`: the Drifted condition is set; `launched`: its instance was created and its annotations written then. */
  datatype Claim = Claim(notes: Notes, drifted: bool, launched: bool)

  datatype Outcome = Applied | Refused | Lost

  datatype Verdict = NotDrifted | NodeClassDrift

  /** areStaticFieldsDrifted. */
  function DriftVerdict(claim: Notes, nodeClass: Notes): Verdict {
    if nodeClass.hash.None? || claim.hash.None? || nodeClass.version.None? || claim.version.None? then NotDrifted
    else if nodeClass.version != claim.version then NotDrifted
    else if nodeClass.hash != claim.hash then NodeClassDrift
    else NotDrifted
  }

  predicate Current(notes: Notes) {
    notes.version == Some(HASH_VERSION)
  }

  function NewNotes(hash: string): Notes {
    Notes(Some(hash), Some(HASH_VERSION))
  }

  /** The patch of a claim listed with or without a Drifted condition: a drifted one keeps its hash. */
  function Rewritten(claim: Claim, listedDrifted: bool, hash: string): Claim {
    claim.(notes := Notes(if listedDrifted then claim.notes.hash else Some(hash), Some(HASH_VERSION)))
  }

  // ---------------------------------------------------------------- one undisturbed reconcile

  ghost predicate Lists(order: seq<string>, claims: map<string, Claim>) {
    && (forall name :: name in order <==> name in claims)
    && (forall i, j :: 0 <= i < j < |order| ==> order[i] != order[j])
  }

  /** The claims after the patches of one pass, each with its own outcome. */
  function PatchedClaims(claims: map<string, Claim>, hash: string, outcomeOf: string -> Outcome): map<string, Claim> {
    map name | name in claims ::
      if !Current(claims[name].notes) && outcomeOf(name) != Refused then Rewritten(claims[name], claims[name].drifted, hash)
      else claims[name]
  }

  ghost predicate SomeFails(claims: map<string, Claim>, outcomeOf: string -> Outcome) {
    exists name :: name in claims && !Current(claims[name].notes) && outcomeOf(name) != Applied
  }

  ghost predicate PatchedUpTo(was: map<string, Claim>, hash: string, outcomeOf: string -> Outcome, done: seq<string>,
                              claims: map<string, Claim>) {
    && claims.Keys == was.Keys
    && forall name :: name in was ==>
      claims[name] == if name in done then PatchedClaims(was, hash, outcomeOf)[name] else was[name]
  }

  ghost predicate FailedUpTo(was: map<string, Claim>, outcomeOf: string -> Outcome, done: seq<string>) {
    exists name :: name in done && name in was && !Current(was[name].notes) && outcomeOf(name) != Applied
  }

  lemma PatchOne(was: map<string, Claim>, hash: string, outcomeOf: string -> Outcome, done: seq<string>, name: string,
                 claims: map<string, Claim>)
    requires PatchedUpTo(was, hash, outcomeOf, done, claims) && name in was && name !in done
    ensures name in claims && claims[name] == was[name]
    ensures var pending := !Current(was[name].notes);
      && PatchedUpTo(was, hash, outcomeOf, done + [name],
           if pending && outcomeOf(name) != Refused then claims[name := Rewritten(was[name], was[name].drifted, hash)] else claims)
      && (FailedUpTo(was, outcomeOf, done + [name])
          <==> FailedUpTo(was, outcomeOf, done) || (pending && outcomeOf(name) != Applied))
  {
    assert forall n :: n in done + [name] <==> n in done || n == name;
  }

  /** The NodeClass and its NodeClaims as the API server holds them, and the hash of the unchanged spec. */
  class HashController {
    const hash: string
    var nodeClass: Notes
    var claims: map<string, Claim>

    constructor (hash: string, nodeClass: Notes, claims: map<string, Claim>)
      ensures this.hash == hash && this.nodeClass == nodeClass && this.claims == claims
    {
      this.hash, this.nodeClass, this.claims := hash, nodeClass, claims;
    }

    /** Rewrites every listed claim that is not at the new version; fails if any patch fails, after trying them all. */
    method UpdateNodeClaimHash(order: seq<string>, outcomeOf: string -> Outcome) returns (failed: bool)
      requires Lists(order, claims)
      modifies this`claims
      ensures claims == PatchedClaims(old(claims), hash, outcomeOf)
      ensures failed <==> SomeFails(old(claims), outcomeOf)
    {
      ghost var was := claims;
      failed := false;
      for i := 0 to |order|
        invariant PatchedUpTo(was, hash, outcomeOf, order[..i], claims)
        invariant failed <==> FailedUpTo(was, outcomeOf, order[..i])
      {
        var name := order[i];
        assert order[..i + 1] == order[..i] + [name];
        PatchOne(was, hash, outcomeOf, order[..i], name, claims);
        hide PatchedUpTo, FailedUpTo;
        if claims[name].notes.version != Some(HASH_VERSION) {
          if outcomeOf(name) != Refused { claims := claims[name := Rewritten(claims[name], claims[name].drifted, hash)]; }
          if outcomeOf(name) != Applied { failed := true; }
        }
      }
      assert order[..|order|] == order;
      assert claims == PatchedClaims(was, hash, outcomeOf);
    }

    /** One reconcile: the class follows its claims, and only when none of their patches failed. */
    method Reconcile(listFails: bool, order: seq<string>, outcomeOf: string -> Outcome, classOutcome: Outcome)
      returns (failed: bool)
      requires Lists(order, claims)
      modifies this`claims, this`nodeClass
      ensures claims == if Current(old(nodeClass)) || listFails then old(claims)
                        else PatchedClaims(old(claims), hash, outcomeOf)
      ensures nodeClass ==
        if !Current(old(nodeClass)) && (listFails || SomeFails(old(claims), outcomeOf)) then old(nodeClass)
        else if classOutcome == Refused then old(nodeClass) else NewNotes(hash)
      ensures failed <==>
        || (!Current(old(nodeClass)) && (listFails || SomeFails(old(claims), outcomeOf)))
        || (old(nodeClass) != NewNotes(hash) && classOutcome != Applied)
      ensures nodeClass != old(nodeClass) && !Current(old(nodeClass)) ==> forall name :: name in claims ==> Current(claims[name].notes)
    {
      if nodeClass.version != Some(HASH_VERSION) {
        if listFails { return true; }
        var claimsFailed := UpdateNodeClaimHash(order, outcomeOf);
        if claimsFailed { return true; }
      }
      failed := false;
      if nodeClass != NewNotes(hash) {
        if classOutcome != Refused { nodeClass := NewNotes(hash); }
        failed := classOutcome != Applied;
      }
    }
  }

  // ---------------------------------------------------------------- reconciles among other events

  /** A pass over the claims listed as not at the new version, each with its Drifted condition at the listing. */
  datatype Pass = Idle | Patching(todo: seq<(string, bool)>, failed: bool)

  /**
   `judged`: claims drifted from the start, or drifted when they were listed and rewritten. `unlisted`: claims that
   came after the last listing.
   */
  datatype State = State(nodeClass: Notes, claims: map<string, Claim>, pass: Pass, judged: set<string>, unlisted: set<string>)

  datatype Event =
    | ListClaims(order: seq<string>)
    | PatchClaim(outcome: Outcome)
    | PatchClass(outcome: Outcome)
    | Crash
    | NewClaim(name: string)                    // has no annotations yet
    | Launch(name: string)                      // Create succeeded and its annotations are written
    | RemoveClaim(name: string)
    | SetDrifted(name: string, drifted: bool)   // the disruption controller, for any reason

  function Todo(claims: map<string, Claim>, order: seq<string>): seq<(string, bool)> {
    if order == [] then []
    else
      var rest := Todo(claims, order[1..]);
      if order[0] in claims && !Current(claims[order[0]].notes) then [(order[0], claims[order[0]].drifted)] + rest else rest
  }

  ghost function Step(hash: string, s: State, e: Event): State {
    match e
    case ListClaims(order) =>
      if s.pass == Idle && !Current(s.nodeClass) && Lists(order, s.claims) 
      then s.(pass := Patching(Todo(s.claims, order), false), unlisted := {})
      else s
    case PatchClaim(outcome) =>
      if s.pass == Idle || s.pass.todo == [] then s
      else
        var (name, drifted) := s.pass.todo[0];
        var s' := s.(pass := Patching(s.pass.todo[1..], s.pass.failed || outcome != Applied));
        if name in s.claims && outcome != Refused then
          s'.(claims := s.claims[name := Rewritten(s.claims[name], drifted, hash)],
              judged := if drifted then s.judged + {name} else s.judged)
        else s'
    case PatchClass(outcome) =>
      if s.pass == Idle || s.pass.todo != [] then s
      else s.(pass := Idle,
              nodeClass := if s.pass.failed || outcome == Refused then s.nodeClass else NewNotes(hash))
    case Crash => s.(pass := Idle)
    case NewClaim(name) =>
      if name in s.claims then s
      else s.(claims := s.claims[name := Claim(Notes(None, None), false, false)],
              judged := s.judged - {name}, unlisted := s.unlisted + {name})
    case Launch(name) =>
      if name !in s.claims || s.claims[name].launched then s
      else s.(claims := s.claims[name := s.claims[name].(notes := NewNotes(hash), launched := true)],
              judged := s.judged - {name})
    case RemoveClaim(name) => s.(claims := s.claims - {name})
    case SetDrifted(name, drifted) =>
      if name in s.claims then s.(claims := s.claims[name := s.claims[name].(drifted := drifted)]) else s
  }

  ghost function After(hash: string, s: State, events: seq<Event>): State {
    if events == [] then s
    else Step(hash, After(hash, s, events[..|events| - 1]), events[|events| - 1])
  }

  /** Before the migration: the class is at another version or at none, and unjudged claims are not drifted. */
  ghost predicate Initial(hash: string, s: State) {
    && !Current(s.nodeClass) && s.pass == Idle
    && forall name :: name in s.claims && name !in s.judged ==>
         && DriftVerdict(s.claims[name].notes, s.nodeClass) == NotDrifted
         && (Current(s.claims[name].notes) ==> s.claims[name].notes.hash == Some(hash))
  }

  ghost predicate Inv(hash: string, start: Notes, s: State) {
    && !Current(start)
    && (s.nodeClass == start || s.nodeClass == NewNotes(hash))
    && (forall name :: name in s.claims && name !in s.judged ==>
          && DriftVerdict(s.claims[name].notes, start) == NotDrifted
          && (Current(s.claims[name].notes) ==> s.claims[name].notes.hash == Some(hash)))
    && (Current(s.nodeClass) ==> forall name :: name in s.claims && !Current(s.claims[name].notes) ==> name in s.unlisted)
    && (s.pass.Patching? || Current(s.nodeClass) ==> forall name :: name in s.claims && name in s.unlisted ==>
          Current(s.claims[name].notes) || s.claims[name].notes == Notes(None, None))
    && (s.pass.Patching? ==> forall name :: name in s.claims && !Current(s.claims[name].notes) && name !in s.unlisted ==>
          s.pass.failed || exists i :: 0 <= i < |s.pass.todo| && s.pass.todo[i].0 == name)
  }

  lemma {:induction false} TodoCovers(claims: map<string, Claim>, order: seq<string>, name: string)
    requires name in order && name in claims && !Current(claims[name].notes)
    ensures exists i :: 0 <= i < |Todo(claims, order)| && Todo(claims, order)[i] == (name, claims[name].drifted)
  {
    var todo := Todo(claims, order);
    if order[0] == name {
      assert todo[0] == (name, claims[name].drifted);
    } else {
      TodoCovers(claims, order[1..], name);
      var rest := Todo(claims, order[1..]);
      var i :| 0 <= i < |rest| && rest[i] == (name, claims[name].drifted);
      assert todo[|todo| - |rest| + i] == rest[i];
    }
  }

  lemma StepKeepsInv(hash: string, start: Notes, s: State, e: Event)
    requires Inv(hash, start, s)
    ensures Inv(hash, start, Step(hash, s, e))
  {
    var s' := Step(hash, s, e);
    match e
    case ListClaims(order) =>
      if s' != s {
        forall name | name in s'.claims && !Current(s'.claims[name].notes)
          ensures exists i :: 0 <= i < |s'.pass.todo| && s'.pass.todo[i].0 == name
        {
          TodoCovers(s.claims, order, name);
        }
      }
    case PatchClaim(outcome) =>
      if s' != s {
        forall name | name in s'.claims && !Current(s'.claims[name].notes) && name !in s'.unlisted && !s'.pass.failed
          ensures exists i :: 0 <= i < |s'.pass.todo| && s'.pass.todo[i].0 == name
        {
          var i :| 0 <= i < |s.pass.todo| && s.pass.todo[i].0 == name;
          assert s'.pass.todo[i - 1] == s.pass.todo[i];
        }
      }
    case _ =>
  }

  lemma {:induction false} RunKeepsInv(hash: string, s: State, events: seq<Event>)
    requires Initial(hash, s)
    ensures Inv(hash, s.nodeClass, After(hash, s, events))
  {
    if events != [] {
      RunKeepsInv(hash, s, events[..|events| - 1]);
      StepKeepsInv(hash, s.nodeClass, After(hash, s, events[..|events| - 1]), events[|events| - 1]);
    }
  }

  /** In every state of every run a claim that was never judged drifted is not found drifted. */
  lemma NoFalseDrift(hash: string, s: State, events: seq<Event>, name: string)
    requires Initial(hash, s)
    requires name in After(hash, s, events).claims && name !in After(hash, s, events).judged
    ensures DriftVerdict(After(hash, s, events).claims[name].notes, After(hash, s, events).nodeClass) == NotDrifted
  {
    RunKeepsInv(hash, s, events);
  }

  /**
   The class reaches the new version only when every claim its last pass listed has; claims that came after the
   listing have it too, or have no annotations yet and are not found drifted.
   */
  lemma ClassMovesLast(hash: string, s: State, events: seq<Event>, name: string)
    requires Initial(hash, s) && Current(After(hash, s, events).nodeClass) && name in After(hash, s, events).claims
    ensures var s' := After(hash, s, events);
      && (name !in s'.unlisted ==> Current(s'.claims[name].notes))
      && (Current(s'.claims[name].notes)
          || (s'.claims[name].notes == Notes(None, None)
              && DriftVerdict(s'.claims[name].notes, s'.nodeClass) == NotDrifted))
  {
    RunKeepsInv(hash, s, events);
  }

  /** Different versions, or a missing annotation, never give a drift verdict; equal versions compare the hashes. */
  lemma DriftNeedsOneVersion(claim: Notes, nodeClass: Notes)
    ensures DriftVerdict(claim, nodeClass) == NodeClassDrift <==>
      exists version, a, b :: claim == Notes(Some(a), Some(version)) && nodeClass == Notes(Some(b), Some(version)) && a != b
  {
    if DriftVerdict(claim, nodeClass) == NodeClassDrift {
      assert claim == Notes(Some(claim.hash.value), Some(claim.version.value));
    }
  }

  /** The claim stays, and its Drifted condition stays set. */
  ghost predicate Undisturbed(events: seq<Event>, name: string) {
    forall e :: e in events ==> e != RemoveClaim(name) && e != SetDrifted(name, false)
  }

  /** A claim drifted throughout keeps the hash it had, whatever is patched. */
  lemma {:induction false} DriftedKeepsHash(hash: string, s: State, events: seq<Event>, name: string)
    requires s.pass == Idle && name in s.claims && s.claims[name].drifted && s.claims[name].launched
    requires Undisturbed(events, name)
    ensures var s' := After(hash, s, events);
      && name in s'.claims && s'.claims[name].drifted && s'.claims[name].launched
      && s'.claims[name].notes.hash == s.claims[name].notes.hash
      && (s'.claims[name].notes.version == s.claims[name].notes.version || Current(s'.claims[name].notes))
    ensures var s' := After(hash, s, events);
      s'.pass.Patching? ==> forall i :: 0 <= i < |s'.pass.todo| && s'.pass.todo[i].0 == name ==> s'.pass.todo[i].1
  {
    if events != [] {
      var front, e := events[..|events| - 1], events[|events| - 1];
      assert events == front + [e] && e in events;
      assert e != RemoveClaim(name) && e != SetDrifted(name, false);
      assert forall x :: x in front ==> x in events;
      DriftedKeepsHash(hash, s, front, name);
      var mid := After(hash, s, front);
      if e.ListClaims? { TodoShows(mid.claims, e.order); }
    }
  }

  lemma {:induction false} TodoShows(claims: map<string, Claim>, order: seq<string>)
    ensures forall i :: 0 <= i < |Todo(claims, order)| ==>
      var (name, drifted) := Todo(claims, order)[i]; name in claims && drifted == claims[name].drifted
  {
    if order != [] { TodoShows(claims, order[1..]); }
  }

  /**
   A claim rewritten while its Drifted condition is set, for whatever reason, is judged by its old hash once the
   class has moved: it is then found drifted exactly when that hash differs from the new one.
   */
  lemma JudgedByOldHash(hash: string, s: State, events: seq<Event>, name: string)
    requires Initial(hash, s) && name in s.claims && s.claims[name].drifted && s.claims[name].launched
    requires Undisturbed(events, name)
    requires Current(After(hash, s, events).nodeClass)
    ensures name in After(hash, s, events).claims
    ensures DriftVerdict(After(hash, s, events).claims[name].notes, After(hash, s, events).nodeClass) == NodeClassDrift
      <==> s.claims[name].notes.hash.Some? && s.claims[name].notes.hash != Some(hash)
  {
    RunKeepsInv(hash, s, events);
    DriftedKeepsHash(hash, s, events, name);
    ClassMovesLast(hash, s, events, name);
  }

  // ---------------------------------------------------------------- an undisturbed pass is one reconcile

  /** The events of a pass that nothing else interrupts, up to its k-th patch. */
  ghost function PassEvents(order: seq<string>, todo: seq<(string, bool)>, outcomeOf: string -> Outcome): seq<Event> {
    [ListClaims(order)] + seq(|todo|, i requires 0 <= i < |todo| => PatchClaim(outcomeOf(todo[i].0)))
  }

  ghost predicate Distinct(todo: seq<(string, bool)>) {
    forall i, j :: 0 <= i < j < |todo| ==> todo[i].0 != todo[j].0
  }

  lemma {:induction false} TodoDistinct(claims: map<string, Claim>, order: seq<string>)
    requires forall i, j :: 0 <= i < j < |order| ==> order[i] != order[j]
    ensures Distinct(Todo(claims, order))
    ensures forall i :: 0 <= i < |Todo(claims, order)| ==>
      Todo(claims, order)[i].0 in order && Todo(claims, order)[i].0 in claims && !Current(claims[Todo(claims, order)[i].0].notes)
  {
    if order != [] { TodoDistinct(claims, order[1..]); }
  }

  /** The claims when the first k of the listed patches have been tried. */
  ghost predicate TriedClaims(hash: string, was: map<string, Claim>, todo: seq<(string, bool)>, outcomeOf: string -> Outcome,
                              k: nat, claims: map<string, Claim>)
  {
    && k <= |todo| && claims.Keys == was.Keys
    && (forall i :: 0 <= i < k && todo[i].0 in was ==> claims[todo[i].0] == PatchedClaims(was, hash, outcomeOf)[todo[i].0])
    && (forall name :: name in was && (forall i :: 0 <= i < k ==> todo[i].0 != name) ==> claims[name] == was[name])
  }

  ghost predicate SomeTriedFails(todo: seq<(string, bool)>, outcomeOf: string -> Outcome, k: nat)
    requires k <= |todo|
  {
    exists i :: 0 <= i < k && outcomeOf(todo[i].0) != Applied
  }

  /** The state when the first k of the listed patches have been tried. */
  ghost predicate Tried(hash: string, s: State, todo: seq<(string, bool)>, outcomeOf: string -> Outcome, k: nat, s': State) {
    && TriedClaims(hash, s.claims, todo, outcomeOf, k, s'.claims)
    && s'.nodeClass == s.nodeClass && s'.pass == Patching(todo[k..], SomeTriedFails(todo, outcomeOf, k))
  }

  /** The list names claims that are not at the new version, each once and with its Drifted condition. */
  ghost predicate ListsPending(claims: map<string, Claim>, todo: seq<(string, bool)>) {
    && Distinct(todo)
    && forall i :: 0 <= i < |todo| ==>
      todo[i].0 in claims && todo[i].1 == claims[todo[i].0].drifted && !Current(claims[todo[i].0].notes)
  }

  lemma PatchStep(hash: string, s: State, todo: seq<(string, bool)>, outcomeOf: string -> Outcome, k: nat, mid: State)
    requires k < |todo| && ListsPending(s.claims, todo) && Tried(hash, s, todo, outcomeOf, k, mid)
    ensures Tried(hash, s, todo, outcomeOf, k + 1, Step(hash, mid, PatchClaim(outcomeOf(todo[k].0))))
  {
    assert todo[k..][0] == todo[k] && todo[k..][1..] == todo[k + 1..];
    TryOneMore(hash, s.claims, todo, outcomeOf, k, mid.claims);
    assert SomeTriedFails(todo, outcomeOf, k + 1) <==> SomeTriedFails(todo, outcomeOf, k) || outcomeOf(todo[k].0) != Applied;
    hide TriedClaims, SomeTriedFails, Current, Rewritten, Distinct;
  }

  lemma TryOneMore(hash: string, was: map<string, Claim>, todo: seq<(string, bool)>, outcomeOf: string -> Outcome, k: nat,
                   claims: map<string, Claim>)
    requires k < |todo| && ListsPending(was, todo) && TriedClaims(hash, was, todo, outcomeOf, k, claims)
    ensures todo[k].0 in claims
    ensures var (name, drifted) := todo[k];
      TriedClaims(hash, was, todo, outcomeOf, k + 1,
                  if outcomeOf(name) == Refused then claims else claims[name := Rewritten(claims[name], drifted, hash)])
  {
    assert claims[todo[k].0] == was[todo[k].0];
    hide Current, Rewritten;
  }

  lemma PassBegins(hash: string, s: State, order: seq<string>, outcomeOf: string -> Outcome)
    requires s.pass == Idle && !Current(s.nodeClass) && Lists(order, s.claims)
    ensures Tried(hash, s, Todo(s.claims, order), outcomeOf, 0, After(hash, s, PassEvents(order, [], outcomeOf)))
  {
    hide Todo;
    var events := PassEvents(order, [], outcomeOf);
    assert events == [ListClaims(order)] && events[..0] == [];
    assert After(hash, s, events[..0]) == s;
  }

  lemma OnePatchMore(order: seq<string>, todo: seq<(string, bool)>, outcomeOf: string -> Outcome, k: nat)
    requires k < |todo|
    ensures PassEvents(order, todo[..k + 1], outcomeOf)
         == PassEvents(order, todo[..k], outcomeOf) + [PatchClaim(outcomeOf(todo[k].0))]
  {}

  lemma AfterOneMore(hash: string, s: State, events: seq<Event>, e: Event)
    ensures After(hash, s, events + [e]) == Step(hash, After(hash, s, events), e)
  {
    hide Step;
    assert (events + [e])[..|events|] == events;
  }

  lemma {:induction false} PassSoFar(hash: string, s: State, order: seq<string>, todo: seq<(string, bool)>,
                                     outcomeOf: string -> Outcome, k: nat)
    requires s.pass == Idle && !Current(s.nodeClass) && Lists(order, s.claims)
    requires todo == Todo(s.claims, order) && ListsPending(s.claims, todo) && k <= |todo|
    ensures Tried(hash, s, todo, outcomeOf, k, After(hash, s, PassEvents(order, todo[..k], outcomeOf)))
  {
    hide Tried, Todo, Step, After, PassEvents, ListsPending, Lists, Current;
    if k == 0 {
      PassBegins(hash, s, order, outcomeOf);
      assert todo[..0] == [];
    } else {
      PassSoFar(hash, s, order, todo, outcomeOf, k - 1);
      OnePatchMore(order, todo, outcomeOf, k - 1);
      var before := PassEvents(order, todo[..k - 1], outcomeOf);
      AfterOneMore(hash, s, before, PatchClaim(outcomeOf(todo[k - 1].0)));
      PatchStep(hash, s, todo, outcomeOf, k - 1, After(hash, s, before));
    }
  }

  /** When every listed patch has been tried the claims are the patched ones, and a failure is known. */
  lemma AllTried(hash: string, s: State, order: seq<string>, outcomeOf: string -> Outcome, s': State)
    requires Lists(order, s.claims)
    requires Tried(hash, s, Todo(s.claims, order), outcomeOf, |Todo(s.claims, order)|, s')
    ensures s'.claims == PatchedClaims(s.claims, hash, outcomeOf)
    ensures s'.pass == Patching([], SomeFails(s.claims, outcomeOf))
  {
    var todo := Todo(s.claims, order);
    TodoDistinct(s.claims, order);
    forall name | name in s.claims && !Current(s.claims[name].notes) ensures exists i :: 0 <= i < |todo| && todo[i].0 == name {
      TodoCovers(s.claims, order, name);
    }
    hide Todo;
    forall name | name in s.claims ensures s'.claims[name] == PatchedClaims(s.claims, hash, outcomeOf)[name] {
      if !Current(s.claims[name].notes) {
        var i :| 0 <= i < |todo| && todo[i].0 == name;
      }
    }
  }

  /** A pass that nothing interrupts leaves the claims and the class as one call of Reconcile does. */
  lemma PassIsReconcile(hash: string, s: State, order: seq<string>, outcomeOf: string -> Outcome, classOutcome: Outcome)
    requires s.pass == Idle && !Current(s.nodeClass) && Lists(order, s.claims)
    ensures var s' := After(hash, s, PassEvents(order, Todo(s.claims, order), outcomeOf) + [PatchClass(classOutcome)]);
      && s'.pass == Idle && s'.claims == PatchedClaims(s.claims, hash, outcomeOf)
      && s'.nodeClass == if SomeFails(s.claims, outcomeOf) || classOutcome == Refused then s.nodeClass else NewNotes(hash)
  {
    var todo := Todo(s.claims, order);
    var events := PassEvents(order, todo, outcomeOf);
    var mid := After(hash, s, events);
    TodoDistinct(s.claims, order);
    TodoShows(s.claims, order);
    PassSoFar(hash, s, order, todo, outcomeOf, |todo|);
    assert todo[..|todo|] == todo && (events + [PatchClass(classOutcome)])[..|events|] == events;
    AllTried(hash, s, order, outcomeOf, mid);
    assert mid.nodeClass == s.nodeClass;
    hide Tried, Todo, Lists, PassEvents, PatchedClaims, SomeFails;
    assert After(hash, s, events + [PatchClass(classOutcome)]) == Step(hash, mid, PatchClass(classOutcome));
  }
}
