// What reconciles achieve when nothing disturbs them: exactly when an object becomes Ready, and that a chain of parents
// reconciled from the top does.
module ObjectProgress {
  import opened Common
  import opened DistinguishedNames
  import opened Dit
  import opened LdapClient
  import opened Convergence
  import opened Mapper
  import opened ObjectModel
  import opened ObjectInvariants
  import opened ObjectRuns
  import opened ParentCycles
  import opened ObjectCalls
  import opened ObjectTheorems
  import opened ObjectLifecycle

  // ---------------------------------------------------------------- a reconcile whose calls are all answered

  /** The reply is a success of the Kubernetes API, or what an LDAP server that answers may reply. */
  ghost predicate Answered(w: World, k: Key, r: Reply)
    requires Typed(w) && k in w.workers
  {
    var d := w.plan[k].directory;
    match w.workers[k]
    case Working(_, _, DeletingEntry(dn)) =>
      r.Deleted? && DeleteOutcome(w.bases[d], w.store.trees[d], dn, true, r.code, r.tree)
    case Working(_, _, Upserting(e)) =>
      r.Upserted? && UpsertOutcome(w.bases[d], w.store.trees[d], e, true, r.outcome, r.tree)
    case _ => r == Ok
  }

  /** The worker on k makes these calls, one after the other, each answered. */
  ghost predicate Answers(w: World, k: Key, rs: seq<Reply>, w': World)
    decreases |rs|
  {
    if rs == [] then w' == w
    else Typed(w) && k in w.workers && Answered(w, k, rs[0]) && Answers(Tick(Next(w, k, rs[0])), k, rs[1..], w')
  }

  /** From w to w' a worker on k began, had all its calls answered, and came to its end. */
  ghost predicate Reconciled(w: World, k: Key, w': World) {
    k in w.plan && k !in w.workers && k !in w'.workers && exists rs :: Answers(Begun(w, k), k, rs, w')
  }

  lemma AnsweredIsValid(w: World, k: Key, r: Reply)
    requires Typed(w) && k in w.workers && Answered(w, k, r)
    ensures ValidReply(w, k, r) && Enabled(w, Call(k, r)) && Happen(w, Call(k, r)) == Tick(Next(w, k, r))
  {
    hide Next, UpsertOutcome, DeleteOutcome;
  }

  /** Such calls are a run of the machine. */
  lemma {:induction false} AnswersAreRun(w: World, k: Key, rs: seq<Reply>, w': World) returns (es: seq<Event>)
    requires Answers(w, k, rs, w')
    ensures Legal(w, es) && After(w, es) == w'
    decreases |rs|
  {
    hide Enabled, Happen, Next, Answered;
    es := [];
    if rs != [] {
      AnsweredIsValid(w, k, rs[0]);
      var rest := AnswersAreRun(Tick(Next(w, k, rs[0])), k, rs[1..], w');
      es := [Call(k, rs[0])] + rest;
      assert es[1..] == rest;
    }
  }

  lemma BegunRun(w: World, k: Key, rs: seq<Reply>, m: World) returns (es: seq<Event>)
    requires Typed(w) && k in w.plan && k !in w.workers && Answers(Begun(w, k), k, rs, m)
    ensures Legal(w, es) && After(w, es) == m
  {
    var rest := AnswersAreRun(Begun(w, k), k, rs, m);
    es := [Begin(k)] + rest;
    assert es[1..] == rest;
    assert Enabled(w, Begin(k)) && Happen(w, Begin(k)) == Begun(w, k);
  }

  lemma ReconciledIsRun(w: World, k: Key, w': World) returns (es: seq<Event>)
    requires Typed(w) && Reconciled(w, k, w')
    ensures Legal(w, es) && After(w, es) == w'
  {
    var rs :| Answers(Begun(w, k), k, rs, w');
    es := BegunRun(w, k, rs, w');
  }

  /** The first of a worker's calls. */
  lemma FirstAnswer(w: World, k: Key, rs: seq<Reply>, w': World)
    requires Answers(w, k, rs, w') && k in w.workers && k !in w'.workers
    ensures rs != [] && Typed(w) && Answered(w, k, rs[0]) && Answers(Tick(Next(w, k, rs[0])), k, rs[1..], w')
  {
    hide Answered, Next, Typed;
  }

  // ---------------------------------------------------------------- the worker's way to its create-or-update

  /** From w0 on, nothing has happened but the first calls of the worker on k, which is now at a point. */
  ghost predicate Staged(w0: World, w: World, k: Key, parent: Option<Key>, at: Point) {
    && Inv(w) && SamePlan(w0, w)
    && k in w0.store.objects && k in w.store.objects && k in w.plan
    && w.store == w0.store.(objects := w0.store.objects[k := w.store.objects[k]])
    && SameObject(w0.store.objects[k], w.store.objects[k])
    && k in w.workers && w.workers == w0.workers[k := w.workers[k]]
    && w.workers[k].Working? && w.workers[k].parent == parent && w.workers[k].at == at
    && SameObject(w0.store.objects[k], w.workers[k].obj)
  }

  /** All but finalizer and owner, which the worker's own calls set. */
  predicate SameObject(a: Object, b: Object) {
    b == a.(finalizer := b.finalizer, owner := b.owner)
  }

  /** The worker is done, or will be without marking its object Ready, which it is not. */
  ghost predicate Doomed(w: World, k: Key) {
    && !IsReady(w, k)
    && (k in w.workers ==>
          && k in w.plan && w.workers[k].Working?
          && var at := w.workers[k].at;
             at.DeletingEntry? || at.RemovingFinalizer? || (at.Marking? && at.phase != Ready))
  }

  /** Where the next call is to the Kubernetes API. */
  predicate ApiPoint(at: Point) {
    !at.DeletingEntry? && !at.Upserting?
  }

  lemma ApiStep(w: World, k: Key)
    requires Inv(w) && k in w.workers && (w.workers[k].Working? ==> ApiPoint(w.workers[k].at))
    ensures k in w.plan && Answered(w, k, Ok) && Inv(Tick(Next(w, k, Ok)))
    ensures forall r :: Answered(w, k, r) ==> r == Ok
  {
    hide Next, Progress, WorkerFine, ObjectFine, RankedAbove, TreesFine, UpsertOutcome, DeleteOutcome;
    assert ValidReply(w, k, Ok);
    CallKeepsInv(w, k, Ok);
  }

  lemma DoomedStep(w: World, k: Key, r: Reply)
    requires Typed(w) && k in w.workers && Doomed(w, k) && Answered(w, k, r)
    ensures Doomed(Tick(Next(w, k, r)), k)
  {
    hide AfterFetch, AfterAddFinalizer, AfterResolveReferences, AfterResolveDirectory, AfterResolveParent;
    hide AfterComputeDn;
    hide AfterSetOwner, AfterMapToEntry, AfterUpsert, DeleteOutcome, UpsertOutcome, HoldsFinalizer;
  }

  lemma {:induction false} DoomedStays(w: World, k: Key, rs: seq<Reply>, w': World)
    requires Answers(w, k, rs, w') && Doomed(w, k)
    ensures !IsReady(w', k)
    decreases |rs|
  {
    hide Next, Answered, Typed;
    if rs != [] {
      DoomedStep(w, k, rs[0]);
      DoomedStays(Tick(Next(w, k, rs[0])), k, rs[1..], w');
    }
  }

  /** The world after one successful API call. */
  ghost function Then(w: World, k: Key): World
    requires k in w.workers && k in w.plan
  {
    NextApi(w, k, true)
  }

  lemma FetchStep(w: World, k: Key)
    requires Inv(w) && k in w.plan && k !in w.workers
    ensures k !in w.store.objects ==> k !in Then(Begun(w, k), k).workers && !IsReady(Then(Begun(w, k), k), k)
    ensures k in w.store.objects ==>
              Staged(w, Then(Begun(w, k), k), k, None,
                     if w.store.objects[k].finalizer then ResolvingReferences else AddingFinalizer)
  {
    hide Next, Inv, Answered;
    BeginKeepsInv(w, k);
    ApiStep(Begun(w, k), k);
    FetchLeaves(Begun(w, k), k, Starting, true);
  }

  lemma FinalizerStep(w0: World, w: World, k: Key)
    requires Staged(w0, w, k, None, AddingFinalizer)
    ensures Staged(w0, Then(w, k), k, None, ResolvingReferences)
  {
    hide Next, Inv, Answered;
    ApiStep(w, k);
    AddFinalizerLeaves(w, k, w.workers[k], true);
  }

  lemma ReferencesStep(w0: World, w: World, k: Key)
    requires Staged(w0, w, k, None, ResolvingReferences) && !IsReady(w0, k)
    ensures if AllResolve(w0, k, w0.store.objects[k]) then Staged(w0, Then(w, k), k, None, ResolvingDirectory)
            else Doomed(Then(w, k), k)
  {
    hide Next, Inv, Answered;
    ApiStep(w, k);
    assert AllResolve(w, k, w.workers[k].obj) == AllResolve(w0, k, w0.store.objects[k]);
    ReferencesLeave(w, k, w.workers[k], true);
  }

  /** The directory is there, and Ready. */
  predicate DirectoryReady(w: World, d: string) {
    d in w.store.directories && w.store.directories[d]
  }

  lemma DirectoryStep(w0: World, w: World, k: Key)
    requires Staged(w0, w, k, None, ResolvingDirectory) && !IsReady(w0, k)
    ensures if DirectoryReady(w0, w0.plan[k].directory)
            then Staged(w0, Then(w, k), k, None, if w0.plan[k].parent.Some? then ResolvingParent else BuildingClient)
            else Doomed(Then(w, k), k)
  {
    hide Next, Inv, Answered;
    ApiStep(w, k);
    DirectoryLeaves(w, k, w.workers[k], true);
  }

  /** The parentRef, if there is one, names an object of the operator's that is Ready. */
  predicate ParentReady(w: World, k: Key)
    requires k in w.plan
  {
    match w.plan[k].parent
    case None => true
    case Some(ObjectRef(p)) => p in w.store.objects && w.store.objects[p].status.phase == Ready
    case Some(_) => false
  }

  function ParentKey(w: World, k: Key): Option<Key>
    requires k in w.plan && ParentReady(w, k)
  {
    match w.plan[k].parent
    case None => None
    case Some(ref) => Some(ref.key)
  }

  lemma ParentStep(w0: World, w: World, k: Key)
    requires Staged(w0, w, k, None, ResolvingParent) && !IsReady(w0, k) && w0.plan[k].parent.Some?
    requires Refers(w0, w0.plan[k].parent.value)
    ensures if ParentReady(w0, k) then Staged(w0, Then(w, k), k, ParentKey(w0, k), BuildingClient)
            else Doomed(Then(w, k), k)
  {
    hide Next, Inv, Answered;
    ApiStep(w, k);
    ParentLeaves(w, k, w.workers[k], true);
  }

  lemma ClientStep(w0: World, w: World, k: Key, parent: Option<Key>)
    requires Staged(w0, w, k, parent, BuildingClient)
    ensures Staged(w0, Then(w, k), k, parent, ComputingDn)
  {
    hide Next, Inv, Answered;
    ApiStep(w, k);
    ClientLeaves(w, k, w.workers[k], true);
  }

  /** The DN depends on which objects exist, not on what they hold. */
  lemma {:induction false} SameDepths(w0: World, w: World, k: Key, n: nat)
    requires SamePlan(w0, w) && k in w.plan && w.store.directories == w0.store.directories
    requires w.store.objects.Keys == w0.store.objects.Keys
    ensures DnWithin(w, k, n) == DnWithin(w0, k, n)
    decreases n
  {
    match w.plan[k].parent
    case Some(ObjectRef(p)) =>
      if p in w.store.objects && p in w.plan && n > 0 {
        SameDepths(w0, w, p, n - 1);
      }
    case Some(_) =>
    case None =>
  }

  /** The DN of k as GetDistinguishedName finds it, or why it does not. */
  function FoundDn(w: World, k: Key): DnResult
    requires k in w.plan
  {
    DnWithin(w, k, |w.store.objects.Keys|)
  }

  lemma StagedTyped(w0: World, w: World, k: Key, parent: Option<Key>, at: Point)
    requires Staged(w0, w, k, parent, at)
    ensures Typed(w) && Inv(w)
  {
  }

  lemma DnStep(w0: World, w: World, k: Key, parent: Option<Key>)
    requires Staged(w0, w, k, parent, ComputingDn) && !IsReady(w0, k)
    ensures if FoundDn(w0, k).DnFound? && !w0.store.objects[k].deleting
            then Staged(w0, Then(w, k), k, parent, SettingOwner(ParseDn(FoundDn(w0, k).dn)))
            else Doomed(Then(w, k), k)
  {
    hide Next, Inv, Answered, DnWithin, Terminates, ParseDn;
    StagedTyped(w0, w, k, parent, ComputingDn);
    ApiStep(w, k);
    assert w.store.objects.Keys == w0.store.objects.Keys;
    SameDepths(w0, w, k, |w0.store.objects.Keys|);
    DnLeaves(w, k, w.workers[k], FoundDn(w, k), true);
  }

  lemma OwnerStep(w0: World, w: World, k: Key, parent: Option<Key>, dn: Dn)
    requires Staged(w0, w, k, parent, SettingOwner(dn)) && (w0.plan[k].parent.Some? ==> parent.Some?)
    ensures Staged(w0, Then(w, k), k, parent, MappingEntry(dn))
  {
    hide Next, Inv, Answered;
    ApiStep(w, k);
    OwnerLeaves(w, k, w.workers[k], dn, true);
  }

  lemma MapStep(w0: World, w: World, k: Key, parent: Option<Key>, dn: Dn)
    requires Staged(w0, w, k, parent, MappingEntry(dn)) && !IsReady(w0, k)
    ensures var entry := MapToEntry(w0.store.secrets, dn, w0.store.objects[k].details);
            if entry.Some? then Staged(w0, Then(w, k), k, parent, Upserting(entry.value)) else Doomed(Then(w, k), k)
  {
    hide Next, Inv, Answered, MapToEntry;
    ApiStep(w, k);
    MappingLeaves(w, k, w.workers[k], dn, true);
  }

  // ---------------------------------------------------------------- the create-or-update, and Ready

  /** From w0 to w object k became Ready, its entry was added, and nothing else changed. */
  ghost predicate Achieved(w0: World, w: World, k: Key, e: DirectoryEntry) {
    && Inv(w) && SamePlan(w0, w) && k in w.plan && IsReady(w, k) && k in w0.store.objects
    && var d := w.plan[k].directory;
       && d in w0.store.trees && d in w.store.trees
       && w.store == w0.store.(objects := w0.store.objects[k := w.store.objects[k]],
                               trees := w0.store.trees[d := w.store.trees[d]])
       && e.dn in w.store.trees[d] && OnlyAt(w0.store.trees[d], w.store.trees[d], e.dn)
       && w.workers == w0.workers - {k}
  }

  /** What a reconcile that looked for this entry has come to. */
  ghost predicate Ends(w0: World, k: Key, entry: Option<DirectoryEntry>, w': World)
    requires k in w0.plan && Typed(w0)
  {
    var d := w0.plan[k].directory;
    && (IsReady(w', k) <==> entry.Some? && Addable(w0.bases[d], w0.store.trees[d], entry.value))
    && (IsReady(w', k) ==> Achieved(w0, w', k, entry.value))
  }

  /** The entry has been added and the worker is about to mark its object Ready. */
  ghost predicate Added(w0: World, w: World, k: Key, e: DirectoryEntry) {
    && Inv(w) && SamePlan(w0, w) && k in w.plan && MarkingReady(w, k) && k in w0.store.objects && k in w.store.objects
    && var d := w.plan[k].directory;
       && d in w0.store.trees && d in w.store.trees
       && w.store == w0.store.(objects := w0.store.objects[k := w.store.objects[k]],
                               trees := w0.store.trees[d := w.store.trees[d]])
       && e.dn in w.store.trees[d] && OnlyAt(w0.store.trees[d], w.store.trees[d], e.dn)
       && w.workers == w0.workers[k := w.workers[k]]
  }

  /** What the server answers decides between the two ways on. */
  lemma UpsertAnswer(w0: World, w: World, k: Key, parent: Option<Key>, e: DirectoryEntry, r: Reply)
    requires Staged(w0, w, k, parent, Upserting(e)) && Typed(w) && Answered(w, k, r)
    ensures UpsertingEntry(w, k) && r.Upserted?
    ensures var d := w0.plan[k].directory;
            && d in w0.bases && d in w0.store.trees
            && (r.outcome == Done(true) <==> Addable(w0.bases[d], w0.store.trees[d], e))
            && (r.outcome == Done(true) ==> e.dn in r.tree && OnlyAt(w0.store.trees[d], r.tree, e.dn))
  {
    hide UpsertOutcome, DeleteOutcome, Addable, OnlyAt, SameObject, TreesFine, WorkerFine, ObjectFine, RankedAbove;
    var d := w0.plan[k].directory;
    CreatesExactly(w0.bases[d], w0.store.trees[d], e, r.outcome, r.tree);
  }

  lemma AnswerKeepsInv(w: World, k: Key, r: Reply)
    requires Inv(w) && k in w.workers && Answered(w, k, r)
    ensures k in w.plan && Inv(Tick(Next(w, k, r)))
  {
    hide Next, ValidReply, Progress, Answered, TreesFine, WorkerFine, ObjectFine, RankedAbove;
    AnsweredIsValid(w, k, r);
    CallKeepsInv(w, k, r);
  }

  lemma UpsertStep(w0: World, w: World, k: Key, parent: Option<Key>, e: DirectoryEntry, r: Reply)
    requires Staged(w0, w, k, parent, Upserting(e)) && !IsReady(w0, k) && Typed(w) && Answered(w, k, r)
    ensures var d := w0.plan[k].directory;
            && d in w0.bases && d in w0.store.trees
            && if Addable(w0.bases[d], w0.store.trees[d], e) then Added(w0, Tick(Next(w, k, r)), k, e)
               else Doomed(Tick(Next(w, k, r)), k)
  {
    hide Next, Answered, Inv, Addable, OnlyAt;
    UpsertAnswer(w0, w, k, parent, e, r);
    AnswerKeepsInv(w, k, r);
    UpsertLeaves(w, k, w.workers[k], e, r.outcome, r.tree);
  }

  lemma ReadyStep(w0: World, w: World, k: Key, e: DirectoryEntry)
    requires Added(w0, w, k, e)
    ensures Answered(w, k, Ok) && Achieved(w0, Then(w, k), k, e)
  {
    hide Next, Inv, OnlyAt;
    ApiStep(w, k);
    MarkLeaves(w, k, w.workers[k], Ready, true);
  }

  // ---------------------------------------------------------------- exactly when a reconcile makes its object Ready

  /** The entry that k's object stands for once its references are resolved and Ready. */
  function EntryBelowReady(w: World, k: Key): Option<DirectoryEntry>
    requires k in w.plan && k in w.store.objects
  {
    if !FoundDn(w, k).DnFound? || w.store.objects[k].deleting then None
    else MapToEntry(w.store.secrets, ParseDn(FoundDn(w, k).dn), w.store.objects[k].details)
  }

  /** The entry k's reconcile would look for: None if a reference is missing or not Ready, or the object is deleted. */
  function EntryFor(w: World, k: Key): Option<DirectoryEntry>
    requires k in w.plan
  {
    if k !in w.store.objects || !AllResolve(w, k, w.store.objects[k]) then None
    else if !DirectoryReady(w, w.plan[k].directory) || !ParentReady(w, k) then None
    else EntryBelowReady(w, k)
  }

  lemma EntryIsMapped(w: World, k: Key)
    requires k in w.plan && EntryFor(w, k).Some?
    ensures k in w.store.objects && FoundDn(w, k).DnFound?
    ensures EntryFor(w, k) == MapToEntry(w.store.secrets, ParseDn(FoundDn(w, k).dn), w.store.objects[k].details)
  {
    hide AllResolve, FoundDn, MapToEntry;
  }

  lemma EndsUnready(w0: World, w: World, k: Key, rs: seq<Reply>, w': World)
    requires k in w0.plan && Inv(w0) && Answers(w, k, rs, w') && Doomed(w, k)
    ensures Ends(w0, k, None, w')
  {
    DoomedStays(w, k, rs, w');
  }

  lemma FromReady(w0: World, w: World, k: Key, e: DirectoryEntry, rs: seq<Reply>, w': World)
    requires Added(w0, w, k, e) && Answers(w, k, rs, w') && k !in w'.workers
    ensures Achieved(w0, w', k, e)
  {
    hide Answered, Next, Typed, Inv, OnlyAt, IsReady;
    FirstAnswer(w, k, rs, w');
    ReadyStep(w0, w, k, e);
    ApiStep(w, k);
    assert k !in Then(w, k).workers;
  }

  lemma FromUpsert(w0: World, w: World, k: Key, parent: Option<Key>, e: DirectoryEntry, rs: seq<Reply>, w': World)
    requires Inv(w0) && Staged(w0, w, k, parent, Upserting(e)) && !IsReady(w0, k)
    requires Answers(w, k, rs, w') && k !in w'.workers
    ensures Ends(w0, k, Some(e), w')
  {
    hide Answered, Next, OnlyAt, Addable, TreesFine, WorkerFine, ObjectFine, RankedAbove, Doomed;
    FirstAnswer(w, k, rs, w');
    UpsertStep(w0, w, k, parent, e, rs[0]);
    var after := Tick(Next(w, k, rs[0]));
    if Added(w0, after, k, e) {
      FromReady(w0, after, k, e, rs[1..], w');
    }
    if Doomed(after, k) {
      DoomedStays(after, k, rs[1..], w');
    }
  }

  /** One API call on, the rest of the worker's calls are still answered. */
  lemma OneOn(w: World, k: Key, rs: seq<Reply>, w': World)
    requires Answers(w, k, rs, w') && k in w.workers && k !in w'.workers && Inv(w)
    requires w.workers[k].Working? ==> ApiPoint(w.workers[k].at)
    ensures rs != [] && k in w.plan && Answers(Then(w, k), k, rs[1..], w')
  {
    hide Next, Answered, Inv;
    FirstAnswer(w, k, rs, w');
    ApiStep(w, k);
  }

  lemma FromMapping(w0: World, w: World, k: Key, parent: Option<Key>, dn: Dn, rs: seq<Reply>, w': World)
    requires Inv(w0) && Staged(w0, w, k, parent, MappingEntry(dn)) && !IsReady(w0, k)
    requires Answers(w, k, rs, w') && k !in w'.workers
    ensures Ends(w0, k, MapToEntry(w0.store.secrets, dn, w0.store.objects[k].details), w')
  {
    hide Answers, Answered, Next, Ends, Doomed, MapToEntry, Inv;
    OneOn(w, k, rs, w');
    MapStep(w0, w, k, parent, dn);
    var entry := MapToEntry(w0.store.secrets, dn, w0.store.objects[k].details);
    if entry.Some? {
      FromUpsert(w0, Then(w, k), k, parent, entry.value, rs[1..], w');
    } else {
      EndsUnready(w0, Then(w, k), k, rs[1..], w');
    }
  }

  lemma FromOwner(w0: World, w: World, k: Key, parent: Option<Key>, dn: Dn, rs: seq<Reply>, w': World)
    requires Inv(w0) && Staged(w0, w, k, parent, SettingOwner(dn)) && !IsReady(w0, k)
    requires w0.plan[k].parent.Some? ==> parent.Some?
    requires Answers(w, k, rs, w') && k !in w'.workers
    ensures Ends(w0, k, MapToEntry(w0.store.secrets, dn, w0.store.objects[k].details), w')
  {
    hide Answers, Answered, Next, Ends, Doomed, MapToEntry, Inv;
    OneOn(w, k, rs, w');
    OwnerStep(w0, w, k, parent, dn);
    FromMapping(w0, Then(w, k), k, parent, dn, rs[1..], w');
  }

  lemma FromDn(w0: World, w: World, k: Key, parent: Option<Key>, rs: seq<Reply>, w': World)
    requires Inv(w0) && Staged(w0, w, k, parent, ComputingDn) && !IsReady(w0, k)
    requires w0.plan[k].parent.Some? ==> parent.Some?
    requires Answers(w, k, rs, w') && k !in w'.workers
    ensures Ends(w0, k, EntryBelowReady(w0, k), w')
  {
    hide Answers, Answered, Next, Ends, Doomed, MapToEntry, Inv, FoundDn;
    OneOn(w, k, rs, w');
    DnStep(w0, w, k, parent);
    if FoundDn(w0, k).DnFound? && !w0.store.objects[k].deleting {
      FromOwner(w0, Then(w, k), k, parent, ParseDn(FoundDn(w0, k).dn), rs[1..], w');
    } else {
      EndsUnready(w0, Then(w, k), k, rs[1..], w');
    }
  }

  lemma FromClient(w0: World, w: World, k: Key, parent: Option<Key>, rs: seq<Reply>, w': World)
    requires Inv(w0) && Staged(w0, w, k, parent, BuildingClient) && !IsReady(w0, k)
    requires w0.plan[k].parent.Some? ==> parent.Some?
    requires Answers(w, k, rs, w') && k !in w'.workers
    ensures Ends(w0, k, EntryBelowReady(w0, k), w')
  {
    hide Answers, Answered, Next, Ends, EntryBelowReady, Inv;
    OneOn(w, k, rs, w');
    ClientStep(w0, w, k, parent);
    FromDn(w0, Then(w, k), k, parent, rs[1..], w');
  }

  lemma FromParent(w0: World, w: World, k: Key, rs: seq<Reply>, w': World)
    requires Inv(w0) && Staged(w0, w, k, None, ResolvingParent) && !IsReady(w0, k)
    requires w0.plan[k].parent.Some? && Refers(w0, w0.plan[k].parent.value)
    requires Answers(w, k, rs, w') && k !in w'.workers
    ensures Ends(w0, k, if ParentReady(w0, k) then EntryBelowReady(w0, k) else None, w')
  {
    hide Answers, Answered, Next, Ends, EntryBelowReady, Inv, Doomed;
    OneOn(w, k, rs, w');
    ParentStep(w0, w, k);
    if ParentReady(w0, k) {
      FromClient(w0, Then(w, k), k, ParentKey(w0, k), rs[1..], w');
    } else {
      EndsUnready(w0, Then(w, k), k, rs[1..], w');
    }
  }

  lemma ParentResolves(w: World, k: Key)
    requires k in w.plan && k in w.store.objects && AllResolve(w, k, w.store.objects[k]) && w.plan[k].parent.Some?
    ensures Refers(w, w.plan[k].parent.value)
  {
  }

  lemma FromDirectory(w0: World, w: World, k: Key, rs: seq<Reply>, w': World)
    requires Inv(w0) && Staged(w0, w, k, None, ResolvingDirectory) && !IsReady(w0, k)
    requires AllResolve(w0, k, w0.store.objects[k])
    requires Answers(w, k, rs, w') && k !in w'.workers
    ensures Ends(w0, k, EntryFor(w0, k), w')
  {
    hide Answers, Answered, Next, Ends, EntryBelowReady, Inv, Doomed;
    hide SameObject, IsReady, AllResolve, Refers;
    OneOn(w, k, rs, w');
    DirectoryStep(w0, w, k);
    if !DirectoryReady(w0, w0.plan[k].directory) {
      EndsUnready(w0, Then(w, k), k, rs[1..], w');
    } else if w0.plan[k].parent.Some? {
      ParentResolves(w0, k);
      FromParent(w0, Then(w, k), k, rs[1..], w');
    } else {
      FromClient(w0, Then(w, k), k, None, rs[1..], w');
    }
  }

  lemma FromReferences(w0: World, w: World, k: Key, rs: seq<Reply>, w': World)
    requires Inv(w0) && Staged(w0, w, k, None, ResolvingReferences) && !IsReady(w0, k)
    requires Answers(w, k, rs, w') && k !in w'.workers
    ensures Ends(w0, k, EntryFor(w0, k), w')
  {
    hide Answers, Answered, Next, Ends, EntryBelowReady, Inv, Doomed;
    hide AllResolve, ParentReady;
    OneOn(w, k, rs, w');
    ReferencesStep(w0, w, k);
    if AllResolve(w0, k, w0.store.objects[k]) {
      FromDirectory(w0, Then(w, k), k, rs[1..], w');
    } else {
      EndsUnready(w0, Then(w, k), k, rs[1..], w');
    }
  }

  /**
   * A reconcile with all its calls answered makes an object that is not Ready so exactly when its references exist, its
   * directory and parent are Ready, its DN is found, it is not being deleted, and the entry it stands for can be added:
   * it is missing and its superior is there. From every world in which the invariant holds.
   */
  lemma ReadyExactly(w: World, k: Key, w': World)
    requires Inv(w) && k in w.plan && !IsReady(w, k) && Reconciled(w, k, w')
    ensures Ends(w, k, EntryFor(w, k), w')
  {
    hide Next, Answered, Staged, Ends, TreesFine, WorkerFine, ObjectFine, RankedAbove, AllResolve, EntryBelowReady;
    var rs :| Answers(Begun(w, k), k, rs, w');
    BeginKeepsInv(w, k);
    OneOn(Begun(w, k), k, rs, w');
    FetchStep(w, k);
    var fetched := Then(Begun(w, k), k);
    if k !in w.store.objects {
      EndsUnready(w, fetched, k, rs[1..], w');
    } else if w.store.objects[k].finalizer {
      FromReferences(w, fetched, k, rs[1..], w');
    } else {
      AfterFinalizer(w, fetched, k, rs[1..], w');
    }
  }

  lemma AfterFinalizer(w0: World, w: World, k: Key, rs: seq<Reply>, w': World)
    requires Inv(w0) && Staged(w0, w, k, None, AddingFinalizer) && !IsReady(w0, k)
    requires Answers(w, k, rs, w') && k !in w'.workers
    ensures Ends(w0, k, EntryFor(w0, k), w')
  {
    hide Answers, Answered, Next, Ends, EntryFor, Inv;
    OneOn(w, k, rs, w');
    FinalizerStep(w0, w, k);
    FromReferences(w0, Then(w, k), k, rs[1..], w');
  }

  // ---------------------------------------------------------------- such reconciles exist

  /** How many calls a worker may still make: each call takes it further. */
  function CallsLeft(me: Worker): nat {
    if me.Starting? then 11 else PointsLeft(me.at)
  }

  function PointsLeft(at: Point): nat {
    match at
    case AddingFinalizer => 10
    case ResolvingReferences => 9
    case ResolvingDirectory => 8
    case ResolvingParent => 7
    case BuildingClient => 6
    case ComputingDn => 5
    case SettingOwner(_) => 4
    case MappingEntry(_) => 3
    case Upserting(_) => 2
    case DeletingEntry(_) => 2
    case RemovingFinalizer(_) => 1
    case Marking(_, _) => 1
  }

  /** The worker is done, or further on. */
  predicate Falls(w: World, w': World, k: Key)
    requires k in w.workers
  {
    k in w'.workers ==> CallsLeft(w'.workers[k]) < CallsLeft(w.workers[k])
  }

  lemma FirstCallsFall(w: World, k: Key, r: Reply)
    requires k in w.workers && k in w.plan && CallsLeft(w.workers[k]) >= 9
    ensures Falls(w, Next(w, k, r), k)
  {
    hide AfterResolveDirectory, AfterResolveParent, AfterComputeDn, AfterDeleteEntry, AfterRemoveFinalizer;
    hide AfterSetOwner, AfterMapToEntry, AfterUpsert, AfterMark, HoldsFinalizer, Ordinary, AllResolve, Refers;
  }

  lemma DirectoryFalls(w: World, k: Key, r: Reply)
    requires k in w.workers && k in w.plan && CallsLeft(w.workers[k]) == 8
    ensures Falls(w, Next(w, k, r), k)
  {
    hide AfterFetch, AfterAddFinalizer, AfterResolveReferences, AfterResolveParent, AfterComputeDn, AfterDeleteEntry;
    hide AfterRemoveFinalizer, AfterSetOwner, AfterMapToEntry, AfterUpsert, AfterMark, HoldsFinalizer, Ordinary;
    hide AllResolve, Refers;
  }

  lemma ParentFalls(w: World, k: Key, r: Reply)
    requires k in w.workers && k in w.plan && CallsLeft(w.workers[k]) == 7
    ensures Falls(w, Next(w, k, r), k)
  {
    hide AfterFetch, AfterAddFinalizer, AfterResolveReferences, AfterResolveDirectory, AfterComputeDn;
    hide AfterDeleteEntry, AfterRemoveFinalizer, AfterSetOwner, AfterMapToEntry, AfterUpsert, AfterMark;
    hide HoldsFinalizer, Ordinary, AllResolve, Refers;
  }

  lemma DnFalls(w: World, k: Key, r: Reply)
    requires k in w.workers && k in w.plan && 5 <= CallsLeft(w.workers[k]) <= 6
    ensures Falls(w, Next(w, k, r), k)
  {
    hide AfterFetch, AfterAddFinalizer, AfterResolveReferences, AfterResolveDirectory, AfterResolveParent;
    hide AfterDeleteEntry, AfterRemoveFinalizer, AfterSetOwner, AfterMapToEntry, AfterUpsert, AfterMark;
    hide HoldsFinalizer, Ordinary, AllResolve, Refers, DnWithin, ComputedDn, Terminates, ParseDn;
  }

  lemma OwnerFalls(w: World, k: Key, r: Reply)
    requires k in w.workers && k in w.plan && CallsLeft(w.workers[k]) == 4
    ensures Falls(w, Next(w, k, r), k)
  {
    hide AfterFetch, AfterAddFinalizer, AfterResolveReferences, AfterResolveDirectory, AfterResolveParent;
    hide AfterComputeDn, AfterDeleteEntry, AfterRemoveFinalizer, AfterMapToEntry, AfterUpsert, AfterMark;
    hide HoldsFinalizer, Ordinary, AllResolve, Refers;
  }

  lemma MappingFalls(w: World, k: Key, r: Reply)
    requires k in w.workers && k in w.plan && CallsLeft(w.workers[k]) == 3
    ensures Falls(w, Next(w, k, r), k)
  {
    hide AfterFetch, AfterAddFinalizer, AfterResolveReferences, AfterResolveDirectory, AfterResolveParent;
    hide AfterComputeDn, AfterDeleteEntry, AfterRemoveFinalizer, AfterSetOwner, AfterUpsert, AfterMark;
    hide HoldsFinalizer, Ordinary, AllResolve, Refers, MapToEntry;
  }

  lemma LastCallsFall(w: World, k: Key, r: Reply)
    requires Typed(w) && k in w.workers && k in w.plan && CallsLeft(w.workers[k]) <= 2 && Answered(w, k, r)
    ensures Falls(w, Next(w, k, r), k)
  {
    hide AfterFetch, AfterAddFinalizer, AfterResolveReferences, AfterResolveDirectory, AfterResolveParent;
    hide AfterComputeDn, AfterSetOwner, AfterMapToEntry, HoldsFinalizer, Ordinary, AllResolve, Refers, DeleteOutcome;
    hide UpsertOutcome;
  }

  lemma CallFalls(w: World, k: Key, r: Reply)
    requires Typed(w) && k in w.workers && k in w.plan && Answered(w, k, r)
    ensures Falls(w, Next(w, k, r), k)
  {
    hide Next, Answered, Typed;
    match CallsLeft(w.workers[k])
    case 8 => DirectoryFalls(w, k, r);
    case 7 => ParentFalls(w, k, r);
    case 4 => OwnerFalls(w, k, r);
    case 3 => MappingFalls(w, k, r);
    case left =>
      if left >= 9 {
        FirstCallsFall(w, k, r);
      } else if left >= 5 {
        DnFalls(w, k, r);
      } else {
        LastCallsFall(w, k, r);
      }
  }

  lemma SomeAnswer(w: World, k: Key) returns (r: Reply)
    requires Inv(w) && k in w.workers
    ensures Answered(w, k, r)
  {
    hide UpsertOutcome, WorkerFine, ObjectFine, RankedAbove;
    var d := w.plan[k].directory;
    assert TreeFine(w, d);
    r := Ok;
    if w.workers[k].Working? {
      match w.workers[k].at
      case DeletingEntry(dn) => r := SomeDelete(w.bases[d], w.store.trees[d], dn);
      case Upserting(e) =>
        var outcome, t := SomeUpsert(w.bases[d], w.store.trees[d], e);
        r := Upserted(outcome, t);
      case _ =>
    }
  }

  lemma SomeDelete(base: Dn, t: Tree, dn: Dn) returns (r: Reply)
    requires WellFormed(base, t)
    ensures r.Deleted? && DeleteOutcome(base, t, dn, true, r.code, r.tree)
  {
    r := Deleted(Success, t - Subtree(t, dn));
    assert t.Keys - r.tree.Keys == Subtree(t, dn);
    RemovingSubtreeKeepsShape(base, t, dn);
  }

  lemma {:induction false} SomeAnswers(w: World, k: Key) returns (rs: seq<Reply>, w': World)
    requires Inv(w) && k in w.workers
    ensures Answers(w, k, rs, w') && k !in w'.workers && Inv(w')
    decreases CallsLeft(w.workers[k])
  {
    hide Next, Answered, TreesFine, WorkerFine, ObjectFine, RankedAbove, ValidReply, Progress;
    var r := SomeAnswer(w, k);
    AnsweredIsValid(w, k, r);
    CallKeepsInv(w, k, r);
    CallFalls(w, k, r);
    var after := Tick(Next(w, k, r));
    if k in after.workers {
      var rest;
      rest, w' := SomeAnswers(after, k);
      rs := [r] + rest;
      assert rs[1..] == rest;
    } else {
      rs, w' := [r], after;
      assert rs[1..] == [];
    }
  }

  lemma SomeReconcile(w: World, k: Key) returns (w': World)
    requires Inv(w) && k in w.plan && k !in w.workers
    ensures Reconciled(w, k, w')
  {
    hide Next, Inv, Answers;
    BeginKeepsInv(w, k);
    var rs, end := SomeAnswers(Begun(w, k), k);
    w' := end;
  }

  // ---------------------------------------------------------------- a chain of parents, from the top

  /** The keys are reconciled one after the other. */
  ghost predicate InOrder(w: World, path: seq<Key>, w': World)
    decreases |path|
  {
    if path == [] then w' == w
    else exists m :: Reconciled(w, path[0], m) && InOrder(m, path[1..], w')
  }

  /** Nothing of the object's own stands in its way: what it refers to besides its parent is there, its entry is not. */
  ghost predicate Waiting(w: World, k: Key, d: string, dn: Dn) {
    && k in w.plan && w.plan[k].directory == d && k !in w.workers && ',' !in w.plan[k].name
    && k in w.store.objects && !w.store.objects[k].deleting && !IsReady(w, k)
    && DetailsInOrder(w, w.store.objects[k].details)
    && IsDnOf(w, k, dn) && !HasEntry(w, d, dn)
  }

  /** A user's password secret exists, and a group has members, each once. */
  predicate DetailsInOrder(w: World, details: Details) {
    match details
    case OrganizationalUnitDetails(_, _) => true
    case GroupDetails(_, _, members) => members != [] && Distinct(members)
    case UserDetails(_, _, _, _, ref) => ref.Some? ==> ref.value in w.store.secrets
  }

  /** A parent to build on: Ready, its DN can be found, and its entry is there. */
  ghost predicate Standing(w: World, p: Key, d: string, dn: Dn) {
    && p in w.plan && IsReady(w, p) && IsDnOf(w, p, dn) && HasEntry(w, d, dn)
    && FoundDn(w, p).DnFound?
  }

  /** The first of the path has no parent, or one that stands. */
  ghost predicate Founded(w: World, k: Key, d: string, above: Dn)
    requires k in w.plan
  {
    match w.plan[k].parent
    case None => d in w.bases && w.bases[d] == above && HasEntry(w, d, above)
    case Some(ObjectRef(p)) => Standing(w, p, d, above)
    case Some(_) => false
  }

  lemma FoundTop(w: World, k: Key, d: string, dn: Dn, above: Dn)
    requires Typed(w) && RightBases(w) && DirectoryReady(w, d) && Waiting(w, k, d, dn) && Founded(w, k, d, above)
    requires w.plan[k].parent.None?
    ensures FoundDn(w, k).DnFound? && dn != [] && dn[1..] == above
  {
    var s :| HasDn(w, k, s) && ParseDn(s) == dn;
    DnOfTop(w, k, s);
    BaseDnsAgree(w.domains[d]);
    SuperiorOf(k, w.plan[k], DirectoryDn(w.domains[d]));
  }

  lemma FoundChild(w: World, k: Key, d: string, dn: Dn, above: Dn)
    requires Typed(w) && Waiting(w, k, d, dn) && Founded(w, k, d, above) && w.plan[k].parent.Some?
    ensures FoundDn(w, k).DnFound?
  {
    hide IsDnOf, HasEntry, DetailsInOrder;
    var p, n := w.plan[k].parent.value.key, |w.store.objects.Keys|;
    assert DnWithin(w, k, n + 1).DnFound?;
    ComputedAt(w, k, n + 1);
    EndsWithinObjects(w, k);
  }

  /** The DN of a child is one component longer than its parent's. */
  lemma ChildDn(w: World, k: Key, p: Key, dn: Dn, above: Dn)
    requires k in w.plan && w.plan[k].parent == Some(ObjectRef(p)) && ',' !in w.plan[k].name
    requires IsDnOf(w, k, dn) && IsDnOf(w, p, above)
    ensures dn != [] && dn[1..] == above
  {
    var s :| HasDn(w, k, s) && ParseDn(s) == dn;
    var t := DnOfChild(w, k, p, s);
    assert IsDnOf(w, p, ParseDn(t));
    SameDnIsSame(w, p, above, ParseDn(t));
    SuperiorOf(k, w.plan[k], t);
  }

  lemma FoundFirst(w: World, k: Key, d: string, dn: Dn, above: Dn)
    requires Typed(w) && RightBases(w) && DirectoryReady(w, d) && Waiting(w, k, d, dn) && Founded(w, k, d, above)
    ensures FoundDn(w, k).DnFound? && ParseDn(FoundDn(w, k).dn) == dn && dn != [] && dn[1..] == above
  {
    hide HasEntry, DetailsInOrder, IsReady, RightBases, DnWithin, HasDn, ParseDn;
    if w.plan[k].parent.None? {
      FoundTop(w, k, d, dn, above);
    } else {
      FoundChild(w, k, d, dn, above);
      ChildDn(w, k, w.plan[k].parent.value.key, dn, above);
    }
    ComputedIsPrinted(w, k, |w.store.objects.Keys|);
    assert IsDnOf(w, k, ParseDn(FoundDn(w, k).dn));
    SameDnIsSame(w, k, dn, ParseDn(FoundDn(w, k).dn));
  }

  /** The entry of an object that waits on firm ground can be added. */
  lemma FirstIsAddable(w: World, k: Key, d: string, dn: Dn, above: Dn)
    requires Inv(w) && RightBases(w) && DirectoryReady(w, d) && Waiting(w, k, d, dn) && Founded(w, k, d, above)
    ensures d in w.bases && d in w.store.trees
    ensures EntryFor(w, k).Some? && EntryFor(w, k).value.dn == dn
    ensures Addable(w.bases[d], w.store.trees[d], EntryFor(w, k).value)
  {
    hide TreesFine, WorkerFine, ObjectFine, RankedAbove, RightBases, IsDnOf, FoundDn, ParseDn;
    FoundFirst(w, k, d, dn, above);
    assert AllResolve(w, k, w.store.objects[k]);
  }

  lemma AchievedStands(w: World, m: World, k: Key, e: DirectoryEntry, d: string)
    requires Achieved(w, m, k, e) && k in w.plan && w.plan[k].directory == d && k in w.store.objects
    requires IsDnOf(w, k, e.dn) && FoundDn(w, k).DnFound?
    ensures Standing(m, k, d, e.dn) && m.store.directories == w.store.directories
    ensures forall x :: IsReady(w, x) ==> IsReady(m, x)
  {
    hide Inv, IsDnOf, DnWithin, OnlyAt;
    assert m.store.objects.Keys == w.store.objects.Keys;
    SameDepths(w, m, k, |w.store.objects.Keys|);
    SameDnOf(w, m, k, e.dn);
  }

  /** After its reconcile the object stands, and others are as they were. */
  lemma StandsAfter(w: World, k: Key, d: string, dn: Dn, above: Dn, m: World)
    requires Inv(w) && RightBases(w) && DirectoryReady(w, d) && Waiting(w, k, d, dn) && Founded(w, k, d, above)
    requires Reconciled(w, k, m)
    ensures Inv(m) && RightBases(m) && DirectoryReady(m, d) && Standing(m, k, d, dn)
    ensures exists e: DirectoryEntry :: e.dn == dn && Achieved(w, m, k, e)
    ensures forall x :: IsReady(w, x) ==> IsReady(m, x)
  {
    hide Founded, HasEntry, DetailsInOrder, Reconciled, Standing, EntryFor, Addable, OnlyAt, IsDnOf, FoundDn;
    hide TreesFine, WorkerFine, ObjectFine, RankedAbove, IsReady, ParseDn;
    FirstIsAddable(w, k, d, dn, above);
    ReadyExactly(w, k, m);
    FoundFirst(w, k, d, dn, above);
    AchievedStands(w, m, k, EntryFor(w, k).value, d);
  }

  lemma StillWaiting(w: World, m: World, k: Key, e: DirectoryEntry, x: Key, d: string, dn: Dn)
    requires Achieved(w, m, k, e) && Waiting(w, x, d, dn) && x != k && dn != e.dn
    ensures Waiting(m, x, d, dn)
  {
    hide IsDnOf, Inv;
    SameDnOf(w, m, x, dn);
  }

  /** Each key's parentRef names the one before. */
  predicate Downward(plan: map<Key, Identity>, path: seq<Key>) {
    forall i :: 0 < i < |path| ==> path[i] in plan && plan[path[i]].parent == Some(ObjectRef(path[i - 1]))
  }

  /** A chain that waits, with these DNs, in a Ready directory. */
  ghost predicate ChainWaits(w: World, path: seq<Key>, d: string, dns: seq<Dn>) {
    && Inv(w) && RightBases(w) && DirectoryReady(w, d) && Downward(w.plan, path) && |dns| == |path|
    && forall i {:trigger path[i]} :: 0 <= i < |path| ==> Waiting(w, path[i], d, dns[i])
  }

  lemma {:induction false} DnsLengthen(w: World, path: seq<Key>, d: string, dns: seq<Dn>, i: nat)
    requires ChainWaits(w, path, d, dns) && i < |path|
    ensures |dns[i]| == |dns[0]| + i
  {
    hide Inv, RightBases, IsDnOf, HasEntry, DetailsInOrder;
    if i > 0 {
      DnsLengthen(w, path, d, dns, i - 1);
      assert Waiting(w, path[i], d, dns[i]) && Waiting(w, path[i - 1], d, dns[i - 1]);
      ChildDn(w, path[i], path[i - 1], dns[i], dns[i - 1]);
    }
  }

  /** The first of a founded chain does not come again. */
  lemma FirstIsOnce(w: World, path: seq<Key>, d: string, dns: seq<Dn>, above: Dn, i: nat)
    requires ChainWaits(w, path, d, dns) && 0 < i < |path| && path[0] in w.plan && Founded(w, path[0], d, above)
    ensures path[i] != path[0]
  {
    hide Inv, RightBases, IsDnOf, HasEntry, DetailsInOrder, FoundDn;
    assert Waiting(w, path[i - 1], d, dns[i - 1]);
    assert w.plan[path[i]].parent == Some(ObjectRef(path[i - 1]));
  }

  lemma RestWaits(w: World, path: seq<Key>, d: string, dns: seq<Dn>, above: Dn, m: World)
    requires ChainWaits(w, path, d, dns) && path != [] && path[0] in w.plan && Founded(w, path[0], d, above)
    requires Reconciled(w, path[0], m)
    ensures ChainWaits(m, path[1..], d, dns[1..]) && Standing(m, path[0], d, dns[0])
    ensures |path| > 1 ==> path[1] in m.plan && Founded(m, path[1], d, dns[0])
    ensures forall x :: IsReady(w, x) ==> IsReady(m, x)
  {
    hide Inv, RightBases, IsDnOf, HasEntry, Waiting, Reconciled, Standing, DirectoryReady;
    assert Waiting(w, path[0], d, dns[0]);
    StandsAfter(w, path[0], d, dns[0], above, m);
    var e: DirectoryEntry :| e.dn == dns[0] && Achieved(w, m, path[0], e);
    var rest, ends := path[1..], dns[1..];
    forall i | 0 <= i < |rest| ensures Waiting(m, rest[i], d, ends[i]) {
      assert Waiting(w, path[i + 1], d, dns[i + 1]);
      FirstIsOnce(w, path, d, dns, above, i + 1);
      DnsLengthen(w, path, d, dns, i + 1);
      StillWaiting(w, m, path[0], e, path[i + 1], d, dns[i + 1]);
    }
    if |path| > 1 {
      assert w.plan[path[1]].parent == Some(ObjectRef(path[0]));
      assert rest[0] == path[1] && path[1] in m.plan;
    }
  }

  /**
   * Reconciled from the top, with all calls answered, a whole chain of parents becomes Ready, whatever each call
   * answers; and what was Ready before stays so.
   */
  lemma {:induction false} ChainBecomesReady(w: World, path: seq<Key>, d: string, dns: seq<Dn>, above: Dn, w': World)
    requires ChainWaits(w, path, d, dns) && InOrder(w, path, w')
    requires path != [] ==> path[0] in w.plan && Founded(w, path[0], d, above)
    ensures forall i :: 0 <= i < |path| ==> IsReady(w', path[i])
    ensures forall x :: IsReady(w, x) ==> IsReady(w', x)
    decreases |path|
  {
    hide Inv, Waiting, Downward, Founded, Reconciled, FoundDn, RightBases, IsReady, DirectoryReady;
    if path != [] {
      var m :| Reconciled(w, path[0], m) && InOrder(m, path[1..], w');
      RestWaits(w, path, d, dns, above, m);
      ChainBecomesReady(m, path[1..], d, dns[1..], dns[0], w');
      assert IsReady(m, path[0]);
      forall i | 0 <= i < |path| ensures IsReady(w', path[i]) {
        assert i > 0 ==> path[i] == path[1..][i - 1];
      }
    }
  }

  /** And there are such reconciles: the machine has a run that makes the whole chain Ready. */
  lemma {:induction false} ChainCanBecomeReady(w: World, path: seq<Key>, d: string, dns: seq<Dn>, above: Dn)
    returns (es: seq<Event>, w': World)
    requires ChainWaits(w, path, d, dns)
    requires path != [] ==> path[0] in w.plan && Founded(w, path[0], d, above)
    ensures Legal(w, es) && After(w, es) == w' && InOrder(w, path, w') && Inv(w')
    decreases |path|
  {
    hide TreesFine, Founded, Reconciled, FoundDn, RightBases, Waiting, Legal, After, ObjectFine, WorkerFine;
    hide RankedAbove;
    if path == [] {
      es, w' := NoEvents(w);
    } else {
      assert Waiting(w, path[0], d, dns[0]) && path[0] in w.plan && path[0] !in w.workers by {
        WaitingIsIdle(w, path[0], d, dns[0]);
      }
      var m := SomeReconcile(w, path[0]);
      var first := ReconciledIsRun(w, path[0], m);
      RestWaits(w, path, d, dns, above, m);
      var rest;
      rest, w' := ChainCanBecomeReady(m, path[1..], d, dns[1..], dns[0]);
      RunJoins(w, first, rest);
      es := first + rest;
    }
  }

  lemma NoEvents(w: World) returns (es: seq<Event>, w': World)
    ensures es == [] && w' == w && Legal(w, es) && After(w, es) == w'
  {
    es, w' := [], w;
  }

  lemma WaitingIsIdle(w: World, k: Key, d: string, dn: Dn)
    requires Waiting(w, k, d, dn)
    ensures k in w.plan && k !in w.workers
  {
  }

  // ---------------------------------------------------------------- a creation that gets lost

  lemma {:induction false} AnswersExtend(w: World, k: Key, rs: seq<Reply>, m: World, r: Reply)
    requires Answers(w, k, rs, m) && Typed(m) && k in m.workers && Answered(m, k, r)
    ensures Answers(w, k, rs + [r], Tick(Next(m, k, r)))
    decreases |rs|
  {
    hide Next, Answered;
    if rs == [] {
      assert ([] + [r])[1..] == [];
    } else {
      AnswersExtend(Tick(Next(w, k, rs[0])), k, rs[1..], m, r);
      assert (rs + [r])[1..] == rs[1..] + [r];
    }
  }

  /** One more successful API call. */
  lemma OneMore(w: World, k: Key, rs: seq<Reply>, m: World) returns (more: seq<Reply>)
    requires Answers(w, k, rs, m) && Inv(m) && k in m.workers && (m.workers[k].Working? ==> ApiPoint(m.workers[k].at))
    ensures k in m.plan && Answers(w, k, more, Then(m, k))
  {
    hide Next, Answered, TreesFine, WorkerFine, ObjectFine, RankedAbove, Answers;
    ApiStep(m, k);
    AnswersExtend(w, k, rs, m, Ok);
    more := rs + [Ok];
  }

  lemma ToReferences(w: World, k: Key) returns (rs: seq<Reply>, m: World)
    requires Inv(w) && k in w.plan && k !in w.workers && k in w.store.objects
    ensures Answers(Begun(w, k), k, rs, m) && Staged(w, m, k, None, ResolvingReferences)
  {
    hide Next, Answered, TreesFine, WorkerFine, ObjectFine, RankedAbove;
    BeginKeepsInv(w, k);
    rs := OneMore(Begun(w, k), k, [], Begun(w, k));
    FetchStep(w, k);
    m := Then(Begun(w, k), k);
    if !w.store.objects[k].finalizer {
      rs := OneMore(Begun(w, k), k, rs, m);
      FinalizerStep(w, m, k);
      m := Then(m, k);
    }
  }

  lemma ToDirectory(w: World, k: Key) returns (rs: seq<Reply>, m: World)
    requires Inv(w) && k in w.plan && k !in w.workers && !IsReady(w, k)
    requires k in w.store.objects && AllResolve(w, k, w.store.objects[k])
    ensures Answers(Begun(w, k), k, rs, m) && Staged(w, m, k, None, ResolvingDirectory)
  {
    hide Next, Answers, Answered, Inv, SameObject, Doomed, AllResolve, IsReady;
    rs, m := ToReferences(w, k);
    rs := OneMore(Begun(w, k), k, rs, m);
    ReferencesStep(w, m, k);
    m := Then(m, k);
  }

  lemma ToClient(w: World, k: Key) returns (rs: seq<Reply>, m: World)
    requires Inv(w) && k in w.plan && k !in w.workers && EntryFor(w, k).Some? && !IsReady(w, k)
    ensures Answers(Begun(w, k), k, rs, m) && Staged(w, m, k, ParentKey(w, k), BuildingClient)
  {
    hide Next, Answers, Answered, Inv, SameObject, Doomed, AllResolve, IsReady, Refers, EntryBelowReady;
    rs, m := ToDirectory(w, k);
    rs := OneMore(Begun(w, k), k, rs, m);
    DirectoryStep(w, m, k);
    m := Then(m, k);
    if w.plan[k].parent.Some? {
      ParentResolves(w, k);
      rs := OneMore(Begun(w, k), k, rs, m);
      ParentStep(w, m, k);
      m := Then(m, k);
    }
  }

  lemma ToOwner(w: World, k: Key) returns (rs: seq<Reply>, m: World, parent: Option<Key>)
    requires Inv(w) && k in w.plan && k !in w.workers && EntryFor(w, k).Some? && !IsReady(w, k)
    ensures w.plan[k].parent.Some? ==> parent.Some?
    ensures Answers(Begun(w, k), k, rs, m) && Staged(w, m, k, parent, SettingOwner(ParseDn(FoundDn(w, k).dn)))
  {
    hide Next, Answers, Answered, Inv, SameObject, Doomed, AllResolve, FoundDn, MapToEntry, IsReady;
    rs, m := ToClient(w, k);
    parent := ParentKey(w, k);
    rs := OneMore(Begun(w, k), k, rs, m);
    ClientStep(w, m, k, parent);
    m := Then(m, k);
    rs := OneMore(Begun(w, k), k, rs, m);
    DnStep(w, m, k, parent);
    m := Then(m, k);
  }

  /** An object that stands for an entry gets as far as its create-or-update. */
  lemma ToUpserting(w: World, k: Key) returns (rs: seq<Reply>, m: World, parent: Option<Key>)
    requires Inv(w) && k in w.plan && k !in w.workers && EntryFor(w, k).Some? && !IsReady(w, k)
    ensures Answers(Begun(w, k), k, rs, m) && Staged(w, m, k, parent, Upserting(EntryFor(w, k).value))
  {
    hide Next, Answers, Answered, Inv, SameObject, Doomed, AllResolve, FoundDn, MapToEntry, IsReady, ParentReady;
    rs, m, parent := ToOwner(w, k);
    var dn := ParseDn(FoundDn(w, k).dn);
    rs := OneMore(Begun(w, k), k, rs, m);
    OwnerStep(w, m, k, parent, dn);
    m := Then(m, k);
    rs := OneMore(Begun(w, k), k, rs, m);
    MapStep(w, m, k, parent, dn);
    m := Then(m, k);
  }

  /** The Add of a user is answered, the setting of its password is not. */
  lemma PasswordLost(base: Dn, t: Tree, e: DirectoryEntry) returns (t': Tree)
    requires e.UserEntry? && e.password != "" && Addable(base, t, e)
    ensures t' == Apply(base, t, AddEntry(e.dn, InitialAttributes(e))).1
    ensures e.dn in t' && t'[e.dn].password.None?
    ensures UpsertOutcome(base, t, e, false, Refused(Unavailable), t')
  {
    AddableExactly(base, t, e);
    t' := Apply(base, t, AddEntry(e.dn, InitialAttributes(e))).1;
    assert Responds(base, t, AddEntry(e.dn, InitialAttributes(e)), false, Success, t');
    assert PasswordSet(base, t', e, Hash(0, e.password), false, Unavailable, t');
    assert CreateOutcome(base, t, e, false, Refused(Unavailable), t');
    assert Candidates(t, e) == {};
  }

  /**
   * From every world in which a user's entry can be added, one unanswered call, the setting of the password, is enough
   * for a run after which the object never becomes Ready while the entry stays.
   */
  lemma CreationCanBeLost(w: World, k: Key) returns (es: seq<Event>, t: Tree)
    requires Inv(w) && k in w.plan && k !in w.workers && !IsReady(w, k) && EntryFor(w, k).Some?
    requires var e := EntryFor(w, k).value;
             && e.UserEntry? && e.password != ""
             && Addable(w.bases[w.plan[k].directory], w.store.trees[w.plan[k].directory], e)
    ensures Legal(w, es) && Stuck(After(w, es), k, EntryFor(w, k).value.dn)
    ensures EntryFor(w, k).value.dn in t && t[EntryFor(w, k).value.dn].password.None?
    ensures es != [] && es[|es| - 1] == Call(k, Upserted(Refused(Unavailable), t))
  {
    hide Legal, After, Enabled, Happen, Next, Answers, Staged, TreesFine, WorkerFine, ObjectFine, RankedAbove;
    hide EntryFor, UpsertOutcome, Addable, Stuck, IsReady;
    var d, e := w.plan[k].directory, EntryFor(w, k).value;
    var rs, m, parent := ToUpserting(w, k);
    var first := BegunRun(w, k, rs, m);
    t := PasswordLost(w.bases[d], w.store.trees[d], e);
    LosesHere(w, m, k, parent, e, t);
    var last := Call(k, Upserted(Refused(Unavailable), t));
    RunExtends(w, first, last);
    es := first + [last];
  }

  lemma LosesHere(w: World, m: World, k: Key, parent: Option<Key>, e: DirectoryEntry, t: Tree)
    requires Staged(w, m, k, parent, Upserting(e)) && !IsReady(w, k) && e.dn in t
    requires w.plan[k].directory in w.bases && w.plan[k].directory in w.store.trees
    requires UpsertOutcome(w.bases[w.plan[k].directory], w.store.trees[w.plan[k].directory], e, false,
                           Refused(Unavailable), t)
    ensures var call := Call(k, Upserted(Refused(Unavailable), t));
            Typed(m) && Enabled(m, call) && Stuck(Happen(m, call), k, e.dn)
  {
    hide UpsertOutcome, Happen, Inv, Stuck;
    StagedTyped(w, m, k, parent, Upserting(e));
    assert ValidReply(m, k, Upserted(Refused(Unavailable), t));
    LostCreationIsStuck(m, k, Upserted(Refused(Unavailable), t));
  }
}
