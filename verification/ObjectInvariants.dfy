// What every step of the machine keeps, and what follows for whole runs.
module ObjectInvariants {
  import opened Common
  import opened DistinguishedNames
  import opened Dit
  import opened LdapClient
  import opened Convergence
  import opened Mapper
  import opened ObjectModel

  // ---------------------------------------------------------------- the DN an object has by its fixed chain

  /** The DN along the fixed parentRefs, whether or not the objects exist, to a depth of n. */
  function PrintedWithin(plan: map<Key, Identity>, domains: map<string, string>, k: Key, n: nat): Option<string>
    decreases n
  {
    if k !in plan then None
    else
      match plan[k].parent
      case Some(ObjectRef(p)) =>
        if n == 0 then None
        else
          var above := PrintedWithin(plan, domains, p, n - 1);
          if above.None? then None else Some(PrintRdn(RdnOf(k, plan[k])) + "," + above.value)
      case Some(DirectoryRef(d)) => PrintedBelow(plan, domains, k, d)
      case Some(OtherRef(_)) => None
      case None => PrintedBelow(plan, domains, k, plan[k].directory)
  }

  function PrintedBelow(plan: map<Key, Identity>, domains: map<string, string>, k: Key, d: string): Option<string>
    requires k in plan
  {
    if d in domains then Some(PrintRdn(RdnOf(k, plan[k])) + "," + DirectoryDn(domains[d])) else None
  }

  ghost predicate HasDn(w: World, k: Key, s: string) {
    exists n: nat :: PrintedWithin(w.plan, w.domains, k, n) == Some(s)
  }

  lemma {:induction false} PrintedDeeper(plan: map<Key, Identity>, domains: map<string, string>, k: Key, n: nat, m: nat)
    requires n <= m && PrintedWithin(plan, domains, k, n).Some?
    ensures PrintedWithin(plan, domains, k, m) == PrintedWithin(plan, domains, k, n)
    decreases n
  {
    match plan[k].parent
    case Some(ObjectRef(p)) => PrintedDeeper(plan, domains, p, n - 1, m - 1);
    case Some(DirectoryRef(_)) =>
    case Some(OtherRef(_)) =>
    case None =>
  }

  lemma DnUnique(w: World, k: Key, s: string, s': string)
    requires HasDn(w, k, s) && HasDn(w, k, s')
    ensures s == s'
  {
    var n: nat :| PrintedWithin(w.plan, w.domains, k, n) == Some(s);
    var m: nat :| PrintedWithin(w.plan, w.domains, k, m) == Some(s');
    if n <= m {
      PrintedDeeper(w.plan, w.domains, k, n, m);
    } else {
      PrintedDeeper(w.plan, w.domains, k, m, n);
    }
  }

  /** A DN computed from the store is the one the fixed chain gives. */
  lemma {:induction false} ComputedIsPrinted(w: World, k: Key, n: nat)
    requires Typed(w) && k in w.plan && DnWithin(w, k, n).DnFound?
    ensures PrintedWithin(w.plan, w.domains, k, n) == Some(DnWithin(w, k, n).dn)
    ensures HasDn(w, k, DnWithin(w, k, n).dn)
    decreases n
  {
    match w.plan[k].parent
    case Some(ObjectRef(p)) => ComputedIsPrinted(w, p, n - 1);
    case Some(DirectoryRef(_)) =>
    case Some(OtherRef(_)) =>
    case None =>
  }

  // ---------------------------------------------------------------- the invariant

  /** An object that was ever Ready has no parent, or one that was Ready before it. */
  ghost predicate RankedAbove(w: World, k: Key)
    requires k in w.history.firstReady
  {
    && k in w.plan
    && w.history.firstReady[k] < w.history.clock
    && (w.plan[k].parent.Some? ==>
          && w.plan[k].parent.value.ObjectRef?
          && var p := w.plan[k].parent.value.key;
             p in w.history.firstReady && w.history.firstReady[p] < w.history.firstReady[k])
  }

  predicate ObjectFine(w: World, k: Key)
    requires k in w.store.objects
  {
    var obj := w.store.objects[k];
    && (obj.deleting ==> obj.finalizer)
    && (obj.status.phase == Ready ==> k in w.history.firstReady)
    && obj.status.observedGeneration <= obj.generation
  }

  /** The worker has a parent to stand on, or needs none. */
  predicate ParentSeen(w: World, k: Key, me: Worker)
    requires k in w.plan && me.Working?
  {
    w.plan[k].parent.None? || me.parent.Some?
  }

  ghost predicate IsDnOf(w: World, k: Key, dn: Dn) {
    exists s :: HasDn(w, k, s) && ParseDn(s) == dn
  }

  ghost predicate WorkerFine(w: World, k: Key)
    requires k in w.workers && k in w.plan
  {
    var me := w.workers[k];
    me.Working? ==>
      // the parent it read was Ready
      && (me.parent.Some? ==> w.plan[k].parent == Some(ObjectRef(me.parent.value))
                              && me.parent.value in w.history.firstReady)
      // from its second call on the object holds the finalizer, and stays
      && (!me.at.AddingFinalizer? ==>
            && k in w.store.objects && w.store.objects[k].finalizer
            && (me.obj.deleting ==> w.store.objects[k].deleting))
      && match me.at
         case DeletingEntry(dn) => me.obj.deleting && IsDnOf(w, k, dn)
         case RemovingFinalizer(_) => me.obj.deleting
         case SettingOwner(dn) => IsDnOf(w, k, dn)
         case MappingEntry(dn) => ParentSeen(w, k, me) && IsDnOf(w, k, dn)
         case Upserting(e) => ParentSeen(w, k, me) && IsDnOf(w, k, e.dn)
         case Marking(phase, _) => phase == Ready ==> ParentSeen(w, k, me)
         case _ => true
  }

  ghost predicate TreeFine(w: World, d: string)
    requires d in w.bases && d in w.store.trees
  {
    WellFormed(w.bases[d], w.store.trees[d])
  }

  ghost predicate TreesFine(w: World) {
    && w.store.trees.Keys == w.domains.Keys == w.bases.Keys
    && forall d :: d in w.domains ==> TreeFine(w, d)
  }

  ghost predicate Inv(w: World) {
    && Typed(w)
    && TreesFine(w)
    && (forall k {:trigger ObjectFine(w, k)} :: k in w.store.objects ==> ObjectFine(w, k))
    && (forall k {:trigger RankedAbove(w, k)} :: k in w.history.firstReady ==> RankedAbove(w, k))
    && (forall k {:trigger WorkerFine(w, k)} :: k in w.workers ==> WorkerFine(w, k))
    && (forall k :: k in w.history.holders ==> k in w.store.objects && w.store.objects[k].finalizer)
  }

  /** Nothing is Ready, nothing is running, nothing has been added. */
  ghost predicate Initial(w: World) {
    && Typed(w)
    && TreesFine(w)
    && (forall k :: k in w.store.objects ==>
          var obj := w.store.objects[k];
          (obj.deleting ==> obj.finalizer) && obj.status.phase != Ready
          && obj.status.observedGeneration <= obj.generation)
    && w.workers == map[]
    && w.history == History(0, map[], map[], {})
  }

  lemma InitialInv(w: World)
    requires Initial(w)
    ensures Inv(w)
  {
  }

  // ---------------------------------------------------------------- what one call may change

  ghost predicate RankGrows(w: World, w': World, k: Key) {
    || w'.history.firstReady == w.history.firstReady
    || (&& k in w.plan
        && k !in w.history.firstReady
        && w'.history.firstReady == w.history.firstReady[k := w.history.clock]
        && (w.plan[k].parent.Some? ==>
              w.plan[k].parent.value.ObjectRef? && w.plan[k].parent.value.key in w.history.firstReady))
  }

  /** m' is m with k written, removed or left alone. */
  predicate OnlyKey<V(==)>(m: map<Key, V>, m': map<Key, V>, k: Key) {
    m' == m || m' == m - {k} || (k in m' && m' == m[k := m'[k]])
  }

  ghost predicate TreeGrows(w: World, w': World, d: string) {
    || w'.store.trees == w.store.trees
    || (&& d in w.bases && d in w'.store.trees
        && w'.store.trees == w.store.trees[d := w'.store.trees[d]]
        && WellFormed(w.bases[d], w'.store.trees[d]))
  }

  /** A call of the worker on k touches that object, that worker, the tree of its directory, and nothing else. */
  ghost predicate Progress(w: World, w': World, k: Key)
    requires k in w.plan
  {
    && w'.plan == w.plan && w'.domains == w.domains && w'.bases == w.bases
    && w'.store.directories == w.store.directories
    && w'.history.clock == w.history.clock
    && OnlyKey(w.store.objects, w'.store.objects, k)
    && (k in w'.store.objects ==> k in w.store.objects && ObjectFine(w', k))
    && TreeGrows(w, w', w.plan[k].directory)
    && RankGrows(w, w', k)
    && (OnlyKey(w.workers, w'.workers, k) || w'.workers == map[])
    && (k in w'.workers ==> k in w.workers && WorkerFine(w', k))
    && w'.history.holders - {k} == w.history.holders - {k}
    && (k in w'.history.holders ==> k in w'.store.objects && w'.store.objects[k].finalizer)
  }

  lemma SameDn(w: World, w': World, k: Key, s: string)
    requires w'.plan == w.plan && w'.domains == w.domains && w'.bases == w.bases && HasDn(w, k, s)
    ensures HasDn(w', k, s)
  {
  }

  lemma SameDnOf(w: World, w': World, k: Key, dn: Dn)
    requires w'.plan == w.plan && w'.domains == w.domains && w'.bases == w.bases && IsDnOf(w, k, dn)
    ensures IsDnOf(w', k, dn)
  {
  }

  /** What must not happen to an object under a worker's hands. */
  ghost predicate Undisturbed(w: World, w': World, k: Key) {
    && w'.plan == w.plan && w'.domains == w.domains && w'.bases == w.bases
    && w.history.firstReady.Keys <= w'.history.firstReady.Keys
    && (k in w.store.objects && w.store.objects[k].finalizer ==>
          && k in w'.store.objects && w'.store.objects[k].finalizer
          && (w.store.objects[k].deleting ==> w'.store.objects[k].deleting))
  }

  lemma WorkerStaysFine(w: World, w': World, k: Key)
    requires k in w.workers && k in w.plan && WorkerFine(w, k)
    requires k in w'.workers && w'.workers[k] == w.workers[k] && Undisturbed(w, w', k)
    ensures WorkerFine(w', k)
  {
  }

  lemma RanksKept(w: World, w': World, k: Key)
    requires Inv(w) && w'.plan == w.plan && w'.history.clock == w.history.clock && RankGrows(w, w', k)
    ensures forall x {:trigger RankedAbove(Tick(w'), x)} :: x in w'.history.firstReady ==> RankedAbove(Tick(w'), x)
  {
    hide TreesFine, WorkerFine, ObjectFine;
    forall x | x in w'.history.firstReady ensures RankedAbove(Tick(w'), x) {
      if x in w.history.firstReady {
        assert RankedAbove(w, x);
      }
      if x == k && k !in w.history.firstReady && w.plan[k].parent.Some? {
        assert RankedAbove(w, w.plan[k].parent.value.key);
      }
    }
  }

  lemma WorkersKept(w: World, w': World, k: Key)
    requires Inv(w) && k in w.plan && Progress(w, w', k)
    ensures forall x {:trigger WorkerFine(Tick(w'), x)} :: x in w'.workers ==> x in w.plan && WorkerFine(Tick(w'), x)
  {
    hide TreesFine, RankedAbove, ObjectFine;
    var after := Tick(w');
    forall x | x in w'.workers ensures x in w.plan && WorkerFine(after, x) {
      if x == k {
        WorkerStaysFine(w', after, k);
      } else {
        assert WorkerFine(w, x);
        WorkerStaysFine(w, after, x);
      }
    }
  }

  lemma ObjectsKept(w: World, w': World, k: Key)
    requires Inv(w) && k in w.plan && Progress(w, w', k)
    ensures forall x {:trigger ObjectFine(Tick(w'), x)} ::
              x in w'.store.objects ==> x in w.plan && ObjectFine(Tick(w'), x)
  {
    forall x | x in w'.store.objects ensures x in w.plan && ObjectFine(Tick(w'), x) {
      assert x != k ==> ObjectFine(w, x);
    }
  }

  lemma TreesKept(w: World, w': World, k: Key)
    requires Inv(w) && k in w.plan && Progress(w, w', k)
    ensures TreesFine(Tick(w'))
  {
    hide WorkerFine, RankedAbove, ObjectFine;
  }

  lemma HoldersKept(w: World, w': World, k: Key)
    requires Inv(w) && k in w.plan && Progress(w, w', k)
    ensures forall x :: x in w'.history.holders ==> x in w'.store.objects && w'.store.objects[x].finalizer
  {
    forall x | x in w'.history.holders ensures x in w'.store.objects && w'.store.objects[x].finalizer {
      assert x != k ==> x in w'.history.holders - {k};
    }
  }

  lemma ProgressKeepsInv(w: World, w': World, k: Key)
    requires Inv(w) && k in w.plan && Progress(w, w', k)
    ensures Inv(Tick(w'))
  {
    hide WorkerFine, ObjectFine, RankedAbove, TreesFine;
    RanksKept(w, w', k);
    WorkersKept(w, w', k);
    ObjectsKept(w, w', k);
    TreesKept(w, w', k);
    HoldersKept(w, w', k);
  }

  // ---------------------------------------------------------------- each call

  /** The part of the invariant one worker's call relies on. */
  ghost predicate Local(w: World, k: Key) {
    && k in w.workers && k in w.plan && w.plan[k].directory in w.bases
    && WorkerFine(w, k)
    && (k in w.store.objects ==> ObjectFine(w, k))
    && (k in w.history.holders ==> k in w.store.objects && w.store.objects[k].finalizer)
  }

  ghost predicate AtCall(w: World, k: Key, at: Point) {
    Local(w, k) && w.workers[k].Working? && w.workers[k].at == at
  }

  lemma FetchProgress(w: World, k: Key, r: Reply)
    requires Local(w, k)
    ensures Progress(w, AfterFetch(w, k, r), k)
  {
  }

  lemma AddFinalizerProgress(w: World, k: Key, r: Reply)
    requires Local(w, k)
    ensures Progress(w, AfterAddFinalizer(w, k, r), k)
  {
  }

  /** Moving on without touching anything. */
  lemma GotoProgress(w: World, k: Key, me: Worker)
    requires Local(w, k)
    requires WorkerFine(Goto(w, k, me), k)
    ensures Progress(w, Goto(w, k, me), k)
  {
  }

  lemma StopProgress(w: World, k: Key)
    requires Local(w, k)
    ensures Progress(w, Stop(w, k), k)
    ensures Progress(w, w.(workers := map[]), k)
  {
  }

  lemma ResolveReferencesProgress(w: World, k: Key, r: Reply)
    requires AtCall(w, k, ResolvingReferences)
    ensures Progress(w, AfterResolveReferences(w, k, w.workers[k], r), k)
  {
  }

  lemma ResolveDirectoryProgress(w: World, k: Key, r: Reply)
    requires AtCall(w, k, ResolvingDirectory)
    ensures Progress(w, AfterResolveDirectory(w, k, w.workers[k], r), k)
  {
  }

  lemma ResolveParentProgress(w: World, k: Key, ref: ParentRef, r: Reply)
    requires AtCall(w, k, ResolvingParent) && w.plan[k].parent == Some(ref)
    requires ref.ObjectRef? && ref.key in w.store.objects ==> ObjectFine(w, ref.key)
    ensures Progress(w, AfterResolveParent(w, k, w.workers[k], r), k)
  {
  }

  lemma ComputeDnProgress(w: World, k: Key, r: Reply)
    requires Typed(w) && AtCall(w, k, ComputingDn)
    ensures Progress(w, AfterComputeDn(w, k, w.workers[k], r), k)
  {
    var w' := AfterComputeDn(w, k, w.workers[k], r);
    StopProgress(w, k);
    if k in w'.workers {
      var n: nat :| !DnWithin(w, k, n).DnTooDeep?;
      ComputedAt(w, k, n);
      ComputedIsPrinted(w, k, n);
      SameDn(w, w', k, ComputedDn(w, k).dn);
      GotoProgress(w, k, w'.workers[k]);
    }
  }

  lemma DeleteEntryProgress(w: World, k: Key, dn: Dn, r: Reply)
    requires AtCall(w, k, DeletingEntry(dn)) && r.Deleted? && TreeFits(w, k, r.tree)
    ensures Progress(w, AfterDeleteEntry(w, k, w.workers[k], dn, r), k)
  {
  }

  lemma RemoveFinalizerProgress(w: World, k: Key, why: Farewell, r: Reply)
    requires AtCall(w, k, RemovingFinalizer(why))
    ensures Progress(w, AfterRemoveFinalizer(w, k, r), k)
  {
  }

  /** The object and the worker's copy of it get an owner. */
  lemma OwnedProgress(w: World, k: Key, dn: Dn, owner: Owner)
    requires AtCall(w, k, SettingOwner(dn)) && ParentSeen(w, k, w.workers[k]) && k in w.store.objects
    ensures var obj := w.store.objects[k].(owner := Some(owner));
            Progress(w, Goto(WithObject(w, k, obj), k, w.workers[k].(obj := obj, at := MappingEntry(dn))), k)
  {
  }

  lemma SetOwnerProgress(w: World, k: Key, dn: Dn, r: Reply)
    requires AtCall(w, k, SettingOwner(dn))
    ensures Progress(w, AfterSetOwner(w, k, w.workers[k], dn, r), k)
  {
    var me := w.workers[k];
    if w.plan[k].parent.Some? && me.parent.None? {
      StopProgress(w, k);
    } else if r.Fail? {
      GotoProgress(w, k, me.(at := Marking(Failed)));
    } else {
      OwnedProgress(w, k, dn, if me.parent.Some? then ObjectOwner(me.parent.value)
                              else DirectoryOwner(w.plan[k].directory));
    }
  }

  lemma MappedDn(secrets: Secrets, dn: Dn, d: Details)
    ensures MapToEntry(secrets, dn, d).Some? ==> MapToEntry(secrets, dn, d).value.dn == dn
  {
  }

  lemma UpsertingProgress(w: World, k: Key, dn: Dn, e: DirectoryEntry)
    requires AtCall(w, k, MappingEntry(dn)) && e.dn == dn
    ensures Progress(w, Goto(w, k, w.workers[k].(at := Upserting(e))), k)
  {
  }

  lemma MapToEntryProgress(w: World, k: Key, dn: Dn, r: Reply)
    requires AtCall(w, k, MappingEntry(dn))
    ensures Progress(w, AfterMapToEntry(w, k, w.workers[k], dn, r), k)
  {
    var me := w.workers[k];
    var entry := MapToEntry(w.store.secrets, dn, me.obj.details);
    if r.Fail? || entry.None? {
      GotoProgress(w, k, me.(at := Marking(Failed)));
    } else {
      MappedDn(w.store.secrets, dn, me.obj.details);
      UpsertingProgress(w, k, dn, entry.value);
    }
  }

  /** What a create-or-update reply says about the tree. */
  lemma UpsertReply(w: World, k: Key, e: DirectoryEntry, r: Reply)
    requires Typed(w) && AtCall(w, k, Upserting(e)) && TreeFine(w, w.plan[k].directory) && ValidReply(w, k, r)
    ensures r.Upserted?
    ensures var d := w.plan[k].directory;
            && WellFormed(w.bases[d], r.tree) && OnlyAt(w.store.trees[d], r.tree, e.dn)
            && (r.outcome == Done(true) ==> e.dn !in w.store.trees[d] && e.dn in r.tree)
            && (e.dn == w.bases[d] || (e.dn != [] && e.dn[1..] in w.store.trees[d]) ==>
                  r.outcome != Outcome.Refused(NoSuchObject))
  {
    var d := w.plan[k].directory;
    var reliable :| UpsertOutcome(w.bases[d], w.store.trees[d], e, reliable, r.outcome, r.tree);
    UpsertEffects(w.bases[d], w.store.trees[d], e, reliable, r.outcome, r.tree);
  }

  ghost predicate TreeFits(w: World, k: Key, t: Tree)
    requires Local(w, k)
  {
    WellFormed(w.bases[w.plan[k].directory], t)
  }

  lemma TreeGotoProgress(w: World, k: Key, t: Tree, me: Worker)
    requires Local(w, k) && TreeFits(w, k, t)
    requires WorkerFine(Goto(w, k, me), k)
    ensures Progress(w, Goto(WithTree(w, w.plan[k].directory, t), k, me), k)
  {
  }

  lemma TreeStopProgress(w: World, k: Key, t: Tree)
    requires Local(w, k) && TreeFits(w, k, t)
    ensures Progress(w, Stop(WithTree(w, w.plan[k].directory, t), k), k)
  {
  }

  /** Recording an entry as added by k. */
  function Recorded(w: World, d: string, dn: Dn, k: Key): World {
    w.(history := w.history.(creator := w.history.creator[(d, dn) := k], holders := w.history.holders + {k}))
  }

  lemma RecordedProgress(w: World, w': World, dn: Dn, k: Key)
    requires Local(w, k) && k in w.store.objects && w.store.objects[k].finalizer
    requires Progress(w, w', k) && w'.store.objects == w.store.objects
    ensures Progress(w, Recorded(w', w.plan[k].directory, dn, k), k)
  {
  }

  lemma UpsertProgress(w: World, k: Key, e: DirectoryEntry, r: Reply)
    requires AtCall(w, k, Upserting(e)) && r.Upserted? && TreeFits(w, k, r.tree)
    ensures Progress(w, AfterUpsert(w, k, w.workers[k], e.dn, r), k)
  {
    var me := w.workers[k];
    match r.outcome
    case Refused(_) => TreeGotoProgress(w, k, r.tree, me.(at := Marking(Failed)));
    case Done(false) => TreeStopProgress(w, k, r.tree);
    case Done(true) =>
      var ready := me.(at := Marking(Ready));
      TreeGotoProgress(w, k, r.tree, ready);
      RecordedProgress(w, Goto(WithTree(w, w.plan[k].directory, r.tree), k, ready), e.dn, k);
  }

  lemma MarkProgress(w: World, k: Key, phase: Phase, reported: bool, r: Reply)
    requires AtCall(w, k, Marking(phase, reported))
    ensures Progress(w, AfterMark(w, k, phase, r), k)
  {
  }

  lemma CallProgress(w: World, k: Key, r: Reply)
    requires Typed(w) && Local(w, k) && TreeFine(w, w.plan[k].directory) && ValidReply(w, k, r)
    requires var parent := w.plan[k].parent;
             parent.Some? && parent.value.ObjectRef? && parent.value.key in w.store.objects ==>
               ObjectFine(w, parent.value.key)
    ensures Progress(w, Next(w, k, r), k)
  {
    hide AfterFetch, AfterAddFinalizer, AfterResolveReferences, AfterResolveDirectory, AfterResolveParent;
    hide AfterComputeDn, AfterDeleteEntry, AfterRemoveFinalizer, AfterSetOwner, AfterMapToEntry, AfterUpsert;
    hide AfterMark, HoldsFinalizer, Ordinary, Progress;
    match w.workers[k]
    case Starting => FetchProgress(w, k, r);
    case Working(obj, parent, at) =>
      match at
      case AddingFinalizer => AddFinalizerProgress(w, k, r);
      case ResolvingReferences => ResolveReferencesProgress(w, k, r);
      case ResolvingDirectory => ResolveDirectoryProgress(w, k, r);
      case ResolvingParent =>
        if w.plan[k].parent.Some? {
          ResolveParentProgress(w, k, w.plan[k].parent.value, r);
        } else {
          StopProgress(w, k);
        }
      case BuildingClient =>
        StopProgress(w, k);
        GotoProgress(w, k, w.workers[k].(at := ComputingDn));
      case ComputingDn => ComputeDnProgress(w, k, r);
      case DeletingEntry(dn) => DeleteEntryProgress(w, k, dn, r);
      case RemovingFinalizer(why) => RemoveFinalizerProgress(w, k, why, r);
      case SettingOwner(dn) => SetOwnerProgress(w, k, dn, r);
      case MappingEntry(dn) => MapToEntryProgress(w, k, dn, r);
      case Upserting(e) =>
        UpsertReply(w, k, e, r);
        UpsertProgress(w, k, e, r);
      case Marking(phase, reported) => MarkProgress(w, k, phase, reported, r);
  }

  /** A call of any worker, with any reply, keeps the invariant. */
  lemma CallKeepsInv(w: World, k: Key, r: Reply)
    requires Inv(w) && k in w.workers && ValidReply(w, k, r)
    ensures Inv(Tick(Next(w, k, r)))
    ensures Progress(w, Next(w, k, r), k)
  {
    assert WorkerFine(w, k);
    assert k in w.store.objects ==> ObjectFine(w, k);
    assert w.plan[k].directory in w.bases;
    var parent := w.plan[k].parent;
    assert parent.Some? && parent.value.ObjectRef? && parent.value.key in w.store.objects ==>
             ObjectFine(w, parent.value.key);
    assert TreeFine(w, w.plan[k].directory);
    CallProgress(w, k, r);
    ProgressKeepsInv(w, Next(w, k, r), k);
  }
}
