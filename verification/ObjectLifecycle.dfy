// The life of one object: how it becomes Ready, when it never will, and how it is finalized.
module ObjectLifecycle {
  import opened Common
  import opened DistinguishedNames
  import opened Dit
  import opened LdapClient
  import opened ObjectModel
  import opened ObjectInvariants
  import opened ObjectRuns
  import opened ObjectTheorems

  // ---------------------------------------------------------------- becoming Ready

  predicate IsReady(w: World, k: Key) {
    k in w.store.objects && w.store.objects[k].status.phase == Ready
  }

  /** A call makes an object Ready only when its worker is marking it Ready. */
  lemma OnlyMarkingMakesReady(w: World, k: Key, r: Reply)
    requires k in w.workers && k in w.plan && !MarkingReady(w, k) && !IsReady(w, k)
    ensures !IsReady(Next(w, k, r), k)
  {
  }

  /** A call of another worker leaves the object and its worker alone, or takes the worker with it. */
  lemma OthersCallLeaves(w: World, other: Key, r: Reply, k: Key)
    requires Inv(w) && other in w.workers && ValidReply(w, other, r) && other != k
    ensures var after := Happen(w, Call(other, r));
            && (k in after.store.objects <==> k in w.store.objects)
            && (k in w.store.objects ==> after.store.objects[k] == w.store.objects[k])
            && (k in after.workers ==> k in w.workers && after.workers[k] == w.workers[k])
  {
    CallKeepsInv(w, other, r);
    ProgressLeavesOthers(w, Next(w, other, r), other, k);
    assert Happen(w, Call(other, r)) == Tick(Next(w, other, r));
  }

  lemma ProgressLeavesOthers(w: World, w': World, other: Key, k: Key)
    requires other in w.plan && Progress(w, w', other) && other != k
    ensures k in w'.store.objects <==> k in w.store.objects
    ensures k in w.store.objects ==> w'.store.objects[k] == w.store.objects[k]
    ensures k in w'.workers ==> k in w.workers && w'.workers[k] == w.workers[k]
  {
  }

  /** A worker comes to marking Ready only by a create-or-update whose Add took its DN from absent to present. */
  lemma ReadyNeedsCreation(w: World, e: Event, k: Key)
    requires Inv(w) && Enabled(w, e) && !MarkingReady(w, k) && MarkingReady(Happen(w, e), k)
    ensures e.Call? && e.key == k && UpsertingEntry(w, k) && e.reply.Upserted?
    ensures var dn, d := w.workers[k].at.entry.dn, w.plan[k].directory;
            dn !in w.store.trees[d] && dn in e.reply.tree
  {
    hide TreesFine, WorkerFine, ObjectFine, RankedAbove, IsDnOf, AfterFetch, AfterAddFinalizer;
    hide AfterResolveReferences, AfterResolveDirectory, AfterResolveParent, AfterComputeDn, AfterDeleteEntry;
    hide AfterRemoveFinalizer, AfterSetOwner, AfterMapToEntry, AfterMark, HoldsFinalizer, Ordinary;
    if !e.Call? {
      QuietEventMovesNone(w, e, k);
    } else if e.key != k {
      OthersCallLeaves(w, e.key, e.reply, k);
    } else {
      if !UpsertingEntry(w, k) {
        OnlyUpsertLeadsToReady(w, k, e.reply);
      }
      UpsertReplyIn(w, k, e.reply);
    }
  }

  // ---------------------------------------------------------------- never becoming Ready

  /** The entry is there, the object is not Ready, and its worker is not about to say so. */
  ghost predicate Stuck(w: World, k: Key, dn: Dn) {
    && k in w.plan && IsDnOf(w, k, dn)
    && HasEntry(w, w.plan[k].directory, dn)
    && !IsReady(w, k) && !MarkingReady(w, k)
  }

  lemma CallKeepsStuck(w: World, k: Key, r: Reply, dn: Dn)
    requires Inv(w) && k in w.workers && ValidReply(w, k, r) && Stuck(w, k, dn)
    ensures !IsReady(Next(w, k, r), k) && !MarkingReady(Next(w, k, r), k)
  {
    hide ValidReply, Inv, IsDnOf, AfterFetch, AfterAddFinalizer, AfterResolveReferences, AfterResolveDirectory;
    hide AfterResolveParent, AfterComputeDn, AfterDeleteEntry, AfterRemoveFinalizer, AfterSetOwner, AfterMapToEntry;
    hide AfterMark, HoldsFinalizer, Ordinary;
    OnlyMarkingMakesReady(w, k, r);
    if UpsertingEntry(w, k) {
      UpsertReplyIn(w, k, r);
      SameDnIsSame(w, k, dn, w.workers[k].at.entry.dn);
      assert r.outcome != Done(true);
    } else {
      OnlyUpsertLeadsToReady(w, k, r);
    }
  }

  lemma SameDnIsSame(w: World, k: Key, a: Dn, b: Dn)
    requires IsDnOf(w, k, a) && IsDnOf(w, k, b)
    ensures a == b
  {
    var s :| HasDn(w, k, s) && ParseDn(s) == a;
    var s' :| HasDn(w, k, s') && ParseDn(s') == b;
    DnUnique(w, k, s, s');
  }

  /** Whatever happens, as long as the entry stays the object stays stuck. */
  lemma StuckStays(w: World, e: Event, k: Key, dn: Dn)
    requires Inv(w) && Enabled(w, e) && Stuck(w, k, dn)
    requires HasEntry(Happen(w, e), w.plan[k].directory, dn)
    ensures Stuck(Happen(w, e), k, dn)
  {
    EventKeepsInv(w, e);
    var after := Happen(w, e);
    SameDnOf(w, after, k, dn);
    if e.Call? && e.key == k {
      CallKeepsStuck(w, k, e.reply, dn);
    } else if e.Call? {
      OthersCallLeaves(w, e.key, e.reply, k);
    } else {
      QuietEvent(w, e);
      if k in after.workers {
        QuietEventMovesNone(w, e, k);
      }
      QuietEventMakesNothingReady(w, e, k);
    }
  }

  lemma QuietEventMakesNothingReady(w: World, e: Event, k: Key)
    requires Typed(w) && Enabled(w, e) && !e.Call? && !IsReady(w, k)
    ensures !IsReady(Happen(w, e), k)
  {
    hide Enabled, Effect;
    if IsUserEdit(e) {
      EditMakesNothingReady(w, e, k);
    } else {
      SurroundingsLeaveObjects(w, e);
    }
  }

  lemma EditMakesNothingReady(w: World, e: Event, k: Key)
    requires Typed(w) && Enabled(w, e) && IsUserEdit(e) && !IsReady(w, k)
    ensures !IsReady(Happen(w, e), k)
  {
    hide Next, ValidReply, WellFormed;
  }

  ghost predicate EntryStays(w: World, es: seq<Event>, d: string, dn: Dn)
    requires Legal(w, es)
    decreases |es|
  {
    HasEntry(w, d, dn) && (es == [] || EntryStays(Happen(w, es[0]), es[1..], d, dn))
  }

  /**
   * An object whose entry exists without its being Ready never becomes Ready, over any run that leaves the entry in
   * place: Ready is only ever written after a creation.
   */
  lemma {:induction false} NeverReadyAgain(w: World, es: seq<Event>, k: Key, dn: Dn)
    requires Inv(w) && Legal(w, es) && Stuck(w, k, dn) && EntryStays(w, es, w.plan[k].directory, dn)
    ensures Stuck(After(w, es), k, dn)
    decreases |es|
  {
    if es != [] {
      EventKeepsInv(w, es[0]);
      StuckStays(w, es[0], k, dn);
      NeverReadyAgain(Happen(w, es[0]), es[1..], k, dn);
    }
  }

  /** A create-or-update that put the entry there but failed afterwards leaves the object stuck. */
  lemma LostCreationIsStuck(w: World, k: Key, r: Reply)
    requires Inv(w) && UpsertingEntry(w, k) && k in w.plan && ValidReply(w, k, r) && !IsReady(w, k)
    requires r.Upserted? && r.outcome != Done(true) && w.workers[k].at.entry.dn in r.tree
    ensures Stuck(Happen(w, Call(k, r)), k, w.workers[k].at.entry.dn)
  {
    hide IsDnOf, UpsertOutcome, DeleteOutcome, TreesFine, WorkerFine, ObjectFine, RankedAbove, AfterFetch;
    hide AfterAddFinalizer, AfterResolveReferences, AfterResolveDirectory, AfterResolveParent, AfterComputeDn;
    hide AfterDeleteEntry, AfterRemoveFinalizer, AfterSetOwner, AfterMapToEntry, AfterMark, HoldsFinalizer, Ordinary;
    var dn := w.workers[k].at.entry.dn;
    UpsertReplyIn(w, k, r);
    SameDnOf(w, Happen(w, Call(k, r)), k, dn);
    OnlyMarkingMakesReady(w, k, r);
  }

  /** A Ready object that is marked anything else while its entry is there is stuck from then on. */
  lemma DemotedIsStuck(w: World, k: Key, dn: Dn)
    requires Inv(w) && k in w.workers && w.workers[k].Working?
    requires w.workers[k].at.Marking? && w.workers[k].at.phase != Ready
    requires k in w.plan && IsDnOf(w, k, dn) && HasEntry(w, w.plan[k].directory, dn)
    ensures Enabled(w, Call(k, Ok)) && Stuck(Happen(w, Call(k, Ok)), k, dn)
  {
    hide IsDnOf, AfterFetch, AfterAddFinalizer, AfterResolveReferences, AfterResolveDirectory, AfterResolveParent;
    hide AfterComputeDn, AfterDeleteEntry, AfterRemoveFinalizer, AfterSetOwner, AfterMapToEntry, AfterUpsert;
    hide HoldsFinalizer, Ordinary;
    assert WorkerFine(w, k);
    SameDnOf(w, Happen(w, Call(k, Ok)), k, dn);
  }

  // ---------------------------------------------------------------- finalizers

  /** A worker that is about to add an entry has its finalizer in place, over every run. */
  lemma FinalizerBeforeAdd(w0: World, es: seq<Event>, k: Key)
    requires Initial(w0) && Legal(w0, es) && UpsertingEntry(After(w0, es), k)
    ensures HoldsFinalizer(After(w0, es), k)
  {
    InitialInv(w0);
    RunKeepsInv(w0, es);
    assert WorkerFine(After(w0, es), k);
  }

  lemma OnlyFarewellRemoves(w: World, k: Key, r: Reply)
    requires k in w.workers && k in w.plan && HoldsFinalizer(w, k) && !HoldsFinalizer(Next(w, k, r), k)
    ensures w.workers[k].Working? && w.workers[k].at.RemovingFinalizer? && !r.Fail?
  {
  }

  /** The finalizer goes only in the last call on an object that is being deleted. */
  lemma FinalizerRemovedOnlyOnDeletion(w: World, e: Event, k: Key)
    requires Inv(w) && Enabled(w, e) && HoldsFinalizer(w, k) && !HoldsFinalizer(Happen(w, e), k)
    ensures e.Call? && e.key == k
    ensures w.workers[k].Working? && w.workers[k].at.RemovingFinalizer? && w.store.objects[k].deleting
    ensures k !in Happen(w, e).store.objects
  {
    if !e.Call? {
      QuietEventKeepsFinalizer(w, e, k);
    } else if e.key != k {
      OthersCallLeaves(w, e.key, e.reply, k);
    } else {
      OnlyFarewellRemoves(w, k, e.reply);
      assert WorkerFine(w, k);
    }
  }

  lemma SurroundingsLeaveObjects(w: World, e: Event)
    requires Typed(w) && Enabled(w, e) && !e.Call? && !IsUserEdit(e)
    ensures Happen(w, e).store.objects == w.store.objects
  {
    hide Next, ValidReply, WellFormed;
  }

  lemma EditKeepsFinalizer(w: World, e: Event, k: Key)
    requires Typed(w) && Enabled(w, e) && IsUserEdit(e) && HoldsFinalizer(w, k)
    ensures HoldsFinalizer(Happen(w, e), k)
  {
    hide Next, ValidReply, WellFormed;
    if e.key != k {
      assert k in Effect(w, e).store.objects && Effect(w, e).store.objects[k] == w.store.objects[k];
    }
  }

  lemma QuietEventKeepsFinalizer(w: World, e: Event, k: Key)
    requires Typed(w) && Enabled(w, e) && !e.Call? && HoldsFinalizer(w, k)
    ensures HoldsFinalizer(Happen(w, e), k)
  {
    if IsUserEdit(e) {
      EditKeepsFinalizer(w, e, k);
    } else {
      SurroundingsLeaveObjects(w, e);
    }
  }

  /** Why a worker came to remove the finalizer: a reference did not resolve, or the delete was tried. */
  ghost predicate Justified(w: World, k: Key, why: Farewell, r: Reply)
    requires k in w.plan && k in w.workers && w.workers[k].Working? && w.plan[k].directory in w.store.trees
  {
    match why
    case Unresolvable => w.workers[k].at.ResolvingReferences? && !AllResolve(w, k, w.workers[k].obj)
    case EntryDeleted(dn) =>
      && w.workers[k].at == DeletingEntry(dn) && IsDnOf(w, k, dn)
      && r.Deleted? && r.tree == w.store.trees[w.plan[k].directory] - Subtree(w.store.trees[w.plan[k].directory], dn)
      && dn !in r.tree
    case DeleteRefused => w.workers[k].at.DeletingEntry? && r.Deleted? && r.code != Success
  }

  /**
   * When references resolve and the delete succeeds, the whole subtree at the object's DN is gone at that moment;
   * an unresolvable reference and a refused delete are the only two other ways to lose the finalizer.
   */
  lemma FarewellIsJustified(w: World, k: Key, r: Reply)
    requires Inv(w) && k in w.workers && w.workers[k].Working? && ValidReply(w, k, r)
    requires !w.workers[k].at.RemovingFinalizer?
    requires var w' := Next(w, k, r);
             k in w'.workers && w'.workers[k].Working? && w'.workers[k].at.RemovingFinalizer?
    ensures Justified(w, k, Next(w, k, r).workers[k].at.why, r)
  {
    hide TreesFine, ObjectFine, RankedAbove, AfterFetch, AfterAddFinalizer, AfterResolveDirectory;
    hide AfterResolveParent, AfterComputeDn, AfterRemoveFinalizer, AfterSetOwner, AfterMapToEntry, AfterMark;
    hide HoldsFinalizer, Ordinary, AfterUpsert;
    assert WorkerFine(w, k);
    match w.workers[k].at
    case DeletingEntry(dn) => DeleteReply(w, k, dn, r);
    case ResolvingReferences =>
    case _ => OnlyTwoWaysOut(w, k, r);
  }

  lemma OnlyTwoWaysOut(w: World, k: Key, r: Reply)
    requires k in w.workers && k in w.plan && w.workers[k].Working?
    requires !w.workers[k].at.DeletingEntry? && !w.workers[k].at.ResolvingReferences?
    requires !w.workers[k].at.RemovingFinalizer?
    ensures var w' := Next(w, k, r);
            k in w'.workers && w'.workers[k].Working? ==> !w'.workers[k].at.RemovingFinalizer?
  {
    hide Next;
    var at := w.workers[k].at;
    if at.Upserting? || at.Marking? || at.BuildingClient? {
      NotOutAtEnd(w, k, r);
    } else {
      NotOutBefore(w, k, r);
    }
  }

  lemma NotOutAtEnd(w: World, k: Key, r: Reply)
    requires k in w.workers && k in w.plan && w.workers[k].Working?
    requires var at := w.workers[k].at; at.Upserting? || at.Marking? || at.BuildingClient?
    ensures var w' := Next(w, k, r);
            k in w'.workers && w'.workers[k].Working? ==> !w'.workers[k].at.RemovingFinalizer?
  {
    hide AfterFetch, AfterAddFinalizer, AfterResolveReferences, AfterResolveDirectory, AfterResolveParent;
    hide AfterComputeDn;
    hide AfterDeleteEntry, AfterRemoveFinalizer, AfterSetOwner, AfterMapToEntry, HoldsFinalizer, Ordinary;
  }

  lemma NotOutBefore(w: World, k: Key, r: Reply)
    requires k in w.workers && k in w.plan && w.workers[k].Working?
    requires var at := w.workers[k].at;
             && (at.AddingFinalizer? || at.ResolvingDirectory? || at.ResolvingParent? || at.ComputingDn?
                 || at.SettingOwner? || at.MappingEntry?)
    ensures Ordinary(Next(w, k, r), k)
  {
    hide AfterFetch, AfterAddFinalizer, AfterResolveReferences, AfterResolveDirectory, AfterResolveParent;
    hide AfterComputeDn;
    hide AfterDeleteEntry, AfterRemoveFinalizer, AfterSetOwner, AfterMapToEntry, AfterUpsert, AfterMark, HoldsFinalizer;
  }

  lemma DeleteReply(w: World, k: Key, dn: Dn, r: Reply)
    requires Typed(w) && k in w.workers && w.workers[k].Working? && w.workers[k].at == DeletingEntry(dn)
    requires ValidReply(w, k, r)
    ensures r.Deleted?
    ensures var t := w.store.trees[w.plan[k].directory];
            && (r.code == Success ==> r.tree == t - Subtree(t, dn) && dn !in r.tree)
            && t.Keys - r.tree.Keys <= Subtree(t, dn)
  {
  }

  /** An object whose reconcile added an entry holds its finalizer until it is finalized, over every run. */
  lemma CreatorsHoldFinalizers(w0: World, es: seq<Event>, k: Key)
    requires Initial(w0) && Legal(w0, es) && k in After(w0, es).history.holders
    ensures HoldsFinalizer(After(w0, es), k)
  {
    InitialInv(w0);
    RunKeepsInv(w0, es);
  }

  // ---------------------------------------------------------------- what a cascading delete removes

  /** The chain of names an object's DN is printed from, leaf first. */
  ghost predicate Spells(w: World, k: Key, chain: seq<Rdn>, domain: string) {
    chain != [] && ObjectChain(chain) && HasDn(w, k, Print(chain, domain))
  }

  lemma {:induction false} EveryDnIsSpelled(w: World, k: Key, s: string, n: nat)
    returns (chain: seq<Rdn>, domain: string)
    requires PrintedWithin(w.plan, w.domains, k, n) == Some(s)
    ensures Spells(w, k, chain, domain) && s == Print(chain, domain)
    decreases n
  {
    var rdn := RdnOf(k, w.plan[k]);
    match w.plan[k].parent
    case Some(ObjectRef(p)) =>
      var above;
      above, domain := EveryDnIsSpelled(w, p, PrintedWithin(w.plan, w.domains, p, n - 1).value, n - 1);
      chain := [rdn] + above;
      assert chain[1..] == above;
    case Some(DirectoryRef(d)) =>
      chain, domain := [rdn], w.domains[d];
      assert chain[1..] == [];
    case None =>
      chain, domain := [rdn], w.domains[w.plan[k].directory];
      assert chain[1..] == [];
  }

  /**
   * A cascading delete for object a removes the entry of an object b exactly when b's chain passes through an object
   * with a's DN.
   */
  lemma CascadeRemovesExactly(w: World, a: Key, dn: Dn, r: Reply, ca: seq<Rdn>, da: string, b: Key, cb: seq<Rdn>,
                              db: string)
    requires Inv(w) && a in w.workers && w.workers[a].Working? && w.workers[a].at == DeletingEntry(dn)
    requires ValidReply(w, a, r) && r.Deleted? && r.code == Success
    requires Spells(w, a, ca, da) && CommaFree(ca, da) && Spells(w, b, cb, db) && CommaFree(cb, db)
    requires HasEntry(w, w.plan[a].directory, Path(cb, db)) && Under(dn, w.bases[w.plan[a].directory])
    ensures Path(cb, db) !in r.tree <==> PassesThrough(cb, db, ca, da)
  {
    var d := w.plan[a].directory;
    var t := w.store.trees[d];
    assert WorkerFine(w, a) && TreeFine(w, d);
    ParsePrinted(ca, da);
    assert IsDnOf(w, a, Path(ca, da));
    SameDnIsSame(w, a, dn, Path(ca, da));
    DeleteReply(w, a, dn, r);
    AncestryIsSubtree(ca, da, cb, db);
    if Under(Path(cb, db), dn) {
      AncestorsPresent(w.bases[d], t, Path(cb, db), dn);
    }
  }
}
