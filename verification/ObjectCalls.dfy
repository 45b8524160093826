// What each call of a worker leaves behind, answered or not: the machine's cases one by one,
// as the world before and after.
module ObjectCalls {
  import opened Common
  import opened DistinguishedNames
  import opened Dit
  import opened LdapClient
  import opened Mapper
  import opened ObjectModel
  import opened ObjectRuns
  import opened ParentCycles

  /** How a reconcile ends: Requeued asks to be called again, Panicked takes the process down. */
  datatype Result = Finished | Requeued | Errored | Panicked

  /** What the reconcile returns when the reply r in world w ends it. */
  ghost predicate Verdict(w: World, k: Key, r: Reply, result: Result)
    requires k in w.workers
  {
    match w.workers[k]
    case Starting => result == if r.Fail? then Errored else Finished
    case Working(_, _, at) =>
      var written := !r.Fail? && k in w.store.objects;
      match at
      case ResolvingDirectory => result == Panicked
      case SettingOwner(_) => result == Panicked
      case ComputingDn => result == if r.Fail? || (k in w.plan && Terminates(w, k)) then Errored else Panicked
      case RemovingFinalizer(_) => result == if written then Finished else Errored
      case Upserting(_) => result == Finished
      case Marking(phase, reported) =>
        if phase == Failed then result == (if reported then Errored else Finished)
        else result == if !written then Errored else if phase == Pending then Requeued else Finished
      case _ => result == Errored
  }

  function ReplyFor(ok: bool): Reply {
    if ok then Ok else Fail
  }

  /** The worker on k is this one, at work. */
  predicate Doing(w: World, k: Key, me: Worker) {
    k in w.workers && w.workers[k] == me && k in w.plan
  }

  ghost function NextApi(w: World, k: Key, ok: bool): World
    requires k in w.workers && k in w.plan
  {
    Tick(Next(w, k, ReplyFor(ok)))
  }

  /** Only the worker on k has moved on. */
  ghost predicate Moved(w: World, k: Key, me: Worker, w': World) {
    && SamePlan(w, w') && w'.store == w.store && w'.workers == w.workers[k := me]
    && w'.history == w.history.(clock := w.history.clock + 1)
  }

  /** Only the worker on k has come to its end. */
  ghost predicate Ended(w: World, k: Key, w': World) {
    SamePlan(w, w') && w'.store == w.store && k !in w'.workers
  }

  function StoreWith(s: Store, objects: map<Key, Object>): Store {
    Store(objects, s.others, s.directories, s.secrets, s.trees)
  }

  /** The worker's object has been written. */
  ghost predicate Wrote(w: World, k: Key, obj: Object, w': World) {
    SamePlan(w, w') && w'.store == StoreWith(w.store, w.store.objects[k := obj])
  }

  lemma FetchLeaves(w: World, k: Key, me: Worker, ok: bool)
    requires Doing(w, k, me) && me.Starting?
    ensures if !ok || k !in w.store.objects then Ended(w, k, NextApi(w, k, ok))
            else
              var obj := w.store.objects[k];
              Moved(w, k, Working(obj, None, if obj.finalizer then ResolvingReferences else AddingFinalizer),
                    NextApi(w, k, ok))
  {
    hide AfterAddFinalizer, AfterResolveReferences, AfterResolveDirectory, AfterResolveParent, AfterComputeDn;
    hide AfterDeleteEntry, AfterRemoveFinalizer, AfterSetOwner, AfterMapToEntry, AfterUpsert, AfterMark;
    hide HoldsFinalizer, Ordinary;
  }

  lemma AddFinalizerLeaves(w: World, k: Key, me: Worker, ok: bool)
    requires Doing(w, k, me) && me.Working? && me.at.AddingFinalizer?
    ensures if !ok || k !in w.store.objects then Ended(w, k, NextApi(w, k, ok))
            else
              var obj := w.store.objects[k].(finalizer := true);
              && Wrote(w, k, obj, NextApi(w, k, ok))
              && NextApi(w, k, ok).workers == w.workers[k := Working(obj, None, ResolvingReferences)]
  {
    hide AfterFetch, AfterResolveReferences, AfterResolveDirectory, AfterResolveParent, AfterComputeDn;
    hide AfterDeleteEntry, AfterRemoveFinalizer, AfterSetOwner, AfterMapToEntry, AfterUpsert, AfterMark;
    hide HoldsFinalizer, Ordinary;
  }

  lemma ReferencesLeave(w: World, k: Key, me: Worker, ok: bool)
    requires Doing(w, k, me) && me.Working? && me.at.ResolvingReferences?
    ensures Moved(w, k, me.(at := if !ok then Marking(Failed, true)
                                  else if AllResolve(w, k, me.obj) then ResolvingDirectory
                                  else if me.obj.deleting then RemovingFinalizer(Unresolvable)
                                  else Marking(Pending)), NextApi(w, k, ok))
  {
    hide AfterFetch, AfterAddFinalizer, AfterResolveDirectory, AfterResolveParent, AfterComputeDn, AfterDeleteEntry;
    hide AfterRemoveFinalizer, AfterSetOwner, AfterMapToEntry, AfterUpsert, AfterMark, HoldsFinalizer, Ordinary;
    hide AllResolve;
  }

  lemma DirectoryLeaves(w: World, k: Key, me: Worker, ok: bool)
    requires Doing(w, k, me) && me.Working? && me.at.ResolvingDirectory?
    ensures var d := w.plan[k].directory;
            if ok && d !in w.store.directories then Ended(w, k, NextApi(w, k, ok))
            else Moved(w, k, me.(at := if !ok then Marking(Failed)
                                       else if !w.store.directories[d] then Marking(Pending)
                                       else if w.plan[k].parent.Some? then ResolvingParent else BuildingClient),
                       NextApi(w, k, ok))
  {
    hide AfterFetch, AfterAddFinalizer, AfterResolveReferences, AfterResolveParent, AfterComputeDn, AfterDeleteEntry;
    hide AfterRemoveFinalizer, AfterSetOwner, AfterMapToEntry, AfterUpsert, AfterMark, HoldsFinalizer, Ordinary;
  }

  lemma ParentLeaves(w: World, k: Key, me: Worker, ok: bool)
    requires Doing(w, k, me) && me.Working? && me.at.ResolvingParent? && w.plan[k].parent.Some?
    ensures var ref := w.plan[k].parent.value;
            if ok && Refers(w, ref) && ref.ObjectRef? && w.store.objects[ref.key].status.phase == Ready
            then Moved(w, k, me.(parent := Some(ref.key), at := BuildingClient), NextApi(w, k, ok))
            else Moved(w, k, me.(at := if !ok then Marking(Failed)
                                       else if !Refers(w, ref) then BuildingClient
                                       else if !ref.ObjectRef? then Marking(Failed, true) else Marking(Pending)),
                       NextApi(w, k, ok))
  {
    hide AfterFetch, AfterAddFinalizer, AfterResolveReferences, AfterResolveDirectory, AfterComputeDn;
    hide AfterDeleteEntry, AfterRemoveFinalizer, AfterSetOwner, AfterMapToEntry, AfterUpsert, AfterMark;
    hide HoldsFinalizer, Ordinary;
  }

  lemma ClientLeaves(w: World, k: Key, me: Worker, ok: bool)
    requires Doing(w, k, me) && me.Working? && me.at.BuildingClient?
    ensures if ok then Moved(w, k, me.(at := ComputingDn), NextApi(w, k, ok)) else Ended(w, k, NextApi(w, k, ok))
  {
    hide AfterFetch, AfterAddFinalizer, AfterResolveReferences, AfterResolveDirectory, AfterResolveParent;
    hide AfterComputeDn, AfterDeleteEntry, AfterRemoveFinalizer, AfterSetOwner, AfterMapToEntry, AfterUpsert;
    hide AfterMark, HoldsFinalizer, Ordinary;
  }

  lemma RemoveFinalizerLeaves(w: World, k: Key, me: Worker, ok: bool)
    requires Doing(w, k, me) && me.Working? && me.at.RemovingFinalizer?
    requires k in w.store.objects && w.store.objects[k].deleting
    ensures SamePlan(w, NextApi(w, k, ok)) && k !in NextApi(w, k, ok).workers
    ensures NextApi(w, k, ok).store == if ok then StoreWith(w.store, w.store.objects - {k}) else w.store
  {
    hide AfterFetch, AfterAddFinalizer, AfterResolveReferences, AfterResolveDirectory, AfterResolveParent;
    hide AfterComputeDn, AfterDeleteEntry, AfterSetOwner, AfterMapToEntry, AfterUpsert, AfterMark, HoldsFinalizer;
    hide Ordinary;
  }

  lemma OwnerLeaves(w: World, k: Key, me: Worker, dn: Dn, ok: bool)
    requires Doing(w, k, me) && me.Working? && me.at == SettingOwner(dn) && k in w.store.objects
    ensures if !ok then Moved(w, k, me.(at := Marking(Failed)), NextApi(w, k, ok))
            else if w.plan[k].parent.Some? && me.parent.None? then Ended(w, k, NextApi(w, k, ok))
            else
              var owner := if me.parent.Some? then ObjectOwner(me.parent.value) else DirectoryOwner(w.plan[k].directory);
              var obj := w.store.objects[k].(owner := Some(owner));
              && Wrote(w, k, obj, NextApi(w, k, ok))
              && NextApi(w, k, ok).workers == w.workers[k := me.(obj := obj, at := MappingEntry(dn))]
  {
    hide AfterFetch, AfterAddFinalizer, AfterResolveReferences, AfterResolveDirectory, AfterResolveParent;
    hide AfterComputeDn, AfterDeleteEntry, AfterRemoveFinalizer, AfterMapToEntry, AfterUpsert, AfterMark;
    hide HoldsFinalizer, Ordinary;
  }

  lemma MappingLeaves(w: World, k: Key, me: Worker, dn: Dn, ok: bool)
    requires Doing(w, k, me) && me.Working? && me.at == MappingEntry(dn)
    ensures var entry := MapToEntry(w.store.secrets, dn, me.obj.details);
            Moved(w, k, me.(at := if ok && entry.Some? then Upserting(entry.value) else Marking(Failed)),
                  NextApi(w, k, ok))
  {
    hide AfterFetch, AfterAddFinalizer, AfterResolveReferences, AfterResolveDirectory, AfterResolveParent;
    hide AfterComputeDn, AfterDeleteEntry, AfterRemoveFinalizer, AfterSetOwner, AfterUpsert, AfterMark;
    hide HoldsFinalizer, Ordinary, MapToEntry;
  }

  lemma MarkLeaves(w: World, k: Key, me: Worker, phase: Phase, ok: bool)
    requires Doing(w, k, me) && me.Working? && me.at.Marking? && me.at.phase == phase && k in w.store.objects
    ensures NextApi(w, k, ok).workers == w.workers - {k}
    ensures if !ok then Ended(w, k, NextApi(w, k, ok))
            else Wrote(w, k, w.store.objects[k].(status := Status(phase, w.store.objects[k].generation)),
                       NextApi(w, k, ok))
  {
    hide AfterFetch, AfterAddFinalizer, AfterResolveReferences, AfterResolveDirectory, AfterResolveParent;
    hide AfterComputeDn, AfterDeleteEntry, AfterRemoveFinalizer, AfterSetOwner, AfterMapToEntry, AfterUpsert;
    hide HoldsFinalizer, Ordinary;
  }

  lemma DeleteLeaves(w: World, k: Key, me: Worker, dn: Dn, code: Code, t: Tree)
    requires Doing(w, k, me) && me.Working? && me.at == DeletingEntry(dn)
    ensures var w' := Tick(Next(w, k, Deleted(code, t)));
            && SamePlan(w, w') && w'.store == w.store.(trees := w.store.trees[w.plan[k].directory := t])
            && w'.workers == w.workers[k := me.(at := RemovingFinalizer(if code == Success then EntryDeleted(dn)
                                                                        else DeleteRefused))]
  {
    assert Next(w, k, Deleted(code, t)) == AfterDeleteEntry(w, k, me, dn, Deleted(code, t));
  }

  lemma UpsertLeaves(w: World, k: Key, me: Worker, e: DirectoryEntry, r: Outcome, t: Tree)
    requires Doing(w, k, me) && me.Working? && me.at == Upserting(e)
    ensures var w' := Tick(Next(w, k, Upserted(r, t)));
            && SamePlan(w, w') && w'.store == w.store.(trees := w.store.trees[w.plan[k].directory := t])
            && (r == Done(false) ==> k !in w'.workers)
            && (r != Done(false) ==>
                  w'.workers == w.workers[k := me.(at := Marking(if r == Done(true) then Ready else Phase.Failed))])
  {
    assert Next(w, k, Upserted(r, t)) == AfterUpsert(w, k, me, e.dn, Upserted(r, t));
  }

  /** A DN computed to a depth of as many parents as there are objects is the machine's. */
  lemma DnLeaves(w: World, k: Key, me: Worker, dn: DnResult, ok: bool)
    requires Typed(w) && Doing(w, k, me) && me.Working? && me.at.ComputingDn?
    requires ok ==> dn == DnWithin(w, k, |w.store.objects.Keys|)
    ensures if ok && dn.DnFound?
            then Moved(w, k, me.(at := if me.obj.deleting then DeletingEntry(ParseDn(dn.dn))
                                       else SettingOwner(ParseDn(dn.dn))), NextApi(w, k, ok))
            else Ended(w, k, NextApi(w, k, ok))
    ensures ok ==> (Terminates(w, k) <==> !dn.DnTooDeep?)
  {
    hide DnWithin, Terminates, ComputedDn, ParseDn, Typed, AfterFetch, AfterAddFinalizer, AfterResolveReferences;
    hide AfterResolveDirectory, AfterResolveParent, AfterDeleteEntry, AfterRemoveFinalizer, AfterSetOwner;
    hide AfterMapToEntry, AfterUpsert, AfterMark, HoldsFinalizer, Ordinary;
    EndsWithinObjects(w, k);
  }
}
