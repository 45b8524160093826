// What one whole reconcile comes to when its calls are answered: the object's status, its finalizer, the tree and the
// value returned, from what is and is not in the store when it begins.
module ObjectOutcomes {
  import opened Common
  import opened DistinguishedNames
  import opened Dit
  import opened LdapClient
  import opened Mapper
  import opened SpecConvergence
  import opened ObjectModel
  import opened ObjectInvariants
  import opened ObjectRuns
  import opened ParentCycles
  import opened ObjectCalls
  import opened ObjectLifecycle
  import opened ObjectProgress

  // ---------------------------------------------------------------- a reconcile and what it returns

  /** The worker's calls, each answered, to the last one, and what it returns then. */
  ghost predicate Comes(w: World, k: Key, rs: seq<Reply>, w': World, result: Result)
    decreases |rs|
  {
    && rs != [] && Typed(w) && k in w.workers && k in w.plan && Answered(w, k, rs[0])
    && var next := Tick(Next(w, k, rs[0]));
       if k in next.workers then Comes(next, k, rs[1..], w', result)
       else rs[1..] == [] && w' == next && Verdict(w, k, rs[0], result)
  }

  /** From w to w' a worker on k began, had all its calls answered, and returned. */
  ghost predicate Returns(w: World, k: Key, w': World, result: Result) {
    k in w.plan && k !in w.workers && exists rs :: Comes(Begun(w, k), k, rs, w', result)
  }

  lemma {:induction false} ComesAnswers(w: World, k: Key, rs: seq<Reply>, w': World, result: Result)
    requires Comes(w, k, rs, w', result)
    ensures Answers(w, k, rs, w') && k !in w'.workers
    decreases |rs|
  {
    hide Next, Answered, Verdict, Typed;
    var next := Tick(Next(w, k, rs[0]));
    if k in next.workers {
      ComesAnswers(next, k, rs[1..], w', result);
    }
  }

  lemma SomeVerdict(w: World, k: Key, r: Reply) returns (result: Result)
    requires k in w.workers
    ensures Verdict(w, k, r, result)
  {
    hide Terminates;
    if Verdict(w, k, r, Finished) {
      result := Finished;
    } else if Verdict(w, k, r, Errored) {
      result := Errored;
    } else if Verdict(w, k, r, Requeued) {
      result := Requeued;
    } else {
      result := Panicked;
    }
  }

  lemma {:induction false} AnswersCome(w: World, k: Key, rs: seq<Reply>, w': World) returns (result: Result)
    requires Inv(w) && Answers(w, k, rs, w') && k in w.workers && k !in w'.workers
    ensures Comes(w, k, rs, w', result)
    decreases |rs|
  {
    hide Next, Answered, Verdict, Inv;
    FirstAnswer(w, k, rs, w');
    AnswerKeepsInv(w, k, rs[0]);
    var next := Tick(Next(w, k, rs[0]));
    if k in next.workers {
      result := AnswersCome(next, k, rs[1..], w');
    } else {
      result := SomeVerdict(w, k, rs[0]);
      NoMoreAnswers(next, k, rs[1..], w');
    }
  }

  lemma NoMoreAnswers(w: World, k: Key, rs: seq<Reply>, w': World)
    requires Answers(w, k, rs, w') && k !in w.workers
    ensures rs == [] && w' == w
  {
  }

  /** Every reconcile with all its calls answered returns, and every one that returns is such a reconcile. */
  lemma ReturnsExactly(w: World, k: Key, w': World)
    requires Inv(w)
    ensures Reconciled(w, k, w') <==> exists result :: Returns(w, k, w', result)
  {
    hide Answers, Comes, Inv;
    if Reconciled(w, k, w') {
      var rs :| Answers(Begun(w, k), k, rs, w');
      BeginKeepsInv(w, k);
      var result := AnswersCome(Begun(w, k), k, rs, w');
      assert Returns(w, k, w', result);
    }
    if exists result :: Returns(w, k, w', result) {
      var result :| Returns(w, k, w', result);
      var rs :| Comes(Begun(w, k), k, rs, w', result);
      ComesAnswers(Begun(w, k), k, rs, w', result);
    }
  }

  /** One successful call of the Kubernetes API on. */
  lemma StepOn(w: World, k: Key, rs: seq<Reply>, w': World, result: Result)
    requires Comes(w, k, rs, w', result) && Inv(w) && k in w.workers
    requires w.workers[k].Working? ==> ApiPoint(w.workers[k].at)
    ensures k in w.plan
    ensures if k in Then(w, k).workers then Comes(Then(w, k), k, rs[1..], w', result) && rs != []
            else w' == Then(w, k) && Verdict(w, k, Ok, result)
  {
    hide Next, Answered, Inv, Verdict;
    ApiStep(w, k);
  }

  /** The first call, whatever it is. */
  lemma FirstReply(w: World, k: Key, rs: seq<Reply>, w': World, result: Result)
    requires Comes(w, k, rs, w', result) && Inv(w)
    ensures rs != [] && k in w.workers && k in w.plan && Typed(w) && Answered(w, k, rs[0])
    ensures var next := Tick(Next(w, k, rs[0]));
            && Inv(next)
            && if k in next.workers then Comes(next, k, rs[1..], w', result)
               else w' == next && Verdict(w, k, rs[0], result)
  {
    hide Next, Answered, Inv, Verdict;
    AnswerKeepsInv(w, k, rs[0]);
  }

  // ---------------------------------------------------------------- the worker's way, call by call

  /** The world is one whose store is this one, but for the worker's object, and the worker on k is at a point. */
  ghost predicate Came(w0: World, s: Store, w: World, k: Key, obj: Object, parent: Option<Key>, at: Point) {
    && Inv(w) && SamePlan(w0, w) && k in w.plan
    && w.store == StoreWith(s, s.objects[k := obj])
    && k in w.workers && w.workers[k] == Working(obj, parent, at)
  }

  /** The object with its finalizer in place. */
  function Held(w: World, k: Key): Object
    requires k in w.store.objects
  {
    w.store.objects[k].(finalizer := true)
  }

  lemma NoObjectEnds(w: World, k: Key, w': World, result: Result)
    requires Inv(w) && Returns(w, k, w', result) && k !in w.store.objects
    ensures w'.store == w.store && result == Finished
  {
    hide Next, Inv, Answered, Comes;
    var rs :| Comes(Begun(w, k), k, rs, w', result);
    BeginKeepsInv(w, k);
    StepOn(Begun(w, k), k, rs, w', result);
    FetchLeaves(Begun(w, k), k, Starting, true);
  }

  /** The first one or two calls: the object is read, and gets its finalizer. */
  lemma ToFirstPoint(w: World, k: Key, w': World, result: Result) returns (m: World, rs: seq<Reply>)
    requires Inv(w) && Returns(w, k, w', result) && k in w.store.objects
    ensures Comes(m, k, rs, w', result) && Came(w, w.store, m, k, Held(w, k), None, ResolvingReferences)
  {
    hide Next, Inv, Answered, Comes;
    rs :| Comes(Begun(w, k), k, rs, w', result);
    BeginKeepsInv(w, k);
    ApiStep(Begun(w, k), k);
    StepOn(Begun(w, k), k, rs, w', result);
    FetchLeaves(Begun(w, k), k, Starting, true);
    m, rs := Then(Begun(w, k), k), rs[1..];
    assert w.store.objects[k := w.store.objects[k]] == w.store.objects;
    if !w.store.objects[k].finalizer {
      ApiStep(m, k);
      StepOn(m, k, rs, w', result);
      AddFinalizerLeaves(m, k, m.workers[k], true);
      m, rs := Then(m, k), rs[1..];
    }
  }

  /** A call that only moves the worker on. */
  lemma MovedOn(w0: World, s: Store, w: World, k: Key, obj: Object, parent: Option<Key>, at: Point, me: Worker,
                rs: seq<Reply>, w': World, result: Result)
    requires Came(w0, s, w, k, obj, parent, at) && ApiPoint(at) && Comes(w, k, rs, w', result)
    requires Moved(w, k, me, Then(w, k)) && me.Working? && me.obj == obj
    ensures rs != [] && Comes(Then(w, k), k, rs[1..], w', result)
    ensures Came(w0, s, Then(w, k), k, obj, me.parent, me.at)
  {
    hide Next, Inv, Answered, Comes;
    ApiStep(w, k);
    StepOn(w, k, rs, w', result);
  }

  /** Marking is the last call. */
  lemma MarkingEnds(w0: World, s: Store, w: World, k: Key, obj: Object, parent: Option<Key>, phase: Phase,
                    reported: bool, rs: seq<Reply>, w': World, result: Result)
    requires Came(w0, s, w, k, obj, parent, Marking(phase, reported)) && Comes(w, k, rs, w', result)
    ensures w'.store == StoreWith(s, s.objects[k := obj.(status := Status(phase, obj.generation))])
    ensures result == if phase == Pending then Requeued
                      else if phase == Failed && reported then Errored else Finished
  {
    hide Next, Inv, Answered, Comes;
    StepOn(w, k, rs, w', result);
    MarkLeaves(w, k, w.workers[k], phase, true);
  }

  /** So is the removal of the finalizer. */
  lemma RemovalEnds(w0: World, s: Store, w: World, k: Key, obj: Object, parent: Option<Key>, why: Farewell,
                    rs: seq<Reply>, w': World, result: Result)
    requires Came(w0, s, w, k, obj, parent, RemovingFinalizer(why)) && obj.deleting && Comes(w, k, rs, w', result)
    ensures w'.store == StoreWith(s, s.objects - {k}) && result == Finished
  {
    hide Next, Inv, Answered, Comes;
    StepOn(w, k, rs, w', result);
    RemoveFinalizerLeaves(w, k, w.workers[k], true);
    assert s.objects[k := obj] - {k} == s.objects - {k};
  }

  // ---------------------------------------------------------------- references

  /** What the object refers to is not all there: its directory, its parent, a user's password secret. */
  predicate ReferenceMissing(w: World, k: Key)
    requires k in w.plan && k in w.store.objects
  {
    var id, details := w.plan[k], w.store.objects[k].details;
    || id.directory !in w.store.directories
    || (match id.parent
        case None => false
        case Some(ObjectRef(p)) => p !in w.store.objects
        case Some(DirectoryRef(d)) => d !in w.store.directories
        case Some(OtherRef(n)) => n !in w.store.others)
    || (match details
        case UserDetails(_, _, _, _, Some(secret)) => secret !in w.store.secrets
        case _ => false)
  }

  /** The directory, or the object that is the parent, is there and not Ready. */
  predicate NotYetReady(w: World, k: Key)
    requires k in w.plan
  {
    var d := w.plan[k].directory;
    d in w.store.directories
    && (|| !w.store.directories[d]
        || (match w.plan[k].parent
            case Some(ObjectRef(p)) => p in w.store.objects && w.store.objects[p].status.phase != Ready
            case _ => false))
  }

  /** The directory is Ready, and the parent a directory or an object of an unrelated kind. */
  predicate ForeignParent(w: World, k: Key)
    requires k in w.plan
  {
    var d := w.plan[k].directory;
    d in w.store.directories && w.store.directories[d]
    && match w.plan[k].parent
       case None => false
       case Some(ObjectRef(_)) => false
       case Some(DirectoryRef(_)) => true
       case Some(OtherRef(_)) => true
  }

  /** All that the object needs is there and Ready. */
  predicate Grounded(w: World, k: Key)
    requires k in w.plan && k in w.store.objects
  {
    !ReferenceMissing(w, k) && !NotYetReady(w, k) && !ForeignParent(w, k)
  }

  /** Only k's object has changed: it has its finalizer, and this status for its generation. */
  predicate OnlyMarked(w: World, k: Key, phase: Phase, w': World)
    requires k in w.store.objects
  {
    w'.store == StoreWith(w.store, w.store.objects[k := Held(w, k).(status := Status(phase, Held(w, k).generation))])
  }

  /**
   * A missing reference: the object becomes Pending and the reconcile asks to be called again; an object being deleted
   * is let go, and no entry with it.
   */
  lemma MissingReference(w: World, k: Key, w': World, result: Result)
    requires Inv(w) && Returns(w, k, w', result) && k in w.store.objects && ReferenceMissing(w, k)
    ensures !w.store.objects[k].deleting ==> OnlyMarked(w, k, Pending, w') && result == Requeued
    ensures w.store.objects[k].deleting ==>
              w'.store == StoreWith(w.store, w.store.objects - {k}) && result == Finished
  {
    hide Next, Inv, Answered, Comes, Returns;
    var m, rs := ToFirstPoint(w, k, w', result);
    ReferencesLeave(m, k, m.workers[k], true);
    assert !AllResolve(m, k, m.workers[k].obj);
    if Held(w, k).deleting {
      MovedOn(w, w.store, m, k, Held(w, k), None, ResolvingReferences,
              Working(Held(w, k), None, RemovingFinalizer(Unresolvable)), rs, w', result);
      RemovalEnds(w, w.store, Then(m, k), k, Held(w, k), None, Unresolvable, rs[1..], w', result);
    } else {
      MovedOn(w, w.store, m, k, Held(w, k), None, ResolvingReferences, Working(Held(w, k), None, Marking(Pending)),
              rs, w', result);
      MarkingEnds(w, w.store, Then(m, k), k, Held(w, k), None, Pending, false, rs[1..], w', result);
    }
  }

  lemma ToDirectoryPoint(w: World, k: Key, w': World, result: Result) returns (m: World, rs: seq<Reply>)
    requires Inv(w) && Returns(w, k, w', result) && k in w.store.objects && !ReferenceMissing(w, k)
    ensures Comes(m, k, rs, w', result) && Came(w, w.store, m, k, Held(w, k), None, ResolvingDirectory)
  {
    hide Next, Inv, Answered, Comes, Returns;
    m, rs := ToFirstPoint(w, k, w', result);
    ReferencesLeave(m, k, m.workers[k], true);
    assert AllResolve(m, k, m.workers[k].obj);
    MovedOn(w, w.store, m, k, Held(w, k), None, ResolvingReferences, Working(Held(w, k), None, ResolvingDirectory),
            rs, w', result);
    m, rs := Then(m, k), rs[1..];
  }

  /** A directory or parent that is not Ready: Pending, and again later, whether the object is being deleted or not. */
  lemma WaitsForReady(w: World, k: Key, w': World, result: Result)
    requires Inv(w) && Returns(w, k, w', result) && k in w.store.objects
    requires !ReferenceMissing(w, k) && NotYetReady(w, k)
    ensures OnlyMarked(w, k, Pending, w') && result == Requeued
  {
    hide Next, Inv, Answered, Comes, Returns;
    var m, rs := ToDirectoryPoint(w, k, w', result);
    var waiting := Working(Held(w, k), None, Marking(Pending));
    DirectoryLeaves(m, k, m.workers[k], true);
    if !w.store.directories[w.plan[k].directory] {
      MovedOn(w, w.store, m, k, Held(w, k), None, ResolvingDirectory, waiting, rs, w', result);
      MarkingEnds(w, w.store, Then(m, k), k, Held(w, k), None, Pending, false, rs[1..], w', result);
    } else {
      MovedOn(w, w.store, m, k, Held(w, k), None, ResolvingDirectory, Working(Held(w, k), None, ResolvingParent),
              rs, w', result);
      var n, ss := Then(m, k), rs[1..];
      ParentLeaves(n, k, n.workers[k], true);
      MovedOn(w, w.store, n, k, Held(w, k), None, ResolvingParent, waiting, ss, w', result);
      MarkingEnds(w, w.store, Then(n, k), k, Held(w, k), None, Pending, false, ss[1..], w', result);
    }
  }

  /** A parent that is not an object of the operator's: Failed, and the error is returned. */
  lemma ForeignParentFails(w: World, k: Key, w': World, result: Result)
    requires Inv(w) && Returns(w, k, w', result) && k in w.store.objects
    requires !ReferenceMissing(w, k) && ForeignParent(w, k)
    ensures OnlyMarked(w, k, Failed, w') && result == Errored
  {
    hide Next, Inv, Answered, Comes, Returns;
    var m, rs := ToDirectoryPoint(w, k, w', result);
    DirectoryLeaves(m, k, m.workers[k], true);
    MovedOn(w, w.store, m, k, Held(w, k), None, ResolvingDirectory, Working(Held(w, k), None, ResolvingParent),
            rs, w', result);
    var n, ss := Then(m, k), rs[1..];
    ParentLeaves(n, k, n.workers[k], true);
    MovedOn(w, w.store, n, k, Held(w, k), None, ResolvingParent, Working(Held(w, k), None, Marking(Failed, true)),
            ss, w', result);
    MarkingEnds(w, w.store, Then(n, k), k, Held(w, k), None, Failed, true, ss[1..], w', result);
  }

  // ---------------------------------------------------------------- the entry

  /** The object that is the parent, if there is a parentRef. */
  function ParentObject(w: World, k: Key): Option<Key>
    requires k in w.plan
  {
    match w.plan[k].parent
    case Some(ObjectRef(p)) => Some(p)
    case _ => None
  }

  lemma ToDnPoint(w: World, k: Key, w': World, result: Result) returns (m: World, rs: seq<Reply>)
    requires Inv(w) && Returns(w, k, w', result) && k in w.store.objects && Grounded(w, k)
    ensures Comes(m, k, rs, w', result) && Came(w, w.store, m, k, Held(w, k), ParentObject(w, k), ComputingDn)
  {
    hide Next, Inv, Answered, Comes, Returns;
    m, rs := ToDirectoryPoint(w, k, w', result);
    DirectoryLeaves(m, k, m.workers[k], true);
    var next := if w.plan[k].parent.Some? then ResolvingParent else BuildingClient;
    MovedOn(w, w.store, m, k, Held(w, k), None, ResolvingDirectory, Working(Held(w, k), None, next), rs, w', result);
    m, rs := Then(m, k), rs[1..];
    if w.plan[k].parent.Some? {
      ParentLeaves(m, k, m.workers[k], true);
      MovedOn(w, w.store, m, k, Held(w, k), None, ResolvingParent,
              Working(Held(w, k), ParentObject(w, k), BuildingClient), rs, w', result);
      m, rs := Then(m, k), rs[1..];
    }
    ClientLeaves(m, k, m.workers[k], true);
    MovedOn(w, w.store, m, k, Held(w, k), ParentObject(w, k), BuildingClient,
            Working(Held(w, k), ParentObject(w, k), ComputingDn), rs, w', result);
    m, rs := Then(m, k), rs[1..];
  }

  lemma CameSameDn(w: World, m: World, k: Key)
    requires k in w.plan && k in w.store.objects
    requires Came(w, w.store, m, k, Held(w, k), ParentObject(w, k), ComputingDn)
    ensures FoundDn(m, k) == FoundDn(w, k)
  {
    hide Inv, DnWithin;
    assert m.store.objects.Keys == w.store.objects.Keys;
    SameDepths(w, m, k, |w.store.objects.Keys|);
  }

  /** Below a Ready parent the DN is found or not, and the search for it has an end. */
  lemma GroundedReaches(w: World, k: Key)
    requires Inv(w) && k in w.plan && k in w.store.objects && Grounded(w, k)
    ensures FoundDn(w, k).DnFound? <==> ReachesDirectory(w, k)
    ensures !FoundDn(w, k).DnTooDeep?
  {
    hide TreesFine, WorkerFine, RankedAbove;
    FindsDnExactly(w, k);
    EndsWithinObjects(w, k);
    if w.plan[k].parent.Some? {
      var p := w.plan[k].parent.value.key;
      assert ObjectFine(w, p);
      RankedTerminates(w, p, w.history.firstReady[p]);
      assert !DnWithin(w, k, w.history.firstReady[p] + 1).DnTooDeep?;
    } else {
      assert !DnWithin(w, k, 0).DnTooDeep?;
    }
  }

  /** The DN cannot be found, because something further up is missing: an error, and nothing has changed. */
  lemma NoDnIsError(w: World, k: Key, w': World, result: Result)
    requires Inv(w) && Returns(w, k, w', result) && k in w.store.objects && Grounded(w, k)
    requires !ReachesDirectory(w, k)
    ensures w'.store == StoreWith(w.store, w.store.objects[k := Held(w, k)]) && result == Errored
  {
    hide Next, Inv, Answered, Comes, FoundDn, Terminates, ReachesDirectory;
    GroundedReaches(w, k);
    var m, rs := ToDnPoint(w, k, w', result);
    CameSameDn(w, m, k);
    CameTyped(w, w.store, m, k, Held(w, k), ParentObject(w, k), ComputingDn);
    DnLeavesFound(m, k, m.workers[k]);
    StepOn(m, k, rs, w', result);
  }

  lemma CameTyped(w0: World, s: Store, w: World, k: Key, obj: Object, parent: Option<Key>, at: Point)
    requires Came(w0, s, w, k, obj, parent, at)
    ensures Typed(w)
  {
  }

  lemma DnLeavesFound(w: World, k: Key, me: Worker)
    requires Typed(w) && Doing(w, k, me) && me.Working? && me.at.ComputingDn?
    ensures var dn := FoundDn(w, k);
            && (if dn.DnFound?
                then Moved(w, k, me.(at := if me.obj.deleting then DeletingEntry(ParseDn(dn.dn))
                                           else SettingOwner(ParseDn(dn.dn))), Then(w, k))
                else Ended(w, k, Then(w, k)))
            && (Terminates(w, k) <==> !dn.DnTooDeep?)
  {
    DnLeaves(w, k, me, FoundDn(w, k), true);
  }

  /**
   * An object that is being deleted, all it needs being there and Ready: it goes, and with it the entry at its DN and
   * all below, and no other.
   */
  lemma DeletionRemovesSubtree(w: World, k: Key, w': World, result: Result, dn: Dn)
    requires Inv(w) && Returns(w, k, w', result) && k in w.store.objects && Grounded(w, k)
    requires w.store.objects[k].deleting && FoundDn(w, k).DnFound? && IsDnOf(w, k, dn)
    ensures w.plan[k].directory in w.store.trees
    ensures var d := w.plan[k].directory;
            w'.store == w.store.(objects := w.store.objects - {k},
                                 trees := w.store.trees[d := w.store.trees[d] - Subtree(w.store.trees[d], dn)])
    ensures result == Finished
  {
    hide Next, Inv, Answered, Comes, FoundDn, IsDnOf, ParseDn, Terminates;
    FoundIsDnOf(w, k, dn);
    var m, rs := ToDnPoint(w, k, w', result);
    CameSameDn(w, m, k);
    CameTyped(w, w.store, m, k, Held(w, k), ParentObject(w, k), ComputingDn);
    DnLeavesFound(m, k, m.workers[k]);
    MovedOn(w, w.store, m, k, Held(w, k), ParentObject(w, k), ComputingDn,
            Working(Held(w, k), ParentObject(w, k), DeletingEntry(dn)), rs, w', result);
    m, rs := Then(m, k), rs[1..];
    var s, why := DeletedHere(w, m, k, Held(w, k), ParentObject(w, k), dn, rs, w', result);
    RemovalEnds(w, s, Tick(Next(m, k, rs[0])), k, Held(w, k), ParentObject(w, k), why, rs[1..], w', result);
  }

  lemma FoundIsDnOf(w: World, k: Key, dn: Dn)
    requires Inv(w) && k in w.plan && FoundDn(w, k).DnFound? && IsDnOf(w, k, dn)
    ensures ParseDn(FoundDn(w, k).dn) == dn
  {
    hide TreesFine, WorkerFine, ObjectFine, RankedAbove, DnWithin, ParseDn, HasDn;
    ComputedIsPrinted(w, k, |w.store.objects.Keys|);
    SameDnIsSame(w, k, dn, ParseDn(FoundDn(w, k).dn));
  }

  lemma DeleteAnswer(w: World, k: Key, dn: Dn, r: Reply)
    requires Typed(w) && k in w.workers && w.workers[k].Working? && w.workers[k].at == DeletingEntry(dn)
    requires Answered(w, k, r)
    ensures r.Deleted? && r.code == Success && k in w.plan && w.plan[k].directory in w.store.trees
    ensures var t := w.store.trees[w.plan[k].directory]; r.tree == t - Subtree(t, dn)
  {
  }

  lemma UpsertReplied(w: World, k: Key, e: DirectoryEntry, r: Reply)
    requires Typed(w) && k in w.workers && w.workers[k].Working? && w.workers[k].at == Upserting(e)
    requires Answered(w, k, r)
    ensures r.Upserted? && k in w.plan && w.plan[k].directory in w.store.trees && w.plan[k].directory in w.bases
    ensures var d := w.plan[k].directory;
            UpsertOutcome(w.bases[d], w.store.trees[d], e, true, r.outcome, r.tree)
  {
    hide UpsertOutcome;
  }

  /** The client's delete, answered. */
  lemma DeletedHere(w0: World, w: World, k: Key, obj: Object, parent: Option<Key>, dn: Dn, rs: seq<Reply>, w': World,
                    result: Result) returns (s: Store, why: Farewell)
    requires Came(w0, w0.store, w, k, obj, parent, DeletingEntry(dn)) && Comes(w, k, rs, w', result)
    ensures rs != [] && w0.plan[k].directory in w0.store.trees
    ensures var d := w0.plan[k].directory;
            s == w0.store.(trees := w0.store.trees[d := w0.store.trees[d] - Subtree(w0.store.trees[d], dn)])
    ensures var next := Tick(Next(w, k, rs[0]));
            Came(w0, s, next, k, obj, parent, RemovingFinalizer(why)) && Comes(next, k, rs[1..], w', result)
  {
    hide Next, Comes, Verdict, Inv, Answered, DeleteOutcome;
    FirstReply(w, k, rs, w', result);
    DeleteAnswer(w, k, dn, rs[0]);
    var d := w0.plan[k].directory;
    s := w0.store.(trees := w0.store.trees[d := w0.store.trees[d] - Subtree(w0.store.trees[d], dn)]);
    why := EntryDeleted(dn);
    DeleteLeaves(w, k, w.workers[k], dn, rs[0].code, rs[0].tree);
  }

  /** The owner that the object gets: its parent, or else its directory. */
  function OwnerOf(w: World, k: Key): Owner
    requires k in w.plan
  {
    match w.plan[k].parent
    case Some(ObjectRef(p)) => ObjectOwner(p)
    case _ => DirectoryOwner(w.plan[k].directory)
  }

  function Owned(w: World, k: Key): Object
    requires k in w.plan && k in w.store.objects
  {
    Held(w, k).(owner := Some(OwnerOf(w, k)))
  }

  /** What the status says once the create-or-update has answered: Ready for a new entry, nothing new for an old one. */
  function StatusAfter(obj: Object, r: Outcome): Status {
    match r
    case Done(true) => Status(Ready, obj.generation)
    case Done(false) => obj.status
    case Refused(_) => Status(Failed, obj.generation)
  }

  lemma ToOwnerPoint(w: World, k: Key, w': World, result: Result, dn: Dn) returns (m: World, rs: seq<Reply>)
    requires Inv(w) && Returns(w, k, w', result) && k in w.store.objects && Grounded(w, k)
    requires !w.store.objects[k].deleting && FoundDn(w, k).DnFound? && IsDnOf(w, k, dn)
    ensures Comes(m, k, rs, w', result) && Came(w, w.store, m, k, Held(w, k), ParentObject(w, k), SettingOwner(dn))
  {
    hide Next, Inv, Answered, Comes, FoundDn, IsDnOf, ParseDn, Terminates;
    FoundIsDnOf(w, k, dn);
    m, rs := ToDnPoint(w, k, w', result);
    CameSameDn(w, m, k);
    CameTyped(w, w.store, m, k, Held(w, k), ParentObject(w, k), ComputingDn);
    DnLeavesFound(m, k, m.workers[k]);
    MovedOn(w, w.store, m, k, Held(w, k), ParentObject(w, k), ComputingDn,
            Working(Held(w, k), ParentObject(w, k), SettingOwner(dn)), rs, w', result);
    m, rs := Then(m, k), rs[1..];
  }

  lemma ToMappingPoint(w: World, k: Key, w': World, result: Result, dn: Dn) returns (m: World, rs: seq<Reply>)
    requires Inv(w) && Returns(w, k, w', result) && k in w.store.objects && Grounded(w, k)
    requires !w.store.objects[k].deleting && FoundDn(w, k).DnFound? && IsDnOf(w, k, dn)
    ensures Comes(m, k, rs, w', result) && Came(w, w.store, m, k, Owned(w, k), ParentObject(w, k), MappingEntry(dn))
  {
    hide Next, Inv, Answered, Comes, FoundDn, IsDnOf, ParseDn, Verdict;
    m, rs := ToOwnerPoint(w, k, w', result, dn);
    ApiStep(m, k);
    StepOn(m, k, rs, w', result);
    OwnerLeaves(m, k, m.workers[k], dn, true);
    m, rs := Then(m, k), rs[1..];
  }

  lemma ToEntryPoint(w: World, k: Key, w': World, result: Result, dn: Dn) returns (m: World, rs: seq<Reply>)
    requires Inv(w) && Returns(w, k, w', result) && k in w.store.objects && Grounded(w, k)
    requires !w.store.objects[k].deleting && FoundDn(w, k).DnFound? && IsDnOf(w, k, dn)
    ensures MapToEntry(w.store.secrets, dn, w.store.objects[k].details).Some?
    ensures Comes(m, k, rs, w', result)
    ensures Came(w, w.store, m, k, Owned(w, k), ParentObject(w, k),
                 Upserting(MapToEntry(w.store.secrets, dn, w.store.objects[k].details).value))
  {
    hide Next, Inv, Answered, Comes, FoundDn, IsDnOf, ParseDn;
    m, rs := ToMappingPoint(w, k, w', result, dn);
    MappingLeaves(m, k, m.workers[k], dn, true);
    MovedOn(w, w.store, m, k, Owned(w, k), ParentObject(w, k), MappingEntry(dn),
            Working(Owned(w, k), ParentObject(w, k),
                    Upserting(MapToEntry(w.store.secrets, dn, w.store.objects[k].details).value)), rs, w', result);
    m, rs := Then(m, k), rs[1..];
  }

  lemma UpsertVerdictIs(w: World, k: Key, r: Reply, result: Result)
    requires k in w.workers && w.workers[k].Working? && w.workers[k].at.Upserting? && Verdict(w, k, r, result)
    ensures result == Finished
  {
  }

  /** The client's create-or-update, answered, and the mark after it. */
  lemma UpsertEnds(w0: World, w: World, k: Key, obj: Object, parent: Option<Key>, e: DirectoryEntry, rs: seq<Reply>,
                   w': World, result: Result) returns (r: Outcome, t: Tree)
    requires Came(w0, w0.store, w, k, obj, parent, Upserting(e)) && Comes(w, k, rs, w', result)
    ensures w0.plan[k].directory in w0.store.trees && w0.plan[k].directory in w0.bases
    ensures var d := w0.plan[k].directory;
            && UpsertOutcome(w0.bases[d], w0.store.trees[d], e, true, r, t)
            && w'.store == w0.store.(objects := w0.store.objects[k := obj.(status := StatusAfter(obj, r))],
                                     trees := w0.store.trees[d := t])
    ensures result == Finished
  {
    hide Next, Comes, Verdict, Inv, Answered, UpsertOutcome;
    FirstReply(w, k, rs, w', result);
    UpsertReplied(w, k, e, rs[0]);
    var d := w0.plan[k].directory;
    r, t := rs[0].outcome, rs[0].tree;
    UpsertLeaves(w, k, w.workers[k], e, r, t);
    if r == Done(false) {
      UpsertVerdictIs(w, k, rs[0], result);
    } else {
      var phase := if r == Done(true) then Ready else Phase.Failed;
      MarkingEnds(w0, w0.store.(trees := w0.store.trees[d := t]), Tick(Next(w, k, rs[0])), k, obj, parent, phase, false,
                  rs[1..], w', result);
    }
  }

  /**
   * An object all whose needs are there and Ready: it gets its owner, its entry is created or updated, and its status
   * says Ready if the entry is new, Failed if the server refused, and else what it said before. Nothing else changes.
   */
  lemma EntryWritten(w: World, k: Key, w': World, result: Result, dn: Dn) returns (r: Outcome, t: Tree)
    requires Inv(w) && Returns(w, k, w', result) && k in w.store.objects && Grounded(w, k)
    requires !w.store.objects[k].deleting && FoundDn(w, k).DnFound? && IsDnOf(w, k, dn)
    ensures MapToEntry(w.store.secrets, dn, w.store.objects[k].details).Some?
    ensures w.plan[k].directory in w.store.trees && w.plan[k].directory in w.bases
    ensures var d := w.plan[k].directory;
            && UpsertOutcome(w.bases[d], w.store.trees[d],
                             MapToEntry(w.store.secrets, dn, w.store.objects[k].details).value, true, r, t)
            && w'.store == w.store.(objects := w.store.objects[k := Owned(w, k).(status := StatusAfter(Held(w, k), r))],
                                    trees := w.store.trees[d := t])
    ensures result == Finished
  {
    hide Inv, Comes, FoundDn, IsDnOf, Grounded, UpsertOutcome, MapToEntry;
    var m, rs := ToEntryPoint(w, k, w', result, dn);
    r, t := UpsertEnds(w, m, k, Owned(w, k), ParentObject(w, k),
                       MapToEntry(w.store.secrets, dn, w.store.objects[k].details).value, rs, w', result);
  }

  /**
   * End to end: a live object all whose needs are there and Ready, with a clear place for its entry. After one answered
   * reconcile the entry says what the spec says, a user's password is the content of the secret, and the object is
   * Ready if the entry is new, and says what it said before if not.
   */
  lemma SpecIsWritten(w: World, k: Key, w': World, result: Result, dn: Dn)
    requires Inv(w) && Returns(w, k, w', result) && k in w.store.objects && Grounded(w, k)
    requires !w.store.objects[k].deleting && FoundDn(w, k).DnFound? && IsDnOf(w, k, dn)
    requires w.plan[k].directory in w.store.trees && w.plan[k].directory in w.bases
    requires var d := w.plan[k].directory; Clear(w.bases[d], w.store.trees[d], dn, w.store.objects[k].details)
    requires PasswordGiven(w.store.secrets, w.store.objects[k].details)
    ensures result == Finished && w.plan[k].directory in w'.store.trees && k in w'.store.objects
    ensures var d, details := w.plan[k].directory, w.store.objects[k].details;
            var t, t' := w.store.trees[d], w'.store.trees[d];
            && OnlyThere(t, t', dn) && Says(t'[dn].attrs, details)
            && (details.UserDetails? ==>
                  && t'[dn].password.Some?
                  && Verifies(t'[dn].password.value, w.store.secrets[details.passwordSecretRef.value]))
            && w'.store.objects[k].status == (if dn in t then w.store.objects[k].status
                                              else Status(Ready, w.store.objects[k].generation))
            && w'.store.objects[k].owner == Some(OwnerOf(w, k)) && w'.store.objects[k].finalizer
            && w'.store.trees == w.store.trees[d := t']
            && w'.store.objects == w.store.objects[k := w'.store.objects[k]]
  {
    hide Inv, Comes, FoundDn, IsDnOf, Grounded, UpsertOutcome, MapToEntry, Clear, PasswordGiven, Says;
    var r, t := EntryWritten(w, k, w', result, dn);
    var d, details := w.plan[k].directory, w.store.objects[k].details;
    SpecArrives(w.bases[d], w.store.secrets, dn, details, w.store.trees[d], true, r, t);
  }

  /** Every object that has no reconcile under way can have one, and it returns. */
  lemma SomeReturn(w: World, k: Key) returns (w': World, result: Result)
    requires Inv(w) && k in w.plan && k !in w.workers
    ensures Returns(w, k, w', result)
  {
    hide Reconciled, Returns;
    w' := SomeReconcile(w, k);
    ReturnsExactly(w, k, w');
    result :| Returns(w, k, w', result);
  }

  // ---------------------------------------------------------------- calls that fail

  /** Where a failed call is marked on the object. */
  predicate FailureIsMarked(at: Point) {
    at.ResolvingReferences? || at.ResolvingDirectory? || at.ResolvingParent? || at.SettingOwner? || at.MappingEntry?
  }

  /**
   * A failed call of the Kubernetes API: from the resolving of references to the mapping of the entry it is marked on
   * the object, which then says Failed for its generation, and only a failure to resolve references is also returned.
   * Any other failed call ends the reconcile with an error, but that to mark a failure, which is only logged. No tree
   * changes, and nothing but that object.
   */
  lemma UnansweredCall(w: World, k: Key)
    requires Inv(w) && k in w.workers && k in w.plan && w.workers[k].Working? && k in w.store.objects
    requires var at := w.workers[k].at; ApiPoint(at) && (at.ResolvingParent? ==> w.plan[k].parent.Some?)
    ensures var at, failed := w.workers[k].at, NextApi(w, k, false);
            failed.store == w.store
            && if FailureIsMarked(at) then
                 k in failed.workers && Answered(failed, k, Ok)
                 && var marked := NextApi(failed, k, true);
                    && k !in marked.workers
                    && marked.store == StoreWith(w.store, w.store.objects[k := w.store.objects[k].(
                                                            status := Status(Failed, w.store.objects[k].generation))])
                    && Verdict(failed, k, Ok, if at.ResolvingReferences? then Errored else Finished)
               else
                 k !in failed.workers
                 && Verdict(w, k, Fail, if at == Marking(Failed, false) then Finished else Errored)
  {
    hide Next, Inv, Answered, Verdict;
    FailKeepsInv(w, k);
    FailureLeaves(w, k);
    if FailureIsMarked(w.workers[k].at) {
      FailureGetsMarked(NextApi(w, k, false), k);
    }
  }

  lemma FailureLeaves(w: World, k: Key)
    requires Inv(w) && k in w.workers && k in w.plan && w.workers[k].Working? && k in w.store.objects
    requires var at := w.workers[k].at; ApiPoint(at) && (at.ResolvingParent? ==> w.plan[k].parent.Some?)
    ensures var me, failed := w.workers[k], NextApi(w, k, false);
            failed.store == w.store
            && if FailureIsMarked(me.at) then
                 k in failed.workers && failed.workers[k] == me.(at := Marking(Failed, me.at.ResolvingReferences?))
               else
                 k !in failed.workers
                 && Verdict(w, k, Fail, if me.at == Marking(Failed, false) then Finished else Errored)
  {
    hide Next, Inv, Answered, Terminates;
    var me := w.workers[k];
    FailKeepsInv(w, k);
    match me.at
    case AddingFinalizer => AddFinalizerLeaves(w, k, me, false);
    case ResolvingReferences => ReferencesLeave(w, k, me, false);
    case ResolvingDirectory => DirectoryLeaves(w, k, me, false);
    case ResolvingParent => ParentLeaves(w, k, me, false);
    case BuildingClient => ClientLeaves(w, k, me, false);
    case ComputingDn => DnFails(w, k, me);
    case RemovingFinalizer(_) => RemovalFails(w, k, me);
    case SettingOwner(dn) => OwnerLeaves(w, k, me, dn, false);
    case MappingEntry(dn) => MappingLeaves(w, k, me, dn, false);
    case Marking(phase, _) => MarkLeaves(w, k, me, phase, false);
  }

  lemma FailureGetsMarked(w: World, k: Key)
    requires Inv(w) && k in w.workers && k in w.plan && w.workers[k].Working? && k in w.store.objects
    requires w.workers[k].at.Marking? && w.workers[k].at.phase == Failed
    ensures Answered(w, k, Ok) && k !in NextApi(w, k, true).workers
    ensures NextApi(w, k, true).store
            == StoreWith(w.store, w.store.objects[k := w.store.objects[k].(
                                    status := Status(Failed, w.store.objects[k].generation))])
    ensures Verdict(w, k, Ok, if w.workers[k].at.reported then Errored else Finished)
  {
    hide Next, Inv, Answered;
    ApiStep(w, k);
    MarkLeaves(w, k, w.workers[k], Failed, true);
  }

  lemma FailKeepsInv(w: World, k: Key)
    requires Inv(w) && k in w.workers && (w.workers[k].Working? ==> ApiPoint(w.workers[k].at))
    ensures k in w.plan && Typed(w) && Inv(NextApi(w, k, false)) && NextApi(w, k, false).plan == w.plan
  {
    hide Next, WorkerFine, ObjectFine, RankedAbove, TreesFine;
    assert ValidReply(w, k, Fail);
    CallKeepsInv(w, k, Fail);
  }

  lemma DnFails(w: World, k: Key, me: Worker)
    requires Typed(w) && Doing(w, k, me) && me.Working? && me.at.ComputingDn?
    ensures Ended(w, k, NextApi(w, k, false))
  {
    hide Next;
    DnLeaves(w, k, me, DnMissing, false);
  }

  lemma RemovalFails(w: World, k: Key, me: Worker)
    requires Inv(w) && Doing(w, k, me) && me.Working? && me.at.RemovingFinalizer? && k in w.store.objects
    ensures k !in NextApi(w, k, false).workers && NextApi(w, k, false).store == w.store
  {
    hide TreesFine, ObjectFine, RankedAbove, Next;
    assert WorkerFine(w, k);
    RemoveFinalizerLeaves(w, k, me, false);
  }

  /** Whatever the delete of the entry answers, the object goes, and no entry outside its subtree. */
  lemma DeleteNeverBlocks(w: World, k: Key, dn: Dn, r: Reply)
    requires Inv(w) && k in w.workers && k in w.plan && w.workers[k].Working? && w.workers[k].at == DeletingEntry(dn)
    requires ValidReply(w, k, r)
    ensures var deleted := Tick(Next(w, k, r));
            && k in deleted.workers && Answered(deleted, k, Ok)
            && k !in NextApi(deleted, k, true).workers
            && var store, d := NextApi(deleted, k, true).store, w.plan[k].directory;
               && store == w.store.(objects := w.store.objects - {k}, trees := store.trees)
               && d in w.store.trees && d in store.trees
               && store.trees == w.store.trees[d := store.trees[d]]
               && forall x :: x in w.store.trees[d] && !Under(x, dn) ==>
                                x in store.trees[d] && store.trees[d][x] == w.store.trees[d][x]
  {
    hide Next, Inv, ValidReply, Answered;
    CallKeepsInv(w, k, r);
    var deleted := Tick(Next(w, k, r));
    DeleteAnswers(w, k, dn, r);
    DeleteLeaves(w, k, w.workers[k], dn, r.code, r.tree);
    ApiStep(deleted, k);
    DeletingIsThere(w, k);
    RemoveFinalizerLeaves(deleted, k, deleted.workers[k], true);
  }

  lemma DeleteAnswers(w: World, k: Key, dn: Dn, r: Reply)
    requires Inv(w) && k in w.workers && w.workers[k].Working? && w.workers[k].at == DeletingEntry(dn)
    requires ValidReply(w, k, r)
    ensures r.Deleted? && k in w.plan && w.plan[k].directory in w.store.trees
    ensures var t := w.store.trees[w.plan[k].directory];
            forall x :: x in t && !Under(x, dn) ==> x in r.tree && r.tree[x] == t[x]
  {
    hide WorkerFine, ObjectFine, RankedAbove;
  }

  lemma DeletingIsThere(w: World, k: Key)
    requires Inv(w) && k in w.workers && w.workers[k].Working? && w.workers[k].at.DeletingEntry?
    ensures k in w.store.objects && w.store.objects[k].deleting
  {
    hide TreesFine, ObjectFine, RankedAbove;
    assert WorkerFine(w, k);
  }
}
