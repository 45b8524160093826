// Safety over whole runs: parents first, one Ready object per DN, objects that can never become Ready, finalizers.
module ObjectTheorems {
  import opened Common
  import opened Strings
  import opened DistinguishedNames
  import opened Dit
  import opened LdapClient
  import opened ObjectModel
  import opened ObjectInvariants
  import opened ObjectRuns

  // ---------------------------------------------------------------- what each call records

  ghost predicate MarkingReady(w: World, k: Key) {
    k in w.workers && w.workers[k].Working? && w.workers[k].at.Marking? && w.workers[k].at.phase == Ready
  }

  ghost predicate UpsertingEntry(w: World, k: Key) {
    k in w.workers && w.workers[k].Working? && w.workers[k].at.Upserting?
  }

  /** Only a create-or-update call records a creation. */
  lemma OnlyUpsertRecords(w: World, k: Key, r: Reply)
    requires k in w.workers && k in w.plan && !UpsertingEntry(w, k)
    ensures Next(w, k, r).history.creator == w.history.creator
  {
    hide AfterFetch, AfterAddFinalizer, AfterResolveReferences, AfterResolveDirectory, AfterResolveParent;
    hide AfterComputeDn, AfterDeleteEntry, AfterRemoveFinalizer, AfterSetOwner, AfterMapToEntry, AfterUpsert;
    hide AfterMark, HoldsFinalizer, Ordinary;
  }

  /** Only a create-or-update call turns its worker to marking Ready. */
  lemma OnlyUpsertLeadsToReady(w: World, k: Key, r: Reply)
    requires k in w.workers && k in w.plan && !UpsertingEntry(w, k) && !MarkingReady(w, k)
    ensures !MarkingReady(Next(w, k, r), k)
  {
  }

  /** Only marking Ready gives an object its rank. */
  lemma OnlyMarkRanks(w: World, k: Key, r: Reply)
    requires k in w.workers && k in w.plan && !MarkingReady(w, k)
    ensures Next(w, k, r).history.firstReady == w.history.firstReady
  {
    hide AfterFetch, AfterAddFinalizer, AfterResolveReferences, AfterResolveDirectory, AfterResolveParent;
    hide AfterComputeDn, AfterDeleteEntry, AfterRemoveFinalizer, AfterSetOwner, AfterMapToEntry, AfterUpsert;
    hide AfterMark, HoldsFinalizer, Ordinary;
    if w.workers[k].Working? && w.workers[k].at.Marking? {
      OtherMarkRanksNone(w, k, w.workers[k].at.phase, r);
    }
  }

  lemma OtherMarkRanksNone(w: World, k: Key, phase: Phase, r: Reply)
    requires phase != Ready
    ensures AfterMark(w, k, phase, r).history.firstReady == w.history.firstReady
  {
  }

  // ---------------------------------------------------------------- while no recorded entry is removed

  /** Every entry recorded in w is still there in w'. */
  ghost predicate KeepsEntries(w: World, w': World) {
    forall p {:trigger p in w.history.creator} :: p in w.history.creator ==> HasEntry(w', p.0, p.1)
  }

  predicate HasEntry(w: World, d: string, dn: Dn) {
    d in w.store.trees && dn in w.store.trees[d]
  }

  /** The object's own reconcile added the entry at its DN. */
  ghost predicate Created(w: World, k: Key)
    requires k in w.plan
  {
    exists dn :: IsDnOf(w, k, dn) && Recorded(w, k, dn)
  }

  predicate Recorded(w: World, k: Key, dn: Dn)
    requires k in w.plan
  {
    var p := (w.plan[k].directory, dn);
    p in w.history.creator && w.history.creator[p] == k
  }

  ghost predicate Vouched(w: World, k: Key) {
    k in w.plan && (k in w.history.firstReady || MarkingReady(w, k) ==> Created(w, k))
  }

  /** Recorded entries exist, and Ready objects created theirs. */
  ghost predicate RecordTrue(w: World) {
    && KeepsEntries(w, w)
    && forall k {:trigger Vouched(w, k)} :: k in w.plan ==> Vouched(w, k)
  }

  lemma InitialRecord(w: World)
    requires Initial(w)
    ensures RecordTrue(w)
  {
  }

  ghost predicate RecordGrows(w: World, w': World) {
    forall p {:trigger p in w'.history.creator} :: p in w.history.creator ==>
      p in w'.history.creator && w'.history.creator[p] == w.history.creator[p]
  }

  lemma StillCreated(w: World, w': World, k: Key)
    requires SamePlan(w, w') && k in w.plan && Created(w, k) && RecordGrows(w, w')
    ensures Created(w', k)
  {
    var dn :| IsDnOf(w, k, dn) && Recorded(w, k, dn);
    SameDnOf(w, w', k, dn);
    assert (w.plan[k].directory, dn) in w'.history.creator;
    assert Recorded(w', k, dn);
  }

  /** A create-or-update that reports a creation records it, over no earlier record. */
  lemma CreationRecords(w: World, k: Key, e: DirectoryEntry, t: Tree, w': World)
    requires RecordTrue(w) && k in w.plan && IsDnOf(w, k, e.dn) && w.plan[k].directory in w.store.trees
    requires e.dn !in w.store.trees[w.plan[k].directory] && e.dn in t
    requires SamePlan(w, w') && w'.store.trees == w.store.trees[w.plan[k].directory := t]
    requires w'.history.creator == w.history.creator[(w.plan[k].directory, e.dn) := k]
    ensures RecordGrows(w, w') && Created(w', k) && HasEntry(w', w.plan[k].directory, e.dn)
  {
    var p := (w.plan[k].directory, e.dn);
    assert p in w.history.creator ==> HasEntry(w, p.0, p.1);
    SameDnOf(w, w', k, e.dn);
    assert Recorded(w', k, e.dn);
  }

  /** What a create-or-update call does to the record. */
  lemma UpsertRecords(w: World, k: Key, r: Reply)
    requires Inv(w) && RecordTrue(w) && UpsertingEntry(w, k) && k in w.plan && ValidReply(w, k, r)
    ensures var w' := Next(w, k, r);
            && RecordGrows(w, w')
            && (MarkingReady(w', k) ==> Created(w', k))
            && forall p :: p in w'.history.creator ==> p in w.history.creator || HasEntry(w', p.0, p.1)
  {
    hide TreesFine, WorkerFine, ObjectFine, RankedAbove, IsDnOf, AfterFetch, AfterAddFinalizer;
    hide AfterResolveReferences, AfterResolveDirectory, AfterResolveParent, AfterComputeDn, AfterDeleteEntry;
    hide AfterRemoveFinalizer, AfterSetOwner, AfterMapToEntry, AfterMark, HoldsFinalizer, Ordinary;
    UpsertReplyIn(w, k, r);
    var e := w.workers[k].at.entry;
    var w' := AfterUpsert(w, k, w.workers[k], e.dn, r);
    assert Next(w, k, r) == w';
    if r.outcome == Done(true) {
      CreationRecords(w, k, e, r.tree, w');
    }
  }

  lemma UpsertReplyIn(w: World, k: Key, r: Reply)
    requires Inv(w) && UpsertingEntry(w, k) && k in w.plan && ValidReply(w, k, r)
    ensures r.Upserted? && w.plan[k].directory in w.store.trees
    ensures var d, dn := w.plan[k].directory, w.workers[k].at.entry.dn;
            && IsDnOf(w, k, dn)
            && (r.outcome == Done(true) ==> dn !in w.store.trees[d] && dn in r.tree)
  {
    assert WorkerFine(w, k);
    assert k in w.store.objects ==> ObjectFine(w, k);
    assert TreeFine(w, w.plan[k].directory);
    UpsertReply(w, k, w.workers[k].at.entry, r);
  }

  /** What the record says stays true over a call that removes no recorded entry. */
  lemma CallKeepsRecord(w: World, k: Key, r: Reply)
    requires Inv(w) && RecordTrue(w) && k in w.workers && ValidReply(w, k, r)
    requires KeepsEntries(w, Next(w, k, r))
    ensures RecordTrue(Tick(Next(w, k, r)))
  {
    hide TreesFine, WorkerFine, ObjectFine, RankedAbove, IsDnOf;
    var w' := Next(w, k, r);
    var after := Tick(w');
    CallKeepsInv(w, k, r);
    if UpsertingEntry(w, k) {
      UpsertRecords(w, k, r);
      assert !MarkingReady(w, k);
      OnlyMarkRanks(w, k, r);
    } else {
      OnlyUpsertRecords(w, k, r);
    }
    forall p | p in after.history.creator ensures HasEntry(after, p.0, p.1) {
      assert p in w.history.creator ==> HasEntry(w', p.0, p.1);
    }
    forall x | x in after.plan ensures Vouched(after, x) {
      assert Vouched(w, x);
      VouchedAfterCall(w, k, r, x);
    }
  }

  lemma VouchedAfterCall(w: World, k: Key, r: Reply, x: Key)
    requires k in w.workers && k in w.plan && x in w.plan && Vouched(w, x) && Vouched(w, k)
    requires Progress(w, Next(w, k, r), k) && RecordGrows(w, Next(w, k, r))
    requires UpsertingEntry(w, k) && MarkingReady(Next(w, k, r), k) ==> Created(Next(w, k, r), k)
    ensures Vouched(Tick(Next(w, k, r)), x)
  {
    hide TreesFine, WorkerFine, ObjectFine, RankedAbove, IsDnOf, Next;
    var w' := Next(w, k, r);
    var after := Tick(w');
    if !MarkingReady(w, k) {
      OnlyMarkRanks(w, k, r);
      if !UpsertingEntry(w, k) {
        OnlyUpsertLeadsToReady(w, k, r);
      }
    }
    if Created(w, x) {
      StillCreated(w, after, x);
    }
    if Created(w', x) {
      StillCreated(w', after, x);
    }
  }

  lemma EventKeepsRecord(w: World, e: Event)
    requires Inv(w) && RecordTrue(w) && Enabled(w, e) && KeepsEntries(w, Happen(w, e))
    ensures RecordTrue(Happen(w, e))
  {
    if e.Call? {
      CallKeepsRecord(w, e.key, e.reply);
    } else {
      var after := Happen(w, e);
      QuietEvent(w, e);
      forall x | x in after.plan ensures Vouched(after, x) {
        assert Vouched(w, x);
        if x in after.workers {
          QuietEventMovesNone(w, e, x);
        }
        if Created(w, x) {
          StillCreated(w, after, x);
        }
      }
    }
  }

  /** Events other than calls record nothing, rank nothing and move no worker on. */
  lemma QuietEvent(w: World, e: Event)
    requires Typed(w) && Enabled(w, e) && !e.Call?
    ensures var after := Happen(w, e);
            && SamePlan(w, after)
            && after.history == w.history.(clock := w.history.clock + 1)
  {
    hide Enabled, Effect, SamePlan;
    if IsUserEdit(e) {
      UserEditIsQuiet(w, e);
    } else {
      SurroundingsAreQuiet(w, e);
    }
  }

  predicate IsUserEdit(e: Event) {
    e.CreateObject? || e.EditObject? || e.DeleteObject?
  }

  lemma UserEditIsQuiet(w: World, e: Event)
    requires Typed(w) && Enabled(w, e) && IsUserEdit(e)
    ensures SamePlan(w, Effect(w, e)) && Effect(w, e).history == w.history
    ensures SamePlan(w, Happen(w, e))
  {
    hide Next, ValidReply, Conforms, WellFormed;
  }

  lemma SurroundingsAreQuiet(w: World, e: Event)
    requires Typed(w) && Enabled(w, e) && !IsUserEdit(e) && !e.Call?
    ensures SamePlan(w, Effect(w, e)) && Effect(w, e).history == w.history
    ensures SamePlan(w, Happen(w, e))
  {
    hide Next, ValidReply, Conforms, WellFormed;
  }

  lemma QuietEventMovesNone(w: World, e: Event, x: Key)
    requires Typed(w) && Enabled(w, e) && !e.Call? && x in Happen(w, e).workers
    ensures var me := Happen(w, e).workers[x]; me.Starting? || (x in w.workers && me == w.workers[x])
  {
    hide Next, ValidReply, Conforms, WellFormed;
  }

  /** No step of the run removes a recorded entry. */
  ghost predicate KeepsAll(w: World, es: seq<Event>)
    requires Legal(w, es)
    decreases |es|
  {
    es == [] || (KeepsEntries(w, Happen(w, es[0])) && KeepsAll(Happen(w, es[0]), es[1..]))
  }

  lemma {:induction false} RunKeepsRecord(w: World, es: seq<Event>)
    requires Inv(w) && RecordTrue(w) && Legal(w, es) && KeepsAll(w, es)
    ensures Inv(After(w, es)) && RecordTrue(After(w, es)) && SamePlan(w, After(w, es))
    decreases |es|
  {
    if es != [] {
      EventKeepsInv(w, es[0]);
      EventKeepsRecord(w, es[0]);
      RunKeepsRecord(Happen(w, es[0]), es[1..]);
    }
  }

  lemma RunFromStart(w0: World, es: seq<Event>)
    requires Initial(w0) && Legal(w0, es) && KeepsAll(w0, es)
    ensures Inv(After(w0, es)) && RecordTrue(After(w0, es)) && SamePlan(w0, After(w0, es))
  {
    InitialInv(w0);
    InitialRecord(w0);
    RunKeepsRecord(w0, es);
  }

  // ---------------------------------------------------------------- one Ready object per DN

  /** Two objects that share a DN in one directory are never both Ready, at the same time or one after the other. */
  lemma OneReadyPerDn(w0: World, es: seq<Event>, a: Key, b: Key, dn: Dn)
    requires Initial(w0) && Legal(w0, es) && KeepsAll(w0, es)
    requires var w := After(w0, es);
             && a in w.history.firstReady && b in w.history.firstReady
             && a in w.plan && b in w.plan && w.plan[a].directory == w.plan[b].directory
             && IsDnOf(w, a, dn) && IsDnOf(w, b, dn)
    ensures a == b
  {
    var w := After(w0, es);
    RunFromStart(w0, es);
    assert Vouched(w, a) && Vouched(w, b);
    CreatedAt(w, a, dn);
    CreatedAt(w, b, dn);
  }

  lemma CreatedAt(w: World, k: Key, dn: Dn)
    requires k in w.plan && Created(w, k) && IsDnOf(w, k, dn)
    ensures Recorded(w, k, dn)
  {
    var dn' :| IsDnOf(w, k, dn') && Recorded(w, k, dn');
    var s :| HasDn(w, k, s) && ParseDn(s) == dn;
    var s' :| HasDn(w, k, s') && ParseDn(s') == dn';
    DnUnique(w, k, s, s');
  }

  // ---------------------------------------------------------------- parents first

  /** A directory's own entry is there. */
  ghost predicate BasesPresent(w: World) {
    forall d :: d in w.bases ==> HasEntry(w, d, w.bases[d])
  }

  /** The servers' bases are those the client builder computes. */
  ghost predicate RightBases(w: World) {
    w.bases.Keys == w.domains.Keys && forall d :: d in w.bases ==> w.bases[d] == ParseDn(ClientBaseDn(w.domains[d]))
  }

  /** As far up as n parents, an object and its ancestors name the same directory. */
  predicate OneDirectory(plan: map<Key, Identity>, k: Key, n: nat)
    requires k in plan
    decreases n
  {
    match plan[k].parent
    case Some(ObjectRef(p)) =>
      n > 0 && p in plan && plan[p].directory == plan[k].directory && OneDirectory(plan, p, n - 1)
    case Some(DirectoryRef(d)) => d == plan[k].directory
    case Some(OtherRef(_)) => false
    case None => true
  }

  /**
   * With one directory along its parent chain, an object's DN ends in the base DN of the client it is written with,
   * and so names an entry below that base; commas in names make no difference.
   */
  lemma {:induction false} DnEndsInClientBase(w: World, k: Key, s: string, n: nat)
    requires k in w.plan && PrintedWithin(w.plan, w.domains, k, n) == Some(s) && OneDirectory(w.plan, k, n)
    ensures w.plan[k].directory in w.domains
    ensures var base := ClientBaseDn(w.domains[w.plan[k].directory]);
            EndsWith(s, "," + base) && Under(ParseDn(s), ParseDn(base))
    decreases n
  {
    var own := PrintRdn(RdnOf(k, w.plan[k]));
    match w.plan[k].parent
    case Some(ObjectRef(p)) =>
      var above := PrintedWithin(w.plan, w.domains, p, n - 1).value;
      DnEndsInClientBase(w, p, above, n - 1);
      InFrontOf(own, above, ClientBaseDn(w.domains[w.plan[k].directory]));
    case Some(DirectoryRef(d)) =>
      BaseDnsAgree(w.domains[d]);
      DirectlyInFrontOf(own, ClientBaseDn(w.domains[d]));
    case Some(OtherRef(_)) =>
    case None =>
      BaseDnsAgree(w.domains[w.plan[k].directory]);
      DirectlyInFrontOf(own, ClientBaseDn(w.domains[w.plan[k].directory]));
  }

  lemma InFrontOf(own: string, above: string, base: string)
    requires EndsWith(above, "," + base) && Under(ParseDn(above), ParseDn(base))
    ensures EndsWith(own + "," + above, "," + base) && Under(ParseDn(own + "," + above), ParseDn(base))
  {
    EndsWithLonger(own + ",", above, "," + base);
    ParseDnAtComma(own, above);
    UnderLonger(ParseDn(own), ParseDn(above), ParseDn(base));
  }

  lemma DirectlyInFrontOf(own: string, base: string)
    ensures EndsWith(own + "," + base, "," + base) && Under(ParseDn(own + "," + base), ParseDn(base))
  {
    assert own + "," + base == own + ("," + base);
    ParseDnAtComma(own, base);
  }

  lemma UnderLonger(a: Dn, d: Dn, root: Dn)
    requires Under(d, root)
    ensures Under(a + d, root)
  {
  }

  lemma EndsWithLonger(u: string, s: string, t: string)
    requires EndsWith(s, t)
    ensures EndsWith(u + s, t)
  {
  }

  predicate AllIn(plan: map<Key, Identity>, path: seq<Key>, d: string) {
    forall i :: 0 <= i < |path| ==> path[i] in plan && plan[path[i]].directory == d
  }

  /** The entries of an object that was ever Ready and of all its ancestors are in their directory's tree. */
  lemma AncestorsHaveEntries(w0: World, es: seq<Event>, path: seq<Key>, i: nat, d: string) returns (dn: Dn)
    requires Initial(w0) && Legal(w0, es) && KeepsAll(w0, es)
    requires i < |path| && ParentPath(w0.plan, path) && AllIn(w0.plan, path, d)
    requires path[0] in After(w0, es).history.firstReady
    ensures IsDnOf(After(w0, es), path[i], dn) && HasEntry(After(w0, es), d, dn)
  {
    var w := After(w0, es);
    RunFromStart(w0, es);
    RanksFall(w, path, i);
    dn := VouchedEntry(w, path[i]);
  }

  lemma VouchedEntry(w: World, k: Key) returns (dn: Dn)
    requires RecordTrue(w) && k in w.plan && k in w.history.firstReady
    ensures IsDnOf(w, k, dn) && HasEntry(w, w.plan[k].directory, dn)
  {
    assert Vouched(w, k);
    dn :| IsDnOf(w, k, dn) && Recorded(w, k, dn);
    var p := (w.plan[k].directory, dn);
    assert p in w.history.creator;
    assert HasEntry(w, p.0, p.1);
  }

  /** The DN of a child is its own component in front of its parent's DN. */
  lemma DnOfChild(w: World, k: Key, p: Key, s: string) returns (above: string)
    requires k in w.plan && w.plan[k].parent == Some(ObjectRef(p)) && HasDn(w, k, s)
    ensures HasDn(w, p, above) && s == PrintRdn(RdnOf(k, w.plan[k])) + "," + above
  {
    var n: nat :| PrintedWithin(w.plan, w.domains, k, n) == Some(s);
    above := PrintedWithin(w.plan, w.domains, p, n - 1).value;
  }

  lemma DnOfTop(w: World, k: Key, s: string)
    requires k in w.plan && w.plan[k].parent.None? && HasDn(w, k, s)
    ensures w.plan[k].directory in w.domains
    ensures s == PrintRdn(RdnOf(k, w.plan[k])) + "," + DirectoryDn(w.domains[w.plan[k].directory])
  {
  }

  lemma SuperiorOf(k: Key, id: Identity, above: string)
    requires ',' !in id.name
    ensures var dn := ParseDn(PrintRdn(RdnOf(k, id)) + "," + above); dn != [] && dn[1..] == ParseDn(above)
  {
    ParseDnOfCons(RdnOf(k, id), above);
  }

  /** The entry to be added goes right below the parent's, or the base, exactly when its name has no comma. */
  lemma SuperiorExactly(k: Key, id: Identity, above: string)
    ensures var dn := ParseDn(PrintRdn(RdnOf(k, id)) + "," + above);
            (dn != [] && dn[1..] == ParseDn(above)) <==> ',' !in id.name
  {
    ParseDnOfCons(RdnOf(k, id), above);
    CountZero(id.name, ',');
  }

  /** The superior of an object that has a Ready parent in the same directory, or no parent, is there. */
  lemma SuperiorPresent(w: World, k: Key, dn: Dn)
    requires Typed(w) && RecordTrue(w) && RightBases(w) && BasesPresent(w)
    requires k in w.plan && IsDnOf(w, k, dn) && ',' !in w.plan[k].name
    requires w.plan[k].parent.Some? ==>
               && w.plan[k].parent.value.ObjectRef?
               && var p := w.plan[k].parent.value.key;
                  p in w.plan && p in w.history.firstReady && w.plan[p].directory == w.plan[k].directory
    ensures dn != [] && HasEntry(w, w.plan[k].directory, dn[1..])
  {
    var s :| HasDn(w, k, s) && ParseDn(s) == dn;
    if w.plan[k].parent.Some? {
      var p := w.plan[k].parent.value.key;
      var above := DnOfChild(w, k, p, s);
      ReadyEntry(w, p, above);
      SuperiorOf(k, w.plan[k], above);
    } else {
      var d := w.plan[k].directory;
      DnOfTop(w, k, s);
      BaseDnsAgree(w.domains[d]);
      assert HasEntry(w, d, w.bases[d]);
      SuperiorOf(k, w.plan[k], DirectoryDn(w.domains[d]));
    }
  }

  lemma ReadyEntry(w: World, k: Key, s: string)
    requires RecordTrue(w) && k in w.plan && k in w.history.firstReady && HasDn(w, k, s)
    ensures HasEntry(w, w.plan[k].directory, ParseDn(s))
  {
    assert Vouched(w, k);
    assert IsDnOf(w, k, ParseDn(s));
    CreatedAt(w, k, ParseDn(s));
    var p := (w.plan[k].directory, ParseDn(s));
    assert p in w.history.creator;
    assert HasEntry(w, p.0, p.1);
  }

  /**
   * Parents first: over any run that removes no entry and starts with nothing Ready, no create-or-update is refused
   * for a missing superior, provided the name has no comma and the parent belongs to the same directory.
   */
  lemma NoAddLacksSuperior(w0: World, es: seq<Event>, k: Key, e: DirectoryEntry, r: Reply)
    requires Initial(w0) && RightBases(w0) && Legal(w0, es) && KeepsAll(w0, es) && BasesPresent(After(w0, es))
    requires var w := After(w0, es);
             && k in w.workers && w.workers[k].Working? && w.workers[k].at == Upserting(e)
             && k in w.plan && ',' !in w.plan[k].name
             && (w.plan[k].parent.Some? && w.plan[k].parent.value.ObjectRef? && w.plan[k].parent.value.key in w.plan ==>
                   w.plan[w.plan[k].parent.value.key].directory == w.plan[k].directory)
             && Typed(w) && ValidReply(w, k, r)
    ensures r.Upserted? && r.outcome != Outcome.Refused(NoSuchObject)
  {
    var w := After(w0, es);
    RunFromStart(w0, es);
    assert WorkerFine(w, k);
    if w.workers[k].parent.Some? {
      assert RankedAbove(w, w.workers[k].parent.value);
    }
    SuperiorPresent(w, k, e.dn);
    assert k in w.store.objects ==> ObjectFine(w, k);
    assert TreeFine(w, w.plan[k].directory);
    UpsertReply(w, k, e, r);
  }
}
