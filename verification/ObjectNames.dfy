// Which entry an object stands for: its DN spelled out, what objects with one DN have in common, and that what a worker
// writes carries its object's name.
module ObjectNames {
  import opened Common
  import opened Strings
  import opened DistinguishedNames
  import opened Dit
  import opened LdapClient
  import opened Mapper
  import opened SpecConvergence
  import opened ObjectModel
  import opened ObjectInvariants
  import opened ObjectRuns

  // ---------------------------------------------------------------- the DN, spelled out

  /** The attribute by which objects of a kind are named. */
  function OwnAttribute(k: Kind): string {
    match k
    case OrganizationalUnit => "ou"
    case Group => "cn"
    case User => "uid"
  }

  /** What follows an object's own name in its DN: its parent's DN, or that of a directory. */
  ghost predicate IsAbove(w: World, k: Key, above: string)
    requires k in w.plan
  {
    match w.plan[k].parent
    case None => IsDirectoryDn(w, w.plan[k].directory, above)
    case Some(ObjectRef(p)) => HasDn(w, p, above)
    case Some(DirectoryRef(d)) => IsDirectoryDn(w, d, above)
    case Some(OtherRef(_)) => false
  }

  predicate IsDirectoryDn(w: World, d: string, s: string) {
    d in w.domains && s == "dc=" + Join(Split(w.domains[d], '.'), ",dc=")
  }

  /** An object's DN is ou=, cn= or uid= by its kind, its name, a comma, and what is above it. */
  lemma DnSpelledOut(w: World, k: Key, s: string)
    requires k in w.plan
    ensures HasDn(w, k, s) <==>
            exists above :: IsAbove(w, k, above)
                            && s == OwnAttribute(k.kind) + "=" + w.plan[k].name + "," + above
  {
    if HasDn(w, k, s) {
      var above := DnParts(w, k, s);
    }
    if above :| IsAbove(w, k, above) && s == OwnAttribute(k.kind) + "=" + w.plan[k].name + "," + above {
      DnFromParts(w, k, above);
    }
  }

  lemma DnParts(w: World, k: Key, s: string) returns (above: string)
    requires k in w.plan && HasDn(w, k, s)
    ensures IsAbove(w, k, above) && s == OwnAttribute(k.kind) + "=" + w.plan[k].name + "," + above
  {
    var n: nat :| PrintedWithin(w.plan, w.domains, k, n) == Some(s);
    match w.plan[k].parent
    case Some(ObjectRef(p)) => above := PrintedWithin(w.plan, w.domains, p, n - 1).value;
    case Some(DirectoryRef(d)) => above := DirectoryDn(w.domains[d]);
    case None => above := DirectoryDn(w.domains[w.plan[k].directory]);
  }

  lemma DnFromParts(w: World, k: Key, above: string)
    requires k in w.plan && IsAbove(w, k, above)
    ensures HasDn(w, k, OwnAttribute(k.kind) + "=" + w.plan[k].name + "," + above)
  {
    var s := OwnAttribute(k.kind) + "=" + w.plan[k].name + "," + above;
    match w.plan[k].parent
    case Some(ObjectRef(p)) =>
      var n: nat :| PrintedWithin(w.plan, w.domains, p, n) == Some(above);
      assert PrintedWithin(w.plan, w.domains, k, n + 1) == Some(s);
    case Some(DirectoryRef(d)) =>
      assert PrintedWithin(w.plan, w.domains, k, 0) == Some(s);
    case None =>
      assert PrintedWithin(w.plan, w.domains, k, 0) == Some(s);
  }

  /** The entry at an object's DN is named by the object's kind and name, if the name holds no comma. */
  lemma OwnComponent(w: World, k: Key, s: string) returns (above: string)
    requires k in w.plan && HasDn(w, k, s) && ',' !in w.plan[k].name
    ensures IsAbove(w, k, above) && s == OwnAttribute(k.kind) + "=" + w.plan[k].name + "," + above
    ensures ParseDn(s) == [Rdn(OwnAttribute(k.kind), w.plan[k].name)] + ParseDn(above)
  {
    above := DnParts(w, k, s);
    ParseDnOfCons(Rdn(OwnAttribute(k.kind), w.plan[k].name), above);
  }

  /** Objects with one DN are of one kind and one name, below the same DN; whatever their ancestors are called. */
  lemma SameDnSameName(w: World, a: Key, b: Key, s: string) returns (above: string)
    requires a in w.plan && b in w.plan && HasDn(w, a, s) && HasDn(w, b, s)
    requires ',' !in w.plan[a].name && ',' !in w.plan[b].name
    ensures a.kind == b.kind && w.plan[a].name == w.plan[b].name
    ensures IsAbove(w, a, above) && IsAbove(w, b, above)
  {
    above := OwnComponent(w, a, s);
    var other := OwnComponent(w, b, s);
    assert ParseDn(s)[0] == Rdn(OwnAttribute(a.kind), w.plan[a].name);
    assert ParseDn(s)[0] == Rdn(OwnAttribute(b.kind), w.plan[b].name);
    var own := OwnAttribute(a.kind) + "=" + w.plan[a].name + ",";
    assert above == s[|own|..] == other;
  }

  /** In particular its DN begins as its spec says, as a clear place for the entry asks. */
  lemma DnCarriesName(w: World, k: Key, dn: Dn)
    requires k in w.store.objects && Conforms(w, k, w.store.objects[k].details)
    requires IsDnOf(w, k, dn) && ',' !in w.plan[k].name
    ensures dn != [] && dn[0] == OwnRdn(w.store.objects[k].details)
  {
    hide HasDn, ParseDn;
    var s :| HasDn(w, k, s) && ParseDn(s) == dn;
    var above := OwnComponent(w, k, s);
  }

  // ---------------------------------------------------------------- workers write their own object's entry

  /** The object, the worker's copy of it and the entry it is about to write agree with its key and its fixed name. */
  predicate ConformsAt(w: World, k: Key) {
    && (k in w.store.objects ==> Conforms(w, k, w.store.objects[k].details))
    && (k in w.workers ==> WorkerConforms(w, k, w.workers[k]))
  }

  predicate WorkerConforms(w: World, k: Key, me: Worker) {
    me.Working? ==>
      && Conforms(w, k, me.obj.details)
      && (me.at.Upserting? ==> me.at.entry.Kind() == k.kind && me.at.entry.name == w.plan[k].name)
  }

  ghost predicate AllConform(w: World) {
    forall k {:trigger ConformsAt(w, k)} :: k in w.plan ==> ConformsAt(w, k)
  }

  /** Moving on to any point but the writing of an entry. */
  lemma GotoConforms(w: World, k: Key, me: Worker)
    requires ConformsAt(w, k) && WorkerConforms(w, k, me)
    ensures ConformsAt(Goto(w, k, me), k) && ConformsAt(Stop(w, k), k)
  {
  }

  lemma MappedConforms(secrets: Secrets, dn: Dn, d: Details)
    requires MapToEntry(secrets, dn, d).Some?
    ensures MapToEntry(secrets, dn, d).value.Kind() == d.Kind() && MapToEntry(secrets, dn, d).value.name == d.Name()
  {
  }

  lemma FetchConforms(w: World, k: Key, r: Reply)
    requires k in w.plan && ConformsAt(w, k)
    ensures ConformsAt(AfterFetch(w, k, r), k) && ConformsAt(AfterAddFinalizer(w, k, r), k)
  {
    hide Ordinary, HoldsFinalizer;
  }

  lemma ReferencesConform(w: World, k: Key, me: Worker, r: Reply)
    requires k in w.plan && ConformsAt(w, k) && k in w.workers && w.workers[k] == me && me.Working?
    ensures ConformsAt(AfterResolveReferences(w, k, me, r), k)
  {
    hide AllResolve;
  }

  lemma DirectoryConforms(w: World, k: Key, me: Worker, r: Reply)
    requires k in w.plan && ConformsAt(w, k) && k in w.workers && w.workers[k] == me && me.Working?
    ensures ConformsAt(AfterResolveDirectory(w, k, me, r), k)
  {
    hide Ordinary;
  }

  lemma ParentConforms(w: World, k: Key, me: Worker, r: Reply)
    requires k in w.plan && ConformsAt(w, k) && k in w.workers && w.workers[k] == me && me.Working?
    requires w.plan[k].parent.Some?
    ensures ConformsAt(AfterResolveParent(w, k, me, r), k)
  {
    hide Ordinary, Refers;
  }

  lemma ComputeConforms(w: World, k: Key, me: Worker, r: Reply)
    requires k in w.plan && ConformsAt(w, k) && k in w.workers && w.workers[k] == me && me.Working?
    ensures ConformsAt(AfterComputeDn(w, k, me, r), k)
  {
    hide DnWithin, Terminates, ParseDn, Ordinary;
  }

  lemma DeleteConforms(w: World, k: Key, me: Worker, dn: Dn, r: Reply)
    requires k in w.plan && ConformsAt(w, k) && k in w.workers && w.workers[k] == me && me.Working?
    requires r.Deleted?
    ensures ConformsAt(AfterDeleteEntry(w, k, me, dn, r), k)
  {
  }

  lemma RemovalConforms(w: World, k: Key, r: Reply)
    requires k in w.plan && ConformsAt(w, k)
    ensures ConformsAt(AfterRemoveFinalizer(w, k, r), k)
  {
  }

  lemma OwnerConforms(w: World, k: Key, me: Worker, dn: Dn, r: Reply)
    requires k in w.plan && ConformsAt(w, k) && k in w.workers && w.workers[k] == me && me.Working?
    ensures ConformsAt(AfterSetOwner(w, k, me, dn, r), k)
  {
    hide Ordinary, HoldsFinalizer;
  }

  lemma MappingConforms(w: World, k: Key, me: Worker, dn: Dn, r: Reply)
    requires k in w.plan && ConformsAt(w, k) && k in w.workers && w.workers[k] == me && me.Working?
    ensures ConformsAt(AfterMapToEntry(w, k, me, dn, r), k)
  {
    hide MapToEntry, Ordinary;
    if MapToEntry(w.store.secrets, dn, me.obj.details).Some? {
      MappedConforms(w.store.secrets, dn, me.obj.details);
    }
  }

  lemma UpsertConforms(w: World, k: Key, me: Worker, dn: Dn, r: Reply)
    requires k in w.plan && ConformsAt(w, k) && k in w.workers && w.workers[k] == me && me.Working?
    requires r.Upserted?
    ensures ConformsAt(AfterUpsert(w, k, me, dn, r), k)
  {
  }

  lemma MarkConforms(w: World, k: Key, phase: Phase, r: Reply)
    requires k in w.plan && ConformsAt(w, k)
    ensures ConformsAt(AfterMark(w, k, phase, r), k)
  {
    hide HoldsFinalizer;
  }

  lemma OwnCallConforms(w: World, k: Key, r: Reply)
    requires k in w.workers && k in w.plan && ConformsAt(w, k)
    ensures ConformsAt(Next(w, k, r), k)
  {
    hide AfterFetch, AfterAddFinalizer, AfterResolveReferences, AfterResolveDirectory, AfterResolveParent;
    hide AfterComputeDn, AfterDeleteEntry, AfterRemoveFinalizer, AfterSetOwner, AfterMapToEntry, AfterUpsert;
    hide AfterMark, HoldsFinalizer, Ordinary;
    var me := w.workers[k];
    match me
    case Starting => FetchConforms(w, k, r);
    case Working(_, _, at) =>
      match at
      case AddingFinalizer => FetchConforms(w, k, r);
      case ResolvingReferences => ReferencesConform(w, k, me, r);
      case ResolvingDirectory => DirectoryConforms(w, k, me, r);
      case ResolvingParent =>
        if w.plan[k].parent.Some? {
          ParentConforms(w, k, me, r);
        }
      case BuildingClient => GotoConforms(w, k, me.(at := ComputingDn));
      case ComputingDn => ComputeConforms(w, k, me, r);
      case DeletingEntry(dn) =>
        if r.Deleted? {
          DeleteConforms(w, k, me, dn, r);
        }
      case RemovingFinalizer(_) => RemovalConforms(w, k, r);
      case SettingOwner(dn) => OwnerConforms(w, k, me, dn, r);
      case MappingEntry(dn) => MappingConforms(w, k, me, dn, r);
      case Upserting(e) =>
        if r.Upserted? {
          UpsertConforms(w, k, me, e.dn, r);
        }
      case Marking(phase, _) => MarkConforms(w, k, phase, r);
  }

  lemma CallKeepsConform(w: World, k: Key, r: Reply)
    requires Inv(w) && AllConform(w) && k in w.workers && ValidReply(w, k, r)
    ensures AllConform(Tick(Next(w, k, r)))
  {
    hide TreesFine, WorkerFine, ObjectFine, RankedAbove, Next, ValidReply, TreeGrows, RankGrows;
    CallKeepsInv(w, k, r);
    var w' := Next(w, k, r);
    assert ConformsAt(w, k);
    OwnCallConforms(w, k, r);
    forall x | x in w'.plan ensures ConformsAt(Tick(w'), x) {
      assert ConformsAt(w, x);
    }
  }

  lemma EventKeepsConform(w: World, e: Event)
    requires Inv(w) && AllConform(w) && Enabled(w, e)
    ensures AllConform(Happen(w, e))
  {
    hide TreesFine, WorkerFine, ObjectFine, RankedAbove, Next, ValidReply, ConformsAt, WellFormed;
    if e.Call? {
      CallKeepsConform(w, e.key, e.reply);
    } else {
      var w' := Happen(w, e);
      forall x | x in w'.plan ensures ConformsAt(w', x) {
        assert ConformsAt(w, x);
        if e.CreateObject? || e.EditObject? || e.DeleteObject? {
          EditConforms(w, e, x);
        } else {
          SurroundingsConform(w, e, x);
        }
      }
    }
  }

  lemma EditConforms(w: World, e: Event, x: Key)
    requires Typed(w) && Enabled(w, e) && (e.CreateObject? || e.EditObject? || e.DeleteObject?) && ConformsAt(w, x)
    ensures ConformsAt(Happen(w, e), x)
  {
    hide Next, ValidReply, WellFormed, Conforms, Typed;
    var w' := Effect(w, e);
    assert Happen(w, e) == Tick(w') && w'.plan == w.plan && w'.workers == w.workers;
    if x in w'.store.objects {
      EditedConforms(w, e, x);
    }
    ObjectConforms(w, Tick(w'), x);
  }

  lemma EditedConforms(w: World, e: Event, x: Key)
    requires Typed(w) && Enabled(w, e) && (e.CreateObject? || e.EditObject? || e.DeleteObject?) && ConformsAt(w, x)
    requires x in Effect(w, e).store.objects
    ensures Conforms(w, x, Effect(w, e).store.objects[x].details)
  {
    hide Next, ValidReply, WellFormed, Conforms, Typed;
  }

  lemma ObjectConforms(w: World, w': World, x: Key)
    requires ConformsAt(w, x) && w'.plan == w.plan && w'.workers == w.workers
    requires x in w'.store.objects ==> Conforms(w, x, w'.store.objects[x].details)
    ensures ConformsAt(w', x)
  {
  }

  lemma SurroundingsConform(w: World, e: Event, x: Key)
    requires Typed(w) && Enabled(w, e) && !e.Call? && !e.CreateObject? && !e.EditObject? && !e.DeleteObject?
    requires ConformsAt(w, x)
    ensures ConformsAt(Happen(w, e), x)
  {
    hide Next, ValidReply, WellFormed, Conforms;
    assert Happen(w, e).plan == w.plan && Happen(w, e).store.objects == w.store.objects;
    SameConforms(w, Happen(w, e), x);
  }

  lemma SameConforms(w: World, w': World, x: Key)
    requires ConformsAt(w, x) && w'.plan == w.plan && w'.store.objects == w.store.objects
    requires x in w'.workers ==> w'.workers[x].Starting? || (x in w.workers && w'.workers[x] == w.workers[x])
    ensures ConformsAt(w', x)
  {
  }

  lemma {:induction false} RunKeepsConform(w: World, es: seq<Event>)
    requires Inv(w) && AllConform(w) && Legal(w, es)
    ensures Inv(After(w, es)) && AllConform(After(w, es))
    decreases |es|
  {
    hide Inv, AllConform, Enabled, Happen;
    if es != [] {
      EventKeepsInv(w, es[0]);
      EventKeepsConform(w, es[0]);
      RunKeepsConform(Happen(w, es[0]), es[1..]);
    }
  }

  /**
   * Over every run in which users keep to their objects' kinds and names, the entry a worker is about to write is of
   * its object's kind and name, at a DN that begins with ou=, cn= or uid= and that name, if it holds no comma.
   */
  lemma EntryNamedAsObject(w0: World, es: seq<Event>, k: Key)
    requires Initial(w0) && AllConform(w0) && Legal(w0, es)
    requires var w := After(w0, es);
             k in w.workers && w.workers[k].Working? && w.workers[k].at.Upserting? && k in w.plan
             && ',' !in w.plan[k].name
    ensures var w := After(w0, es); var e := w.workers[k].at.entry;
            && e.Kind() == k.kind && e.name == w.plan[k].name
            && e.dn != [] && e.dn[0] == Rdn(OwnAttribute(k.kind), w.plan[k].name)
            && e.dn[0] == Rdn(NamingAttribute(e.Kind()), e.name)
  {
    hide Initial, Legal, After;
    InitialInv(w0);
    RunKeepsConform(w0, es);
    var w := After(w0, es);
    NamedAsObject(w, k);
  }

  lemma NamedAsObject(w: World, k: Key)
    requires Inv(w) && AllConform(w) && k in w.workers && w.workers[k].Working? && w.workers[k].at.Upserting?
    requires k in w.plan && ',' !in w.plan[k].name
    ensures var e := w.workers[k].at.entry;
            && e.Kind() == k.kind && e.name == w.plan[k].name
            && e.dn != [] && e.dn[0] == Rdn(OwnAttribute(k.kind), w.plan[k].name)
  {
    hide TreesFine, ObjectFine, RankedAbove, OwnAttribute, HasDn, ParseDn;
    assert ConformsAt(w, k) && WorkerFine(w, k);
    var s :| HasDn(w, k, s) && ParseDn(s) == w.workers[k].at.entry.dn;
    var above := OwnComponent(w, k, s);
  }
}
