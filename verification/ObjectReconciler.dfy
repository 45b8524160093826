// The reconciler's own code: one reconcile, call by call, amid whatever everyone else does between its calls, proved to
// be a run of the machine's worker interleaved with others' events.
module ObjectReconciler {
  import opened Common
  import opened DistinguishedNames
  import opened Dit
  import opened LdapClient
  import opened Mapper
  import opened ObjectModel
  import opened ObjectInvariants
  import opened ObjectRuns
  import opened ObjectCalls

  // ---------------------------------------------------------------- everyone else

  /** Anyone's event but the worker's on k, and not a crash of the process it runs in. */
  predicate Spares(e: Event, k: Key) {
    !e.Restart? && !(e.Begin? && e.key == k) && !(e.Call? && e.key == k)
  }

  ghost predicate AllSpare(es: seq<Event>, k: Key) {
    forall i :: 0 <= i < |es| ==> Spares(es[i], k)
  }

  /** What others do, however much, leads from w to w' and leaves the worker on k at work. */
  ghost predicate OthersLead(w: World, k: Key, w': World) {
    && k in w.workers && k in w'.workers && w'.workers[k] == w.workers[k]
    && exists es :: AllSpare(es, k) && Legal(w, es) && After(w, es) == w'
  }

  /** The worker's calls and others' events, in any order. */
  ghost predicate Amid(es: seq<Event>, k: Key) {
    forall i :: 0 <= i < |es| ==> !es[i].Restart? && !(es[i].Begin? && es[i].key == k)
  }

  ghost predicate LeadsTo(w: World, k: Key, w': World) {
    exists es :: Amid(es, k) && Legal(w, es) && After(w, es) == w'
  }

  ghost function WorldsAround(w: World, k: Key): iset<World> {
    iset w' | LeadsTo(w, k, w')
  }

  /** A set of worlds that neither calls of the worker on k nor others' events leave. */
  ghost predicate ClosedAround(reach: iset<World>, k: Key) {
    && (forall w {:trigger Inv(w)} :: w in reach ==> Inv(w))
    && (forall w, r {:trigger Next(w, k, r)} ::
          w in reach && Typed(w) && k in w.workers && ValidReply(w, k, r) ==> Tick(Next(w, k, r)) in reach)
    && forall w, w' {:trigger OthersLead(w, k, w')} :: w in reach && OthersLead(w, k, w') ==> w' in reach
  }

  lemma AroundItself(w: World, k: Key)
    ensures LeadsTo(w, k, w)
  {
    assert Amid([], k) && Legal(w, []) && After(w, []) == w;
  }

  lemma AroundWithRun(w: World, k: Key, w': World, es: seq<Event>)
    requires LeadsTo(w, k, w') && Amid(es, k) && Legal(w', es)
    ensures LeadsTo(w, k, After(w', es))
  {
    hide Legal, After;
    var first :| Amid(first, k) && Legal(w, first) && After(w, first) == w';
    RunJoins(w, first, es);
    assert Amid(first + es, k);
  }

  lemma OneCall(w: World, k: Key, r: Reply)
    requires Typed(w) && k in w.workers && ValidReply(w, k, r)
    ensures Legal(w, [Call(k, r)]) && After(w, [Call(k, r)]) == Tick(Next(w, k, r))
  {
    hide Next, ValidReply;
    assert Enabled(w, Call(k, r)) && Happen(w, Call(k, r)) == Tick(Next(w, k, r));
    assert [Call(k, r)][1..] == [];
  }

  lemma AroundKeepsInv(w: World, k: Key, w': World)
    requires Inv(w) && LeadsTo(w, k, w')
    ensures Inv(w')
  {
    hide Inv;
    var es :| Amid(es, k) && Legal(w, es) && After(w, es) == w';
    RunKeepsInv(w, es);
  }

  lemma AroundIsClosed(w: World, k: Key)
    requires Inv(w)
    ensures ClosedAround(WorldsAround(w, k), k)
  {
    hide LeadsTo, Inv, Next, ValidReply, Legal, After;
    var around := WorldsAround(w, k);
    forall w' | w' in around ensures Inv(w') {
      AroundKeepsInv(w, k, w');
    }
    forall w', r | w' in around && Typed(w') && k in w'.workers && ValidReply(w', k, r)
      ensures Tick(Next(w', k, r)) in around
    {
      OneCall(w', k, r);
      AroundWithRun(w, k, w', [Call(k, r)]);
    }
    forall w', w'' | w' in around && OthersLead(w', k, w'') ensures w'' in around {
      var es :| AllSpare(es, k) && Legal(w', es) && After(w', es) == w'';
      AroundWithRun(w, k, w', es);
    }
  }

  // ---------------------------------------------------------------- how a reconcile ends

  /** The worker on k ends with the reply to its call in w, one of the worlds of reach, and w' is what it leaves. */
  ghost predicate IsLast(reach: iset<World>, w: World, k: Key, r: Reply, w': World, result: Result) {
    && w in reach && Typed(w) && k in w.workers && ValidReply(w, k, r)
    && k in w.plan && w' == Tick(Next(w, k, r)) && k !in w'.workers
    && Verdict(w, k, r, result)
  }

  lemma UpsertVerdict(w: World, k: Key, r: Reply)
    requires k in w.workers && w.workers[k].Working? && w.workers[k].at.Upserting?
    ensures Verdict(w, k, r, Finished)
  {
  }

  lemma ClientVerdict(w: World, k: Key, r: Reply)
    requires k in w.workers && w.workers[k].Working? && w.workers[k].at.BuildingClient?
    ensures Verdict(w, k, r, Errored)
  {
  }

  lemma MarkVerdict(w: World, k: Key, phase: Phase, ok: bool)
    requires k in w.workers && w.workers[k].Working? && k in w.store.objects
    requires w.workers[k].at.Marking? && w.workers[k].at.phase == phase
    ensures phase == Failed ==> Verdict(w, k, ReplyFor(ok), if w.workers[k].at.reported then Errored else Finished)
    ensures phase != Failed ==>
              Verdict(w, k, ReplyFor(ok), if !ok then Errored else if phase == Pending then Requeued else Finished)
  {
  }

  /** From w to w' a worker on k began, made its calls amid others' events, and returned. */
  ghost predicate IsReconcile(w: World, k: Key, w': World, result: Result) {
    exists es, r ::
      && Amid(es, k) && Legal(w, [Begin(k)] + es)
      && var last := After(w, [Begin(k)] + es);
         && Typed(last) && k in last.workers && ValidReply(last, k, r)
         && w' == Tick(Next(last, k, r)) && k !in w'.workers && Verdict(last, k, r, result)
  }

  lemma BeginThenAround(w: World, k: Key, last: World, r: Reply, w': World, result: Result)
    requires Inv(w) && k in w.plan && k !in w.workers && LeadsTo(Begun(w, k), k, last)
    requires Typed(last) && k in last.workers && ValidReply(last, k, r)
    requires w' == Tick(Next(last, k, r)) && k !in w'.workers && Verdict(last, k, r, result)
    ensures IsReconcile(w, k, w', result)
  {
    hide Next, ValidReply, Verdict;
    var es :| Amid(es, k) && Legal(Begun(w, k), es) && After(Begun(w, k), es) == last;
    BeginThen(w, k, es);
  }

  lemma BeginThen(w: World, k: Key, es: seq<Event>)
    requires Typed(w) && k in w.plan && k !in w.workers && Legal(Begun(w, k), es)
    ensures Legal(w, [Begin(k)] + es) && After(w, [Begin(k)] + es) == After(Begun(w, k), es)
  {
    assert ([Begin(k)] + es)[1..] == es;
    assert Enabled(w, Begin(k)) && Happen(w, Begin(k)) == Begun(w, k);
  }

  // ---------------------------------------------------------------- what each call's answer does to the machine

  /** The worker's next call is to the Kubernetes API. */
  predicate AtApiCall(w: World, k: Key)
    requires k in w.workers
  {
    w.workers[k].Working? ==> !w.workers[k].at.DeletingEntry? && !w.workers[k].at.Upserting?
  }

  lemma ApiCallStays(reach: iset<World>, w: World, k: Key, ok: bool)
    requires ClosedAround(reach, k) && w in reach && k in w.workers && AtApiCall(w, k)
    ensures Typed(w) && k in w.plan && ValidReply(w, k, ReplyFor(ok)) && Tick(Next(w, k, ReplyFor(ok))) in reach
  {
    hide TreesFine, WorkerFine, ObjectFine, RankedAbove, OthersLead;
    assert Inv(w);
    assert ValidReply(w, k, ReplyFor(ok));
  }

  /** What the invariant says about the object under a worker's hands. */
  lemma ObjectPresent(reach: iset<World>, w: World, k: Key)
    requires ClosedAround(reach, k) && w in reach && k in w.workers && w.workers[k].Working?
    ensures k in w.plan && w.plan[k].directory in w.bases
    ensures !w.workers[k].at.AddingFinalizer? ==> k in w.store.objects
    ensures w.workers[k].at.RemovingFinalizer? ==> w.store.objects[k].deleting
  {
    hide TreesFine, ObjectFine, RankedAbove, OthersLead, Next, IsDnOf;
    assert Inv(w);
    assert WorkerFine(w, k);
  }

  lemma DeleteInReach(reach: iset<World>, w: World, k: Key, dn: Dn, reliable: bool, code: Code, t: Tree)
    requires ClosedAround(reach, k) && w in reach && k in w.workers
    requires w.workers[k].Working? && w.workers[k].at == DeletingEntry(dn)
    requires k in w.plan && w.plan[k].directory in w.bases && w.plan[k].directory in w.store.trees
    requires DeleteOutcome(w.bases[w.plan[k].directory], w.store.trees[w.plan[k].directory], dn, reliable, code, t)
    ensures Tick(Next(w, k, Deleted(code, t))) in reach
  {
    hide TreesFine, WorkerFine, ObjectFine, RankedAbove, OthersLead, DeleteOutcome;
    assert Inv(w);
    assert ValidReply(w, k, Deleted(code, t));
  }

  lemma UpsertInReach(reach: iset<World>, w: World, k: Key, e: DirectoryEntry, reliable: bool, r: Outcome, t: Tree)
    requires ClosedAround(reach, k) && w in reach && k in w.workers
    requires w.workers[k].Working? && w.workers[k].at == Upserting(e)
    requires k in w.plan && w.plan[k].directory in w.bases && w.plan[k].directory in w.store.trees
    requires UpsertOutcome(w.bases[w.plan[k].directory], w.store.trees[w.plan[k].directory], e, reliable, r, t)
    ensures Typed(w) && ValidReply(w, k, Upserted(r, t)) && Tick(Next(w, k, Upserted(r, t))) in reach
  {
    hide TreesFine, WorkerFine, ObjectFine, RankedAbove, OthersLead, UpsertOutcome;
    assert Inv(w);
    assert ValidReply(w, k, Upserted(r, t));
  }

  /** All that a create-or-update's answer does. */
  lemma UpsertDone(reach: iset<World>, w: World, k: Key, me: Worker, e: DirectoryEntry, reliable: bool,
                   r: Outcome, t: Tree)
    requires ClosedAround(reach, k) && w in reach && Doing(w, k, me) && me.Working? && me.at == Upserting(e)
    requires w.plan[k].directory in w.bases && w.plan[k].directory in w.store.trees
    requires UpsertOutcome(w.bases[w.plan[k].directory], w.store.trees[w.plan[k].directory], e, reliable, r, t)
    ensures Typed(w) && ValidReply(w, k, Upserted(r, t))
    ensures var w' := Tick(Next(w, k, Upserted(r, t)));
            && w' in reach && SamePlan(w, w')
            && w'.store == Store(w.store.objects, w.store.others, w.store.directories, w.store.secrets,
                                 w.store.trees[w.plan[k].directory := t])
            && (r == Done(false) ==> IsLast(reach, w, k, Upserted(r, t), w', Finished))
            && (r != Done(false) ==>
                  k in w'.workers
                  && w'.workers[k] == me.(at := Marking(if r == Done(true) then Ready else Phase.Failed)))
  {
    hide ClosedAround, Inv, Next, ValidReply, Typed, UpsertOutcome, Verdict;
    UpsertInReach(reach, w, k, e, reliable, r, t);
    UpsertLeaves(w, k, me, e, r, t);
    UpsertVerdict(w, k, Upserted(r, t));
  }

  /** The first call's outcome. */
  datatype Fetched = Found(obj: Object) | NotFound | FetchFailed

  datatype Resolution = Resolved | Missing | ResolveFailed

  datatype DirectoryFound = DirectoryIs(ready: bool) | NoDirectory | DirectoryFailed

  datatype ParentFound = LdapParent(key: Key, phase: Phase) | ForeignParent | NoParent | ParentFailed

  datatype Owned = OwnerSet(patched: Object) | OwnerFailed | OwnerMissing

  datatype DnComputed = DnIs(dn: string) | DnError | Overflow

  class Reconciler {
    const plan: map<Key, Identity>
    const domains: map<string, string>
    const bases: map<string, Dn>
    const servers: map<string, Server>
    var objects: map<Key, Object>
    var others: set<string>
    var directories: map<string, bool>
    var secrets: Secrets
    // the state of the machine that this is, and before its last own call, with that call's reply
    ghost var world: World
    ghost var last: World
    ghost var reply: Reply

    /** The fields hold what the machine's store holds. */
    ghost predicate Tied()
      reads this, servers.Values
    {
      && world.plan == plan && world.domains == domains && world.bases == bases
      && world.store == Store(objects, others, directories, secrets, world.store.trees)
      && HoldTrees(world.store.trees)
    }

    ghost predicate HoldTrees(trees: map<string, Tree>)
      reads servers.Values
    {
      servers.Keys == trees.Keys && forall d {:trigger servers[d]} :: d in servers ==> servers[d].tree == trees[d]
    }

    lemma HoldsKeys(trees: map<string, Tree>)
      requires HoldTrees(trees) && ServersFine()
      ensures servers.Keys == trees.Keys && servers.Keys == bases.Keys
    {
    }

    /** Each directory has a server of its own. */
    ghost predicate ServersFine()
      reads servers.Values
    {
      && servers.Keys == bases.Keys
      && (forall d {:trigger servers[d]} :: d in servers ==> servers[d].base == bases[d] && servers[d].Valid())
      && forall c, d {:trigger servers[c], servers[d]} ::
           c in servers && d in servers && c != d ==> servers[c] != servers[d]
    }

    /** The reconcile of k is under way, in one of the worlds of reach. */
    ghost predicate Going(k: Key, reach: iset<World>)
      reads this, servers.Values
    {
      Tied() && ClosedAround(reach, k) && world in reach && k in plan
    }

    /** The worker on k is this one. */
    ghost predicate At(k: Key, me: Worker)
      reads this
    {
      k in world.workers && world.workers[k] == me
    }

    /** The last call has been made, and this is what it comes to. */
    ghost predicate Over(k: Key, reach: iset<World>, result: Result)
      reads this
    {
      IsLast(reach, last, k, reply, world, result)
    }

    /**
     * Between two calls of the worker on k others do as they like: users edit objects, directories and secrets come and
     * go, entries are changed, other workers make their calls. Callers know of it only what this contract says.
     */
    method Others(k: Key, ghost me: Worker, ghost reach: iset<World>)
      requires Going(k, reach) && ServersFine() && At(k, me)
      modifies this, servers.Values
      ensures Going(k, reach) && ServersFine() && At(k, me) && OthersLead(old(world), k, world)
    {
      assert AllSpare([], k) && Legal(world, []) && After(world, []) == world;
    }

    method Get(k: Key, ghost reach: iset<World>) returns (r: Fetched)
      requires Going(k, reach) && At(k, Starting)
      modifies `world, `last, `reply
      ensures Going(k, reach)
      ensures r.Found? ==> At(k, Working(r.obj, None, if r.obj.finalizer then ResolvingReferences else AddingFinalizer))
      ensures r.NotFound? ==> Over(k, reach, Finished)
      ensures r.FetchFailed? ==> Over(k, reach, Errored)
    {
      hide ClosedAround, OthersLead, Inv, Next, ValidReply, Typed, ServersFine, HoldTrees;
      var ok: bool := *;
      r := if !ok then FetchFailed else if k in objects then Found(objects[k]) else NotFound;
      ApiCallStays(reach, world, k, ok);
      last, reply, world := world, ReplyFor(ok), NextApi(world, k, ok);
      FetchLeaves(last, k, Starting, ok);
    }

    /** CreateOrPatch with AddFinalizer: the object is read again, and the worker's copy with it. */
    method AddFinalizer(k: Key, obj: Object, ghost reach: iset<World>) returns (ok: bool, patched: Object)
      requires Going(k, reach) && At(k, Working(obj, None, AddingFinalizer))
      modifies `objects, `world, `last, `reply
      ensures Going(k, reach)
      ensures ok ==> At(k, Working(patched, None, ResolvingReferences))
      ensures !ok ==> Over(k, reach, Errored)
    {
      hide ClosedAround, OthersLead, Inv, Next, ValidReply, Typed, ServersFine, HoldTrees;
      var answered: bool := *;
      ok, patched := answered && k in objects, obj;
      if ok {
        patched := objects[k].(finalizer := true);
        objects := objects[k := patched];
      }
      ApiCallStays(reach, world, k, answered);
      last, reply, world := world, ReplyFor(answered), NextApi(world, k, answered);
      AddFinalizerLeaves(last, k, last.workers[k], answered);
    }

    /** ResolveReferences: directory, then parent, then for users the password secret. */
    method ResolveReferences(k: Key, obj: Object, ghost reach: iset<World>) returns (r: Resolution)
      requires Going(k, reach) && At(k, Working(obj, None, ResolvingReferences))
      modifies `world, `last, `reply
      ensures Going(k, reach)
      ensures r.Resolved? ==> At(k, Working(obj, None, ResolvingDirectory))
      ensures r.Missing? && obj.deleting ==> At(k, Working(obj, None, RemovingFinalizer(Unresolvable)))
      ensures r.Missing? && !obj.deleting ==> At(k, Working(obj, None, Marking(Pending)))
      ensures r.ResolveFailed? ==> At(k, Working(obj, None, Marking(Failed, true)))
    {
      hide ClosedAround, OthersLead, Inv, Next, ValidReply, Typed, ServersFine, HoldTrees;
      var ok: bool := *;
      var found := plan[k].directory in directories;
      if found && plan[k].parent.Some? {
        found := Exists(plan[k].parent.value);
      }
      if found && obj.details.UserDetails? && obj.details.passwordSecretRef.Some? {
        found := obj.details.passwordSecretRef.value in secrets;
      }
      r := if !ok then ResolveFailed else if found then Resolved else Missing;
      ApiCallStays(reach, world, k, ok);
      last, reply, world := world, ReplyFor(ok), NextApi(world, k, ok);
      ReferencesLeave(last, k, last.workers[k], ok);
    }

    predicate Exists(ref: ParentRef)
      reads `objects, `directories, `others
    {
      match ref
      case ObjectRef(p) => p in objects
      case DirectoryRef(d) => d in directories
      case OtherRef(n) => n in others
    }

    /** Whether it was found is not looked at: a missing directory fails a type assertion. */
    method ResolveDirectory(k: Key, obj: Object, ghost reach: iset<World>) returns (r: DirectoryFound)
      requires Going(k, reach) && At(k, Working(obj, None, ResolvingDirectory))
      modifies `world, `last, `reply
      ensures Going(k, reach)
      ensures r.DirectoryFailed? ==> At(k, Working(obj, None, Marking(Failed)))
      ensures r.NoDirectory? ==> Over(k, reach, Panicked)
      ensures r == DirectoryIs(false) ==> At(k, Working(obj, None, Marking(Pending)))
      ensures r == DirectoryIs(true) ==>
                At(k, Working(obj, None, if plan[k].parent.Some? then ResolvingParent else BuildingClient))
    {
      hide ClosedAround, OthersLead, Inv, Next, ValidReply, Typed, ServersFine, HoldTrees;
      var ok: bool := *;
      if !ok {
        r := DirectoryFailed;
      } else if plan[k].directory !in directories {
        r := NoDirectory;
      } else {
        r := DirectoryIs(directories[plan[k].directory]);
      }
      ApiCallStays(reach, world, k, ok);
      last, reply, world := world, ReplyFor(ok), NextApi(world, k, ok);
      DirectoryLeaves(last, k, last.workers[k], ok);
    }

    /** Nor is it for the parent, and the worker goes on without one. */
    method ResolveParent(k: Key, obj: Object, ghost reach: iset<World>) returns (r: ParentFound)
      requires Going(k, reach) && At(k, Working(obj, None, ResolvingParent)) && plan[k].parent.Some?
      modifies `world, `last, `reply
      ensures Going(k, reach)
      ensures r.LdapParent? && r.phase == Ready ==> At(k, Working(obj, Some(r.key), BuildingClient))
      ensures r.LdapParent? && r.phase != Ready ==> At(k, Working(obj, None, Marking(Pending)))
      ensures r.NoParent? ==> At(k, Working(obj, None, BuildingClient))
      ensures r.ForeignParent? ==> At(k, Working(obj, None, Marking(Failed, true)))
      ensures r.ParentFailed? ==> At(k, Working(obj, None, Marking(Failed)))
    {
      hide ClosedAround, OthersLead, Inv, Next, ValidReply, Typed, ServersFine, HoldTrees;
      var ok: bool := *;
      if !ok {
        r := ParentFailed;
      } else if !Exists(plan[k].parent.value) {
        r := NoParent;
      } else {
        match plan[k].parent.value
        case ObjectRef(p) => r := LdapParent(p, objects[p].status.phase);
        case DirectoryRef(_) => r := ForeignParent;
        case OtherRef(_) => r := ForeignParent;
      }
      ApiCallStays(reach, world, k, ok);
      last, reply, world := world, ReplyFor(ok), NextApi(world, k, ok);
      ParentLeaves(last, k, last.workers[k], ok);
    }

    method BuildClient(k: Key, obj: Object, parent: Option<Key>, ghost reach: iset<World>) returns (client: Client?)
      requires Going(k, reach) && ServersFine() && At(k, Working(obj, parent, BuildingClient))
      modifies `world, `last, `reply
      ensures Going(k, reach)
      ensures client != null ==> && At(k, Working(obj, parent, ComputingDn))
                                 && plan[k].directory in servers && client.server == servers[plan[k].directory]
      ensures client == null ==> Over(k, reach, Errored)
    {
      hide ClosedAround, OthersLead, Inv, Next, ValidReply, Typed, ServersFine, HoldTrees, Verdict, Tick;
      HoldsKeys(world.store.trees);
      ObjectPresent(reach, world, k);
      var ok: bool := *;
      client := null;
      if ok {
        client := new Client(servers[plan[k].directory]);
      }
      ApiCallStays(reach, world, k, ok);
      last, reply, world := world, ReplyFor(ok), NextApi(world, k, ok);
      ClientLeaves(last, k, last.workers[k], ok);
      ClientVerdict(last, k, reply);
    }

    /**
     * Up the chain of parents, without any guard against cycles: what stops it is its result, an error, or a depth no
     * stack reaches, which stands for the overflow of one without bounds.
     */
    method GetDistinguishedName(k: Key, depth: nat) returns (ok: bool, r: DnResult)
      requires Tied() && k in plan
      ensures ok ==> r == DnWithin(world, k, depth)
      decreases depth
    {
      ok, r := *, DnMissing;
      if !ok {
        return;
      }
      match plan[k].parent {
        case Some(ObjectRef(p)) =>
          if p !in objects || p !in plan {
            return;
          }
          if depth == 0 {
            return true, DnTooDeep;
          }
          ok, r := GetDistinguishedName(p, depth - 1);
          if r.DnFound? {
            r := DnFound(NamingAttribute(k.kind) + "=" + plan[k].name + "," + r.dn);
          }
        case Some(DirectoryRef(d)) => r := BelowDirectory(k, d);
        case Some(OtherRef(_)) =>
        case None => r := BelowDirectory(k, plan[k].directory);
      }
    }

    method BelowDirectory(k: Key, d: string) returns (r: DnResult)
      requires Tied() && k in plan
      ensures r == DnBelowDirectory(world, k, d)
    {
      if d !in directories || d !in domains {
        return DnMissing;
      }
      return DnFound(NamingAttribute(k.kind) + "=" + plan[k].name + "," + DirectoryDn(domains[d]));
    }

    /** More parents than there are objects are a cycle, in which the recursion overflows the stack. */
    method ComputeDn(k: Key, obj: Object, parent: Option<Key>, ghost reach: iset<World>) returns (r: DnComputed)
      requires Going(k, reach) && At(k, Working(obj, parent, ComputingDn))
      modifies `world, `last, `reply
      ensures Going(k, reach)
      ensures r.DnIs? && obj.deleting ==> At(k, Working(obj, parent, DeletingEntry(ParseDn(r.dn))))
      ensures r.DnIs? && !obj.deleting ==> At(k, Working(obj, parent, SettingOwner(ParseDn(r.dn))))
      ensures r.DnError? ==> Over(k, reach, Errored)
      ensures r.Overflow? ==> Over(k, reach, Panicked)
    {
      hide ClosedAround, OthersLead, Inv, Next, ValidReply, Typed, ServersFine, HoldTrees;
      var ok, dn := GetDistinguishedName(k, |objects.Keys|);
      if ok && dn.DnTooDeep? {
        r := Overflow;
      } else if ok && dn.DnFound? {
        r := DnIs(dn.dn);
      } else {
        r := DnError;
      }
      ApiCallStays(reach, world, k, ok);
      last, reply, world := world, ReplyFor(ok), NextApi(world, k, ok);
      DnLeaves(last, k, last.workers[k], dn, ok);
    }

    method AskToDelete(d: string, dn: Dn, client: Client, ghost trees: map<string, Tree>)
      returns (code: Code, ghost t: Tree)
      requires HoldTrees(trees) && ServersFine() && d in servers && client.server == servers[d]
      modifies client.server
      ensures HoldTrees(trees[d := t]) && ServersFine()
      ensures DeleteOutcome(bases[d], trees[d], dn, client.server.reliable, code, t)
    {
      hide DeleteOutcome, WellFormed;
      code := client.DeleteEntry(dn, true);
      t := client.server.tree;
    }

    /** The LDAP delete; its error is only logged. */
    method DeleteEntry(k: Key, obj: Object, parent: Option<Key>, dn: Dn, client: Client, ghost reach: iset<World>)
      returns (ghost why: Farewell)
      requires Going(k, reach) && ServersFine() && At(k, Working(obj, parent, DeletingEntry(dn)))
      requires plan[k].directory in servers && client.server == servers[plan[k].directory]
      modifies `world, client.server
      ensures Going(k, reach) && ServersFine() && At(k, Working(obj, parent, RemovingFinalizer(why)))
    {
      hide ClosedAround, OthersLead, Inv, Next, ValidReply, Typed, DeleteOutcome, ServersFine, HoldTrees;
      HoldsKeys(world.store.trees);
      ghost var t;
      var code;
      code, t := AskToDelete(plan[k].directory, dn, client, world.store.trees);
      DeleteInReach(reach, world, k, dn, client.server.reliable, code, t);
      DeleteLeaves(world, k, world.workers[k], dn, code, t);
      why := if code == Success then EntryDeleted(dn) else DeleteRefused;
      world := Tick(Next(world, k, Deleted(code, t)));
    }

    method RemoveFinalizer(k: Key, obj: Object, parent: Option<Key>, ghost why: Farewell, ghost reach: iset<World>)
      returns (ok: bool)
      requires Going(k, reach) && At(k, Working(obj, parent, RemovingFinalizer(why)))
      modifies `objects, `world, `last, `reply
      ensures Going(k, reach) && Over(k, reach, if ok then Finished else Errored)
      ensures ok ==> k !in objects
    {
      hide ClosedAround, OthersLead, Inv, Next, ValidReply, Typed, ServersFine, HoldTrees;
      ObjectPresent(reach, world, k);
      ok := *;
      if ok {
        objects := objects - {k};
      }
      ApiCallStays(reach, world, k, ok);
      last, reply, world := world, ReplyFor(ok), NextApi(world, k, ok);
      RemoveFinalizerLeaves(last, k, last.workers[k], ok);
    }

    /** CreateOrPatch with SetControllerReference, which cannot name a parent that was not found. */
    method SetOwner(k: Key, obj: Object, parent: Option<Key>, dn: Dn, ghost reach: iset<World>) returns (r: Owned)
      requires Going(k, reach) && At(k, Working(obj, parent, SettingOwner(dn)))
      modifies `objects, `world, `last, `reply
      ensures Going(k, reach)
      ensures r.OwnerSet? ==> At(k, Working(r.patched, parent, MappingEntry(dn)))
      ensures r.OwnerSet? ==> (plan[k].parent.Some? ==> parent.Some?)
      ensures r.OwnerSet? ==>
                r.patched.owner == Some(if parent.Some? then ObjectOwner(parent.value)
                                        else DirectoryOwner(plan[k].directory))
      ensures r.OwnerFailed? ==> At(k, Working(obj, parent, Marking(Failed)))
      ensures r.OwnerMissing? ==> Over(k, reach, Panicked)
    {
      hide ClosedAround, OthersLead, Inv, Next, ValidReply, Typed, ServersFine, HoldTrees;
      ObjectPresent(reach, world, k);
      var ok: bool := *;
      r := OwnerFailed;
      if ok {
        if plan[k].parent.Some? && parent.None? {
          r := OwnerMissing;
        } else {
          var owner := if parent.Some? then ObjectOwner(parent.value) else DirectoryOwner(plan[k].directory);
          r := OwnerSet(objects[k].(owner := Some(owner)));
          objects := objects[k := r.patched];
        }
      }
      ApiCallStays(reach, world, k, ok);
      last, reply, world := world, ReplyFor(ok), NextApi(world, k, ok);
      OwnerLeaves(last, k, last.workers[k], dn, ok);
    }

    method MapEntry(k: Key, obj: Object, parent: Option<Key>, dn: Dn, ghost reach: iset<World>)
      returns (entry: Option<DirectoryEntry>)
      requires Going(k, reach) && At(k, Working(obj, parent, MappingEntry(dn)))
      modifies `world, `last, `reply
      ensures Going(k, reach)
      ensures entry.Some? ==> At(k, Working(obj, parent, Upserting(entry.value)))
      ensures entry.None? ==> At(k, Working(obj, parent, Marking(Failed)))
    {
      hide ClosedAround, OthersLead, Inv, Next, ValidReply, Typed, ServersFine, HoldTrees;
      var ok: bool := *;
      entry := if ok then MapToEntry(secrets, dn, obj.details) else None;
      ApiCallStays(reach, world, k, ok);
      last, reply, world := world, ReplyFor(ok), NextApi(world, k, ok);
      MappingLeaves(last, k, last.workers[k], dn, ok);
    }

    /** The directory's server, asked to create or update: that tree changes as it answers, no other does. */
    method AskToUpsert(d: string, e: DirectoryEntry, client: Client, ghost trees: map<string, Tree>)
      returns (r: Outcome, ghost t: Tree)
      requires HoldTrees(trees) && ServersFine() && d in servers && client.server == servers[d]
      modifies client.server
      ensures HoldTrees(trees[d := t]) && ServersFine()
      ensures UpsertOutcome(bases[d], trees[d], e, client.server.reliable, r, t)
    {
      hide UpsertOutcome, WellFormed;
      r := client.CreateOrUpdateEntry(e);
      t := client.server.tree;
    }

    method CreateOrUpdate(k: Key, obj: Object, parent: Option<Key>, e: DirectoryEntry, client: Client,
                          ghost reach: iset<World>) returns (r: Outcome)
      requires Going(k, reach) && ServersFine() && At(k, Working(obj, parent, Upserting(e)))
      requires plan[k].directory in servers && client.server == servers[plan[k].directory]
      modifies `world, `last, `reply, client.server
      ensures Going(k, reach) && ServersFine()
      ensures r != Done(false) ==> At(k, Working(obj, parent, Marking(if r == Done(true) then Ready else Failed)))
      ensures r == Done(false) ==> Over(k, reach, Finished)
    {
      hide ClosedAround, OthersLead, Inv, Next, ValidReply, Typed, UpsertOutcome, IsLast, ServersFine, HoldTrees, Tick;
      HoldsKeys(world.store.trees);
      ghost var t;
      r, t := AskToUpsert(plan[k].directory, e, client, world.store.trees);
      UpsertDone(reach, world, k, world.workers[k], e, client.server.reliable, r, t);
      last, reply, world := world, Upserted(r, t), Tick(Next(world, k, Upserted(r, t)));
    }

    /** UpdateStatus: the object is read again, so the generation written is its current one. */
    method Mark(k: Key, obj: Object, parent: Option<Key>, phase: Phase, ghost reported: bool, ghost reach: iset<World>)
      returns (ok: bool)
      requires Going(k, reach) && At(k, Working(obj, parent, Marking(phase, reported)))
      modifies `objects, `world, `last, `reply
      ensures Going(k, reach)
      ensures phase == Failed ==> Over(k, reach, if reported then Errored else Finished)
      ensures phase != Failed ==>
                Over(k, reach, if !ok then Errored else if phase == Pending then Requeued else Finished)
      ensures ok ==> k in objects && objects[k].status == Status(phase, objects[k].generation)
    {
      hide ClosedAround, OthersLead, Inv, Next, ValidReply, Typed, Verdict, ServersFine;
      ObjectPresent(reach, world, k);
      ok := *;
      if ok {
        objects := objects[k := objects[k].(status := Status(phase, objects[k].generation))];
      }
      ApiCallStays(reach, world, k, ok);
      last, reply, world := world, ReplyFor(ok), NextApi(world, k, ok);
      MarkLeaves(last, k, last.workers[k], phase, ok);
      MarkVerdict(last, k, phase, ok);
    }

    /** A failure to write the failure is only logged. */
    method MarkFailed(k: Key, obj: Object, parent: Option<Key>, ghost reported: bool, ghost reach: iset<World>)
      requires Going(k, reach) && ServersFine() && At(k, Working(obj, parent, Marking(Failed, reported)))
      modifies this, servers.Values
      ensures Going(k, reach) && ServersFine() && Over(k, reach, if reported then Errored else Finished)
    {
      hide Going, ServersFine, At, Over, OthersLead;
      Others(k, Working(obj, parent, Marking(Failed, reported)), reach);
      var ok := Mark(k, obj, parent, Failed, reported, reach);
    }

    method MarkPending(k: Key, obj: Object, ghost reach: iset<World>) returns (r: Result)
      requires Going(k, reach) && ServersFine() && At(k, Working(obj, None, Marking(Pending)))
      modifies this, servers.Values
      ensures Going(k, reach) && ServersFine() && Over(k, reach, r)
      ensures r.Requeued? ==> PendingWritten(k)
    {
      hide Going, ServersFine, At, Over, OthersLead;
      Others(k, Working(obj, None, Marking(Pending)), reach);
      var ok := Mark(k, obj, None, Pending, false, reach);
      r := if ok then Requeued else Errored;
    }

    /** The object says Pending for its current generation. */
    predicate PendingWritten(k: Key)
      reads `objects
    {
      k in objects && objects[k].status == Status(Pending, objects[k].generation)
    }

    /**
     * A request for k arrives. Whatever others do meanwhile and whatever each call answers, the reconcile is a legal
     * run of the machine: it begins, k's calls and others' events follow in some order, and what it returns is what its
     * last call comes to.
     */
    method Handle(k: Key) returns (r: Result)
      requires Tied() && ServersFine() && Inv(world) && k in plan && k !in world.workers
      modifies this, servers.Values
      ensures Tied() && ServersFine() && Inv(world) && k !in world.workers
      ensures IsReconcile(old(world), k, world, r)
      ensures r.Requeued? ==> PendingWritten(k)
    {
      hide Inv, Next, ValidReply, Verdict, LeadsTo;
      ghost var start := world;
      BeginKeepsInv(start, k);
      AroundItself(Begun(start, k), k);
      AroundIsClosed(Begun(start, k), k);
      ghost var reach := WorldsAround(Begun(start, k), k);
      world := Begun(start, k);
      r := Reconcile(k, reach);
      AroundKeepsInv(Begun(start, k), k, world);
      BeginThenAround(start, k, last, reply, world, r);
    }

    /**
     * One reconcile of k. It ends in every set of worlds that contains its start and that neither k's calls nor others'
     * events leave.
     */
    method Reconcile(k: Key, ghost reach: iset<World>) returns (r: Result)
      requires Going(k, reach) && ServersFine() && At(k, Starting)
      modifies this, servers.Values
      ensures Going(k, reach) && ServersFine() && Over(k, reach, r)
      ensures r.Requeued? ==> PendingWritten(k)
    {
      hide Going, ServersFine, At, Over, OthersLead;
      Others(k, Starting, reach);
      var fetched := Get(k, reach);
      match fetched {
        case FetchFailed => return Errored;
        case NotFound => return Finished;
        case Found(_) =>
      }
      if !fetched.obj.finalizer {
        Others(k, Working(fetched.obj, None, AddingFinalizer), reach);
        var added, patched := AddFinalizer(k, fetched.obj, reach);
        if !added {
          return Errored;
        }
        r := ReconcileObject(k, patched, reach);
      } else {
        r := ReconcileObject(k, fetched.obj, reach);
      }
    }

    /** With the finalizer in place: the references. */
    method ReconcileObject(k: Key, obj: Object, ghost reach: iset<World>) returns (r: Result)
      requires Going(k, reach) && ServersFine() && At(k, Working(obj, None, ResolvingReferences))
      modifies this, servers.Values
      ensures Going(k, reach) && ServersFine() && Over(k, reach, r)
      ensures r.Requeued? ==> PendingWritten(k)
    {
      hide Going, ServersFine, At, Over, OthersLead;
      Others(k, Working(obj, None, ResolvingReferences), reach);
      var resolution := ResolveReferences(k, obj, reach);
      match resolution {
        case Missing =>
          if obj.deleting {
            r := Finalize(k, obj, None, Unresolvable, reach);
          } else {
            r := MarkPending(k, obj, reach);
          }
        case ResolveFailed =>
          MarkFailed(k, obj, None, true, reach);
          return Errored;
        case Resolved =>
          r := ReconcileResolved(k, obj, reach);
      }
    }

    method Finalize(k: Key, obj: Object, parent: Option<Key>, ghost why: Farewell, ghost reach: iset<World>)
      returns (r: Result)
      requires Going(k, reach) && ServersFine() && At(k, Working(obj, parent, RemovingFinalizer(why)))
      modifies this, servers.Values
      ensures Going(k, reach) && ServersFine() && Over(k, reach, r) && !r.Requeued?
      ensures r.Finished? ==> k !in objects
    {
      hide Going, ServersFine, At, Over, OthersLead;
      Others(k, Working(obj, parent, RemovingFinalizer(why)), reach);
      var removed := RemoveFinalizer(k, obj, parent, why, reach);
      r := if removed then Finished else Errored;
    }

    /** With all references resolvable a moment ago: the directory and the parent must be Ready. */
    method ReconcileResolved(k: Key, obj: Object, ghost reach: iset<World>) returns (r: Result)
      requires Going(k, reach) && ServersFine() && At(k, Working(obj, None, ResolvingDirectory))
      modifies this, servers.Values
      ensures Going(k, reach) && ServersFine() && Over(k, reach, r)
      ensures r.Requeued? ==> PendingWritten(k)
    {
      hide Going, ServersFine, At, Over, OthersLead;
      Others(k, Working(obj, None, ResolvingDirectory), reach);
      var found := ResolveDirectory(k, obj, reach);
      match found {
        case DirectoryFailed =>
          MarkFailed(k, obj, None, false, reach);
          return Finished;
        case NoDirectory => return Panicked;
        case DirectoryIs(ready) =>
          if !ready {
            r := MarkPending(k, obj, reach);
          } else if plan[k].parent.None? {
            r := ReconcileEntry(k, obj, None, reach);
          } else {
            r := ReconcileChild(k, obj, reach);
          }
      }
    }

    method ReconcileChild(k: Key, obj: Object, ghost reach: iset<World>) returns (r: Result)
      requires Going(k, reach) && ServersFine() && At(k, Working(obj, None, ResolvingParent)) && plan[k].parent.Some?
      modifies this, servers.Values
      ensures Going(k, reach) && ServersFine() && Over(k, reach, r)
      ensures r.Requeued? ==> PendingWritten(k)
    {
      hide Going, ServersFine, At, Over, OthersLead;
      Others(k, Working(obj, None, ResolvingParent), reach);
      var found := ResolveParent(k, obj, reach);
      match found {
        case ParentFailed =>
          MarkFailed(k, obj, None, false, reach);
          return Finished;
        case ForeignParent =>
          MarkFailed(k, obj, None, true, reach);
          return Errored;
        case NoParent =>
          r := ReconcileEntry(k, obj, None, reach);
        case LdapParent(key, phase) =>
          if phase != Ready {
            r := MarkPending(k, obj, reach);
          } else {
            r := ReconcileEntry(k, obj, Some(key), reach);
          }
      }
    }

    /** With everything above it Ready, or its parent not found: a client and a DN, then delete or else upsert. */
    method ReconcileEntry(k: Key, obj: Object, parent: Option<Key>, ghost reach: iset<World>) returns (r: Result)
      requires Going(k, reach) && ServersFine() && At(k, Working(obj, parent, BuildingClient))
      modifies this, servers.Values
      ensures Going(k, reach) && ServersFine() && Over(k, reach, r) && !r.Requeued?
    {
      hide Going, ServersFine, At, Over, OthersLead;
      Others(k, Working(obj, parent, BuildingClient), reach);
      var client := BuildClient(k, obj, parent, reach);
      if client == null {
        return Errored;
      }
      Others(k, Working(obj, parent, ComputingDn), reach);
      var dn := ComputeDn(k, obj, parent, reach);
      match dn {
        case DnError => return Errored;
        case Overflow => return Panicked;
        case DnIs(s) =>
          if obj.deleting {
            r := RemoveEntry(k, obj, parent, ParseDn(s), client, reach);
          } else {
            r := WriteEntry(k, obj, parent, ParseDn(s), client, reach);
          }
      }
    }

    method RemoveEntry(k: Key, obj: Object, parent: Option<Key>, dn: Dn, client: Client, ghost reach: iset<World>)
      returns (r: Result)
      requires Going(k, reach) && ServersFine() && At(k, Working(obj, parent, DeletingEntry(dn)))
      requires plan[k].directory in servers && client.server == servers[plan[k].directory]
      modifies this, servers.Values
      ensures Going(k, reach) && ServersFine() && Over(k, reach, r) && !r.Requeued?
    {
      hide Going, ServersFine, At, Over, OthersLead;
      Others(k, Working(obj, parent, DeletingEntry(dn)), reach);
      ghost var why := DeleteEntry(k, obj, parent, dn, client, reach);
      r := Finalize(k, obj, parent, why, reach);
    }

    method WriteEntry(k: Key, obj: Object, parent: Option<Key>, dn: Dn, client: Client, ghost reach: iset<World>)
      returns (r: Result)
      requires Going(k, reach) && ServersFine() && At(k, Working(obj, parent, SettingOwner(dn)))
      requires plan[k].directory in servers && client.server == servers[plan[k].directory]
      modifies this, servers.Values
      ensures Going(k, reach) && ServersFine() && Over(k, reach, r) && !r.Requeued?
    {
      hide Going, ServersFine, At, Over, OthersLead;
      Others(k, Working(obj, parent, SettingOwner(dn)), reach);
      var owned := SetOwner(k, obj, parent, dn, reach);
      match owned {
        case OwnerMissing => return Panicked;
        case OwnerSet(patched) => r := UpsertEntry(k, patched, parent, dn, client, reach);
        case OwnerFailed =>
          MarkFailed(k, obj, parent, false, reach);
          return Finished;
      }
    }

    method UpsertEntry(k: Key, obj: Object, parent: Option<Key>, dn: Dn, client: Client, ghost reach: iset<World>)
      returns (r: Result)
      requires Going(k, reach) && ServersFine() && At(k, Working(obj, parent, MappingEntry(dn)))
      requires plan[k].directory in servers && client.server == servers[plan[k].directory]
      modifies this, servers.Values
      ensures Going(k, reach) && ServersFine() && Over(k, reach, r) && !r.Requeued?
    {
      hide Going, ServersFine, At, Over, OthersLead;
      Others(k, Working(obj, parent, MappingEntry(dn)), reach);
      var entry := MapEntry(k, obj, parent, dn, reach);
      if entry.None? {
        MarkFailed(k, obj, parent, false, reach);
        return Finished;
      }
      Others(k, Working(obj, parent, Upserting(entry.value)), reach);
      var outcome := CreateOrUpdate(k, obj, parent, entry.value, client, reach);
      match outcome {
        case Refused(_) =>
          MarkFailed(k, obj, parent, false, reach);
          return Finished;
        case Done(created) =>
          if created {
            r := MarkReady(k, obj, parent, reach);
          } else {
            return Finished;
          }
      }
    }

    method MarkReady(k: Key, obj: Object, parent: Option<Key>, ghost reach: iset<World>) returns (r: Result)
      requires Going(k, reach) && ServersFine() && At(k, Working(obj, parent, Marking(Ready)))
      modifies this, servers.Values
      ensures Going(k, reach) && ServersFine() && Over(k, reach, r) && !r.Requeued?
      ensures r.Finished? ==> k in objects && objects[k].status == Status(Ready, objects[k].generation)
    {
      hide Going, ServersFine, At, Over, OthersLead;
      Others(k, Working(obj, parent, Marking(Ready)), reach);
      var marked := Mark(k, obj, parent, Ready, false, reach);
      r := if marked then Finished else Errored;
    }
  }
}
