// The one way a worker can make the DN recursion run away: its parent disappears between the check of the references
// and the reading of the parent, and is back when the DN is computed; and a run in which that happens.
module ParentRace {
  import opened Common
  import opened LdapClient
  import opened Mapper
  import opened ObjectModel
  import opened ObjectInvariants
  import opened ObjectRuns
  import opened ObjectTheorems
  import opened ObjectLifecycle
  import opened ObjectCalls
  import opened ParentCycles

  // ---------------------------------------------------------------- the one way

  /** A call of k's worker that reads the parent and finds nothing. */
  ghost predicate LooksInVain(w: World, k: Key, e: Event) {
    && e.Call? && e.key == k && k in w.workers && w.workers[k].Working? && w.workers[k].at.ResolvingParent?
    && k in w.plan && w.plan[k].parent.Some? && !Refers(w, w.plan[k].parent.value)
  }

  /** Past the reading of the parent, with a parentRef but no parent. */
  ghost predicate WithoutParent(w: World, k: Key) {
    && k in w.workers && w.workers[k].Working? && (w.workers[k].at.BuildingClient? || w.workers[k].at.ComputingDn?)
    && k in w.plan && w.plan[k].parent.Some? && w.workers[k].parent.None?
  }

  /** The points from which a worker may get there in one call. */
  predicate AtMiddle(p: Point) {
    p.ResolvingDirectory? || p.ResolvingParent? || p.BuildingClient? || p.ComputingDn?
  }

  predicate AtEnd(p: Point) {
    p.SettingOwner? || p.MappingEntry? || p.Upserting? || p.Marking?
  }

  lemma NotFromStart(w: World, k: Key, r: Reply)
    requires k in w.workers && k in w.plan
    requires w.workers[k].Working? ==> !AtMiddle(w.workers[k].at) && !AtEnd(w.workers[k].at)
    ensures !WithoutParent(Next(w, k, r), k)
  {
    hide AfterResolveDirectory, AfterResolveParent, AfterComputeDn, AfterSetOwner, AfterMapToEntry, AfterUpsert;
    hide AfterMark, AllResolve, Ordinary, HoldsFinalizer;
  }

  lemma NotFromEnd(w: World, k: Key, r: Reply)
    requires k in w.workers && k in w.plan && w.workers[k].Working? && AtEnd(w.workers[k].at)
    ensures !WithoutParent(Next(w, k, r), k)
  {
    hide AfterFetch, AfterAddFinalizer, AfterResolveReferences, AfterResolveDirectory, AfterResolveParent;
    hide AfterComputeDn;
    hide AfterDeleteEntry, AfterRemoveFinalizer, MapToEntry, Ordinary, HoldsFinalizer;
  }

  /** A worker gets there only by looking in vain. */
  lemma CallGoesWithout(w: World, k: Key, r: Reply)
    requires k in w.workers && k in w.plan && WithoutParent(Next(w, k, r), k)
    ensures LooksInVain(w, k, Call(k, r)) || WithoutParent(w, k)
  {
    hide AfterFetch, AfterAddFinalizer, AfterResolveReferences, AfterDeleteEntry, DnWithin, ComputedDn, Terminates;
    hide AfterRemoveFinalizer, AfterSetOwner, AfterMapToEntry, AfterUpsert, AfterMark, MapToEntry, Ordinary;
    hide HoldsFinalizer;
    if w.workers[k].Working? && AtEnd(w.workers[k].at) {
      NotFromEnd(w, k, r);
    } else if !(w.workers[k].Working? && AtMiddle(w.workers[k].at)) {
      NotFromStart(w, k, r);
    }
  }

  lemma StepGoesWithout(w: World, e: Event, k: Key)
    requires Inv(w) && Enabled(w, e) && WithoutParent(Happen(w, e), k)
    ensures LooksInVain(w, k, e) || WithoutParent(w, k)
  {
    EventKeepsInv(w, e);
    if !e.Call? {
      QuietEventMovesNone(w, e, k);
    } else if e.key != k {
      OthersCallLeaves(w, e.key, e.reply, k);
    } else {
      CallGoesWithout(w, k, e.reply);
    }
  }

  lemma {:induction false} LookedInVain(w0: World, es: seq<Event>, k: Key) returns (i: nat)
    requires Inv(w0) && w0.workers == map[] && Legal(w0, es) && WithoutParent(After(w0, es), k)
    ensures i < |es| && Legal(w0, es[..i]) && LooksInVain(After(w0, es[..i]), k, es[i])
    decreases |es|
  {
    hide Legal, Inv, Enabled, Happen, LooksInVain, TreesFine;
    if es != [] {
      var rest := es[..|es| - 1];
      LastStep(w0, es);
      RunKeepsInv(w0, rest);
      StepGoesWithout(After(w0, rest), es[|es| - 1], k);
      if WithoutParent(After(w0, rest), k) {
        i := LookedInVain(w0, rest, k);
        assert rest[..i] == es[..i];
      } else {
        i := |es| - 1;
      }
    }
  }

  /**
   * Over every run, a worker whose DN recursion has no end when it computes its DN stands below a cycle of existing
   * objects, and at one of its earlier calls its parent was missing that exists now.
   */
  lemma RunawayNeedsCycleAndRace(w0: World, es: seq<Event>, k: Key) returns (i: nat)
    requires Initial(w0) && Legal(w0, es)
    requires k in After(w0, es).workers && After(w0, es).workers[k].Working? && After(w0, es).workers[k].at.ComputingDn?
    requires k in w0.plan && k in After(w0, es).plan && !Terminates(After(w0, es), k)
    ensures LeadsIntoCycle(After(w0, es), k)
    ensures i < |es| && Legal(w0, es[..i]) && LooksInVain(After(w0, es[..i]), k, es[i])
    ensures w0.plan[k].parent.Some? && w0.plan[k].parent.value.ObjectRef?
    ensures var p := w0.plan[k].parent.value.key;
            p !in After(w0, es[..i]).store.objects && p in After(w0, es).store.objects
  {
    var w := After(w0, es);
    InitialInv(w0);
    RunKeepsInv(w0, es);
    TerminatesExactly(w, k);
    if ParentSeen(w, k, w.workers[k]) {
      DnComputationTerminates(w, k);
    }
    CycleStartsAtParent(w, k);
    i := LookedInVain(w0, es, k);
    RunKeepsInv(w0, es[..i]);
  }

  // ---------------------------------------------------------------- a run that makes it run away

  const CHILD := Key(OrganizationalUnit, "child")
  const PARENT := Key(OrganizationalUnit, "parent")

  /** Two organizational units that name each other as parent. */
  const CYCLE: map<Key, Identity> := map[
    CHILD := Identity("demo", Some(ObjectRef(PARENT)), "a"),
    PARENT := Identity("demo", Some(ObjectRef(CHILD)), "b")
  ]

  const CHILD_OBJECT := Object(OrganizationalUnitDetails("a", ""), 1, true, false, Status(Unset, 0), None)
  const PARENT_DETAILS := OrganizationalUnitDetails("b", "")
  const BOTH: map<Key, Object> := map[CHILD := CHILD_OBJECT, PARENT := NewObject(PARENT_DETAILS)]

  /** The world with the given objects, and the child's worker at a given point, if it has one. */
  function Stage(objects: map<Key, Object>, worker: Option<Worker>, clock: nat): World {
    World(CYCLE, map["demo" := "example.com"], map["demo" := []],
          Store(objects, {}, map["demo" := true], map[], map["demo" := map[]]),
          if worker.Some? then map[CHILD := worker.value] else map[],
          History(clock, map[], map[], {}))
  }

  function ChildAt(p: Point): Option<Worker> {
    Some(Working(CHILD_OBJECT, None, p))
  }

  const START := Stage(BOTH, None, 0)
  const RACE: seq<Event> := [
    Begin(CHILD), Call(CHILD, Ok), Call(CHILD, Ok),
    DeleteObject(PARENT), Call(CHILD, Ok), Call(CHILD, Ok), Call(CHILD, Ok), CreateObject(PARENT, PARENT_DETAILS)
  ]
  const LONELY: map<Key, Object> := map[CHILD := CHILD_OBJECT]

  /** The worlds of the race, one after the other. */
  function StageAt(i: nat): World {
    match i
    case 0 => START
    case 1 => Stage(BOTH, Some(Starting), 1)
    case 2 => Stage(BOTH, ChildAt(ResolvingReferences), 2)
    case 3 => Stage(BOTH, ChildAt(ResolvingDirectory), 3)
    case 4 => Stage(LONELY, ChildAt(ResolvingDirectory), 4)
    case 5 => Stage(LONELY, ChildAt(ResolvingParent), 5)
    case 6 => Stage(LONELY, ChildAt(BuildingClient), 6)
    case 7 => Stage(LONELY, ChildAt(ComputingDn), 7)
    case _ => Stage(BOTH, ChildAt(ComputingDn), 8)
  }

  lemma StageTyped(objects: map<Key, Object>, worker: Option<Worker>, clock: nat)
    requires objects.Keys <= {CHILD, PARENT}
    ensures Typed(Stage(objects, worker, clock))
  {
  }

  /** With both there, the chain of parents has no end. */
  lemma {:induction false} Endless(w: World, k: Key, n: nat)
    requires w.plan == CYCLE && CHILD in w.store.objects && PARENT in w.store.objects && k in CYCLE
    ensures DnWithin(w, k, n).DnTooDeep?
    decreases n
  {
    if n > 0 {
      Endless(w, if k == CHILD then PARENT else CHILD, n - 1);
    }
  }

  /** A successful API call of the child's worker. */
  lemma CallSteps(objects: map<Key, Object>, me: Worker, clock: nat, w': World)
    requires objects.Keys <= {CHILD, PARENT}
    requires me.Working? ==> !me.at.DeletingEntry? && !me.at.Upserting?
    requires w' == NextApi(Stage(objects, Some(me), clock), CHILD, true)
    ensures StepsTo(Stage(objects, Some(me), clock), Call(CHILD, Ok), w')
  {
    hide Next;
    StageTyped(objects, Some(me), clock);
  }

  lemma BeginStep()
    ensures StepsTo(StageAt(0), RACE[0], StageAt(1))
  {
    hide Next, ValidReply;
    StageTyped(BOTH, None, 0);
  }

  lemma FetchStep()
    ensures StepsTo(StageAt(1), RACE[1], StageAt(2))
  {
    hide Next, StepsTo;
    FetchLeaves(StageAt(1), CHILD, Starting, true);
    CallSteps(BOTH, Starting, 1, StageAt(2));
  }

  lemma ReferencesStep()
    ensures StepsTo(StageAt(2), RACE[2], StageAt(3))
  {
    hide Next, StepsTo;
    ReferencesLeave(StageAt(2), CHILD, ChildAt(ResolvingReferences).value, true);
    CallSteps(BOTH, ChildAt(ResolvingReferences).value, 2, StageAt(3));
  }

  lemma VanishStep()
    ensures StepsTo(StageAt(3), RACE[3], StageAt(4))
  {
    hide Next, ValidReply;
    StageTyped(BOTH, ChildAt(ResolvingDirectory), 3);
    assert BOTH - {PARENT} == LONELY;
  }

  lemma DirectoryStep()
    ensures StepsTo(StageAt(4), RACE[4], StageAt(5))
  {
    hide Next, StepsTo;
    DirectoryLeaves(StageAt(4), CHILD, ChildAt(ResolvingDirectory).value, true);
    CallSteps(LONELY, ChildAt(ResolvingDirectory).value, 4, StageAt(5));
  }

  lemma ParentStep()
    ensures StepsTo(StageAt(5), RACE[5], StageAt(6))
  {
    hide Next, StepsTo;
    ParentLeaves(StageAt(5), CHILD, ChildAt(ResolvingParent).value, true);
    CallSteps(LONELY, ChildAt(ResolvingParent).value, 5, StageAt(6));
  }

  lemma ClientStep()
    ensures StepsTo(StageAt(6), RACE[6], StageAt(7))
  {
    hide Next, StepsTo;
    ClientLeaves(StageAt(6), CHILD, ChildAt(BuildingClient).value, true);
    CallSteps(LONELY, ChildAt(BuildingClient).value, 6, StageAt(7));
  }

  lemma ReturnStep()
    ensures StepsTo(StageAt(7), RACE[7], StageAt(8))
  {
    hide Next, ValidReply;
    StageTyped(LONELY, ChildAt(ComputingDn), 7);
    assert LONELY[PARENT := NewObject(PARENT_DETAILS)] == BOTH;
  }

  lemma WholeRace()
    ensures Legal(START, RACE) && After(START, RACE) == Stage(BOTH, ChildAt(ComputingDn), 8)
  {
    hide StepsTo, Legal, After, Stage;
    forall i: nat | i < |RACE| ensures StepsTo(StageAt(i), RACE[i], StageAt(i + 1)) {
      match i
      case 0 => BeginStep();
      case 1 => FetchStep();
      case 2 => ReferencesStep();
      case 3 => VanishStep();
      case 4 => DirectoryStep();
      case 5 => ParentStep();
      case 6 => ClientStep();
      case _ => ReturnStep();
    }
    StepsMakeRun(StageAt, RACE, 0);
    assert RACE[0..] == RACE;
  }

  /** A legal run from an initial world after which a worker computes a DN that has no end. */
  lemma RecursionCanRunAway()
    ensures Initial(START) && Legal(START, RACE)
    ensures var w := After(START, RACE);
            && CHILD in w.workers && w.workers[CHILD] == Working(CHILD_OBJECT, None, ComputingDn)
            && CHILD in w.plan && !Terminates(w, CHILD)
  {
    hide Legal, After, DnWithin;
    WholeRace();
    StageTyped(BOTH, None, 0);
    var end := Stage(BOTH, ChildAt(ComputingDn), 8);
    forall n: nat ensures DnWithin(end, CHILD, n).DnTooDeep? {
      Endless(end, CHILD, n);
    }
  }
}
