// Whole runs: any sequence of calls, crashes and edits, from a world in which nothing is Ready.
module ObjectRuns {
  import opened Common
  import opened Dit
  import opened ObjectModel
  import opened ObjectInvariants

  // ---------------------------------------------------------------- events

  /** The world with other objects in it. */
  function WithObjects(w: World, objects: map<Key, Object>): World {
    w.(store := w.store.(objects := objects))
  }

  lemma RanksCarry(w: World, w': World)
    requires Inv(w) && w'.plan == w.plan
    requires w'.history.firstReady == w.history.firstReady && w.history.clock <= w'.history.clock
    ensures forall x {:trigger RankedAbove(w', x)} :: x in w'.history.firstReady ==> RankedAbove(w', x)
  {
    forall x | x in w'.history.firstReady ensures RankedAbove(w', x) {
      assert RankedAbove(w, x);
    }
  }

  ghost predicate Carried(w: World, w': World, x: Key)
    requires x in w'.workers
  {
    w'.workers[x].Starting? || (x in w.workers && w'.workers[x] == w.workers[x] && Undisturbed(w, w', x))
  }

  lemma WorkersCarry(w: World, w': World)
    requires Inv(w) && w'.plan == w.plan && w'.workers.Keys <= w.plan.Keys
    requires forall x {:trigger Carried(w, w', x)} :: x in w'.workers ==> Carried(w, w', x)
    ensures forall x {:trigger WorkerFine(w', x)} :: x in w'.workers ==> x in w'.plan && WorkerFine(w', x)
  {
    forall x | x in w'.workers ensures WorkerFine(w', x) {
      assert Carried(w, w', x);
      if !w'.workers[x].Starting? {
        assert WorkerFine(w, x);
        WorkerStaysFine(w, w', x);
      }
    }
  }

  lemma ObjectsCarry(w: World, w': World, k: Key)
    requires Inv(w) && k in w.plan && w'.history.firstReady == w.history.firstReady
    requires OnlyKey(w.store.objects, w'.store.objects, k)
    requires k in w'.store.objects ==> ObjectFine(w', k)
    ensures forall x {:trigger ObjectFine(w', x)} :: x in w'.store.objects ==> x in w.plan && ObjectFine(w', x)
  {
    forall x | x in w'.store.objects ensures x in w.plan && ObjectFine(w', x) {
      assert x != k ==> ObjectFine(w, x);
    }
  }

  lemma AllCarried(w: World, w': World, k: Key)
    requires w'.plan == w.plan && w'.domains == w.domains && w'.bases == w.bases && w'.workers == w.workers
    requires w'.history.firstReady == w.history.firstReady
    requires OnlyKey(w.store.objects, w'.store.objects, k) && Undisturbed(w, w', k)
    ensures forall x {:trigger Carried(w, w', x)} :: x in w'.workers ==> Carried(w, w', x)
  {
  }

  lemma ObjectEditKeepsInv(w: World, objects: map<Key, Object>, k: Key)
    requires Inv(w) && k in w.plan
    requires OnlyKey(w.store.objects, objects, k)
    requires k in objects ==> ObjectFine(Tick(WithObjects(w, objects)), k)
    requires Undisturbed(w, Tick(WithObjects(w, objects)), k)
    ensures Inv(Tick(WithObjects(w, objects)))
  {
    hide WorkerFine, RankedAbove, TreesFine, Carried, ObjectFine;
    var after := Tick(WithObjects(w, objects));
    ObjectsCarry(w, after, k);
    SameTreesFine(w, after);
    RanksCarry(w, after);
    AllCarried(w, after, k);
    WorkersCarry(w, after);
  }

  /** Directories, secrets, trees and workers come and go without touching an object. */
  lemma SurroundingsKeepInv(w: World, w': World)
    requires Inv(w) && Typed(w') && TreesFine(w')
    requires w' == w.(store := w'.store, workers := w'.workers)
    requires w'.store.objects == w.store.objects
    requires forall x :: x in w'.workers ==> w'.workers[x].Starting? || (x in w.workers && w'.workers[x] == w.workers[x])
    ensures Inv(Tick(w'))
  {
    hide WorkerFine, RankedAbove, TreesFine;
    var after := Tick(w');
    forall x | x in after.store.objects ensures ObjectFine(after, x) {
      assert ObjectFine(w, x);
    }
    SameTreesFine(w', after);
    RanksCarry(w, after);
    forall x | x in after.workers ensures Carried(w, after, x) {}
    WorkersCarry(w, after);
  }

  lemma TreeEditFine(w: World, d: string, t: Tree)
    requires Inv(w) && d in w.domains && WellFormed(w.bases[d], t)
    ensures TreesFine(WithTree(w, d, t)) && Typed(WithTree(w, d, t))
  {
  }

  lemma SameTreesFine(w: World, w': World)
    requires TreesFine(w)
    requires w'.domains == w.domains && w'.bases == w.bases && w'.store.trees == w.store.trees
    ensures TreesFine(w')
  {
  }

  ghost predicate SamePlan(w: World, w': World) {
    w'.plan == w.plan && w'.domains == w.domains && w'.bases == w.bases
  }

  lemma CreateKeepsInv(w: World, k: Key, obj: Object)
    requires Inv(w) && k in w.plan && k !in w.store.objects
    requires !obj.deleting && obj.status == Status(Unset, 0)
    ensures Inv(Tick(WithObject(w, k, obj)))
  {
    ObjectEditKeepsInv(w, w.store.objects[k := obj], k);
  }

  lemma EditKeepsInv(w: World, k: Key, obj: Object)
    requires Inv(w) && k in w.store.objects
    requires obj.finalizer == w.store.objects[k].finalizer && obj.deleting == w.store.objects[k].deleting
    requires obj.status == w.store.objects[k].status && w.store.objects[k].generation <= obj.generation
    ensures Inv(Tick(WithObject(w, k, obj)))
  {
    assert ObjectFine(w, k);
    ObjectEditKeepsInv(w, w.store.objects[k := obj], k);
  }

  lemma DeleteKeepsInv(w: World, k: Key)
    requires Inv(w) && k in w.store.objects
    ensures Inv(Tick(Deleting(w, k))) && SamePlan(w, Deleting(w, k))
  {
    hide WorkerFine, RankedAbove, TreesFine;
    assert ObjectFine(w, k);
    assert k in w.history.holders ==> w.store.objects[k].finalizer;
    ObjectEditKeepsInv(w, Deleting(w, k).store.objects, k);
  }

  lemma OtherEventKeepsInv(w: World, e: Event)
    requires Inv(w) && Enabled(w, e)
    requires e.Begin? || e.Restart? || e.SetDirectories? || e.SetSecrets? || e.SetOthers?
    ensures Inv(Happen(w, e)) && SamePlan(w, Happen(w, e))
  {
    hide Next, ValidReply, WellFormed, WorkerFine, ObjectFine, RankedAbove, TreeFine;
    var w' := Effect(w, e);
    SameTreesFine(w, w');
    SurroundingsKeepInv(w, w');
  }

  lemma TreeEditKeepsInv(w: World, d: string, t: Tree)
    requires Inv(w) && d in w.domains && WellFormed(w.bases[d], t)
    ensures Inv(Tick(WithTree(w, d, t)))
  {
    TreeEditFine(w, d, t);
    SurroundingsKeepInv(w, WithTree(w, d, t));
  }

  /** Every event keeps the invariant, and the fixed part of the world. */
  lemma EventKeepsInv(w: World, e: Event)
    requires Inv(w) && Enabled(w, e)
    ensures Inv(Happen(w, e)) && SamePlan(w, Happen(w, e))
  {
    if e.Call? {
      CallKeepsInv(w, e.key, e.reply);
    } else if e.EditTree? {
      TreeEditKeepsInv(w, e.directory, e.tree);
    } else if e.CreateObject? {
      CreateKeepsInv(w, e.key, NewObject(e.details));
    } else if e.EditObject? {
      EditKeepsInv(w, e.key, Edited(w.store.objects[e.key], e.details));
    } else if e.DeleteObject? {
      DeleteKeepsInv(w, e.key);
    } else {
      OtherEventKeepsInv(w, e);
    }
  }

  lemma BeginKeepsInv(w: World, k: Key)
    requires Inv(w) && k in w.plan && k !in w.workers
    ensures Inv(Begun(w, k))
  {
    EventKeepsInv(w, Begin(k));
  }

  // ---------------------------------------------------------------- runs

  ghost predicate Legal(w: World, es: seq<Event>)
    decreases |es|
  {
    es == [] || (Typed(w) && Enabled(w, es[0]) && Legal(Happen(w, es[0]), es[1..]))
  }

  ghost function After(w: World, es: seq<Event>): World
    requires Legal(w, es)
    decreases |es|
  {
    if es == [] then w else After(Happen(w, es[0]), es[1..])
  }

  lemma {:induction false} RunExtends(w: World, es: seq<Event>, e: Event)
    requires Legal(w, es) && Typed(After(w, es)) && Enabled(After(w, es), e)
    ensures Legal(w, es + [e]) && After(w, es + [e]) == Happen(After(w, es), e)
    decreases |es|
  {
    hide Enabled, Happen, Typed;
    if es == [] {
      assert es + [e] == [e] && [e][1..] == [];
    } else {
      RunExtends(Happen(w, es[0]), es[1..], e);
      assert (es + [e])[1..] == es[1..] + [e];
    }
  }

  ghost predicate StepsTo(w: World, e: Event, w': World) {
    Typed(w) && Enabled(w, e) && Happen(w, e) == w'
  }

  /** Worlds that follow each other by the events of es make es a run. */
  lemma {:induction false} StepsMakeRun(at: nat -> World, es: seq<Event>, i: nat)
    requires i <= |es| && forall j: nat {:trigger es[j]} :: j < |es| ==> StepsTo(at(j), es[j], at(j + 1))
    ensures Legal(at(i), es[i..]) && After(at(i), es[i..]) == at(|es|)
    decreases |es| - i
  {
    if i < |es| {
      assert StepsTo(at(i), es[i], at(i + 1));
      StepsMakeRun(at, es, i + 1);
      assert es[i..][1..] == es[i + 1..];
    }
  }

  lemma {:induction false} RunJoins(w: World, a: seq<Event>, b: seq<Event>)
    requires Legal(w, a) && Legal(After(w, a), b)
    ensures Legal(w, a + b) && After(w, a + b) == After(After(w, a), b)
    decreases |a|
  {
    hide Enabled, Happen, Typed;
    if a == [] {
      assert a + b == b;
    } else {
      RunJoins(Happen(w, a[0]), a[1..], b);
      assert (a + b)[1..] == a[1..] + b;
    }
  }

  /** The last event of a run, in the world before it. */
  lemma {:induction false} LastStep(w: World, es: seq<Event>)
    requires Legal(w, es) && es != []
    ensures var rest, e := es[..|es| - 1], es[|es| - 1];
            && Legal(w, rest) && Typed(After(w, rest)) && Enabled(After(w, rest), e)
            && After(w, es) == Happen(After(w, rest), e)
    decreases |es|
  {
    if |es| == 1 {
      assert es[1..] == [] && es[..0] == [];
    } else {
      LastStep(Happen(w, es[0]), es[1..]);
      assert es[1..][..|es| - 2] == es[..|es| - 1][1..];
    }
  }

  lemma {:induction false} RunKeepsInv(w: World, es: seq<Event>)
    requires Inv(w) && Legal(w, es)
    ensures Inv(After(w, es)) && SamePlan(w, After(w, es))
    decreases |es|
  {
    hide Enabled, Happen, TreesFine, ObjectFine, WorkerFine, RankedAbove;
    if es != [] {
      EventKeepsInv(w, es[0]);
      RunKeepsInv(Happen(w, es[0]), es[1..]);
    }
  }

  // ---------------------------------------------------------------- cycles and termination

  /** Each key's parentRef names the next. */
  predicate ParentPath(plan: map<Key, Identity>, path: seq<Key>) {
    forall i :: 0 <= i < |path| - 1 ==> path[i] in plan && plan[path[i]].parent == Some(ObjectRef(path[i + 1]))
  }

  /** Along a parent path from an object that was ever Ready, ranks strictly fall. */
  lemma {:induction false} RanksFall(w: World, path: seq<Key>, i: nat)
    requires Inv(w) && ParentPath(w.plan, path) && i < |path|
    requires path[0] in w.history.firstReady
    ensures path[i] in w.history.firstReady
    ensures w.history.firstReady[path[i]] + i <= w.history.firstReady[path[0]]
  {
    if i > 0 {
      RanksFall(w, path, i - 1);
      assert RankedAbove(w, path[i - 1]);
    }
  }

  /** No object on a parentRef cycle has ever been Ready. */
  lemma NothingOnCycleIsReady(w: World, path: seq<Key>, i: nat)
    requires Inv(w) && ParentPath(w.plan, path) && |path| > 1 && path[0] == path[|path| - 1] && i < |path|
    ensures path[i] !in w.history.firstReady
    ensures path[i] in w.store.objects ==> w.store.objects[path[i]].status.phase != Ready
  {
    if path[i] in w.history.firstReady {
      var rest := path[i..];
      RanksFall(w, rest, |rest| - 1);
      RanksFall(w, path, |path| - 1);
    }
    if path[i] in w.store.objects {
      assert ObjectFine(w, path[i]);
    }
  }

  /** Below the rank of an object that was ever Ready its DN recursion has ended. */
  lemma {:induction false} RankedTerminates(w: World, k: Key, n: nat)
    requires Inv(w) && k in w.history.firstReady && w.history.firstReady[k] <= n
    ensures k in w.plan && !DnWithin(w, k, n).DnTooDeep?
    decreases n
  {
    assert RankedAbove(w, k);
    if w.plan[k].parent.Some? {
      var p := w.plan[k].parent.value.key;
      if p in w.store.objects && n > 0 {
        RankedTerminates(w, p, n - 1);
      }
    }
  }

  /** A worker that saw its parent Ready, or needs none, computes its DN in finitely many steps. */
  lemma DnComputationTerminates(w: World, k: Key)
    requires Inv(w) && k in w.workers && w.workers[k].Working? && ParentSeen(w, k, w.workers[k])
    ensures Terminates(w, k)
  {
    assert WorkerFine(w, k);
    if w.plan[k].parent.Some? {
      var p := w.workers[k].parent.value;
      var n := w.history.firstReady[p];
      RankedTerminates(w, p, n);
      assert !DnWithin(w, k, n + 1).DnTooDeep?;
    } else {
      assert !DnWithin(w, k, 0).DnTooDeep?;
    }
  }

  /** Both, over every run from a world in which nothing is Ready. */
  lemma CyclesOverRuns(w0: World, es: seq<Event>, path: seq<Key>, i: nat)
    requires Initial(w0) && Legal(w0, es)
    requires ParentPath(w0.plan, path) && |path| > 1 && path[0] == path[|path| - 1] && i < |path|
    ensures var w := After(w0, es);
            path[i] in w.store.objects ==> w.store.objects[path[i]].status.phase != Ready
  {
    InitialInv(w0);
    RunKeepsInv(w0, es);
    NothingOnCycleIsReady(After(w0, es), path, i);
  }

  lemma DnTerminatesOverRuns(w0: World, es: seq<Event>, k: Key)
    requires Initial(w0) && Legal(w0, es)
    requires k in After(w0, es).workers && After(w0, es).workers[k].Working?
    requires k in After(w0, es).plan && ParentSeen(After(w0, es), k, After(w0, es).workers[k])
    ensures Terminates(After(w0, es), k)
  {
    InitialInv(w0);
    RunKeepsInv(w0, es);
    DnComputationTerminates(After(w0, es), k);
  }
}
