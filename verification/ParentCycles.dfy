// When the unguarded recursion of GetDistinguishedName ends, exactly.
module ParentCycles {
  import opened Common
  import opened ObjectModel
  import opened ObjectRuns

  /** A path of parentRefs from k through existing objects. */
  predicate ExistingPath(w: World, k: Key, path: seq<Key>) {
    && path != [] && path[0] == k && ParentPath(w.plan, path)
    && forall i :: 1 <= i < |path| ==> path[i] in w.store.objects
  }

  /** The parentRefs of existing objects lead from k into a cycle. */
  ghost predicate LeadsIntoCycle(w: World, k: Key) {
    exists path, i, j :: ExistingPath(w, k, path) && Revisits(path, i, j)
  }

  predicate Revisits(path: seq<Key>, i: int, j: int) {
    0 <= i < j < |path| && path[i] == path[j]
  }

  /** A recursion that is too deep has walked a path of that length. */
  lemma {:induction false} DeepPath(w: World, k: Key, n: nat) returns (path: seq<Key>)
    requires k in w.plan && DnWithin(w, k, n).DnTooDeep?
    ensures ExistingPath(w, k, path) && |path| == n + 2
    decreases n
  {
    var p := w.plan[k].parent.value.key;
    if n == 0 {
      path := [k, p];
    } else {
      var rest := DeepPath(w, p, n - 1);
      path := [k] + rest;
      forall i | 0 <= i < |path| - 1
        ensures path[i] in w.plan && w.plan[path[i]].parent == Some(ObjectRef(path[i + 1]))
      {
        assert i > 0 ==> path[i] == rest[i - 1];
      }
    }
  }

  /** Around a cycle, and on the way to it, the recursion has no end. */
  lemma {:induction false} CycleIsEndless(w: World, k: Key, path: seq<Key>, i: nat, j: nat, at: nat, n: nat)
    requires Typed(w) && ExistingPath(w, k, path) && Revisits(path, i, j) && at < j
    ensures path[at] in w.plan && DnWithin(w, path[at], n).DnTooDeep?
    decreases n
  {
    assert w.plan[path[at]].parent == Some(ObjectRef(path[at + 1]));
    assert path[at + 1] in w.store.objects;
    if n > 0 {
      CycleIsEndless(w, k, path, i, j, if at + 1 == j then i else at + 1, n - 1);
    }
  }

  lemma DeepEnoughIsCycle(w: World, k: Key)
    requires k in w.plan && DnWithin(w, k, |w.store.objects.Keys|).DnTooDeep?
    ensures LeadsIntoCycle(w, k)
  {
    var path := DeepPath(w, k, |w.store.objects.Keys|);
    var i, j := SomethingRepeats(path[1..], w.store.objects.Keys);
    assert Revisits(path, i + 1, j + 1);
  }

  /** The recursion of GetDistinguishedName ends exactly when no chain of existing parents leads into a cycle. */
  lemma TerminatesExactly(w: World, k: Key)
    requires Typed(w) && k in w.plan
    ensures Terminates(w, k) <==> !LeadsIntoCycle(w, k)
  {
    if LeadsIntoCycle(w, k) {
      var path: seq<Key>, i: int, j: int :| ExistingPath(w, k, path) && Revisits(path, i, j);
      forall n: nat ensures DnWithin(w, k, n).DnTooDeep? {
        CycleIsEndless(w, k, path, i, j, 0, n);
      }
    }
    if !Terminates(w, k) {
      DeepEnoughIsCycle(w, k);
    }
  }

  /** Below a cycle the parent exists. */
  lemma CycleStartsAtParent(w: World, k: Key)
    requires LeadsIntoCycle(w, k)
    ensures k in w.plan && w.plan[k].parent.Some? && w.plan[k].parent.value.ObjectRef?
    ensures w.plan[k].parent.value.key in w.store.objects
  {
    var path: seq<Key>, i: int, j: int :| ExistingPath(w, k, path) && Revisits(path, i, j);
    assert w.plan[path[0]].parent == Some(ObjectRef(path[1]));
    assert path[1] in w.store.objects;
  }

  /** A depth of as many parents as there are objects decides it. */
  lemma EndsWithinObjects(w: World, k: Key)
    requires Typed(w) && k in w.plan
    ensures Terminates(w, k) <==> !DnWithin(w, k, |w.store.objects.Keys|).DnTooDeep?
    ensures Terminates(w, k) ==> ComputedDn(w, k) == DnWithin(w, k, |w.store.objects.Keys|)
  {
    var n := |w.store.objects.Keys|;
    if DnWithin(w, k, n).DnTooDeep? {
      DeepEnoughIsCycle(w, k);
      TerminatesExactly(w, k);
    } else {
      ComputedAt(w, k, n);
    }
  }

  // ---------------------------------------------------------------- when it finds a DN

  /** The object's DN ends here, in a directory that is there. */
  predicate EndsInDirectory(w: World, k: Key) {
    && k in w.plan
    && match w.plan[k].parent
       case None => w.plan[k].directory in w.store.directories
       case Some(ObjectRef(_)) => false
       case Some(DirectoryRef(d)) => d in w.store.directories
       case Some(OtherRef(_)) => false
  }

  /** Existing parents lead from k to an object of an existing directory. */
  ghost predicate ReachesDirectory(w: World, k: Key) {
    exists path :: ExistingPath(w, k, path) && EndsInDirectory(w, path[|path| - 1])
  }

  lemma {:induction false} FoundPath(w: World, k: Key, n: nat) returns (path: seq<Key>)
    requires k in w.plan && DnWithin(w, k, n).DnFound?
    ensures ExistingPath(w, k, path) && EndsInDirectory(w, path[|path| - 1])
    decreases n
  {
    path := [k];
    if w.plan[k].parent.Some? && w.plan[k].parent.value.ObjectRef? {
      var rest := FoundPath(w, w.plan[k].parent.value.key, n - 1);
      path := [k] + rest;
      forall i | 0 <= i < |path| - 1
        ensures path[i] in w.plan && w.plan[path[i]].parent == Some(ObjectRef(path[i + 1]))
      {
        assert i > 0 ==> path[i] == rest[i - 1];
      }
    }
  }

  lemma {:induction false} PathFinds(w: World, k: Key, path: seq<Key>)
    requires Typed(w) && ExistingPath(w, k, path) && EndsInDirectory(w, path[|path| - 1])
    ensures k in w.plan && DnWithin(w, k, |path| - 1).DnFound?
    decreases |path|
  {
    if |path| > 1 {
      assert w.plan[path[0]].parent == Some(ObjectRef(path[1])) && path[1] in w.store.objects;
      PathFinds(w, path[1], path[1..]);
    }
  }

  /** GetDistinguishedName finds a DN exactly when existing parents lead to an existing directory. */
  lemma FindsDnExactly(w: World, k: Key)
    requires Typed(w) && k in w.plan
    ensures DnWithin(w, k, |w.store.objects.Keys|).DnFound? <==> ReachesDirectory(w, k)
  {
    var n := |w.store.objects.Keys|;
    if DnWithin(w, k, n).DnFound? {
      var path := FoundPath(w, k, n);
    }
    if path :| ExistingPath(w, k, path) && EndsInDirectory(w, path[|path| - 1]) {
      PathFinds(w, k, path);
      ComputedAt(w, k, |path| - 1);
      EndsWithinObjects(w, k);
    }
  }
}
