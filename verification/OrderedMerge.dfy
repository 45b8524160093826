// Override-by-name: a list of named items edited in place by a list of overrides.
module OrderedMerge {
  import opened Common

  datatype Item<T> = Item(name: string, body: T)

  function Names<T>(xs: seq<Item<T>>): (ns: seq<string>)
    ensures |ns| == |xs|
    ensures forall i :: 0 <= i < |xs| ==> ns[i] == xs[i].name
  {
    if xs == [] then [] else [xs[0].name] + Names(xs[1..])
  }

  ghost predicate UniqueNames<T>(xs: seq<Item<T>>) {
    forall i, j :: 0 <= i < j < |xs| ==> xs[i].name != xs[j].name
  }

  /** The body under a name: the first, if there are several. */
  function Lookup<T>(xs: seq<Item<T>>, name: string): Option<T> {
    if xs == [] then None
    else if xs[0].name == name then Some(xs[0].body)
    else Lookup(xs[1..], name)
  }

  /** The body under a name: the last, if there are several. */
  function LastOf<T>(xs: seq<Item<T>>, name: string): Option<T> {
    if xs == [] then None
    else
      var later := LastOf(xs[1..], name);
      if later.Some? then later else if xs[0].name == name then Some(xs[0].body) else None
  }

  /** Overwrites the first item of y's name, or appends y. */
  function Put<T>(xs: seq<Item<T>>, y: Item<T>): seq<Item<T>> {
    if xs == [] then [y]
    else if xs[0].name == y.name then [y] + xs[1..]
    else [xs[0]] + Put(xs[1..], y)
  }

  function Merged<T>(xs: seq<Item<T>>, ys: seq<Item<T>>): seq<Item<T>>
    decreases |ys|
  {
    if ys == [] then xs else Merged(Put(xs, ys[0]), ys[1..])
  }

  /** The names of ys that are not seen yet, in the order they first occur. */
  function NewNames<T>(seen: seq<string>, ys: seq<Item<T>>): seq<string>
    decreases |ys|
  {
    if ys == [] then []
    else if ys[0].name in seen then NewNames(seen, ys[1..])
    else [ys[0].name] + NewNames(seen + [ys[0].name], ys[1..])
  }

  /** The nested loops of the operator: for each override, search, overwrite in place and stop, or append. */
  method Override<T>(defaults: seq<Item<T>>, overrides: seq<Item<T>>) returns (result: seq<Item<T>>)
    ensures result == Merged(defaults, overrides)
  {
    result := defaults;
    var k := 0;
    while k < |overrides|
      invariant 0 <= k <= |overrides|
      invariant Merged(result, overrides[k..]) == Merged(defaults, overrides)
    {
      var y := overrides[k];
      ghost var before := result;
      var found := false;
      var i := 0;
      while i < |result|
        invariant 0 <= i <= |result|
        invariant result == before && !found
        invariant forall j :: 0 <= j < i ==> result[j].name != y.name
      {
        if result[i].name == y.name {
          PutAt(before, y, i);
          result := result[i := y];
          found := true;
          break;
        }
        i := i + 1;
      }
      if !found {
        PutAt(before, y, |before|);
        result := result + [y];
      }
      assert overrides[k..][1..] == overrides[k + 1..];
      k := k + 1;
    }
    assert overrides[k..] == [];
  }

  lemma {:induction false} PutAt<T>(xs: seq<Item<T>>, y: Item<T>, i: nat)
    requires i <= |xs|
    requires forall j :: 0 <= j < i ==> xs[j].name != y.name
    requires i < |xs| ==> xs[i].name == y.name
    ensures Put(xs, y) == if i < |xs| then xs[i := y] else xs + [y]
  {
    if i > 0 {
      PutAt(xs[1..], y, i - 1);
      assert xs == [xs[0]] + xs[1..];
    }
  }

  // ---------------------------------------------------------------- what the merge means

  function Seen(names: seq<string>, name: string): seq<string> {
    if name in names then names else names + [name]
  }

  lemma NewNamesStep<T>(seen: seq<string>, ys: seq<Item<T>>)
    requires ys != []
    ensures seen + NewNames(seen, ys) == Seen(seen, ys[0].name) + NewNames(Seen(seen, ys[0].name), ys[1..])
  {
  }

  lemma {:induction false} PutNames<T>(xs: seq<Item<T>>, y: Item<T>)
    ensures Names(Put(xs, y)) == Seen(Names(xs), y.name)
  {
    if xs != [] {
      assert Names(xs) == [xs[0].name] + Names(xs[1..]);
      if xs[0].name == y.name {
        assert ([y] + xs[1..])[1..] == xs[1..];
      } else {
        PutNames(xs[1..], y);
        assert ([xs[0]] + Put(xs[1..], y))[1..] == Put(xs[1..], y);
      }
    }
  }

  lemma {:induction false} PutLookup<T>(xs: seq<Item<T>>, y: Item<T>, name: string)
    ensures Lookup(Put(xs, y), name) == if name == y.name then Some(y.body) else Lookup(xs, name)
  {
    if xs != [] {
      if xs[0].name == y.name {
        assert ([y] + xs[1..])[1..] == xs[1..];
      } else {
        PutLookup(xs[1..], y, name);
        assert ([xs[0]] + Put(xs[1..], y))[1..] == Put(xs[1..], y);
      }
    }
  }

  /** Defaults keep their positions; new names follow in the order they first occur. */
  lemma {:induction false} MergedNames<T>(xs: seq<Item<T>>, ys: seq<Item<T>>)
    ensures Names(Merged(xs, ys)) == Names(xs) + NewNames(Names(xs), ys)
    decreases |ys|
  {
    if ys != [] {
      MergedNames(Put(xs, ys[0]), ys[1..]);
      PutNames(xs, ys[0]);
      NewNamesStep(Names(xs), ys);
    }
  }

  /** A name stands for its last override, or else for its default. */
  lemma {:induction false} MergedLookup<T>(xs: seq<Item<T>>, ys: seq<Item<T>>, name: string)
    ensures Lookup(Merged(xs, ys), name) == Winner(xs, ys, name)
    decreases |ys|
  {
    if ys != [] {
      MergedLookup(Put(xs, ys[0]), ys[1..], name);
      PutLookup(xs, ys[0], name);
    }
  }

  /** By position: the override after which its name does not come again stands, and a name never overridden stays. */
  lemma {:induction false} LastOverrideStands<T>(xs: seq<Item<T>>, ys: seq<Item<T>>, name: string)
    ensures forall i :: 0 <= i < |ys| && ys[i].name == name && (forall j :: i < j < |ys| ==> ys[j].name != name) ==>
              Lookup(Merged(xs, ys), name) == Some(ys[i].body)
    ensures (forall i :: 0 <= i < |ys| ==> ys[i].name != name) ==> Lookup(Merged(xs, ys), name) == Lookup(xs, name)
    decreases |ys|
  {
    if ys != [] {
      var rest := ys[1..];
      LastOverrideStands(Put(xs, ys[0]), rest, name);
      PutLookup(xs, ys[0], name);
      forall i | 0 <= i < |ys| && ys[i].name == name && (forall j :: i < j < |ys| ==> ys[j].name != name)
        ensures Lookup(Merged(xs, ys), name) == Some(ys[i].body)
      {
        if i > 0 {
          assert rest[i - 1] == ys[i];
        } else {
          assert forall j :: 0 <= j < |rest| ==> rest[j] == ys[j + 1];
        }
      }
    }
  }

  lemma PutUnique<T>(xs: seq<Item<T>>, y: Item<T>)
    requires UniqueNames(xs)
    ensures UniqueNames(Put(xs, y))
  {
    PutNames(xs, y);
    var zs := Put(xs, y);
    forall i, j | 0 <= i < j < |zs| ensures zs[i].name != zs[j].name {
      assert Names(zs)[i] == zs[i].name && Names(zs)[j] == zs[j].name;
      if j < |xs| {
        assert Names(xs)[i] != Names(xs)[j];
      }
    }
  }

  lemma {:induction false} MergedUnique<T>(xs: seq<Item<T>>, ys: seq<Item<T>>)
    requires UniqueNames(xs)
    ensures UniqueNames(Merged(xs, ys))
    decreases |ys|
  {
    if ys != [] {
      PutUnique(xs, ys[0]);
      MergedUnique(Put(xs, ys[0]), ys[1..]);
    }
  }

  lemma {:induction false} LookupAt<T>(xs: seq<Item<T>>, i: nat)
    requires UniqueNames(xs) && i < |xs|
    ensures Lookup(xs, xs[i].name) == Some(xs[i].body)
  {
    if i > 0 {
      LookupAt(xs[1..], i - 1);
    }
  }

  /** A list of unique names is determined by the order of its names and by what each stands for. */
  lemma Determined<T(!new)>(xs: seq<Item<T>>, ys: seq<Item<T>>)
    requires UniqueNames(xs) && UniqueNames(ys)
    requires Names(xs) == Names(ys)
    requires forall name :: Lookup(xs, name) == Lookup(ys, name)
    ensures xs == ys
  {
    assert |xs| == |Names(xs)| == |Names(ys)| == |ys|;
    forall i | 0 <= i < |xs| ensures xs[i] == ys[i] {
      assert Names(xs)[i] == Names(ys)[i];
      LookupAt(xs, i);
      LookupAt(ys, i);
    }
  }

  /** In zs every name stands for its last override, or else for its default. */
  ghost predicate LastOverrideWins<T(!new)>(xs: seq<Item<T>>, ys: seq<Item<T>>, zs: seq<Item<T>>) {
    forall name :: Lookup(zs, name) == Winner(xs, ys, name)
  }

  function Winner<T>(xs: seq<Item<T>>, ys: seq<Item<T>>, name: string): Option<T> {
    if LastOf(ys, name).Some? then LastOf(ys, name) else Lookup(xs, name)
  }

  /** The merge, without its loops: the one list with these names in this order and these bodies. */
  lemma MergedExactly<T(!new)>(xs: seq<Item<T>>, ys: seq<Item<T>>, zs: seq<Item<T>>)
    requires UniqueNames(xs)
    ensures zs == Merged(xs, ys) <==>
            && UniqueNames(zs)
            && Names(zs) == Names(xs) + NewNames(Names(xs), ys)
            && LastOverrideWins(xs, ys, zs)
  {
    MergedUnique(xs, ys);
    MergedNames(xs, ys);
    forall name ensures Lookup(Merged(xs, ys), name) == Winner(xs, ys, name) {
      MergedLookup(xs, ys, name);
    }
    assert LastOverrideWins(xs, ys, Merged(xs, ys));
    if UniqueNames(zs) && Names(zs) == Names(xs) + NewNames(Names(xs), ys) && LastOverrideWins(xs, ys, zs) {
      Determined(zs, Merged(xs, ys));
    }
  }

  lemma {:induction false} NothingNew<T>(seen: seq<string>, ys: seq<Item<T>>)
    requires forall i :: 0 <= i < |ys| ==> ys[i].name in seen
    ensures NewNames(seen, ys) == []
    decreases |ys|
  {
    if ys != [] {
      NothingNew(seen, ys[1..]);
    }
  }

  lemma {:induction false} NamesCovered<T>(seen: seq<string>, ys: seq<Item<T>>, i: nat)
    requires i < |ys|
    ensures ys[i].name in seen + NewNames(seen, ys)
    decreases |ys|
  {
    if i > 0 {
      if ys[0].name in seen {
        NamesCovered(seen, ys[1..], i - 1);
      } else {
        NamesCovered(seen + [ys[0].name], ys[1..], i - 1);
        assert seen + [ys[0].name] + NewNames(seen + [ys[0].name], ys[1..]) == seen + NewNames(seen, ys);
      }
    }
  }

  /** Applying the same overrides again changes nothing. */
  lemma MergeIdempotent<T(!new)>(xs: seq<Item<T>>, ys: seq<Item<T>>)
    requires UniqueNames(xs)
    ensures Merged(Merged(xs, ys), ys) == Merged(xs, ys)
  {
    var once := Merged(xs, ys);
    MergedUnique(xs, ys);
    MergedNames(xs, ys);
    forall i | 0 <= i < |ys| ensures ys[i].name in Names(once) {
      NamesCovered(Names(xs), ys, i);
    }
    NothingNew(Names(once), ys);
    MergedUnique(once, ys);
    MergedNames(once, ys);
    forall name ensures Lookup(Merged(once, ys), name) == Lookup(once, name) {
      MergedLookup(once, ys, name);
      MergedLookup(xs, ys, name);
    }
    Determined(Merged(once, ys), once);
  }
}
