// A world to see it happen in: a unit, a user below it, and a user on its own, in a directory that is Ready.
module ProgressWitness {
  import opened Common
  import opened DistinguishedNames
  import opened Dit
  import opened LdapClient
  import opened Convergence
  import opened Mapper
  import opened ObjectModel
  import opened ObjectInvariants
  import opened ObjectRuns
  import opened ObjectTheorems
  import opened ObjectLifecycle
  import opened ObjectProgress

  const UNIT := Key(OrganizationalUnit, "unit")
  const MEMBER := Key(User, "member")
  const LONER := Key(User, "loner")

  const PLAN: map<Key, Identity> := map[
    UNIT := Identity("demo", None, "a"),
    MEMBER := Identity("demo", Some(ObjectRef(UNIT)), "m"),
    LONER := Identity("demo", None, "l")
  ]

  const OBJECTS: map<Key, Object> := map[
    UNIT := NewObject(OrganizationalUnitDetails("a", "")),
    MEMBER := NewObject(UserDetails("m", "M", "M", "", Some("pw"))),
    LONER := NewObject(UserDetails("l", "L", "L", "", Some("pw")))
  ]

  const DOMAIN := "example.com"

  /** The world in which nothing has happened yet and the server holds nothing but its base entry. */
  function Demo(base: Dn): World
    requires base != []
  {
    World(PLAN, map["demo" := DOMAIN], map["demo" := base],
          Store(OBJECTS, {}, map["demo" := true], map["pw" := "secret"],
                map["demo" := map[base := Entry(map[base[0].attr := {base[0].value}], None)]]),
          map[], History(0, map[], map[], {}))
  }

  ghost predicate RightBase(base: Dn) {
    base != [] && base == ParseDn(ClientBaseDn(DOMAIN))
  }

  lemma SomeBase() returns (base: Dn)
    ensures RightBase(base)
  {
    base := ParseDn(ClientBaseDn(DOMAIN));
  }

  lemma DemoIsInitial(base: Dn)
    requires RightBase(base)
    ensures Initial(Demo(base)) && RightBases(Demo(base)) && Inv(Demo(base))
  {
    hide ParseDn, ClientBaseDn, WorkerFine, RankedAbove;
    var w := Demo(base);
    var t := w.store.trees["demo"];
    assert WellFormed(base, t);
    assert TreeFine(w, "demo");
    assert Typed(w);
    InitialInv(w);
  }

  /** An object without a parent waits, and has ground to stand on. */
  lemma TopWaits(base: Dn, k: Key) returns (dn: Dn)
    requires RightBase(base) && k in {UNIT, LONER}
    ensures Waiting(Demo(base), k, "demo", dn) && Founded(Demo(base), k, "demo", base)
    ensures dn != [] && dn[1..] == base
  {
    hide ParseDn, ClientBaseDn, DirectoryDn, PrintRdn;
    var w := Demo(base);
    var above := DirectoryDn(DOMAIN);
    BaseDnsAgree(DOMAIN);
    var s := PrintRdn(RdnOf(k, PLAN[k])) + "," + above;
    dn := ParseDn(s);
    assert PrintedWithin(w.plan, w.domains, k, 0) == Some(s);
    SuperiorOf(k, PLAN[k], above);
    assert |dn| == |base| + 1;
    assert HasDn(w, k, s);
  }

  lemma MemberDn(base: Dn, above: Dn) returns (dn: Dn)
    requires base != [] && IsDnOf(Demo(base), UNIT, above)
    ensures IsDnOf(Demo(base), MEMBER, dn) && dn != [] && dn[1..] == above
  {
    hide ParseDn, PrintRdn, NewObject;
    var w := Demo(base);
    var t :| HasDn(w, UNIT, t) && ParseDn(t) == above;
    var n: nat :| PrintedWithin(w.plan, w.domains, UNIT, n) == Some(t);
    var s := PrintRdn(RdnOf(MEMBER, PLAN[MEMBER])) + "," + t;
    dn := ParseDn(s);
    assert PrintedWithin(w.plan, w.domains, MEMBER, n + 1) == Some(s);
    SuperiorOf(MEMBER, PLAN[MEMBER], t);
    assert HasDn(w, MEMBER, s);
  }

  lemma MemberWaits(base: Dn, above: Dn) returns (dn: Dn)
    requires base != [] && IsDnOf(Demo(base), UNIT, above) && |above| > |base|
    ensures Waiting(Demo(base), MEMBER, "demo", dn)
  {
    hide IsDnOf;
    dn := MemberDn(base, above);
  }

  /** From an initial world a run makes a unit and the user below it Ready. */
  lemma ReadyIsReached() returns (w0: World, es: seq<Event>)
    ensures Initial(w0) && Legal(w0, es) && IsReady(After(w0, es), UNIT) && IsReady(After(w0, es), MEMBER)
  {
    hide Waiting, Founded, Initial, Inv, RightBases, IsReady, Legal, After, InOrder, RightBase;
    var base := SomeBase();
    w0 := DemoOf(base);
    var above := TopWaits(base, UNIT);
    var dn := BelowUnit(base, above);
    var path, dns := [UNIT, MEMBER], [above, dn];
    DemoChain(base, above, dn);
    var end;
    es, end := ChainCanBecomeReady(w0, path, "demo", dns, base);
    ChainBecomesReady(w0, path, "demo", dns, base, end);
    assert path[0] == UNIT && path[1] == MEMBER;
  }

  lemma DemoOf(base: Dn) returns (w: World)
    requires RightBase(base)
    ensures base != [] && w == Demo(base) && Initial(w)
  {
    w := Demo(base);
    DemoIsInitial(base);
  }

  lemma BelowUnit(base: Dn, above: Dn) returns (dn: Dn)
    requires RightBase(base) && Waiting(Demo(base), UNIT, "demo", above) && above != [] && above[1..] == base
    ensures Waiting(Demo(base), MEMBER, "demo", dn)
  {
    dn := MemberWaits(base, above);
  }

  lemma DemoChain(base: Dn, above: Dn, dn: Dn)
    requires RightBase(base) && Waiting(Demo(base), UNIT, "demo", above) && Waiting(Demo(base), MEMBER, "demo", dn)
    ensures ChainWaits(Demo(base), [UNIT, MEMBER], "demo", [above, dn])
  {
    hide Waiting, Inv, RightBases, RightBase;
    DemoIsInitial(base);
  }

  /** From the same world a run leaves the other user's entry without its object ever becoming Ready. */
  lemma StuckIsReached() returns (w0: World, es: seq<Event>, dn: Dn)
    ensures Initial(w0) && Legal(w0, es) && Stuck(After(w0, es), LONER, dn)
  {
    hide Founded, Initial, Inv, RightBases, IsReady, Legal, After, Stuck, EntryFor, Addable, RightBase;
    var base := SomeBase();
    w0 := DemoOf(base);
    dn := TopWaits(base, LONER);
    LonerIsUser(base, dn);
    var t;
    es, t := CreationCanBeLost(w0, LONER);
  }

  lemma LonerFacts(base: Dn)
    requires base != []
    ensures var w := Demo(base);
            && DirectoryReady(w, "demo") && LONER in w.plan && w.plan[LONER].directory == "demo"
            && LONER in w.store.objects && w.store.objects[LONER].details == UserDetails("l", "L", "L", "", Some("pw"))
            && "pw" in w.store.secrets && w.store.secrets["pw"] == "secret"
  {
  }

  lemma LonerIsUser(base: Dn, dn: Dn)
    requires RightBase(base) && Waiting(Demo(base), LONER, "demo", dn) && Founded(Demo(base), LONER, "demo", base)
    ensures Inv(Demo(base)) && !IsReady(Demo(base), LONER) && EntryFor(Demo(base), LONER).Some?
    ensures var w, e := Demo(base), EntryFor(Demo(base), LONER).value;
            && "demo" in w.bases && "demo" in w.store.trees
            && e.UserEntry? && e.password != "" && e.dn == dn
            && Addable(w.bases["demo"], w.store.trees["demo"], e)
  {
    hide Demo, Founded, IsDnOf, FoundDn, ParseDn, ClientBaseDn, Initial, RightBases, EntryFor, Addable, Inv;
    DemoIsInitial(base);
    LonerFacts(base);
    FirstIsAddable(Demo(base), LONER, "demo", dn, base);
    EntryIsMapped(Demo(base), LONER);
  }
}
