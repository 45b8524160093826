// What create-or-update calls achieve: exact patches, convergence, idempotence, crash recovery, and reading back.
module Convergence {
  import opened Common
  import opened DistinguishedNames
  import opened Dit
  import opened LdapClient

  // ---------------------------------------------------------------- one attribute

  /** The changes planned from what was found bring attrs to the target. */
  predicate Fits(m: Managed, found: map<string, seq<string>>, attrs: Attributes) {
    var now := Values(attrs, m.attr);
    match m
    case Optional(attr, desired) =>
      var existing := FirstValue(found, attr);
      (existing == "" <==> now == {}) || (existing != "" && desired != "")
    case Required(attr, desired) =>
      FirstValue(found, attr) != desired || now == {desired}
    case Members(attr, all) =>
      if ToSet(AllValues(found, attr)) == ToSet(all) then now == ToSet(all) else Distinct(all)
  }

  predicate Reaches(m: Managed, r: Changed) {
    r.Changed? && Values(r.attrs, m.attr) == Target(m)
  }

  ghost predicate OthersKept(attr: string, attrs: Attributes, attrs': Attributes) {
    forall a :: a != attr ==> (a in attrs' <==> a in attrs) && Values(attrs', a) == Values(attrs, a)
  }

  lemma SingleChange(attrs: Attributes, c: Change)
    ensures ApplyChanges(attrs, [c]) == ApplyChange(attrs, c)
  {
  }

  /** The planned changes are a correct patch of the attribute exactly when they fit, and touch no other attribute. */
  lemma PatchExactly(m: Managed, found: map<string, seq<string>>, attrs: Attributes)
    ensures Reaches(m, ApplyChanges(attrs, ChangesFor(m, found))) <==> Fits(m, found, attrs)
    ensures var r := ApplyChanges(attrs, ChangesFor(m, found)); r.Changed? ==> OthersKept(m.attr, attrs, r.attrs)
  {
  }

  // ---------------------------------------------------------------- the whole request

  predicate DistinctAttributes(ms: seq<Managed>) {
    forall i, j :: 0 <= i < j < |ms| ==> ms[i].attr != ms[j].attr
  }

  predicate AllFit(ms: seq<Managed>, found: map<string, seq<string>>, attrs: Attributes) {
    forall i :: 0 <= i < |ms| ==> Fits(ms[i], found, attrs)
  }

  predicate AllReach(ms: seq<Managed>, r: Changed) {
    r.Changed? && forall i :: 0 <= i < |ms| ==> Values(r.attrs, ms[i].attr) == Target(ms[i])
  }

  predicate IsManaged(ms: seq<Managed>, attr: string) {
    exists i :: 0 <= i < |ms| && ms[i].attr == attr
  }

  ghost predicate UnmanagedKept(ms: seq<Managed>, attrs: Attributes, attrs': Attributes) {
    forall a :: !IsManaged(ms, a) ==> Values(attrs', a) == Values(attrs, a)
  }

  lemma FitsElsewhere(m: Managed, attr: string, found: map<string, seq<string>>, attrs: Attributes, attrs': Attributes)
    requires m.attr != attr && OthersKept(attr, attrs, attrs')
    ensures Fits(m, found, attrs') <==> Fits(m, found, attrs)
  {
  }

  /** A request reaches every target exactly when each of its parts fits; attributes it does not manage stay. */
  lemma {:induction false} PlanExactly(ms: seq<Managed>, found: map<string, seq<string>>, attrs: Attributes)
    requires DistinctAttributes(ms)
    ensures AllReach(ms, ApplyChanges(attrs, Plan(ms, found))) <==> AllFit(ms, found, attrs)
    ensures var r := ApplyChanges(attrs, Plan(ms, found)); r.Changed? ==> UnmanagedKept(ms, attrs, r.attrs)
  {
    if ms != [] {
      var m, rest := ms[0], ms[1..];
      PatchExactly(m, found, attrs);
      ApplyChangesOfConcat(attrs, ChangesFor(m, found), Plan(rest, found));
      var first := ApplyChanges(attrs, ChangesFor(m, found));
      if first.Changed? {
        PlanExactly(rest, found, first.attrs);
        forall i | 0 <= i < |rest| ensures Fits(rest[i], found, first.attrs) <==> Fits(ms[i + 1], found, attrs) {
          FitsElsewhere(rest[i], m.attr, found, attrs, first.attrs);
        }
        assert !IsManaged(rest, m.attr);
        PlanSplit(ms, found, attrs, first.attrs);
      }
    }
  }

  lemma PlanSplit(ms: seq<Managed>, found: map<string, seq<string>>, attrs: Attributes, between: Attributes)
    requires ms != [] && DistinctAttributes(ms)
    requires OthersKept(ms[0].attr, attrs, between)
    requires AllReach(ms[1..], ApplyChanges(between, Plan(ms[1..], found))) <==> AllFit(ms[1..], found, between)
    requires var r := ApplyChanges(between, Plan(ms[1..], found));
             r.Changed? ==> UnmanagedKept(ms[1..], between, r.attrs)
    requires forall i :: 0 <= i < |ms[1..]| ==> (Fits(ms[1..][i], found, between) <==> Fits(ms[i + 1], found, attrs))
    requires Values(between, ms[0].attr) == Target(ms[0]) <==> Fits(ms[0], found, attrs)
    ensures var r := ApplyChanges(between, Plan(ms[1..], found));
            && (AllReach(ms, r) <==> AllFit(ms, found, attrs))
            && (r.Changed? ==> UnmanagedKept(ms, attrs, r.attrs))
  {
  }

  // ---------------------------------------------------------------- updating from the entry itself

  /** Whatever order the server returns this entry's values in, the plan made from them fits. */
  predicate Tidy(m: Managed, attrs: Attributes) {
    var now := Values(attrs, m.attr);
    match m
    case Optional(_, _) => "" !in now
    case Required(_, desired) => (now == {} ==> desired != "") && (desired in now ==> now == {desired})
    case Members(_, all) => now == ToSet(all) || Distinct(all)
  }

  lemma {:induction false} Enumeration(s: set<string>) returns (vs: seq<string>)
    ensures Enumerates(vs, s)
    decreases s
  {
    if s == {} {
      vs := [];
    } else {
      var v :| v in s;
      var rest := Enumeration(s - {v});
      vs := [v] + rest;
      assert ToSet(vs) == {v} + ToSet(rest);
    }
  }

  lemma EnumerationFrom(s: set<string>, v: string) returns (vs: seq<string>)
    requires v in s
    ensures Enumerates(vs, s) && vs[0] == v
  {
    var rest := Enumeration(s - {v});
    vs := [v] + rest;
    assert ToSet(vs) == {v} + ToSet(rest);
  }

  lemma {:induction false} Showing(attrs: Attributes) returns (found: map<string, seq<string>>)
    ensures Shows(found, attrs)
    decreases attrs.Keys
  {
    if attrs.Keys == {} {
      found := map[];
    } else {
      var a :| a in attrs.Keys;
      var rest := Showing(attrs - {a});
      var vs := Enumeration(attrs[a]);
      found := rest[a := vs];
    }
  }

  lemma ShownValues(found: map<string, seq<string>>, attrs: Attributes, attr: string)
    requires Shows(found, attrs)
    ensures ToSet(AllValues(found, attr)) == Values(attrs, attr)
    ensures AllValues(found, attr) != [] ==> FirstValue(found, attr) in Values(attrs, attr)
    ensures AllValues(found, attr) == [] <==> Values(attrs, attr) == {}
  {
  }

  /** Tidy is the exact condition on the stored values. */
  lemma TidyExactly(m: Managed, attrs: Attributes)
    ensures Tidy(m, attrs) <==> forall found :: Shows(found, attrs) ==> Fits(m, found, attrs)
  {
    if Tidy(m, attrs) {
      forall found | Shows(found, attrs) ensures Fits(m, found, attrs) {
        ShownValues(found, attrs, m.attr);
      }
    } else {
      var now := Values(attrs, m.attr);
      var found := Showing(attrs);
      if m.Members? || now == {} {
        ShownValues(found, attrs, m.attr);
      } else {
        var awkward := if m.Optional? then "" else m.desired;
        var vs := EnumerationFrom(now, awkward);
        found := found[m.attr := vs];
        assert FirstValue(found, m.attr) == awkward;
      }
      assert Shows(found, attrs) && !Fits(m, found, attrs);
    }
  }

  lemma ManagedDistinct(e: DirectoryEntry)
    ensures DistinctAttributes(ManagedAttributes(e))
    ensures !IsManaged(ManagedAttributes(e), "objectClass")
    ensures !IsManaged(ManagedAttributes(e), NamingAttribute(e.Kind()))
  {
  }

  // ---------------------------------------------------------------- one call on a reliable server

  predicate TidyEntry(e: DirectoryEntry, attrs: Attributes) {
    var ms := ManagedAttributes(e);
    forall i :: 0 <= i < |ms| ==> Tidy(ms[i], attrs)
  }

  /** The request itself is in order: its DN carries its name, a group lists its members once, a user has a password. */
  predicate WellPosed(e: DirectoryEntry) {
    && e.dn != [] && e.dn[0] == Rdn(NamingAttribute(e.Kind()), e.name)
    && (e.GroupEntry? ==> e.members != [] && Distinct(e.members))
    && (e.UserEntry? ==> e.password != "")
  }

  /** Nothing strictly below the entry has its class and name, and the entry, if it exists, is tidy. */
  ghost predicate Manageable(base: Dn, t: Tree, e: DirectoryEntry) {
    && WellFormed(base, t)
    && WellPosed(e)
    && Candidates(t, e) <= {e.dn}
    && if e.dn in t then Matches(t[e.dn].attrs, FilterFor(e)) && TidyEntry(e, t[e.dn].attrs)
       else e.dn == base || e.dn[1..] in t
  }

  /** The entry is as desired. */
  predicate Desired(e: DirectoryEntry, x: Entry) {
    && Matches(x.attrs, FilterFor(e))
    && AllReach(ManagedAttributes(e), Changed(x.attrs))
    && (e.UserEntry? ==> x.password.Some? && Verifies(x.password.value, e.password))
  }

  /** From t to t' the entry has become as desired and nothing else has changed. */
  ghost predicate Settled(t: Tree, t': Tree, e: DirectoryEntry) {
    && OnlyAt(t, t', e.dn)
    && e.dn in t'
    && Desired(e, t'[e.dn])
    && (e.dn !in t ==> t'[e.dn].attrs == Content(e.dn, InitialAttributes(e)))
    && (e.dn in t ==> UnmanagedKept(ManagedAttributes(e), t[e.dn].attrs, t'[e.dn].attrs))
    && (e.dn in t && !e.UserEntry? ==> t'[e.dn].password == t[e.dn].password)
  }

  lemma SingletonSet(v: string)
    ensures ToSet([v]) == {v}
  {
  }

  lemma FreshContent(e: DirectoryEntry)
    requires WellPosed(e)
    ensures var attrs := Content(e.dn, InitialAttributes(e));
            && Matches(attrs, FilterFor(e))
            && AllReach(ManagedAttributes(e), Changed(attrs))
            && Values(attrs, NamingAttribute(e.Kind())) == {e.name}
  {
  }

  lemma FreshStorable(e: DirectoryEntry)
    requires WellPosed(e)
    ensures forall a :: a in InitialAttributes(e) ==> InitialAttributes(e)[a] != [] && Distinct(InitialAttributes(e)[a])
  {
  }

  /** Reaching the targets leaves an entry tidy. */
  lemma ReachedIsTidy(e: DirectoryEntry, attrs: Attributes)
    requires AllReach(ManagedAttributes(e), Changed(attrs))
    ensures TidyEntry(e, attrs)
  {
  }

  /** On a manageable entry every plan the client can make fits. */
  lemma ManageableFits(base: Dn, t: Tree, e: DirectoryEntry, found: map<string, seq<string>>)
    requires Manageable(base, t, e) && Picked(t, Candidates(t, e), found)
    ensures e.dn in t && AllFit(ManagedAttributes(e), found, t[e.dn].attrs)
  {
    var ms, attrs := ManagedAttributes(e), t[e.dn].attrs;
    assert Shows(found, attrs);
    forall i | 0 <= i < |ms| ensures Fits(ms[i], found, attrs) {
      TidyExactly(ms[i], attrs);
    }
  }

  /** The entry to update exists and has the class and name it is looked up by. */
  ghost predicate Updatable(base: Dn, t: Tree, e: DirectoryEntry) {
    WellFormed(base, t) && WellPosed(e) && e.dn in t && Matches(t[e.dn].attrs, FilterFor(e))
  }

  /** The update's Modify, when its plan fits: it is accepted, and reaches every target. */
  lemma ModifyReaches(base: Dn, t: Tree, e: DirectoryEntry, found: map<string, seq<string>>)
    requires Updatable(base, t, e) && AllFit(ManagedAttributes(e), found, t[e.dn].attrs)
    ensures var r := ApplyChanges(t[e.dn].attrs, Plan(ManagedAttributes(e), found));
            && AllReach(ManagedAttributes(e), r)
            && UnmanagedKept(ManagedAttributes(e), t[e.dn].attrs, r.attrs)
            && Matches(r.attrs, FilterFor(e))
            && Apply(base, t, ModifyEntry(e.dn, Plan(ManagedAttributes(e), found)))
               == (Success, t[e.dn := t[e.dn].(attrs := r.attrs)])
  {
    ManagedDistinct(e);
    PlanExactly(ManagedAttributes(e), found, t[e.dn].attrs);
  }

  /** From t1 on, a call ends with dn's password one that verifies, and everything else as in t1. */
  ghost predicate PasswordHolds(t1: Tree, t': Tree, e: DirectoryEntry)
    requires e.UserEntry?
  {
    && e.dn in t1 && e.dn in t'
    && t' == t1[e.dn := t1[e.dn].(password := t'[e.dn].password)]
    && t'[e.dn].password.Some? && Verifies(t'[e.dn].password.value, e.password)
  }

  lemma PasswordSettles(base: Dn, t1: Tree, e: DirectoryEntry, created: bool, r: Outcome, t': Tree)
    requires e.UserEntry? && e.password != "" && e.dn in t1
    requires PasswordOutcome(base, t1, e, true, created, r, t')
    ensures r == Done(created) && PasswordHolds(t1, t', e)
  {
  }

  lemma VerifySettles(base: Dn, t1: Tree, e: DirectoryEntry, r: Outcome, t': Tree)
    requires e.UserEntry? && e.password != "" && e.dn in t1
    requires VerifyOutcome(base, t1, e, true, r, t')
    ensures r == Done(false) && PasswordHolds(t1, t', e)
    ensures t1[e.dn].password.Some? && Verifies(t1[e.dn].password.value, e.password) ==> t' == t1
  {
  }

  /** The Add alone settles an entry, but for its password. */
  lemma AddSettles(base: Dn, t: Tree, e: DirectoryEntry) returns (t1: Tree)
    requires Manageable(base, t, e) && e.dn !in t
    ensures Apply(base, t, AddEntry(e.dn, InitialAttributes(e))) == (Success, t1)
    ensures t1 == t[e.dn := Entry(Content(e.dn, InitialAttributes(e)), None)]
    ensures Matches(t1[e.dn].attrs, FilterFor(e)) && AllReach(ManagedAttributes(e), Changed(t1[e.dn].attrs))
  {
    hide Content, InitialAttributes, AllReach, Matches;
    FreshContent(e);
    FreshStorable(e);
    t1 := t[e.dn := Entry(Content(e.dn, InitialAttributes(e)), None)];
  }

  lemma CreateConverges(base: Dn, t: Tree, e: DirectoryEntry, r: Outcome, t': Tree)
    requires Manageable(base, t, e) && e.dn !in t
    requires CreateOutcome(base, t, e, true, r, t')
    ensures r == Done(true) && Settled(t, t', e)
  {
    hide Content, InitialAttributes, AllReach, Matches, Apply, PasswordOutcome;
    var added := AddSettles(base, t, e);
    var code: Code, t1: Tree :| Responds(base, t, AddEntry(e.dn, InitialAttributes(e)), true, code, t1)
                    && if code != Success then r == Refused(code) && t' == t1
                       else if e.UserEntry? && e.password != "" then PasswordOutcome(base, t1, e, true, true, r, t')
                       else r == Done(true) && t' == t1;
    assert code == Success && t1 == added;
    if e.UserEntry? {
      PasswordSettles(base, t1, e, true, r, t');
    }
  }

  /** A Modify whose plan fits, seen as a step of a call. */
  lemma ModifySettles(base: Dn, t: Tree, e: DirectoryEntry, found: map<string, seq<string>>, code: Code, t1: Tree)
    requires Updatable(base, t, e) && AllFit(ManagedAttributes(e), found, t[e.dn].attrs)
    requires ModifyOutcome(base, t, e.dn, Plan(ManagedAttributes(e), found), true, code, t1)
    ensures code == Success && OnlyAt(t, t1, e.dn) && e.dn in t1 && t1[e.dn].password == t[e.dn].password
    ensures Matches(t1[e.dn].attrs, FilterFor(e))
    ensures AllReach(ManagedAttributes(e), Changed(t1[e.dn].attrs))
    ensures UnmanagedKept(ManagedAttributes(e), t[e.dn].attrs, t1[e.dn].attrs)
  {
    ModifyReaches(base, t, e, found);
  }

  lemma UpdateConverges(base: Dn, t: Tree, e: DirectoryEntry, found: map<string, seq<string>>,
                             r: Outcome, t': Tree)
    requires Updatable(base, t, e) && AllFit(ManagedAttributes(e), found, t[e.dn].attrs)
    requires UpdateOutcome(base, t, e, found, true, r, t')
    ensures r == Done(false) && Settled(t, t', e)
  {
    var code: Code, t1: Tree :| ModifyOutcome(base, t, e.dn, Plan(ManagedAttributes(e), found), true, code, t1)
                    && if code != Success then r == Refused(code) && t' == t1
                       else if e.UserEntry? then VerifyOutcome(base, t1, e, true, r, t')
                       else r == Done(false) && t' == t1;
    ModifySettles(base, t, e, found, code, t1);
    if e.UserEntry? {
      VerifySettles(base, t1, e, r, t');
      assert t'[e.dn].attrs == t1[e.dn].attrs;
    }
  }

  /**
   * A call on a reliable server converges: it succeeds, says truthfully whether it created the entry, leaves the entry
   * as desired and everything else as it was.
   */
  lemma Converges(base: Dn, t: Tree, e: DirectoryEntry, r: Outcome, t': Tree)
    requires Manageable(base, t, e) && UpsertOutcome(base, t, e, true, r, t')
    ensures r == Done(e.dn !in t) && Settled(t, t', e)
  {
    if e.dn in t {
      assert e.dn in Candidates(t, e);
      var found :| Picked(t, Candidates(t, e), found) && UpdateOutcome(base, t, e, found, true, r, t');
      ManageableFits(base, t, e, found);
      UpdateConverges(base, t, e, found, r, t');
    } else {
      CreateConverges(base, t, e, r, t');
    }
  }

  // ---------------------------------------------------------------- calling again

  /** Where an entry is missing but may be added, nothing lies below it. */
  lemma NothingBelowPlace(base: Dn, t: Tree, dn: Dn)
    requires WellFormed(base, t) && dn !in t && (dn == base || (dn != [] && dn[1..] in t))
    ensures forall d :: d in t ==> !Under(d, dn)
  {
    if dn != base {
      EntriesUnderBase(base, t, dn[1..]);
      assert dn[|dn| - |base|..] == dn[1..][|dn| - 1 - |base|..];
    }
    NothingBelowMissing(base, t, dn);
  }

  /** Whatever happens at dn alone, no rival appears below it. */
  lemma NoNewRivals(base: Dn, t: Tree, t': Tree, e: DirectoryEntry)
    requires Manageable(base, t, e) && OnlyAt(t, t', e.dn)
    ensures Candidates(t', e) <= {e.dn}
  {
    if e.dn !in t {
      NothingBelowPlace(base, t, e.dn);
    }
    forall d | d in Candidates(t', e) ensures d == e.dn {
      assert d == e.dn || d in Candidates(t, e);
    }
  }

  /** A settled entry can be managed again. */
  lemma SettledIsManageable(base: Dn, t: Tree, e: DirectoryEntry, t': Tree)
    requires Manageable(base, t, e) && WellFormed(base, t') && Settled(t, t', e)
    ensures Manageable(base, t', e)
  {
    ReachedIsTidy(e, t'[e.dn].attrs);
    NoNewRivals(base, t, t', e);
  }

  lemma PasswordKeepsShape(base: Dn, t: Tree, e: DirectoryEntry, reliable: bool, created: bool, r: Outcome, t': Tree)
    requires WellFormed(base, t) && e.UserEntry?
    requires PasswordOutcome(base, t, e, reliable, created, r, t')
    ensures WellFormed(base, t') && OnlyAt(t, t', e.dn)
    ensures e.dn in t ==> t'[e.dn].attrs == t[e.dn].attrs
    ensures e.dn !in t ==> t' == t
    ensures r.Done? ==> r == Done(created)
    ensures e.dn in t ==> r != Refused(NoSuchObject)
  {
    var hash, code :| PasswordSet(base, t, e, hash, reliable, code, t')
                      && r == if code == Success then Done(created) else Refused(code);
    RespondsKeepsShape(base, t, SetPassword(e.dn, hash), reliable, code, t');
  }

  lemma VerifyKeepsShape(base: Dn, t: Tree, e: DirectoryEntry, reliable: bool, r: Outcome, t': Tree)
    requires WellFormed(base, t) && e.UserEntry?
    requires VerifyOutcome(base, t, e, reliable, r, t')
    ensures WellFormed(base, t') && OnlyAt(t, t', e.dn)
    ensures e.dn in t ==> t'[e.dn].attrs == t[e.dn].attrs
    ensures e.dn !in t ==> t' == t
    ensures r.Done? ==> r == Done(false)
    ensures e.dn in t ==> r != Refused(NoSuchObject)
  {
    if !(!reliable && r == Refused(Unavailable) && t' == t) {
      var code :| BindReplies(t, e.dn, e.password, reliable, code)
                  && match code
                     case Success => r == Done(false) && t' == t
                     case InvalidCredentials => PasswordOutcome(base, t, e, reliable, false, r, t')
                     case _ => r == Refused(code) && t' == t;
      if code == InvalidCredentials {
        PasswordKeepsShape(base, t, e, reliable, false, r, t');
      }
    }
  }

  lemma AddLeaves(base: Dn, t: Tree, e: DirectoryEntry, reliable: bool, code: Code, t1: Tree)
    requires WellFormed(base, t)
    requires Responds(base, t, AddEntry(e.dn, InitialAttributes(e)), reliable, code, t1)
    ensures WellFormed(base, t1) && OnlyAt(t, t1, e.dn)
    ensures e.dn in t ==> t1 == t && code != Success
    ensures e.dn in t1 && e.dn !in t ==> t1[e.dn].attrs == Content(e.dn, InitialAttributes(e))
    ensures code == Success ==> e.dn in t1
    ensures e.dn == base || (e.dn != [] && e.dn[1..] in t) ==> code != NoSuchObject
  {
    RespondsKeepsShape(base, t, AddEntry(e.dn, InitialAttributes(e)), reliable, code, t1);
  }

  /** What a creation leaves behind, however it ends: nothing, or the fresh entry with or without its password. */
  lemma CreateLeaves(base: Dn, t: Tree, e: DirectoryEntry, reliable: bool, r: Outcome, t': Tree)
    requires WellFormed(base, t)
    requires CreateOutcome(base, t, e, reliable, r, t')
    ensures WellFormed(base, t') && OnlyAt(t, t', e.dn)
    ensures e.dn in t ==> t' == t
    ensures e.dn in t' && e.dn !in t ==> t'[e.dn].attrs == Content(e.dn, InitialAttributes(e))
    ensures r.Done? ==> r == Done(true) && e.dn !in t && e.dn in t'
    ensures e.dn == base || (e.dn != [] && e.dn[1..] in t) ==> r != Refused(NoSuchObject)
  {
    var code: Code, t1: Tree :| Responds(base, t, AddEntry(e.dn, InitialAttributes(e)), reliable, code, t1)
                    && if code != Success then r == Refused(code) && t' == t1
                       else if e.UserEntry? && e.password != "" then PasswordOutcome(base, t1, e, reliable, true, r, t')
                       else r == Done(true) && t' == t1;
    AddLeaves(base, t, e, reliable, code, t1);
    if code == Success && e.UserEntry? && e.password != "" {
      PasswordKeepsShape(base, t1, e, reliable, true, r, t');
    }
  }

  /** What an update leaves behind, however it ends: the old attributes or the patched ones. */
  lemma UpdateLeaves(base: Dn, t: Tree, e: DirectoryEntry, found: map<string, seq<string>>, reliable: bool, r: Outcome,
                     t': Tree)
    requires WellFormed(base, t) && e.dn in t
    requires UpdateOutcome(base, t, e, found, reliable, r, t')
    ensures WellFormed(base, t') && OnlyAt(t, t', e.dn)
    ensures || t'[e.dn].attrs == t[e.dn].attrs
            || ApplyChanges(t[e.dn].attrs, Plan(ManagedAttributes(e), found)) == Changed(t'[e.dn].attrs)
    ensures r.Done? ==> r == Done(false)
    ensures r != Refused(NoSuchObject)
  {
    hide VerifyOutcome, Plan, ManagedAttributes, ApplyChanges, WellFormed;
    var changes := Plan(ManagedAttributes(e), found);
    var code: Code, t1: Tree :| ModifyOutcome(base, t, e.dn, changes, reliable, code, t1)
                    && if code != Success then r == Refused(code) && t' == t1
                       else if e.UserEntry? then VerifyOutcome(base, t1, e, reliable, r, t')
                       else r == Done(false) && t' == t1;
    if changes != [] {
      RespondsKeepsShape(base, t, ModifyEntry(e.dn, changes), reliable, code, t1);
    }
    if code == Success && e.UserEntry? {
      VerifyKeepsShape(base, t1, e, reliable, r, t');
    }
  }

  /** The call as the rest of the operator sees it, however it ends. */
  lemma UpsertEffects(base: Dn, t: Tree, e: DirectoryEntry, reliable: bool, r: Outcome, t': Tree)
    requires WellFormed(base, t) && UpsertOutcome(base, t, e, reliable, r, t')
    ensures WellFormed(base, t') && OnlyAt(t, t', e.dn)
    ensures r == Done(true) ==> e.dn !in t && e.dn in t'
    ensures e.dn == base || (e.dn != [] && e.dn[1..] in t) ==> r != Refused(NoSuchObject)
  {
    if Candidates(t, e) == {} && CreateOutcome(base, t, e, reliable, r, t') {
      CreateLeaves(base, t, e, reliable, r, t');
    } else if exists found :: Picked(t, Candidates(t, e), found) && UpdateOutcome(base, t, e, found, reliable, r, t') {
      var found :| Picked(t, Candidates(t, e), found) && UpdateOutcome(base, t, e, found, reliable, r, t');
      UpdateLeaves(base, t, e, found, reliable, r, t');
    }
  }

  /** The changes planned for one attribute from an entry already at its target leave the entry as it is. */
  lemma PatchIsNoop(m: Managed, found: map<string, seq<string>>, attrs: Attributes)
    requires Shows(found, attrs) && Values(attrs, m.attr) == Target(m)
    ensures ApplyChanges(attrs, ChangesFor(m, found)) == Changed(attrs)
  {
    ShownValues(found, attrs, m.attr);
    var cs := ChangesFor(m, found);
    if cs != [] {
      assert cs == [cs[0]];
      SingleChange(attrs, cs[0]);
      SingletonSet(m.desired);
    }
  }

  lemma {:induction false} PlanIsNoop(ms: seq<Managed>, found: map<string, seq<string>>, attrs: Attributes)
    requires Shows(found, attrs) && AllReach(ms, Changed(attrs))
    ensures ApplyChanges(attrs, Plan(ms, found)) == Changed(attrs)
  {
    if ms != [] {
      PatchIsNoop(ms[0], found, attrs);
      PlanIsNoop(ms[1..], found, attrs);
      ApplyChangesOfConcat(attrs, ChangesFor(ms[0], found), Plan(ms[1..], found));
    }
  }

  lemma NoopModify(base: Dn, t: Tree, e: DirectoryEntry, found: map<string, seq<string>>, code: Code, t': Tree)
    requires Manageable(base, t, e) && Picked(t, Candidates(t, e), found) && e.dn in t && Desired(e, t[e.dn])
    requires ModifyOutcome(base, t, e.dn, Plan(ManagedAttributes(e), found), true, code, t')
    ensures code == Success && t' == t
  {
    assert Shows(found, t[e.dn].attrs);
    PlanIsNoop(ManagedAttributes(e), found, t[e.dn].attrs);
    ManageableFits(base, t, e, found);
    ModifyReaches(base, t, e, found);
    assert t[e.dn := t[e.dn].(attrs := t[e.dn].attrs)] == t;
  }

  /** Calling again on an entry that is as desired leaves the tree exactly as it is, password hash included. */
  lemma Idempotent(base: Dn, t: Tree, e: DirectoryEntry, r: Outcome, t': Tree)
    requires Manageable(base, t, e) && e.dn in t && Desired(e, t[e.dn])
    requires UpsertOutcome(base, t, e, true, r, t')
    ensures r == Done(false) && t' == t
  {
    hide VerifyOutcome, Plan, ManagedAttributes, ApplyChanges, WellFormed, ModifyOutcome, Shows, TidyEntry;
    assert e.dn in Candidates(t, e);
    var found :| Picked(t, Candidates(t, e), found) && UpdateOutcome(base, t, e, found, true, r, t');
    var changes := Plan(ManagedAttributes(e), found);
    var code: Code, t1: Tree :| ModifyOutcome(base, t, e.dn, changes, true, code, t1)
                    && if code != Success then r == Refused(code) && t' == t1
                       else if e.UserEntry? then VerifyOutcome(base, t1, e, true, r, t')
                       else r == Done(false) && t' == t1;
    NoopModify(base, t, e, found, code, t1);
    if e.UserEntry? {
      VerifySettles(base, t1, e, r, t');
    }
  }

  /** The second of two calls on an answering server creates nothing and leaves the tree equal. */
  lemma SecondCallChangesNothing(base: Dn, t: Tree, e: DirectoryEntry, r: Outcome, t': Tree, r': Outcome, t'': Tree)
    requires Manageable(base, t, e)
    requires UpsertOutcome(base, t, e, true, r, t') && UpsertOutcome(base, t', e, true, r', t'')
    ensures r' == Done(false) && t'' == t'
  {
    Converges(base, t, e, r, t');
    UpsertEffects(base, t, e, true, r, t');
    SettledIsManageable(base, t, e, t');
    Idempotent(base, t', e, r', t'');
  }

  // ---------------------------------------------------------------- success on a server that may not answer

  lemma SuccessfulOperation(base: Dn, t: Tree, op: Operation, reliable: bool, t': Tree)
    requires Responds(base, t, op, reliable, Success, t')
    ensures Responds(base, t, op, true, Success, t')
  {
  }

  lemma SuccessfulPassword(base: Dn, t: Tree, e: DirectoryEntry, reliable: bool, created: bool, r: Outcome, t': Tree)
    requires e.UserEntry? && PasswordOutcome(base, t, e, reliable, created, r, t') && r.Done?
    ensures PasswordOutcome(base, t, e, true, created, r, t')
  {
    hide Apply, Responds;
    var hash, code :| PasswordSet(base, t, e, hash, reliable, code, t')
                      && r == if code == Success then Done(created) else Refused(code);
    SuccessfulOperation(base, t, SetPassword(e.dn, hash), reliable, t');
    assert PasswordSet(base, t, e, hash, true, Success, t');
  }

  lemma SuccessfulCreation(base: Dn, t: Tree, e: DirectoryEntry, reliable: bool, r: Outcome, t': Tree)
    requires CreateOutcome(base, t, e, reliable, r, t') && r.Done?
    ensures CreateOutcome(base, t, e, true, r, t')
  {
    hide Apply, Responds, PasswordOutcome, InitialAttributes;
    var code: Code, t1: Tree :| Responds(base, t, AddEntry(e.dn, InitialAttributes(e)), reliable, code, t1)
                    && if code != Success then r == Refused(code) && t' == t1
                       else if e.UserEntry? && e.password != "" then PasswordOutcome(base, t1, e, reliable, true, r, t')
                       else r == Done(true) && t' == t1;
    SuccessfulOperation(base, t, AddEntry(e.dn, InitialAttributes(e)), reliable, t1);
    if e.UserEntry? && e.password != "" {
      SuccessfulPassword(base, t1, e, reliable, true, r, t');
    }
  }

  lemma SuccessfulCheck(base: Dn, t: Tree, e: DirectoryEntry, reliable: bool, r: Outcome, t': Tree)
    requires e.UserEntry? && VerifyOutcome(base, t, e, reliable, r, t') && r.Done?
    ensures VerifyOutcome(base, t, e, true, r, t')
  {
    hide PasswordOutcome;
    var code :| BindReplies(t, e.dn, e.password, reliable, code)
                && match code
                   case Success => r == Done(false) && t' == t
                   case InvalidCredentials => PasswordOutcome(base, t, e, reliable, false, r, t')
                   case _ => r == Refused(code) && t' == t;
    assert BindReplies(t, e.dn, e.password, true, code);
    if code == InvalidCredentials {
      SuccessfulPassword(base, t, e, reliable, false, r, t');
    }
  }

  lemma SuccessfulUpdate(base: Dn, t: Tree, e: DirectoryEntry, found: map<string, seq<string>>, reliable: bool,
                         r: Outcome, t': Tree)
    requires UpdateOutcome(base, t, e, found, reliable, r, t') && r.Done?
    ensures UpdateOutcome(base, t, e, found, true, r, t')
  {
    hide Apply, Responds, VerifyOutcome, Plan, ManagedAttributes;
    var changes := Plan(ManagedAttributes(e), found);
    var code: Code, t1: Tree :| ModifyOutcome(base, t, e.dn, changes, reliable, code, t1)
                    && if code != Success then r == Refused(code) && t' == t1
                       else if e.UserEntry? then VerifyOutcome(base, t1, e, reliable, r, t')
                       else r == Done(false) && t' == t1;
    if changes != [] {
      SuccessfulOperation(base, t, ModifyEntry(e.dn, changes), reliable, t1);
    }
    assert ModifyOutcome(base, t, e.dn, changes, true, Success, t1);
    if e.UserEntry? {
      SuccessfulCheck(base, t1, e, reliable, r, t');
    }
  }

  /**
   * Success is never a matter of luck: what a call that succeeds has done and reports, on a server that may lose
   * requests and answers, is what it would on one that answers every call.
   */
  lemma SuccessIsAnswered(base: Dn, t: Tree, e: DirectoryEntry, reliable: bool, r: Outcome, t': Tree)
    requires UpsertOutcome(base, t, e, reliable, r, t') && r.Done?
    ensures UpsertOutcome(base, t, e, true, r, t')
  {
    hide CreateOutcome, UpdateOutcome;
    if Candidates(t, e) == {} && CreateOutcome(base, t, e, reliable, r, t') {
      SuccessfulCreation(base, t, e, reliable, r, t');
    } else {
      var found :| Picked(t, Candidates(t, e), found) && UpdateOutcome(base, t, e, found, reliable, r, t');
      SuccessfulUpdate(base, t, e, found, reliable, r, t');
    }
  }

  // ---------------------------------------------------------------- exactly when a call creates

  /** The entry is missing, its superior is there, and a group has members, each once. */
  predicate Addable(base: Dn, t: Tree, e: DirectoryEntry) {
    && e.dn !in t && (e.dn == base || (e.dn != [] && e.dn[1..] in t))
    && (e.GroupEntry? ==> e.members != [] && Distinct(e.members))
  }

  lemma AddableExactly(base: Dn, t: Tree, e: DirectoryEntry)
    ensures Apply(base, t, AddEntry(e.dn, InitialAttributes(e))).0 == Success <==> Addable(base, t, e)
  {
    var attrs := InitialAttributes(e);
    if e.GroupEntry? {
      assert attrs["member"] == e.members;
    }
    if Addable(base, t, e) {
      forall a | a in attrs ensures attrs[a] != [] && Distinct(attrs[a]) {
      }
    }
  }

  /**
   * A call on an answering server reports a creation exactly when the entry can be added, for every entry and tree;
   * the new entry is then there and nothing else has changed.
   */
  lemma CreatesExactly(base: Dn, t: Tree, e: DirectoryEntry, r: Outcome, t': Tree)
    requires UpsertOutcome(base, t, e, true, r, t')
    ensures r == Done(true) <==> Addable(base, t, e)
    ensures r == Done(true) ==> e.dn in t' && OnlyAt(t, t', e.dn)
  {
    AddableExactly(base, t, e);
    if Candidates(t, e) == {} && CreateOutcome(base, t, e, true, r, t') {
      AddedOrRefused(base, t, e, r, t');
    } else {
      var found :| Picked(t, Candidates(t, e), found) && UpdateOutcome(base, t, e, found, true, r, t');
      UpdateCreatesNothing(base, t, e, found, r, t');
    }
  }

  lemma AddedOrRefused(base: Dn, t: Tree, e: DirectoryEntry, r: Outcome, t': Tree)
    requires CreateOutcome(base, t, e, true, r, t')
    ensures r == Done(true) <==> Apply(base, t, AddEntry(e.dn, InitialAttributes(e))).0 == Success
    ensures r == Done(true) ==> e.dn in t' && OnlyAt(t, t', e.dn)
  {
    hide InitialAttributes, Content, Distinct;
    var code: Code, t1: Tree :| Responds(base, t, AddEntry(e.dn, InitialAttributes(e)), true, code, t1)
                    && if code != Success then r == Refused(code) && t' == t1
                       else if e.UserEntry? && e.password != "" then PasswordOutcome(base, t1, e, true, true, r, t')
                       else r == Done(true) && t' == t1;
    if code == Success && e.UserEntry? && e.password != "" {
      PasswordSettles(base, t1, e, true, r, t');
    }
  }

  lemma UpdateCreatesNothing(base: Dn, t: Tree, e: DirectoryEntry, found: map<string, seq<string>>,
                             r: Outcome, t': Tree)
    requires UpdateOutcome(base, t, e, found, true, r, t')
    ensures r != Done(true)
  {
    hide ModifyOutcome, Plan, ManagedAttributes, BindReplies;
  }

  /** On an answering server every call has an outcome. */
  lemma SomeUpsert(base: Dn, t: Tree, e: DirectoryEntry) returns (r: Outcome, t': Tree)
    ensures UpsertOutcome(base, t, e, true, r, t')
  {
    if Candidates(t, e) == {} {
      r, t' := SomeCreate(base, t, e);
    } else {
      var d :| d in Candidates(t, e);
      var found := Showing(t[d].attrs);
      assert Picked(t, Candidates(t, e), found);
      r, t' := SomeOutcome(base, t, e, found);
    }
  }

  lemma SomeCreate(base: Dn, t: Tree, e: DirectoryEntry) returns (r: Outcome, t': Tree)
    ensures CreateOutcome(base, t, e, true, r, t')
  {
    hide InitialAttributes, Content, Distinct;
    var answer := Apply(base, t, AddEntry(e.dn, InitialAttributes(e)));
    var code, t1 := answer.0, answer.1;
    assert Responds(base, t, AddEntry(e.dn, InitialAttributes(e)), true, code, t1);
    if code == Success && e.UserEntry? && e.password != "" {
      r, t' := SomePassword(base, t1, e, true);
    } else {
      r, t' := if code == Success then Done(true) else Refused(code), t1;
    }
  }

  lemma SomePassword(base: Dn, t: Tree, e: DirectoryEntry, created: bool) returns (r: Outcome, t': Tree)
    requires e.UserEntry?
    ensures PasswordOutcome(base, t, e, true, created, r, t')
  {
    var hash := Hash(0, e.password);
    var answer := Apply(base, t, SetPassword(e.dn, hash));
    t' := answer.1;
    r := if answer.0 == Success then Done(created) else Refused(answer.0);
    assert PasswordSet(base, t, e, hash, true, answer.0, t');
  }

  lemma SomeOutcome(base: Dn, t: Tree, e: DirectoryEntry, found: map<string, seq<string>>)
    returns (r: Outcome, t': Tree)
    ensures UpdateOutcome(base, t, e, found, true, r, t')
  {
    hide Plan, ManagedAttributes, ApplyChanges;
    var changes := Plan(ManagedAttributes(e), found);
    var answer := if changes == [] then (Success, t) else Apply(base, t, ModifyEntry(e.dn, changes));
    var code, t1 := answer.0, answer.1;
    assert ModifyOutcome(base, t, e.dn, changes, true, code, t1);
    if code != Success || !e.UserEntry? {
      r, t' := if code == Success then Done(false) else Refused(code), t1;
    } else {
      r, t' := SomeCheck(base, t1, e);
    }
  }

  lemma SomeCheck(base: Dn, t: Tree, e: DirectoryEntry) returns (r: Outcome, t': Tree)
    requires e.UserEntry?
    ensures VerifyOutcome(base, t, e, true, r, t')
  {
    if BindReplies(t, e.dn, e.password, true, InvalidCredentials) {
      r, t' := SomePassword(base, t, e, false);
    } else {
      assert BindReplies(t, e.dn, e.password, true, Success);
      r, t' := Done(false), t;
    }
  }

  // ---------------------------------------------------------------- exactly when an update converges

  /** A run of the password check. */
  lemma SomeVerify(base: Dn, t: Tree, e: DirectoryEntry) returns (t': Tree)
    requires e.UserEntry? && e.password != "" && e.dn in t
    ensures VerifyOutcome(base, t, e, true, Done(false), t')
    ensures e.dn in t' && t'[e.dn].attrs == t[e.dn].attrs
  {
    if t[e.dn].password.Some? && Verifies(t[e.dn].password.value, e.password) {
      t' := t;
      assert BindReplies(t, e.dn, e.password, true, Success);
    } else {
      var hash := Hash(0, e.password);
      t' := t[e.dn := t[e.dn].(password := Some(hash))];
      assert PasswordSet(base, t, e, hash, true, Success, t');
      assert BindReplies(t, e.dn, e.password, true, InvalidCredentials);
    }
  }

  lemma SomeModify(base: Dn, t: Tree, dn: Dn, changes: seq<Change>) returns (code: Code, t1: Tree)
    requires dn in t
    ensures ModifyOutcome(base, t, dn, changes, true, code, t1)
    ensures code == Success ==> dn in t1 && ApplyChanges(t[dn].attrs, changes) == Changed(t1[dn].attrs)
  {
    if changes == [] {
      code, t1 := Success, t;
    } else {
      var answer := Apply(base, t, ModifyEntry(dn, changes));
      code, t1 := answer.0, answer.1;
    }
  }

  /** A run of the update from any search result the server may show, on a reliable server. */
  lemma SomeUpdate(base: Dn, t: Tree, e: DirectoryEntry, found: map<string, seq<string>>)
    returns (r: Outcome, t': Tree)
    requires Updatable(base, t, e) && Picked(t, Candidates(t, e), found)
    ensures UpsertOutcome(base, t, e, true, r, t')
    ensures r.Done? ==> e.dn in t'
                        && ApplyChanges(t[e.dn].attrs, Plan(ManagedAttributes(e), found)) == Changed(t'[e.dn].attrs)
  {
    var code, t1 := SomeModify(base, t, e.dn, Plan(ManagedAttributes(e), found));
    r, t' := if code == Success then Done(false) else Refused(code), t1;
    if code == Success && e.UserEntry? {
      t' := SomeVerify(base, t1, e);
      assert UpdateOutcome(base, t, e, found, true, r, t');
    } else {
      UpdateEnds(base, t, e, found, true, code, t1);
    }
  }

  lemma AlwaysSettledFits(base: Dn, t: Tree, e: DirectoryEntry, found: map<string, seq<string>>)
    requires Updatable(base, t, e) && Picked(t, Candidates(t, e), found)
    requires forall r, t' :: UpsertOutcome(base, t, e, true, r, t') ==> r == Done(false) && Settled(t, t', e)
    ensures AllFit(ManagedAttributes(e), found, t[e.dn].attrs)
  {
    hide UpsertOutcome, Picked, Candidates, WellFormed;
    var r, t' := SomeUpdate(base, t, e, found);
    ManagedDistinct(e);
    PlanExactly(ManagedAttributes(e), found, t[e.dn].attrs);
  }

  /**
   * Because the search covers the whole subtree, the entry compared may be a namesake below the one modified. Every
   * outcome of the update is right exactly when each candidate, in whatever order its values come, yields a plan that
   * fits the entry itself.
   */
  lemma UpdateConvergesExactly(base: Dn, t: Tree, e: DirectoryEntry)
    requires Updatable(base, t, e)
    ensures (forall r, t' :: UpsertOutcome(base, t, e, true, r, t') ==> r == Done(false) && Settled(t, t', e))
            <==> (forall found :: Picked(t, Candidates(t, e), found) ==>
                                    AllFit(ManagedAttributes(e), found, t[e.dn].attrs))
  {
    assert e.dn in Candidates(t, e);
    if forall found :: Picked(t, Candidates(t, e), found) ==> AllFit(ManagedAttributes(e), found, t[e.dn].attrs) {
      forall r, t' | UpsertOutcome(base, t, e, true, r, t') ensures r == Done(false) && Settled(t, t', e) {
        var found :| Picked(t, Candidates(t, e), found) && UpdateOutcome(base, t, e, found, true, r, t');
        UpdateConverges(base, t, e, found, r, t');
      }
    }
    if forall r, t' :: UpsertOutcome(base, t, e, true, r, t') ==> r == Done(false) && Settled(t, t', e) {
      forall found | Picked(t, Candidates(t, e), found) ensures AllFit(ManagedAttributes(e), found, t[e.dn].attrs) {
        AlwaysSettledFits(base, t, e, found);
      }
    }
  }

  const EXAMPLE_BASE: Dn := [Rdn("dc", "example")]
  const EXAMPLE_DN: Dn := [Rdn("ou", "a")] + EXAMPLE_BASE
  const NAMESAKE_DN: Dn := [Rdn("ou", "a")] + EXAMPLE_DN
  const NAMESAKE: Attributes := map["objectClass" := {"organizationalUnit"}, "ou" := {"a"}]
  const NAMESAKE_SHOWN: map<string, seq<string>> := map["objectClass" := ["organizationalUnit"], "ou" := ["a"]]

  /** An organizational unit with a description, and below it one of the same name without. */
  const NAMESAKE_TREE: Tree := map[
    EXAMPLE_BASE := Entry(map["dc" := {"example"}], None),
    EXAMPLE_DN := Entry(NAMESAKE["description" := {"old"}], None),
    NAMESAKE_DN := Entry(NAMESAKE, None)
  ]

  lemma NamesakeTreeShape()
    ensures WellFormed(EXAMPLE_BASE, NAMESAKE_TREE)
    ensures Picked(NAMESAKE_TREE, Candidates(NAMESAKE_TREE, OrganizationalUnitEntry(EXAMPLE_DN, "a", "new")),
                   NAMESAKE_SHOWN)
  {
    var t := NAMESAKE_TREE;
    assert NAMESAKE_DN[1..] == EXAMPLE_DN && EXAMPLE_DN[1..] == EXAMPLE_BASE;
    forall d | d in t ensures Anchored(EXAMPLE_BASE, t, d) && Titled(t, d) {}
    SingletonSet("organizationalUnit");
    SingletonSet("a");
    assert Shows(NAMESAKE_SHOWN, NAMESAKE);
    assert NAMESAKE_DN in Candidates(t, OrganizationalUnitEntry(EXAMPLE_DN, "a", "new"));
  }

  /** The entry before the update, and the one change planned from the namesake. */
  lemma NamesakePlan()
    ensures Plan([Optional("description", "new")], NAMESAKE_SHOWN) == [AddValues("description", ["new"])]
    ensures ApplyChanges(NAMESAKE["description" := {"old"}], [AddValues("description", ["new"])])
            == Changed(NAMESAKE["description" := {"old", "new"}])
  {
    var m := Optional("description", "new");
    var add := AddValues("description", ["new"]);
    assert FirstValue(NAMESAKE_SHOWN, "description") == "";
    assert [m][1..] == [];
    assert Plan([m], NAMESAKE_SHOWN) == [add] + Plan([], NAMESAKE_SHOWN);
    var attrs := NAMESAKE["description" := {"old"}];
    SingleChange(attrs, add);
    SingletonSet("new");
    assert Values(attrs, "description") == {"old"} && "old" != "new";
    assert {"new"} * {"old"} == {} && {"old"} + {"new"} == {"old", "new"};
    assert attrs["description" := {"old", "new"}] == NAMESAKE["description" := {"old", "new"}];
  }

  /** A namesake below: the update may report success and leave two descriptions behind. */
  lemma NamesakeSpoilsUpdate() returns (t': Tree)
    ensures UpsertOutcome(EXAMPLE_BASE, NAMESAKE_TREE, OrganizationalUnitEntry(EXAMPLE_DN, "a", "new"), true,
                          Done(false), t')
    ensures EXAMPLE_DN in t' && Values(t'[EXAMPLE_DN].attrs, "description") == {"old", "new"}
  {
    var t, e := NAMESAKE_TREE, OrganizationalUnitEntry(EXAMPLE_DN, "a", "new");
    NamesakeTreeShape();
    NamesakePlan();
    var spoiled := NAMESAKE["description" := {"old", "new"}];
    t' := t[EXAMPLE_DN := Entry(spoiled, None)];
    var changes := [AddValues("description", ["new"])];
    assert Plan(ManagedAttributes(e), NAMESAKE_SHOWN) == changes;
    assert t[EXAMPLE_DN] == Entry(NAMESAKE["description" := {"old"}], None);
    assert Apply(EXAMPLE_BASE, t, ModifyEntry(EXAMPLE_DN, changes)) == (Success, t');
    assert ModifyOutcome(EXAMPLE_BASE, t, e.dn, changes, true, Success, t');
    UpdateEnds(EXAMPLE_BASE, t, e, NAMESAKE_SHOWN, true, Success, t');
  }

  // ---------------------------------------------------------------- crash recovery

  /** However a call fails, and wherever, the next one can manage what it left. */
  lemma FailureLeavesManageable(base: Dn, t: Tree, e: DirectoryEntry, r: Outcome, t': Tree)
    requires Manageable(base, t, e) && UpsertOutcome(base, t, e, false, r, t')
    ensures Manageable(base, t', e)
    ensures OnlyAt(t, t', e.dn)
  {
    UpsertEffects(base, t, e, false, r, t');
    NoNewRivals(base, t, t', e);
    if e.dn !in t {
      FreshContent(e);
      if CreateOutcome(base, t, e, false, r, t') {
        CreateLeaves(base, t, e, false, r, t');
      }
      if e.dn in t' {
        ReachedIsTidy(e, t'[e.dn].attrs);
      }
    } else if t'[e.dn].attrs != t[e.dn].attrs {
      var found :| Picked(t, Candidates(t, e), found) && UpdateOutcome(base, t, e, found, false, r, t');
      UpdateLeaves(base, t, e, found, false, r, t');
      ManageableFits(base, t, e, found);
      ModifyReaches(base, t, e, found);
      ReachedIsTidy(e, t'[e.dn].attrs);
    }
  }

  /**
   * Crash recovery: after a call that broke off at any point, one call on a reliable server ends with the entry as
   * desired, a password that verifies included, and touches no other entry.
   */
  lemma RecoversFromFailure(base: Dn, t: Tree, e: DirectoryEntry, r: Outcome, t': Tree, r': Outcome, t'': Tree)
    requires Manageable(base, t, e)
    requires UpsertOutcome(base, t, e, false, r, t')
    requires UpsertOutcome(base, t', e, true, r', t'')
    ensures r' == Done(e.dn !in t')
    ensures e.dn in t'' && Desired(e, t''[e.dn]) && OnlyAt(t, t'', e.dn)
  {
    FailureLeavesManageable(base, t, e, r, t');
    Converges(base, t', e, r', t'');
  }
}
