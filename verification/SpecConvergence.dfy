// What an object's spec comes to in the directory, spelled out attribute by attribute: classes, names, values and the
// password as they must stand there, without the client's own filters, plans and mappers.
module SpecConvergence {
  import opened Common
  import opened DistinguishedNames
  import opened Dit
  import opened LdapClient
  import opened Convergence
  import opened Mapper

  // ---------------------------------------------------------------- what an entry should hold

  /** The entry has the class of such an object, and its name. */
  predicate Bears(attrs: Attributes, d: Details) {
    match d
    case OrganizationalUnitDetails(name, _) =>
      "organizationalUnit" in Values(attrs, "objectClass") && name in Values(attrs, "ou")
    case GroupDetails(name, _, _) =>
      "groupOfNames" in Values(attrs, "objectClass") && name in Values(attrs, "cn")
    case UserDetails(username, _, _, _, _) =>
      "inetOrgPerson" in Values(attrs, "objectClass") && username in Values(attrs, "uid")
  }

  function OwnRdn(d: Details): Rdn {
    match d
    case OrganizationalUnitDetails(name, _) => Rdn("ou", name)
    case GroupDetails(name, _, _) => Rdn("cn", name)
    case UserDetails(username, _, _, _, _) => Rdn("uid", username)
  }

  /** An optional value: absent when empty. */
  predicate HoldsAtMost(attrs: Attributes, attr: string, v: string) {
    Values(attrs, attr) == if v == "" then {} else {v}
  }

  /** The entry says what the spec says. */
  predicate Says(attrs: Attributes, d: Details) {
    && Bears(attrs, d)
    && match d
       case OrganizationalUnitDetails(_, description) => HoldsAtMost(attrs, "description", description)
       case GroupDetails(_, description, members) =>
         HoldsAtMost(attrs, "description", description) && Values(attrs, "member") == ToSet(members)
       case UserDetails(_, fullName, surname, email, _) =>
         Values(attrs, "cn") == {fullName} && Values(attrs, "sn") == {surname} && HoldsAtMost(attrs, "mail", email)
  }

  /** The attributes that the spec decides on. */
  function Decided(d: Details): set<string> {
    match d
    case OrganizationalUnitDetails(_, _) => {"description"}
    case GroupDetails(_, _, _) => {"description", "member"}
    case UserDetails(_, _, _, _, _) => {"cn", "sn", "mail"}
  }

  function MaybeWith(attrs: Attributes, attr: string, v: string): Attributes {
    if v == "" then attrs else attrs[attr := {v}]
  }

  /** All that a new entry holds. */
  function Fresh(d: Details): Attributes {
    match d
    case OrganizationalUnitDetails(name, description) =>
      MaybeWith(map["objectClass" := {"top", "organizationalUnit"}, "ou" := {name}], "description", description)
    case GroupDetails(name, description, members) =>
      MaybeWith(map["objectClass" := {"top", "groupOfNames"}, "cn" := {name}, "member" := ToSet(members)],
                "description", description)
    case UserDetails(username, fullName, surname, email, _) =>
      MaybeWith(map["objectClass" := {"top", "person", "organizationalPerson", "inetOrgPerson"},
                    "uid" := {username}, "cn" := {fullName}, "sn" := {surname}], "mail", email)
  }

  // ---------------------------------------------------------------- where a call can be made

  /** Nothing stored makes the outcome depend on the order in which values come back. */
  predicate Orderly(attrs: Attributes, d: Details) {
    match d
    case OrganizationalUnitDetails(_, _) => "" !in Values(attrs, "description")
    case GroupDetails(_, _, _) => "" !in Values(attrs, "description")
    case UserDetails(_, fullName, surname, _, _) =>
      OneOrOther(attrs, "cn", fullName) && OneOrOther(attrs, "sn", surname) && "" !in Values(attrs, "mail")
  }

  /** The value is the only one, or none of several. */
  predicate OneOrOther(attrs: Attributes, attr: string, v: string) {
    && (Values(attrs, attr) == {} ==> v != "")
    && (v in Values(attrs, attr) ==> Values(attrs, attr) == {v})
  }

  /**
   * The DN carries the object's own name, nothing strictly below it has the object's class and name, and the entry is
   * the object's own, or is missing below a superior that is there.
   */
  ghost predicate Clear(base: Dn, t: Tree, dn: Dn, d: Details) {
    && WellFormed(base, t) && dn != [] && dn[0] == OwnRdn(d)
    && (d.GroupDetails? ==> d.members != [] && Distinct(d.members))
    && (forall x :: x in t && x != dn && Under(x, dn) ==> !Bears(t[x].attrs, d))
    && if dn in t then Bears(t[dn].attrs, d) && Orderly(t[dn].attrs, d) else dn == base || dn[1..] in t
  }

  /** For a user: the password secret is named, exists and is not empty. */
  predicate PasswordGiven(secrets: Secrets, d: Details) {
    d.UserDetails? ==>
      d.passwordSecretRef.Some? && d.passwordSecretRef.value in secrets && secrets[d.passwordSecretRef.value] != ""
  }

  lemma ClearIsManageable(base: Dn, t: Tree, dn: Dn, secrets: Secrets, d: Details)
    requires Clear(base, t, dn, d) && PasswordGiven(secrets, d)
    ensures MapToEntry(secrets, dn, d).Some? && Manageable(base, t, MapToEntry(secrets, dn, d).value)
  {
    hide WellFormed;
    var e := MapToEntry(secrets, dn, d).value;
    NoRivals(base, t, dn, e, d);
    if dn in t {
      OrderlyIsTidy(e, t[dn].attrs, d);
    }
  }

  lemma NoRivals(base: Dn, t: Tree, dn: Dn, e: DirectoryEntry, d: Details)
    requires Clear(base, t, dn, d) && e.dn == dn && e.Kind() == d.Kind() && e.name == d.Name()
    ensures Candidates(t, e) <= {dn}
    ensures dn in t ==> Matches(t[dn].attrs, FilterFor(e))
  {
    forall x | x in Candidates(t, e) ensures x == dn {
      assert Bears(t[x].attrs, d);
    }
  }

  /** The entry is mapped from these details. */
  predicate MadeFrom(e: DirectoryEntry, d: Details) {
    match d
    case OrganizationalUnitDetails(name, description) => e == OrganizationalUnitEntry(e.dn, name, description)
    case GroupDetails(name, description, members) => e == GroupEntry(e.dn, name, description, members)
    case UserDetails(username, fullName, surname, email, _) =>
      e.UserEntry? && e == UserEntry(e.dn, username, fullName, surname, email, e.password)
  }

  lemma OrderlyIsTidy(e: DirectoryEntry, attrs: Attributes, d: Details)
    requires MadeFrom(e, d) && Orderly(attrs, d) && (d.GroupDetails? ==> Distinct(d.members))
    ensures TidyEntry(e, attrs)
  {
  }

  lemma DesiredSays(e: DirectoryEntry, d: Details, attrs: Attributes)
    requires MadeFrom(e, d) && Matches(attrs, FilterFor(e)) && AllReach(ManagedAttributes(e), Changed(attrs))
    ensures Says(attrs, d)
  {
    var ms := ManagedAttributes(e);
    assert forall i :: 0 <= i < |ms| ==> Values(attrs, ms[i].attr) == Target(ms[i]);
    match e
    case OrganizationalUnitEntry(_, _, description) =>
      assert ms[0] == Optional("description", description);
    case GroupEntry(_, _, description, members) =>
      assert ms[0] == Optional("description", description) && ms[1] == Members("member", members);
    case UserEntry(_, _, fullName, surname, email, _) =>
      assert ms[0] == Required("cn", fullName) && ms[1] == Required("sn", surname) && ms[2] == Optional("mail", email);
  }

  lemma DecidedAreManaged(e: DirectoryEntry, d: Details, a: string)
    requires MadeFrom(e, d) && a !in Decided(d)
    ensures !IsManaged(ManagedAttributes(e), a)
  {
  }

  /** An Add whose attributes include the one in the DN stores them as they are. */
  lemma NamedContent(dn: Dn, attrs: map<string, seq<string>>)
    requires dn != [] && dn[0].attr in attrs && attrs[dn[0].attr] == [dn[0].value]
    ensures Content(dn, attrs) == map a | a in attrs :: ToSet(attrs[a])
  {
    SingletonSet(dn[0].value);
    var listed: Attributes := map a | a in attrs :: ToSet(attrs[a]);
    assert Values(listed, dn[0].attr) + {dn[0].value} == {dn[0].value};
    assert listed[dn[0].attr := {dn[0].value}] == listed;
  }

  lemma FreshIsContent(e: DirectoryEntry, d: Details)
    requires MadeFrom(e, d) && e.dn != [] && e.dn[0] == OwnRdn(d)
    ensures Content(e.dn, InitialAttributes(e)) == Fresh(d)
  {
    hide Content;
    NamedContent(e.dn, InitialAttributes(e));
    match d
    case OrganizationalUnitDetails(_, _) => FreshUnit(e, d);
    case GroupDetails(_, _, _) => FreshGroup(e, d);
    case UserDetails(_, _, _, _, _) => FreshUser(e, d);
  }

  lemma FreshUnit(e: DirectoryEntry, d: Details)
    requires MadeFrom(e, d) && d.OrganizationalUnitDetails?
    ensures (map a | a in InitialAttributes(e) :: ToSet(InitialAttributes(e)[a])) == Fresh(d)
  {
    SingletonSet(d.name);
    SingletonSet(d.description);
    assert ToSet(Classes(OrganizationalUnit)) == {"top", "organizationalUnit"};
  }

  lemma FreshGroup(e: DirectoryEntry, d: Details)
    requires MadeFrom(e, d) && d.GroupDetails?
    ensures (map a | a in InitialAttributes(e) :: ToSet(InitialAttributes(e)[a])) == Fresh(d)
  {
    SingletonSet(d.name);
    SingletonSet(d.description);
    assert ToSet(Classes(Group)) == {"top", "groupOfNames"};
  }

  lemma FreshUser(e: DirectoryEntry, d: Details)
    requires MadeFrom(e, d) && d.UserDetails?
    ensures (map a | a in InitialAttributes(e) :: ToSet(InitialAttributes(e)[a])) == Fresh(d)
  {
    SingletonSet(d.username);
    SingletonSet(d.fullName);
    SingletonSet(d.surname);
    SingletonSet(d.email);
    assert ToSet(Classes(User)) == {"top", "person", "organizationalPerson", "inetOrgPerson"};
  }

  // ---------------------------------------------------------------- the spec arrives

  /** Only dn's entry has changed, and it is there. */
  predicate OnlyThere(t: Tree, t': Tree, dn: Dn) {
    t'.Keys == t.Keys + {dn} && forall x :: x in t && x != dn ==> t'[x] == t[x]
  }

  /**
   * A create-or-update of an object's entry that is answered, or that succeeds all the same, says truthfully whether it
   * is new, and leaves an entry that says what the spec says: a new one that and nothing else, an old one with all its
   * other attributes as they were. A user's password is the content of the secret.
   */
  lemma SpecArrives(base: Dn, secrets: Secrets, dn: Dn, d: Details, t: Tree, reliable: bool, r: Outcome, t': Tree)
    requires Clear(base, t, dn, d) && PasswordGiven(secrets, d) && MapToEntry(secrets, dn, d).Some?
    requires UpsertOutcome(base, t, MapToEntry(secrets, dn, d).value, reliable, r, t') && (reliable || r.Done?)
    ensures r == Done(dn !in t) && OnlyThere(t, t', dn) && Says(t'[dn].attrs, d)
    ensures dn !in t ==> t'[dn].attrs == Fresh(d)
    ensures dn in t ==> forall a :: a !in Decided(d) ==> Values(t'[dn].attrs, a) == Values(t[dn].attrs, a)
    ensures d.UserDetails? ==>
              t'[dn].password.Some? && Verifies(t'[dn].password.value, secrets[d.passwordSecretRef.value])
    ensures !d.UserDetails? ==> t'[dn].password == if dn in t then t[dn].password else None
  {
    hide WellFormed, TidyEntry, Candidates, AllReach, Bears, Orderly, InitialAttributes, Content, UpsertOutcome;
    var e := MapToEntry(secrets, dn, d).value;
    ClearIsManageable(base, t, dn, secrets, d);
    if !reliable {
      SuccessIsAnswered(base, t, e, reliable, r, t');
    }
    Converges(base, t, e, r, t');
    DesiredSays(e, d, t'[dn].attrs);
    if dn in t {
      forall a | a !in Decided(d) ensures Values(t'[dn].attrs, a) == Values(t[dn].attrs, a) {
        DecidedAreManaged(e, d, a);
      }
    } else {
      FreshIsContent(e, d);
      if !d.UserDetails? {
        NewWithoutPassword(base, t, e, r, t');
      }
    }
  }

  /** A new entry that is not a user's, or a user's without a password, is added without one. */
  lemma NewWithoutPassword(base: Dn, t: Tree, e: DirectoryEntry, r: Outcome, t': Tree)
    requires Addable(base, t, e) && (e.UserEntry? ==> e.password == "")
    requires UpsertOutcome(base, t, e, true, r, t')
    ensures r == Done(true) && t' == t[e.dn := Entry(Content(e.dn, InitialAttributes(e)), None)]
  {
    hide InitialAttributes, Content, Distinct;
    AddableExactly(base, t, e);
    assert Candidates(t, e) == {};
  }

  /** A new user whose spec names no password, or an empty one, has none. */
  lemma NoPasswordGiven(base: Dn, secrets: Secrets, dn: Dn, d: Details, t: Tree, r: Outcome, t': Tree)
    requires d.UserDetails? && dn !in t && dn != [] && dn[0] == OwnRdn(d) && (dn == base || dn[1..] in t)
    requires match d.passwordSecretRef case None => true case Some(ref) => ref in secrets && secrets[ref] == ""
    requires MapToEntry(secrets, dn, d).Some?
    requires UpsertOutcome(base, t, MapToEntry(secrets, dn, d).value, true, r, t')
    ensures r == Done(true) && t' == t[dn := Entry(Fresh(d), None)]
  {
    hide InitialAttributes, Content, UpsertOutcome;
    var e := MapToEntry(secrets, dn, d).value;
    NewWithoutPassword(base, t, e, r, t');
    FreshIsContent(e, d);
  }

  const STAFF_DN: Dn := [Rdn("ou", "b")] + EXAMPLE_DN

  /** A unit with a description, and below it one of another name without. */
  const STAFF_TREE: Tree := map[
    EXAMPLE_BASE := Entry(map["dc" := {"example"}], None),
    EXAMPLE_DN := Entry(NAMESAKE["description" := {"old"}], None),
    STAFF_DN := Entry(map["objectClass" := {"organizationalUnit"}, "ou" := {"b"}], None)
  ]

  lemma StaffIsClear()
    ensures Clear(EXAMPLE_BASE, STAFF_TREE, EXAMPLE_DN, OrganizationalUnitDetails("a", "new"))
  {
    var t := STAFF_TREE;
    assert STAFF_DN[1..] == EXAMPLE_DN && EXAMPLE_DN[1..] == EXAMPLE_BASE;
    assert STAFF_DN != EXAMPLE_DN;
    forall d | d in t ensures Anchored(EXAMPLE_BASE, t, d) && Titled(t, d) {}
    assert !Under(EXAMPLE_BASE, EXAMPLE_DN);
  }

  /** Where `Convergence.NamesakeSpoilsUpdate` leaves two descriptions, a unit of another name below does no harm. */
  lemma OtherNameIsNoRival(r: Outcome, t': Tree)
    requires UpsertOutcome(EXAMPLE_BASE, STAFF_TREE, OrganizationalUnitEntry(EXAMPLE_DN, "a", "new"), true, r, t')
    ensures r == Done(false) && EXAMPLE_DN in t' && Values(t'[EXAMPLE_DN].attrs, "description") == {"new"}
  {
    hide Clear, UpsertOutcome;
    StaffIsClear();
    SpecArrives(EXAMPLE_BASE, map[], EXAMPLE_DN, OrganizationalUnitDetails("a", "new"), STAFF_TREE, true, r, t');
  }

  // ---------------------------------------------------------------- reading

  /** The entry at dn is of the class. */
  predicate IsOf(t: Tree, dn: Dn, class_: string) {
    dn in t && class_ in Values(t[dn].attrs, "objectClass")
  }

  /** The entry at dn is the only one of the class at or below dn. */
  predicate AloneOf(t: Tree, dn: Dn, class_: string) {
    IsOf(t, dn, class_) && forall x :: x in t && x != dn && Under(x, dn) ==> !IsOf(t, x, class_)
  }

  /** Every answered read returns dn's entry. */
  ghost predicate AlwaysRead(t: Tree, k: Kind, dn: Dn) {
    forall r :: ReadReplies(t, k, dn, true, r) ==> r.Read? && r.entry.dn == dn && r.entry.Kind() == k
  }

  /**
   * A unit is read whatever lies below it, if it is one; a group or a user only if nothing below it is of its class.
   */
  lemma ReadsSpelledOut(t: Tree, dn: Dn)
    ensures AlwaysRead(t, OrganizationalUnit, dn) <==> IsOf(t, dn, "organizationalUnit")
    ensures AlwaysRead(t, Group, dn) <==> AloneOf(t, dn, "groupOfNames")
    ensures AlwaysRead(t, User, dn) <==> AloneOf(t, dn, "inetOrgPerson")
  {
    ReadsOf(t, OrganizationalUnit, dn);
    ReadsOf(t, Group, dn);
    ReadsOf(t, User, dn);
    assert OfKind(t, OrganizationalUnit, dn) == {dn} <==> IsOf(t, dn, "organizationalUnit");
    assert OfKind(t, Group, dn) == {dn} <==> AloneOf(t, dn, "groupOfNames") by {
      OnlyOne(t, Group, dn, "groupOfNames");
    }
    assert OfKind(t, User, dn) == {dn} <==> AloneOf(t, dn, "inetOrgPerson") by {
      OnlyOne(t, User, dn, "inetOrgPerson");
    }
  }

  lemma ReadsOf(t: Tree, k: Kind, dn: Dn)
    ensures AlwaysRead(t, k, dn) <==> OfKind(t, k, dn) == {dn}
  {
    ReadsItselfExactly(t, k, dn);
    forall r | ReadReplies(t, k, dn, true, r) && r.Read? ensures r.entry.Kind() == k {
    }
  }

  lemma OnlyOne(t: Tree, k: Kind, dn: Dn, class_: string)
    requires !k.OrganizationalUnit? && class_ == ObjectClass(k)
    ensures OfKind(t, k, dn) == {dn} <==> AloneOf(t, dn, class_)
  {
    var hits := OfKind(t, k, dn);
    if AloneOf(t, dn, class_) {
      assert dn in hits;
      forall x | x in hits ensures x == dn {
      }
    }
    if hits == {dn} {
      assert dn in hits;
      forall x | x in t && x != dn && Under(x, dn) ensures !IsOf(t, x, class_) {
        assert x !in hits;
      }
    }
  }
}
