// From an object's spec to the directory entry it stands for, and back by reading the directory.
module Mapper {
  import opened Common
  import opened DistinguishedNames
  import opened Dit
  import opened LdapClient
  import opened Convergence

  /** The part of an object's spec that its entry is made from. A missing password reference means no password. */
  datatype Details =
    | OrganizationalUnitDetails(name: string, description: string)
    | GroupDetails(name: string, description: string, members: seq<string>)
    | UserDetails(username: string, fullName: string, surname: string, email: string, passwordSecretRef: Option<string>)
  {
    function Kind(): Kind {
      match this
      case OrganizationalUnitDetails(_, _) => OrganizationalUnit
      case GroupDetails(_, _, _) => Group
      case UserDetails(_, _, _, _, _) => User
    }

    function Name(): string {
      match this
      case OrganizationalUnitDetails(name, _) => name
      case GroupDetails(name, _, _) => name
      case UserDetails(username, _, _, _, _) => username
    }
  }

  /** A secret by its name, as the value under its "password" key. */
  type Secrets = map<string, string>

  function OrganizationalUnitToEntry(dn: Dn, d: Details): DirectoryEntry
    requires d.OrganizationalUnitDetails?
  {
    OrganizationalUnitEntry(dn, d.name, d.description)
  }

  function GroupToEntry(dn: Dn, d: Details): DirectoryEntry
    requires d.GroupDetails?
  {
    GroupEntry(dn, d.name, d.description, d.members)
  }

  /** None when the password secret is missing. */
  function UserToEntry(secrets: Secrets, dn: Dn, d: Details): Option<DirectoryEntry>
    requires d.UserDetails?
  {
    match d.passwordSecretRef
    case None => Some(UserEntry(dn, d.username, d.fullName, d.surname, d.email, ""))
    case Some(ref) =>
      if ref !in secrets then None
      else Some(UserEntry(dn, d.username, d.fullName, d.surname, d.email, secrets[ref]))
  }

  function MapToEntry(secrets: Secrets, dn: Dn, d: Details): Option<DirectoryEntry> {
    match d
    case OrganizationalUnitDetails(_, _) => Some(OrganizationalUnitToEntry(dn, d))
    case GroupDetails(_, _, _) => Some(GroupToEntry(dn, d))
    case UserDetails(_, _, _, _, _) => UserToEntry(secrets, dn, d)
  }

  /** The entry read is the one written: members as a set, and without the password. */
  predicate SaysTheSame(read: DirectoryEntry, d: Details, dn: Dn) {
    && read.Kind() == d.Kind()
    && read.dn == dn
    && read.name == d.Name()
    && match d
       case OrganizationalUnitDetails(_, description) => read.description == description
       case GroupDetails(_, description, members) =>
         read.description == description && ToSet(read.members) == ToSet(members)
       case UserDetails(_, fullName, surname, email, _) =>
         read.fullName == fullName && read.surname == surname && read.email == email
  }

  /** Entries of a kind at or below dn. */
  function OfKind(t: Tree, k: Kind, dn: Dn): set<Dn> {
    Hits(t, dn, ReadScope(k), OfClass(ObjectClass(k)))
  }

  /**
   * A read returns dn's entry in every case exactly when that is the one entry of the class it covers, and it cannot
   * index an empty result exactly when dn is missing or something of the class is covered.
   */
  lemma ReadsItselfExactly(t: Tree, k: Kind, dn: Dn)
    ensures (forall r :: ReadReplies(t, k, dn, true, r) ==> r.Read? && r.entry.dn == dn) <==> OfKind(t, k, dn) == {dn}
    ensures (forall r :: ReadReplies(t, k, dn, true, r) ==> !r.ReadPanics?) <==> dn !in t || OfKind(t, k, dn) != {}
  {
    var hits := OfKind(t, k, dn);
    if dn !in t {
      assert ReadReplies(t, k, dn, true, ReadFailed(NoSuchObject));
    } else if hits == {} {
      assert ReadReplies(t, k, dn, true, ReadPanics);
    } else if hits != {dn} {
      var other :| other in hits && other != dn;
      ReadsAnother(t, k, dn, other);
    }
  }

  /** With another entry of the class in scope a read may fail, or even return that entry. */
  lemma ReadsAnother(t: Tree, k: Kind, dn: Dn, other: Dn)
    requires dn in t && other in OfKind(t, k, dn) && other != dn
    ensures exists r :: ReadReplies(t, k, dn, true, r) && !(r.Read? && r.entry.dn == dn)
  {
    var hits := OfKind(t, k, dn);
    CardinalityOfSubset({other}, hits);
    if |hits| == 1 {
      var found := Showing(t[other].attrs);
      assert ReadReplies(t, k, dn, true, Read(FromSearch(k, other, found)));
    } else {
      assert ReadReplies(t, k, dn, true, ReadFailed(SizeLimitExceeded));
    }
  }

  /** Reading a unit as a user panics on a server that answers. */
  lemma ReadCanPanic()
    ensures WellFormed(EXAMPLE_BASE, NAMESAKE_TREE) && EXAMPLE_DN in NAMESAKE_TREE
    ensures ReadReplies(NAMESAKE_TREE, User, EXAMPLE_DN, true, ReadPanics)
  {
    hide WellFormed, Shows, FromSearch, Picked, Candidates;
    NamesakeTreeShape();
    assert OfKind(NAMESAKE_TREE, User, EXAMPLE_DN) == {};
  }

  lemma {:induction false} CardinalityOfSubset(a: set<Dn>, b: set<Dn>)
    requires a <= b
    ensures |a| <= |b|
    decreases a
  {
    if a != {} {
      var x :| x in a;
      CardinalityOfSubset(a - {x}, b - {x});
    }
  }

  lemma FirstOfTarget(found: map<string, seq<string>>, attrs: Attributes, attr: string, v: string)
    requires Shows(found, attrs)
    requires Values(attrs, attr) == if v == "" then {} else {v}
    ensures FirstValue(found, attr) == v
  {
    ShownValues(found, attrs, attr);
  }

  lemma FirstOfSingleton(found: map<string, seq<string>>, attrs: Attributes, attr: string, v: string)
    requires Shows(found, attrs) && Values(attrs, attr) == {v}
    ensures FirstValue(found, attr) == v
  {
    ShownValues(found, attrs, attr);
  }

  lemma DesiredReadsBack(d: Details, e: DirectoryEntry, x: Entry, found: map<string, seq<string>>)
    requires e.Kind() == d.Kind() && SaysTheSame(e, d, e.dn)
    requires Desired(e, x) && Values(x.attrs, NamingAttribute(e.Kind())) == {e.name}
    requires Shows(found, x.attrs)
    ensures SaysTheSame(FromSearch(e.Kind(), e.dn, found), d, e.dn)
  {
    FirstOfSingleton(found, x.attrs, NamingAttribute(e.Kind()), e.name);
    var ms := ManagedAttributes(e);
    assert forall i :: 0 <= i < |ms| ==> Values(x.attrs, ms[i].attr) == Target(ms[i]);
    match e
    case OrganizationalUnitEntry(_, _, description) =>
      assert ms[0] == Optional("description", description);
      FirstOfTarget(found, x.attrs, "description", description);
    case GroupEntry(_, _, description, members) =>
      assert ms[0] == Optional("description", description) && ms[1] == Members("member", members);
      FirstOfTarget(found, x.attrs, "description", description);
      ShownValues(found, x.attrs, "member");
    case UserEntry(_, _, fullName, surname, email, _) =>
      assert ms[0] == Required("cn", fullName) && ms[1] == Required("sn", surname) && ms[2] == Optional("mail", email);
      FirstOfSingleton(found, x.attrs, "cn", fullName);
      FirstOfSingleton(found, x.attrs, "sn", surname);
      FirstOfTarget(found, x.attrs, "mail", email);
  }

  lemma OnlyHitIsRead(t: Tree, k: Kind, dn: Dn, read: ReadOutcome) returns (found: map<string, seq<string>>)
    requires dn in t && OfKind(t, k, dn) == {dn} && ReadReplies(t, k, dn, true, read)
    ensures Shows(found, t[dn].attrs) && read == Read(FromSearch(k, dn, found))
  {
    var x, shown :| x in OfKind(t, k, dn) && x in t && Shows(shown, t[x].attrs) && read == Read(FromSearch(k, x, shown));
    found := shown;
  }

  lemma SettledNaming(base: Dn, t: Tree, t': Tree, e: DirectoryEntry)
    requires Manageable(base, t, e) && Settled(t, t', e)
    requires e.dn in t ==> Values(t[e.dn].attrs, NamingAttribute(e.Kind())) == {e.name}
    ensures Values(t'[e.dn].attrs, NamingAttribute(e.Kind())) == {e.name}
    ensures e.dn in OfKind(t', e.Kind(), e.dn)
  {
    ManagedDistinct(e);
    FreshContent(e);
  }

  lemma MappedSaysTheSame(secrets: Secrets, dn: Dn, d: Details)
    requires MapToEntry(secrets, dn, d).Some?
    ensures SaysTheSame(MapToEntry(secrets, dn, d).value, d, dn)
  {
  }

  /** What else of the class the read covers is the same before and after. */
  lemma SettledScope(base: Dn, t: Tree, t': Tree, e: DirectoryEntry)
    requires Manageable(base, t, e) && Settled(t, t', e) && OfKind(t, e.Kind(), e.dn) <= {e.dn}
    ensures OfKind(t', e.Kind(), e.dn) <= {e.dn}
  {
    if e.dn !in t {
      NothingBelowPlace(base, t, e.dn);
    }
    forall d | d in OfKind(t', e.Kind(), e.dn) ensures d == e.dn {
      assert e.dn in t ==> d == e.dn || d in OfKind(t, e.Kind(), e.dn);
      assert d == e.dn || d in t;
    }
  }

  lemma ReadAfterUpsert(base: Dn, t: Tree, e: DirectoryEntry, r: Outcome, t': Tree, read: ReadOutcome)
    returns (found: map<string, seq<string>>)
    requires Manageable(base, t, e) && UpsertOutcome(base, t, e, true, r, t')
    requires OfKind(t, e.Kind(), e.dn) <= {e.dn}
    requires e.dn in t ==> Values(t[e.dn].attrs, NamingAttribute(e.Kind())) == {e.name}
    requires ReadReplies(t', e.Kind(), e.dn, true, read)
    ensures e.dn in t' && Desired(e, t'[e.dn]) && Values(t'[e.dn].attrs, NamingAttribute(e.Kind())) == {e.name}
    ensures Shows(found, t'[e.dn].attrs) && read == Read(FromSearch(e.Kind(), e.dn, found))
  {
    Converges(base, t, e, r, t');
    SettledNaming(base, t, t', e);
    SettledScope(base, t, t', e);
    found := OnlyHitIsRead(t', e.Kind(), e.dn, read);
  }

  /**
   * Write, then read: a spec mapped to an entry, created or updated, and read back says what the spec says, provided
   * no other entry of the class is covered by the read and the entry has no second name.
   */
  lemma WriteReadRoundTrip(base: Dn, secrets: Secrets, dn: Dn, d: Details, t: Tree, r: Outcome, t': Tree,
                           read: ReadOutcome)
    requires MapToEntry(secrets, dn, d).Some?
    requires Manageable(base, t, MapToEntry(secrets, dn, d).value)
    requires UpsertOutcome(base, t, MapToEntry(secrets, dn, d).value, true, r, t')
    requires OfKind(t, d.Kind(), dn) <= {dn}
    requires dn in t ==> Values(t[dn].attrs, NamingAttribute(d.Kind())) == {d.Name()}
    requires ReadReplies(t', d.Kind(), dn, true, read)
    ensures read.Read? && SaysTheSame(read.entry, d, dn)
  {
    var e := MapToEntry(secrets, dn, d).value;
    MappedSaysTheSame(secrets, dn, d);
    var found := ReadAfterUpsert(base, t, e, r, t', read);
    DesiredReadsBack(d, e, t'[dn], found);
  }
}
