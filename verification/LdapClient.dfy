// The operator's LDAP client: create-or-update, read and cascading delete, as sequences of server operations.
module LdapClient {
  import opened DistinguishedNames
  import opened Dit

  datatype Kind = OrganizationalUnit | Group | User

  datatype DirectoryEntry =
    | OrganizationalUnitEntry(dn: Dn, name: string, description: string)
    | GroupEntry(dn: Dn, name: string, description: string, members: seq<string>)
    | UserEntry(dn: Dn, name: string, fullName: string, surname: string, email: string, password: string)
  {
    function Kind(): Kind {
      match this
      case OrganizationalUnitEntry(_, _, _) => OrganizationalUnit
      case GroupEntry(_, _, _, _) => Group
      case UserEntry(_, _, _, _, _, _) => User
    }
  }

  /** Outcome of a create-or-update call: whether it created the entry, or the code it failed with. */
  datatype Outcome = Done(created: bool) | Refused(code: Code)

  /** Outcome of a read: indexing an empty result list panics. */
  datatype ReadOutcome = Read(entry: DirectoryEntry) | ReadFailed(code: Code) | ReadPanics

  // ---------------------------------------------------------------- the shape of the requests

  function ObjectClass(k: Kind): string {
    match k
    case OrganizationalUnit => "organizationalUnit"
    case Group => "groupOfNames"
    case User => "inetOrgPerson"
  }

  function NamingAttribute(k: Kind): string {
    match k
    case OrganizationalUnit => "ou"
    case Group => "cn"
    case User => "uid"
  }

  function FilterFor(e: DirectoryEntry): Filter {
    Called(ObjectClass(e.Kind()), NamingAttribute(e.Kind()), e.name)
  }

  /** An attribute the client keeps at a desired value, and the rule by which it does. */
  datatype Managed =
    | Optional(attr: string, desired: string)
    | Required(attr: string, desired: string)
    | Members(attr: string, all: seq<string>)

  function ManagedAttributes(e: DirectoryEntry): seq<Managed> {
    match e
    case OrganizationalUnitEntry(_, _, description) => [Optional("description", description)]
    case GroupEntry(_, _, description, members) => [Optional("description", description), Members("member", members)]
    case UserEntry(_, _, fullName, surname, email, _) =>
      [Required("cn", fullName), Required("sn", surname), Optional("mail", email)]
  }

  /** The values the attribute should hold in the end; none means absent. */
  function Target(m: Managed): set<string> {
    match m
    case Optional(_, desired) => if desired == "" then {} else {desired}
    case Required(_, desired) => {desired}
    case Members(_, all) => ToSet(all)
  }

  function AllValues(found: map<string, seq<string>>, attr: string): seq<string> {
    if attr in found then found[attr] else []
  }

  /** The client library's GetAttributeValue: the first value returned, or "". */
  function FirstValue(found: map<string, seq<string>>, attr: string): string {
    var vs := AllValues(found, attr);
    if vs == [] then "" else vs[0]
  }

  function ChangesFor(m: Managed, found: map<string, seq<string>>): seq<Change> {
    match m
    case Optional(attr, desired) =>
      var existing := FirstValue(found, attr);
      if desired == "" then (if existing != "" then [DeleteAttribute(attr)] else [])
      else if existing == "" then [AddValues(attr, [desired])]
      else [ReplaceValues(attr, [desired])]
    case Required(attr, desired) =>
      if FirstValue(found, attr) != desired then [ReplaceValues(attr, [desired])] else []
    case Members(attr, all) =>
      if ToSet(AllValues(found, attr)) != ToSet(all) then [ReplaceValues(attr, all)] else []
  }

  function Plan(ms: seq<Managed>, found: map<string, seq<string>>): seq<Change> {
    if ms == [] then [] else ChangesFor(ms[0], found) + Plan(ms[1..], found)
  }

  function Classes(k: Kind): seq<string> {
    match k
    case OrganizationalUnit => ["top", "organizationalUnit"]
    case Group => ["top", "groupOfNames"]
    case User => ["top", "person", "organizationalPerson", "inetOrgPerson"]
  }

  /** The attributes of the Add request. */
  function InitialAttributes(e: DirectoryEntry): map<string, seq<string>> {
    match e
    case OrganizationalUnitEntry(_, name, description) =>
      var attrs := map["objectClass" := Classes(OrganizationalUnit), "ou" := [name]];
      if description != "" then attrs["description" := [description]] else attrs
    case GroupEntry(_, name, description, members) =>
      var attrs := map["objectClass" := Classes(Group), "cn" := [name], "member" := members];
      if description != "" then attrs["description" := [description]] else attrs
    case UserEntry(_, name, fullName, surname, email, _) =>
      var attrs := map["objectClass" := Classes(User), "uid" := [name], "cn" := [fullName], "sn" := [surname]];
      if email != "" then attrs["mail" := [email]] else attrs
  }

  // ---------------------------------------------------------------- what one create-or-update call may do

  ghost predicate PasswordOutcome(base: Dn, t: Tree, e: DirectoryEntry, reliable: bool, created: bool, r: Outcome,
                                  t': Tree)
    requires e.UserEntry?
  {
    exists hash: Hash, code: Code ::
      PasswordSet(base, t, e, hash, reliable, code, t') && r == if code == Success then Done(created) else Refused(code)
  }

  ghost predicate PasswordSet(base: Dn, t: Tree, e: DirectoryEntry, hash: Hash, reliable: bool, code: Code, t': Tree)
    requires e.UserEntry?
  {
    && (e.password != "" ==> Verifies(hash, e.password))
    && Responds(base, t, SetPassword(e.dn, hash), reliable, code, t')
  }

  ghost predicate CreateOutcome(base: Dn, t: Tree, e: DirectoryEntry, reliable: bool, r: Outcome, t': Tree) {
    exists code: Code, t1: Tree ::
      && Responds(base, t, AddEntry(e.dn, InitialAttributes(e)), reliable, code, t1)
      && if code != Success then r == Refused(code) && t' == t1
         else if e.UserEntry? && e.password != "" then PasswordOutcome(base, t1, e, reliable, true, r, t')
         else r == Done(true) && t' == t1
  }

  /** The password check of an update: bind as the user, and set the password if the server refuses it. */
  ghost predicate VerifyOutcome(base: Dn, t: Tree, e: DirectoryEntry, reliable: bool, r: Outcome, t': Tree)
    requires e.UserEntry?
  {
    || (!reliable && r == Refused(Unavailable) && t' == t)
    || exists code: Code ::
         && BindReplies(t, e.dn, e.password, reliable, code)
         && match code
            case Success => r == Done(false) && t' == t
            case InvalidCredentials => PasswordOutcome(base, t, e, reliable, false, r, t')
            case _ => r == Refused(code) && t' == t
  }

  ghost predicate ModifyOutcome(base: Dn, t: Tree, dn: Dn, changes: seq<Change>, reliable: bool, code: Code, t': Tree) {
    if changes == [] then code == Success && t' == t
    else Responds(base, t, ModifyEntry(dn, changes), reliable, code, t')
  }

  ghost predicate UpdateOutcome(base: Dn, t: Tree, e: DirectoryEntry, found: map<string, seq<string>>, reliable: bool,
                                r: Outcome, t': Tree) {
    exists code: Code, t1: Tree ::
      && ModifyOutcome(base, t, e.dn, Plan(ManagedAttributes(e), found), reliable, code, t1)
      && if code != Success then r == Refused(code) && t' == t1
         else if e.UserEntry? then VerifyOutcome(base, t1, e, reliable, r, t')
         else r == Done(false) && t' == t1
  }

  /** found is how the server may show the first search result. */
  ghost predicate Picked(t: Tree, hits: set<Dn>, found: map<string, seq<string>>) {
    exists d :: d in hits && d in t && Shows(found, t[d].attrs)
  }

  /** Entries of the desired class and name at or below the desired dn. */
  function Candidates(t: Tree, e: DirectoryEntry): set<Dn> {
    Hits(t, e.dn, WholeSubtree, FilterFor(e))
  }

  ghost predicate UpsertOutcome(base: Dn, t: Tree, e: DirectoryEntry, reliable: bool, r: Outcome, t': Tree) {
    || (!reliable && r == Refused(Unavailable) && t' == t)
    || (Candidates(t, e) == {} && CreateOutcome(base, t, e, reliable, r, t'))
    || exists found :: Picked(t, Candidates(t, e), found) && UpdateOutcome(base, t, e, found, reliable, r, t')
  }

  lemma CreateEnds(base: Dn, t: Tree, e: DirectoryEntry, reliable: bool, code: Code, t': Tree)
    requires Candidates(t, e) == {}
    requires Responds(base, t, AddEntry(e.dn, InitialAttributes(e)), reliable, code, t')
    requires code == Success && e.UserEntry? ==> e.password == ""
    ensures UpsertOutcome(base, t, e, reliable, if code == Success then Done(true) else Refused(code), t')
  {
  }

  lemma UpdateEnds(base: Dn, t: Tree, e: DirectoryEntry, found: map<string, seq<string>>, reliable: bool, code: Code,
                   t': Tree)
    requires Picked(t, Candidates(t, e), found)
    requires ModifyOutcome(base, t, e.dn, Plan(ManagedAttributes(e), found), reliable, code, t')
    requires code == Success ==> !e.UserEntry?
    ensures UpsertOutcome(base, t, e, reliable, if code == Success then Done(false) else Refused(code), t')
  {
  }

  // ---------------------------------------------------------------- what one read may return

  function ReadScope(k: Kind): Scope {
    if k.OrganizationalUnit? then BaseObject else WholeSubtree
  }

  /** The entry built from a search result; the password hash is not part of it. */
  function FromSearch(k: Kind, dn: Dn, found: map<string, seq<string>>): DirectoryEntry {
    match k
    case OrganizationalUnit =>
      OrganizationalUnitEntry(dn, FirstValue(found, "ou"), FirstValue(found, "description"))
    case Group =>
      GroupEntry(dn, FirstValue(found, "cn"), FirstValue(found, "description"), AllValues(found, "member"))
    case User =>
      UserEntry(dn, FirstValue(found, "uid"), FirstValue(found, "cn"), FirstValue(found, "sn"),
                FirstValue(found, "mail"), "")
  }

  ghost predicate ReadReplies(t: Tree, k: Kind, dn: Dn, reliable: bool, r: ReadOutcome) {
    var hits := Hits(t, dn, ReadScope(k), OfClass(ObjectClass(k)));
    || (!reliable && r == ReadFailed(Unavailable))
    || (dn !in t && r == ReadFailed(NoSuchObject))
    || (dn in t && hits == {} && r == ReadPanics)
    || (dn in t && |hits| > 1 && r == ReadFailed(SizeLimitExceeded))
    || (|hits| == 1 && exists d, found ::
          d in hits && d in t && Shows(found, t[d].attrs) && r == Read(FromSearch(k, d, found)))
  }

  // ---------------------------------------------------------------- what one delete may do

  ghost predicate DeleteOutcome(base: Dn, t: Tree, dn: Dn, reliable: bool, code: Code, t': Tree) {
    && (code == Success || (!reliable && code == Unavailable))
    && t'.Keys <= t.Keys
    && t' == t - (t.Keys - t'.Keys)
    && t.Keys - t'.Keys <= Subtree(t, dn)
    && (code == Success ==> t' == t - Subtree(t, dn))
    && WellFormed(base, t')
  }

  // ---------------------------------------------------------------- cascading delete: the tree part

  /** The entries below dn are those at or below its children. */
  lemma SubtreeSplits(base: Dn, t: Tree, dn: Dn, d: Dn)
    requires WellFormed(base, t) && dn in t && d in t && Under(d, dn) && d != dn
    ensures var c := d[|d| - |dn| - 1..]; c in t && IsChild(c, dn) && Under(d, c)
  {
    var c := d[|d| - |dn| - 1..];
    assert c[1..] == d[|d| - |dn|..] == dn;
    EntriesUnderBase(base, t, dn);
    AncestorsPresent(base, t, d, c);
  }

  lemma UnderChild(d: Dn, c: Dn, dn: Dn)
    requires IsChild(c, dn) && Under(d, c)
    ensures Under(d, dn) && d != dn
  {
  }

  /** Removing a whole subtree keeps every remaining entry's superior. */
  lemma RemovingSubtreeKeepsShape(base: Dn, t: Tree, dn: Dn)
    requires WellFormed(base, t)
    ensures WellFormed(base, t - Subtree(t, dn))
  {
    var t' := t - Subtree(t, dn);
    forall d | d in t' ensures Anchored(base, t', d) && Titled(t', d) {
      assert Anchored(base, t, d) && Titled(t, d);
    }
  }

  /** What has been removed once the first n listed children are done. */
  function Cleared(t: Tree, entries: seq<SearchEntry>, n: nat): set<Dn>
    requires n <= |entries|
  {
    set d | d in t && exists j :: 0 <= j < n && Under(d, entries[j].dn)
  }

  ghost predicate ListsChildren(t: Tree, dn: Dn, entries: seq<SearchEntry>) {
    dn in t && Lists(t, Hits(t, dn, SingleLevel, Anything), entries)
  }

  /** Deleting one sibling's subtree leaves the next one's as it was, and they lie strictly below dn. */
  lemma NextChildIntact(base: Dn, t: Tree, dn: Dn, entries: seq<SearchEntry>, n: nat)
    requires WellFormed(base, t) && ListsChildren(t, dn, entries) && n < |entries|
    ensures var rest := t - Cleared(t, entries, n); var c := entries[n].dn;
            && Subtree(rest, c) == Subtree(t, c)
            && rest - Subtree(t, c) == t - Cleared(t, entries, n + 1)
            && Subtree(t, c) < Subtree(t, dn)
            && Cleared(t, entries, n) <= Subtree(t, dn) - {dn}
            && dn in rest
  {
    var c := entries[n].dn;
    assert IsChild(c, dn) && c in t;
    ClearedBelow(t, dn, entries, n);
    forall d | d in Subtree(t, c) ensures d !in Cleared(t, entries, n) && d in Subtree(t, dn) && d != dn {
      UnderChild(d, c, dn);
    }
    assert dn in Subtree(t, dn);
    assert c in Subtree(t, c);
    assert Cleared(t, entries, n + 1) == Cleared(t, entries, n) + Subtree(t, c);
    assert t - Cleared(t, entries, n) - Subtree(t, c) == t - (Cleared(t, entries, n) + Subtree(t, c));
  }

  lemma ClearedBelow(t: Tree, dn: Dn, entries: seq<SearchEntry>, n: nat)
    requires ListsChildren(t, dn, entries) && n <= |entries|
    ensures Cleared(t, entries, n) <= Subtree(t, dn) - {dn}
  {
  }

  /** Once every listed child is done only dn itself is left, as a leaf. */
  lemma OnlyRootLeft(base: Dn, t: Tree, dn: Dn, entries: seq<SearchEntry>)
    requires WellFormed(base, t) && ListsChildren(t, dn, entries)
    ensures Cleared(t, entries, |entries|) == Subtree(t, dn) - {dn}
    ensures forall d :: d in t - Cleared(t, entries, |entries|) ==> !IsChild(d, dn)
  {
    ClearedBelow(t, dn, entries, |entries|);
    forall d | d in Subtree(t, dn) - {dn} ensures d in Cleared(t, entries, |entries|) {
      SubtreeSplits(base, t, dn, d);
      var c := d[|d| - |dn| - 1..];
      assert c in Hits(t, dn, SingleLevel, Anything);
    }
    forall d | d in t && IsChild(d, dn) ensures d in Subtree(t, dn) - {dn} {
      assert d[|d| - |dn|..] == d[1..];
    }
  }

  // ---------------------------------------------------------------- the client

  class Client {
    const server: Server

    constructor (server: Server)
      ensures this.server == server
    {
      this.server := server;
    }

    /** Deletes an entry, and with cascading everything below it, children first. */
    method DeleteEntry(dn: Dn, cascading: bool) returns (code: Code)
      requires server.Valid()
      modifies server`tree
      ensures server.Valid()
      ensures cascading ==> DeleteOutcome(server.base, old(server.tree), dn, server.reliable, code, server.tree)
      ensures !cascading ==>
                || (code == Unavailable && !server.reliable && server.tree == old(server.tree))
                || exists answer :: Responds(server.base, old(server.tree), DeleteLeaf(dn), server.reliable, answer,
                                             server.tree)
                                    && code == if answer == NoSuchObject then Success else answer
      decreases Subtree(server.tree, dn), cascading
    {
      ghost var t := server.tree;
      code := server.Connect();
      if code != Success {
        assert t - (t.Keys - t.Keys) == t;
        return;
      }
      if cascading {
        var found, entries := server.Search(dn, SingleLevel, Anything, 0);
        if found != Success && found != NoSuchObject {
          assert t - (t.Keys - t.Keys) == t;
          return found;
        }
        var i := 0;
        if dn !in t {
          assert entries == [];
        }
        assert t - Cleared(t, entries, 0) == t;
        while i < |entries|
          invariant 0 <= i <= |entries|
          invariant dn in t ==> ListsChildren(t, dn, entries)
          invariant dn !in t ==> entries == []
          invariant server.Valid()
          invariant server.tree == t - Cleared(t, entries, i)
        {
          NextChildIntact(server.base, t, dn, entries, i);
          code := DeleteEntry(entries[i].dn, true);
          if code != Success {
            PartialDelete(server.base, t, dn, Cleared(t, entries, i), server.tree);
            return;
          }
          i := i + 1;
        }
        if dn in t {
          OnlyRootLeft(server.base, t, dn, entries);
        }
      }
      ghost var before := server.tree;
      var answer := server.Perform(DeleteLeaf(dn));
      code := if answer == NoSuchObject then Success else answer;
      if cascading {
        LastDelete(server.base, t, dn, before, answer, server.reliable, server.tree);
      }
    }

    method CreateOrUpdateOrganizationalUnit(e: DirectoryEntry) returns (r: Outcome)
      requires e.OrganizationalUnitEntry? && server.Valid()
      modifies server`tree
      ensures server.Valid()
      ensures UpsertOutcome(server.base, old(server.tree), e, server.reliable, r, server.tree)
    {
      var code := server.Connect();
      if code != Success {
        return Refused(code);
      }
      var found, entries := server.Search(e.dn, WholeSubtree, Called("organizationalUnit", "ou", e.name), 0);
      if found != Success && found != NoSuchObject {
        return Refused(found);
      }
      if |entries| == 0 {
        var attrs := map["objectClass" := ["top", "organizationalUnit"], "ou" := [e.name]];
        if e.description != "" {
          attrs := attrs["description" := [e.description]];
        }
        code := server.Perform(AddEntry(e.dn, attrs));
        CreateEnds(server.base, old(server.tree), e, server.reliable, code, server.tree);
        return if code == Success then Done(true) else Refused(code);
      }
      var existing := entries[0].attrs;
      assert Picked(server.tree, Candidates(server.tree, e), existing);
      var request := new ModifyRequest(e.dn);
      OptionalAttributeModifications(request, "description", FirstValue(existing, "description"), e.description);
      assert request.changes == Plan(ManagedAttributes(e), existing);
      if |request.changes| > 0 {
        code := server.Perform(ModifyEntry(request.dn, request.changes));
      }
      UpdateEnds(server.base, old(server.tree), e, existing, server.reliable, code, server.tree);
      return if code == Success then Done(false) else Refused(code);
    }

    method CreateOrUpdateGroup(e: DirectoryEntry) returns (r: Outcome)
      requires e.GroupEntry? && server.Valid()
      modifies server`tree
      ensures server.Valid()
      ensures UpsertOutcome(server.base, old(server.tree), e, server.reliable, r, server.tree)
    {
      var code := server.Connect();
      if code != Success {
        return Refused(code);
      }
      var found, entries := server.Search(e.dn, WholeSubtree, Called("groupOfNames", "cn", e.name), 0);
      if found != Success && found != NoSuchObject {
        return Refused(found);
      }
      if |entries| == 0 {
        var attrs := map["objectClass" := ["top", "groupOfNames"], "cn" := [e.name], "member" := e.members];
        if e.description != "" {
          attrs := attrs["description" := [e.description]];
        }
        code := server.Perform(AddEntry(e.dn, attrs));
        CreateEnds(server.base, old(server.tree), e, server.reliable, code, server.tree);
        return if code == Success then Done(true) else Refused(code);
      }
      var existing := entries[0].attrs;
      assert Picked(server.tree, Candidates(server.tree, e), existing);
      var request := GroupRequest(e, existing);
      if |request.changes| > 0 {
        code := server.Perform(ModifyEntry(request.dn, request.changes));
      }
      UpdateEnds(server.base, old(server.tree), e, existing, server.reliable, code, server.tree);
      return if code == Success then Done(false) else Refused(code);
    }

    method CreateOrUpdateUser(e: DirectoryEntry) returns (r: Outcome)
      requires e.UserEntry? && server.Valid()
      modifies server`tree
      ensures server.Valid()
      ensures UpsertOutcome(server.base, old(server.tree), e, server.reliable, r, server.tree)
    {
      var code := server.Connect();
      if code != Success {
        return Refused(code);
      }
      var found, entries := server.Search(e.dn, WholeSubtree, Called("inetOrgPerson", "uid", e.name), 0);
      if found != Success && found != NoSuchObject {
        return Refused(found);
      }
      if |entries| == 0 {
        r := CreateUser(e);
        return;
      }
      var existing := entries[0].attrs;
      assert Picked(server.tree, Candidates(server.tree, e), existing);
      r := UpdateUser(e, existing);
    }

    /** A user is added without a password, which is then set in a second operation. */
    method CreateUser(e: DirectoryEntry) returns (r: Outcome)
      requires e.UserEntry? && server.Valid()
      modifies server`tree
      ensures server.Valid()
      ensures CreateOutcome(server.base, old(server.tree), e, server.reliable, r, server.tree)
    {
      var attrs := map["objectClass" := ["top", "person", "organizationalPerson", "inetOrgPerson"],
                       "uid" := [e.name], "cn" := [e.fullName], "sn" := [e.surname]];
      if e.email != "" {
        attrs := attrs["mail" := [e.email]];
      }
      assert attrs == InitialAttributes(e);
      var code := server.Perform(AddEntry(e.dn, attrs));
      if code != Success {
        return Refused(code);
      }
      if e.password != "" {
        r := SetUserPassword(e, true);
        return;
      }
      return Done(true);
    }

    method UpdateUser(e: DirectoryEntry, existing: map<string, seq<string>>) returns (r: Outcome)
      requires e.UserEntry? && server.Valid()
      modifies server`tree
      ensures server.Valid()
      ensures UpdateOutcome(server.base, old(server.tree), e, existing, server.reliable, r, server.tree)
    {
      var request := UserRequest(e, existing);
      var code := Success;
      if |request.changes| > 0 {
        code := server.Perform(ModifyEntry(request.dn, request.changes));
      }
      assert ModifyOutcome(server.base, old(server.tree), e.dn, Plan(ManagedAttributes(e), existing), server.reliable,
                           code, server.tree);
      if code != Success {
        return Refused(code);
      }
      r := VerifyPassword(e);
    }

    /** The last part of a user update: bind as the user, and set the password if that is refused. */
    method VerifyPassword(e: DirectoryEntry) returns (r: Outcome)
      requires e.UserEntry? && server.Valid()
      modifies server`tree
      ensures server.Valid()
      ensures VerifyOutcome(server.base, old(server.tree), e, server.reliable, r, server.tree)
    {
      var code := server.Connect();
      if code != Success {
        return Refused(code);
      }
      var answer := server.Bind(e.dn, e.password);
      if answer != Success && answer != InvalidCredentials {
        return Refused(answer);
      }
      if answer == InvalidCredentials {
        r := SetUserPassword(e, false);
        return;
      }
      return Done(false);
    }

    method SetUserPassword(e: DirectoryEntry, created: bool) returns (r: Outcome)
      requires e.UserEntry? && server.Valid()
      modifies server`tree
      ensures server.Valid()
      ensures PasswordOutcome(server.base, old(server.tree), e, server.reliable, created, r, server.tree)
    {
      var code, hash := server.PasswordModify(e.dn, e.password);
      assert PasswordSet(server.base, old(server.tree), e, hash, server.reliable, code, server.tree);
      if code != Success {
        return Refused(code);
      }
      return Done(created);
    }

    method CreateOrUpdateEntry(e: DirectoryEntry) returns (r: Outcome)
      requires server.Valid()
      modifies server`tree
      ensures server.Valid()
      ensures UpsertOutcome(server.base, old(server.tree), e, server.reliable, r, server.tree)
    {
      match e
      case OrganizationalUnitEntry(_, _, _) => r := CreateOrUpdateOrganizationalUnit(e);
      case GroupEntry(_, _, _, _) => r := CreateOrUpdateGroup(e);
      case UserEntry(_, _, _, _, _, _) => r := CreateOrUpdateUser(e);
    }

    /** The three reads differ in scope, class and the attributes they return. */
    method GetEntry(k: Kind, dn: Dn) returns (r: ReadOutcome)
      ensures ReadReplies(server.tree, k, dn, server.reliable, r)
    {
      var code := server.Connect();
      if code != Success {
        return ReadFailed(code);
      }
      var entries;
      match k {
        case OrganizationalUnit =>
          code, entries := server.Search(dn, BaseObject, OfClass("organizationalUnit"), 1);
        case Group =>
          code, entries := server.Search(dn, WholeSubtree, OfClass("groupOfNames"), 1);
        case User =>
          code, entries := server.Search(dn, WholeSubtree, OfClass("inetOrgPerson"), 1);
      }
      if code != Success {
        return ReadFailed(code);
      }
      ghost var hits := Hits(server.tree, dn, ReadScope(k), OfClass(ObjectClass(k)));
      if |entries| == 0 {
        assert hits == {};
        return ReadPanics;
      }
      var first := entries[0];
      assert first.dn in hits;
      match k {
        case OrganizationalUnit =>
          r := Read(OrganizationalUnitEntry(first.dn, FirstValue(first.attrs, "ou"),
                                            FirstValue(first.attrs, "description")));
        case Group =>
          r := Read(GroupEntry(first.dn, FirstValue(first.attrs, "cn"), FirstValue(first.attrs, "description"),
                               AllValues(first.attrs, "member")));
        case User =>
          r := Read(UserEntry(first.dn, FirstValue(first.attrs, "uid"), FirstValue(first.attrs, "cn"),
                              FirstValue(first.attrs, "sn"), FirstValue(first.attrs, "mail"), ""));
      }
    }
  }

  /** A Modify request under construction. */
  class ModifyRequest {
    const dn: Dn
    var changes: seq<Change>

    constructor (dn: Dn)
      ensures this.dn == dn && changes == []
    {
      this.dn, changes := dn, [];
    }

    method Add(attr: string, values: seq<string>)
      modifies this
      ensures changes == old(changes) + [AddValues(attr, values)]
    {
      changes := changes + [AddValues(attr, values)];
    }

    method Delete(attr: string)
      modifies this
      ensures changes == old(changes) + [DeleteAttribute(attr)]
    {
      changes := changes + [DeleteAttribute(attr)];
    }

    method Replace(attr: string, values: seq<string>)
      modifies this
      ensures changes == old(changes) + [ReplaceValues(attr, values)]
    {
      changes := changes + [ReplaceValues(attr, values)];
    }
  }

  method OptionalAttributeModifications(request: ModifyRequest, attr: string, existing: string, desired: string)
    modifies request
    ensures forall found :: FirstValue(found, attr) == existing ==>
              request.changes == old(request.changes) + ChangesFor(Optional(attr, desired), found)
  {
    if desired == "" {
      if existing != "" {
        request.Delete(attr);
      }
    } else if existing == "" {
      request.Add(attr, [desired]);
    } else {
      request.Replace(attr, [desired]);
    }
  }

  /** The part of a group update that compares the entry found with the one desired. */
  method GroupRequest(e: DirectoryEntry, existing: map<string, seq<string>>) returns (request: ModifyRequest)
    requires e.GroupEntry?
    ensures fresh(request) && request.dn == e.dn
    ensures request.changes == Plan(ManagedAttributes(e), existing)
  {
    request := new ModifyRequest(e.dn);
    OptionalAttributeModifications(request, "description", FirstValue(existing, "description"), e.description);
    if ToSet(AllValues(existing, "member")) != ToSet(e.members) {
      request.Replace("member", e.members);
    }
    PlanOfGroup(e, existing);
  }

  /** The part of a user update that compares the entry found with the one desired. */
  method UserRequest(e: DirectoryEntry, existing: map<string, seq<string>>) returns (request: ModifyRequest)
    requires e.UserEntry?
    ensures fresh(request) && request.dn == e.dn
    ensures request.changes == Plan(ManagedAttributes(e), existing)
  {
    request := new ModifyRequest(e.dn);
    if FirstValue(existing, "cn") != e.fullName {
      request.Replace("cn", [e.fullName]);
    }
    if FirstValue(existing, "sn") != e.surname {
      request.Replace("sn", [e.surname]);
    }
    OptionalAttributeModifications(request, "mail", FirstValue(existing, "mail"), e.email);
    PlanOfUser(e, existing);
  }

  lemma PlanOfTwo(a: Managed, b: Managed, found: map<string, seq<string>>)
    ensures Plan([a, b], found) == ChangesFor(a, found) + ChangesFor(b, found)
  {
    assert [a, b][1..] == [b] && [b][1..] == [];
    assert Plan([b], found) == ChangesFor(b, found) + Plan([], found);
  }

  lemma PlanOfGroup(e: DirectoryEntry, found: map<string, seq<string>>)
    requires e.GroupEntry?
    ensures Plan(ManagedAttributes(e), found) ==
            ChangesFor(Optional("description", e.description), found) + ChangesFor(Members("member", e.members), found)
  {
    PlanOfTwo(Optional("description", e.description), Members("member", e.members), found);
  }

  lemma PlanOfUser(e: DirectoryEntry, found: map<string, seq<string>>)
    requires e.UserEntry?
    ensures Plan(ManagedAttributes(e), found) ==
            ChangesFor(Required("cn", e.fullName), found) + ChangesFor(Required("sn", e.surname), found)
            + ChangesFor(Optional("mail", e.email), found)
  {
    var ms := ManagedAttributes(e);
    assert ms[1..] == [Required("sn", e.surname), Optional("mail", e.email)];
    PlanOfTwo(Required("sn", e.surname), Optional("mail", e.email), found);
  }

  /** A delete that stopped part of the way has removed only entries at or below dn. */
  lemma PartialDelete(base: Dn, t: Tree, dn: Dn, cleared: set<Dn>, t': Tree)
    requires cleared <= Subtree(t, dn)
    requires t'.Keys <= (t - cleared).Keys
    requires t' == t - cleared - ((t - cleared).Keys - t'.Keys)
    requires (t - cleared).Keys - t'.Keys <= Subtree(t, dn)
    ensures t'.Keys <= t.Keys
    ensures t' == t - (t.Keys - t'.Keys)
    ensures t.Keys - t'.Keys <= Subtree(t, dn)
  {
  }

  lemma LastDelete(base: Dn, t: Tree, dn: Dn, before: Tree, answer: Code, reliable: bool, t': Tree)
    requires WellFormed(base, t) && WellFormed(base, before)
    requires dn in t ==> before == t - (Subtree(t, dn) - {dn}) && forall d :: d in before ==> !IsChild(d, dn)
    requires dn !in t ==> before == t
    requires Responds(base, before, DeleteLeaf(dn), reliable, answer, t')
    ensures DeleteOutcome(base, t, dn, reliable, if answer == NoSuchObject then Success else answer, t')
  {
    ApplyKeepsShape(base, before, DeleteLeaf(dn));
    if dn in t {
      assert dn in Subtree(t, dn);
      assert before - {dn} == t - Subtree(t, dn);
    }
  }
}
