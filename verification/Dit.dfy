// The LDAP server the operator talks to: a directory information tree (RFC 4512 section 2.1) and the operations of
// RFC 4511 on it. An unreliable server may fail any call, before or after the call took effect.
module Dit {
  import opened Common
  import opened DistinguishedNames

  /** Attribute values form a set (RFC 4512 section 2.3); an attribute without values is absent. */
  type Attributes = map<string, set<string>>

  /** A stored password hash is opaque: all one can do is check a password against it. */
  datatype Hash = Hash(salt: int, secret: string)

  predicate Verifies(h: Hash, password: string) {
    h.secret == password
  }

  datatype Entry = Entry(attrs: Attributes, password: Option<Hash>)

  type Tree = map<Dn, Entry>

  datatype Code =
    | Success
    | NoSuchObject
    | EntryAlreadyExists
    | NotAllowedOnNonLeaf
    | NotAllowedOnRdn
    | NoSuchAttribute
    | AttributeOrValueExists
    | ProtocolError
    | SizeLimitExceeded
    | InvalidCredentials
    | Unavailable

  datatype Change =
    | AddValues(attr: string, values: seq<string>)
    | DeleteAttribute(attr: string)
    | ReplaceValues(attr: string, values: seq<string>)

  datatype Operation =
    | AddEntry(dn: Dn, attrs: map<string, seq<string>>)
    | ModifyEntry(dn: Dn, changes: seq<Change>)
    | DeleteLeaf(dn: Dn)
    | SetPassword(dn: Dn, hash: Hash)

  // ---------------------------------------------------------------- attributes

  function Values(attrs: Attributes, a: string): set<string> {
    if a in attrs then attrs[a] else {}
  }

  function WithValues(attrs: Attributes, a: string, vs: set<string>): Attributes {
    if vs == {} then attrs - {a} else attrs[a := vs]
  }

  predicate Distinct<T(==)>(vs: seq<T>) {
    forall i, j :: 0 <= i < j < |vs| ==> vs[i] != vs[j]
  }

  function ToSet(vs: seq<string>): set<string> {
    set v | v in vs
  }

  datatype Changed = Changed(attrs: Attributes) | Rejected(code: Code)

  /** One change of a Modify request (RFC 4511 section 4.6). */
  function ApplyChange(attrs: Attributes, c: Change): (r: Changed)
    ensures r.Rejected? ==> r.code in {NoSuchAttribute, AttributeOrValueExists, ProtocolError}
  {
    match c
    case AddValues(a, vs) =>
      if vs == [] then Rejected(ProtocolError)
      else if !Distinct(vs) || ToSet(vs) * Values(attrs, a) != {} then Rejected(AttributeOrValueExists)
      else Changed(WithValues(attrs, a, Values(attrs, a) + ToSet(vs)))
    case DeleteAttribute(a) =>
      if Values(attrs, a) == {} then Rejected(NoSuchAttribute) else Changed(WithValues(attrs, a, {}))
    case ReplaceValues(a, vs) =>
      if !Distinct(vs) then Rejected(AttributeOrValueExists) else Changed(WithValues(attrs, a, ToSet(vs)))
  }

  /** The changes of one request apply in order, all or none. */
  function ApplyChanges(attrs: Attributes, cs: seq<Change>): (r: Changed)
    ensures r.Rejected? ==> r.code in {NoSuchAttribute, AttributeOrValueExists, ProtocolError}
    decreases |cs|
  {
    if cs == [] then Changed(attrs)
    else
      var first := ApplyChange(attrs, cs[0]);
      if first.Rejected? then first else ApplyChanges(first.attrs, cs[1..])
  }

  lemma ApplyChangesOfConcat(attrs: Attributes, a: seq<Change>, b: seq<Change>)
    ensures ApplyChanges(attrs, a + b) ==
            var first := ApplyChanges(attrs, a);
            if first.Rejected? then first else ApplyChanges(first.attrs, b)
    decreases |a|
  {
    if a == [] {
      assert a + b == b;
    } else {
      assert (a + b)[1..] == a[1..] + b;
      var first := ApplyChange(attrs, a[0]);
      if first.Changed? {
        ApplyChangesOfConcat(first.attrs, a[1..], b);
      }
    }
  }

  // ---------------------------------------------------------------- operations

  /** The stored attributes: those of the request together with those of the RDN (RFC 4511 section 4.7). */
  function Content(dn: Dn, attrs: map<string, seq<string>>): Attributes {
    var listed: Attributes := map a | a in attrs :: ToSet(attrs[a]);
    if dn == [] then listed
    else WithValues(listed, dn[0].attr, Values(listed, dn[0].attr) + {dn[0].value})
  }

  predicate IsChild(d: Dn, dn: Dn) {
    |d| > 0 && d[1..] == dn
  }

  function Apply(base: Dn, t: Tree, op: Operation): (Code, Tree) {
    match op
    case AddEntry(dn, attrs) =>
      if dn in t then (EntryAlreadyExists, t)
      else if dn != base && (dn == [] || dn[1..] !in t) then (NoSuchObject, t)
      else if exists a :: a in attrs && attrs[a] == [] then (ProtocolError, t)
      else if exists a :: a in attrs && !Distinct(attrs[a]) then (AttributeOrValueExists, t)
      else (Success, t[dn := Entry(Content(dn, attrs), None)])
    case ModifyEntry(dn, changes) =>
      if dn !in t then (NoSuchObject, t)
      else
        var changed := ApplyChanges(t[dn].attrs, changes);
        if changed.Rejected? then (changed.code, t)
        else if dn != [] && dn[0].value !in Values(changed.attrs, dn[0].attr) then (NotAllowedOnRdn, t)
        else (Success, t[dn := t[dn].(attrs := changed.attrs)])
    case DeleteLeaf(dn) =>
      if dn !in t then (NoSuchObject, t)
      else if exists d :: d in t && IsChild(d, dn) then (NotAllowedOnNonLeaf, t)
      else (Success, t - {dn})
    case SetPassword(dn, hash) =>
      if dn !in t then (NoSuchObject, t)
      else (Success, t[dn := t[dn].(password := Some(hash))])
  }

  /** What a caller may see of one operation. An unreliable server can lose the request or only its answer. */
  predicate Responds(base: Dn, t: Tree, op: Operation, reliable: bool, code: Code, t': Tree) {
    || (code, t') == Apply(base, t, op)
    || (!reliable && code == Unavailable && (t' == t || t' == Apply(base, t, op).1))
  }

  // ---------------------------------------------------------------- the shape of the tree

  predicate Anchored(base: Dn, t: Tree, d: Dn) {
    d == base || (d != [] && d[1..] in t)
  }

  predicate Titled(t: Tree, d: Dn)
    requires d in t
  {
    d != [] ==> d[0].value in Values(t[d].attrs, d[0].attr)
  }

  /** Every entry but the base has its superior, and every entry holds the value that names it. */
  ghost predicate WellFormed(base: Dn, t: Tree) {
    && (forall d {:trigger Anchored(base, t, d)} :: d in t ==> Anchored(base, t, d))
    && (forall d {:trigger Titled(t, d)} :: d in t ==> Titled(t, d))
  }

  /** The trees agree on every entry other than dn, and dn is not removed. */
  ghost predicate OnlyAt(t: Tree, t': Tree, dn: Dn) {
    && t.Keys <= t'.Keys <= t.Keys + {dn}
    && forall d :: d in t && d != dn ==> t'[d] == t[d]
  }

  lemma WriteKeepsShape(base: Dn, t: Tree, dn: Dn, e: Entry)
    requires WellFormed(base, t)
    requires dn in t || Anchored(base, t, dn)
    requires dn != [] ==> dn[0].value in Values(e.attrs, dn[0].attr)
    ensures WellFormed(base, t[dn := e])
    ensures OnlyAt(t, t[dn := e], dn)
  {
    var t' := t[dn := e];
    forall d | d in t' ensures Anchored(base, t', d) && Titled(t', d) {
      if d in t {
        assert Anchored(base, t, d) && Titled(t, d);
      }
    }
  }

  lemma RemovalKeepsShape(base: Dn, t: Tree, dn: Dn)
    requires WellFormed(base, t)
    requires forall d :: d in t ==> !IsChild(d, dn)
    ensures WellFormed(base, t - {dn})
  {
    var t' := t - {dn};
    forall d | d in t' ensures Anchored(base, t', d) && Titled(t', d) {
      assert Anchored(base, t, d) && Titled(t, d);
      assert !IsChild(d, dn);
    }
  }

  /** No operation, from whichever client, leaves an entry without its superior. */
  lemma ApplyKeepsShape(base: Dn, t: Tree, op: Operation)
    requires WellFormed(base, t)
    ensures WellFormed(base, Apply(base, t, op).1)
    ensures !op.DeleteLeaf? ==> OnlyAt(t, Apply(base, t, op).1, op.dn)
  {
    var (code, t') := Apply(base, t, op);
    if code == Success {
      match op
      case AddEntry(dn, attrs) => WriteKeepsShape(base, t, dn, t'[dn]);
      case ModifyEntry(dn, changes) => WriteKeepsShape(base, t, dn, t'[dn]);
      case DeleteLeaf(dn) => RemovalKeepsShape(base, t, dn);
      case SetPassword(dn, hash) =>
        assert Titled(t, dn);
        WriteKeepsShape(base, t, dn, t'[dn]);
    }
  }

  lemma RespondsKeepsShape(base: Dn, t: Tree, op: Operation, reliable: bool, code: Code, t': Tree)
    requires WellFormed(base, t) && Responds(base, t, op, reliable, code, t')
    ensures WellFormed(base, t')
    ensures !op.DeleteLeaf? ==> OnlyAt(t, t', op.dn)
  {
    ApplyKeepsShape(base, t, op);
  }

  lemma {:induction false} EntriesUnderBase(base: Dn, t: Tree, d: Dn)
    requires WellFormed(base, t) && d in t
    ensures Under(d, base)
    decreases |d|
  {
    assert Anchored(base, t, d);
    if d != base {
      EntriesUnderBase(base, t, d[1..]);
      assert d[1..][|d| - 1 - |base|..] == d[|d| - |base|..];
    }
  }

  /** An entry's ancestors down to the base are all present. */
  lemma {:induction false} AncestorsPresent(base: Dn, t: Tree, d: Dn, root: Dn)
    requires WellFormed(base, t) && d in t && Under(d, root) && |base| <= |root|
    ensures root in t
    decreases |d|
  {
    if |d| > |root| {
      assert Anchored(base, t, d);
      assert d[1..][|d| - 1 - |root|..] == d[|d| - |root|..];
      AncestorsPresent(base, t, d[1..], root);
    } else {
      assert d == root;
    }
  }

  /** The entries at and below an existing dn. */
  function Subtree(t: Tree, dn: Dn): set<Dn> {
    if dn in t then set d | d in t && Under(d, dn) else {}
  }

  /** Where dn is missing nothing lies below it. */
  lemma NothingBelowMissing(base: Dn, t: Tree, dn: Dn)
    requires WellFormed(base, t) && Under(dn, base) && dn !in t
    ensures forall d :: d in t ==> !Under(d, dn)
  {
    forall d | d in t ensures !Under(d, dn) {
      if Under(d, dn) {
        AncestorsPresent(base, t, d, dn);
      }
    }
  }

  // ---------------------------------------------------------------- searching

  datatype Scope = BaseObject | SingleLevel | WholeSubtree

  predicate InScope(d: Dn, dn: Dn, scope: Scope) {
    match scope
    case BaseObject => d == dn
    case SingleLevel => IsChild(d, dn)
    case WholeSubtree => Under(d, dn)
  }

  datatype Filter = Anything | OfClass(class_: string) | Called(class_: string, attr: string, value: string)

  predicate Matches(attrs: Attributes, f: Filter) {
    match f
    case Anything => true
    case OfClass(c) => c in Values(attrs, "objectClass")
    case Called(c, a, v) => c in Values(attrs, "objectClass") && v in Values(attrs, a)
  }

  function Hits(t: Tree, dn: Dn, scope: Scope, f: Filter): set<Dn> {
    if dn in t then set d | d in t && InScope(d, dn, scope) && Matches(t[d].attrs, f) else {}
  }

  /** An entry as returned: the values of each attribute in any order. */
  datatype SearchEntry = SearchEntry(dn: Dn, attrs: map<string, seq<string>>)

  predicate Enumerates(vs: seq<string>, s: set<string>) {
    Distinct(vs) && ToSet(vs) == s
  }

  predicate Shows(found: map<string, seq<string>>, attrs: Attributes) {
    found.Keys == attrs.Keys && forall a :: a in found ==> Enumerates(found[a], attrs[a])
  }

  /** The entries of dns, each once, in any order. */
  ghost predicate Lists(t: Tree, dns: set<Dn>, entries: seq<SearchEntry>) {
    && (forall i, j :: 0 <= i < j < |entries| ==> entries[i].dn != entries[j].dn)
    && (forall i :: 0 <= i < |entries| ==> entries[i].dn in dns && entries[i].dn in t)
    && (forall i :: 0 <= i < |entries| ==> Shows(entries[i].attrs, t[entries[i].dn].attrs))
    && (forall d :: d in dns ==> exists i :: 0 <= i < |entries| && entries[i].dn == d)
  }

  ghost predicate SearchReplies(t: Tree, dn: Dn, scope: Scope, f: Filter, limit: nat, reliable: bool, code: Code,
                                entries: seq<SearchEntry>) {
    var hits := Hits(t, dn, scope, f);
    || (!reliable && code == Unavailable)
    || (dn !in t && code == NoSuchObject && entries == [])
    || (dn in t && 0 < limit < |hits| && code == SizeLimitExceeded)
    || (dn in t && !(0 < limit < |hits|) && code == Success && Lists(t, hits, entries))
  }

  /** What an empty password does depends on the client library: accepted, refused or not even sent. */
  predicate BindReplies(t: Tree, dn: Dn, password: string, reliable: bool, code: Code) {
    || (password == "" && code in {Success, InvalidCredentials, Unavailable})
    || (!reliable && code == Unavailable)
    || code == if dn in t && t[dn].password.Some? && Verifies(t[dn].password.value, password)
               then Success else InvalidCredentials
  }

  lemma ListsMore(t: Tree, dns: set<Dn>, entries: seq<SearchEntry>, e: SearchEntry)
    requires Lists(t, dns, entries) && e.dn !in dns && e.dn in t && Shows(e.attrs, t[e.dn].attrs)
    ensures Lists(t, dns + {e.dn}, entries + [e])
  {
    var more := entries + [e];
    forall d | d in dns + {e.dn} ensures exists i :: 0 <= i < |more| && more[i].dn == d {
      if d == e.dn {
        assert more[|entries|].dn == d;
      } else {
        var i :| 0 <= i < |entries| && entries[i].dn == d;
        assert more[i].dn == d;
      }
    }
  }

  class Server {
    const base: Dn
    var tree: Tree
    var reliable: bool

    ghost predicate Valid()
      reads this
    {
      WellFormed(base, tree)
    }

    constructor (base: Dn, tree: Tree, reliable: bool)
      requires WellFormed(base, tree)
      ensures Valid() && this.base == base && this.tree == tree && this.reliable == reliable
    {
      this.base, this.tree, this.reliable := base, tree, reliable;
    }

    /** Dialling and binding as the administrator. */
    method Connect() returns (code: Code)
      ensures code == Success || (code == Unavailable && !reliable)
    {
      var answered: bool := *;
      code := if reliable || answered then Success else Unavailable;
    }

    method Perform(op: Operation) returns (code: Code)
      requires Valid()
      modifies this`tree
      ensures Valid()
      ensures Responds(base, old(tree), op, reliable, code, tree)
    {
      ApplyKeepsShape(base, tree, op);
      var (result, after) := Apply(base, tree, op);
      var arrived: bool := *;
      var answered: bool := *;
      if reliable || arrived {
        tree := after;
      }
      code := if reliable || (arrived && answered) then result else Unavailable;
    }

    /** The password modify operation (RFC 3062 section 2) stores a hash of the server's own choosing. */
    method PasswordModify(dn: Dn, password: string) returns (code: Code, ghost hash: Hash)
      requires Valid()
      modifies this`tree
      ensures Valid()
      ensures password != "" ==> Verifies(hash, password)
      ensures Responds(base, old(tree), SetPassword(dn, hash), reliable, code, tree)
    {
      var salt: int := *;
      var chosen := Hash(salt, password);
      hash := chosen;
      code := Perform(SetPassword(dn, chosen));
    }

    method Bind(dn: Dn, password: string) returns (code: Code)
      ensures BindReplies(tree, dn, password, reliable, code)
    {
      var answered: bool := *;
      if !reliable && !answered {
        return Unavailable;
      }
      if dn in tree && tree[dn].password.Some? && Verifies(tree[dn].password.value, password) {
        return Success;
      }
      return InvalidCredentials;
    }

    method Search(dn: Dn, scope: Scope, f: Filter, limit: nat) returns (code: Code, entries: seq<SearchEntry>)
      ensures SearchReplies(tree, dn, scope, f, limit, reliable, code, entries)
    {
      entries := [];
      var answered: bool := *;
      if !reliable && !answered {
        return Unavailable, [];
      }
      if dn !in tree {
        return NoSuchObject, [];
      }
      var hits := Hits(tree, dn, scope, f);
      if 0 < limit < |hits| {
        return SizeLimitExceeded, [];
      }
      code := Success;
      entries := ListEntries(tree, hits);
    }
  }

  method ListEntries(t: Tree, dns: set<Dn>) returns (entries: seq<SearchEntry>)
    requires dns <= t.Keys
    ensures Lists(t, dns, entries)
  {
    entries := [];
    var rest := dns;
    while rest != {}
      invariant rest <= dns
      invariant Lists(t, dns - rest, entries)
    {
      var d :| d in rest;
      var attrs := ListAttributes(t[d].attrs);
      ListsMore(t, dns - rest, entries, SearchEntry(d, attrs));
      assert dns - rest + {d} == dns - (rest - {d});
      entries := entries + [SearchEntry(d, attrs)];
      rest := rest - {d};
    }
    assert dns - rest == dns;
  }

  method ListValues(s: set<string>) returns (vs: seq<string>)
    ensures Enumerates(vs, s)
  {
    vs := [];
    var rest := s;
    while rest != {}
      invariant rest <= s
      invariant Enumerates(vs, s - rest)
    {
      var v :| v in rest;
      vs := vs + [v];
      rest := rest - {v};
      assert s - rest == ToSet(vs[..|vs| - 1]) + {v};
    }
  }

  method ListAttributes(attrs: Attributes) returns (found: map<string, seq<string>>)
    ensures Shows(found, attrs)
  {
    found := map[];
    var rest := attrs.Keys;
    while rest != {}
      invariant rest <= attrs.Keys
      invariant found.Keys == attrs.Keys - rest
      invariant forall a :: a in found ==> Enumerates(found[a], attrs[a])
    {
      var a :| a in rest;
      var vs := ListValues(attrs[a]);
      found := found[a := vs];
      rest := rest - {a};
    }
  }
}
