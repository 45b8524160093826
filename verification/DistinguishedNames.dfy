// Distinguished names: the two printers the operator has, and the parser that undoes them.
module DistinguishedNames {
  import opened Strings

  datatype Rdn = Rdn(attr: string, value: string)

  /** A parsed DN, leaf first: uid=demo,ou=users,dc=example,dc=com has four components. */
  type Dn = seq<Rdn>

  /** d is root or lies below it. */
  predicate Under(d: Dn, root: Dn) {
    |root| <= |d| && d[|d| - |root|..] == root
  }

  /** The name an LDAPDirectory object computes for itself. */
  function DirectoryDn(domain: string): string {
    "dc=" + Join(Split(domain, '.'), ",dc=")
  }

  /** The base DN the client builder computes for the same directory. */
  function ClientBaseDn(domain: string): string {
    "dc=" + ReplaceAll(domain, '.', ",dc=")
  }

  lemma BaseDnsAgree(domain: string)
    ensures DirectoryDn(domain) == ClientBaseDn(domain)
  {
    JoinOfSplitReplaces(domain, '.', ",dc=");
  }

  function PrintRdn(r: Rdn): string {
    r.attr + "=" + r.value
  }

  /** What GetDistinguishedName concatenates along a parent chain that ends in a directory. */
  function Print(chain: seq<Rdn>, domain: string): string {
    if chain == [] then DirectoryDn(domain) else PrintRdn(chain[0]) + "," + Print(chain[1..], domain)
  }

  /** Everything before the first '=' is the attribute; without one, the whole component is. */
  function ParseRdn(s: string): Rdn {
    if s == "" then Rdn("", "")
    else if s[0] == '=' then Rdn("", s[1..])
    else var r := ParseRdn(s[1..]); r.(attr := [s[0]] + r.attr)
  }

  function ParseRdns(parts: seq<string>): (dn: Dn)
    ensures |dn| == |parts|
    ensures forall i :: 0 <= i < |parts| ==> dn[i] == ParseRdn(parts[i])
  {
    if parts == [] then [] else [ParseRdn(parts[0])] + ParseRdns(parts[1..])
  }

  function ParseDn(s: string): Dn {
    ParseRdns(Split(s, ','))
  }

  /** The DN a chain of objects is meant to have. */
  function Path(chain: seq<Rdn>, domain: string): Dn {
    chain + BasePath(domain)
  }

  lemma PathOfCons(chain: seq<Rdn>, domain: string)
    requires chain != []
    ensures Path(chain, domain) == [chain[0]] + Path(chain[1..], domain)
  {
    ConcatTail(chain, BasePath(domain));
  }

  lemma PathDrop(chain: seq<Rdn>, domain: string, i: nat)
    requires i <= |chain|
    ensures Path(chain, domain)[i..] == Path(chain[i..], domain)
  {
  }

  function BasePath(domain: string): Dn {
    DcRdns(Split(domain, '.'))
  }

  function DcRdns(labels: seq<string>): (dn: Dn)
    ensures |dn| == |labels|
    ensures forall i :: 0 <= i < |labels| ==> dn[i] == Rdn("dc", labels[i])
  {
    if labels == [] then [] else [Rdn("dc", labels[0])] + DcRdns(labels[1..])
  }

  /** The attributes that name organizational units, groups and users. */
  predicate ObjectAttribute(attr: string) {
    attr == "ou" || attr == "cn" || attr == "uid"
  }

  predicate ObjectChain(chain: seq<Rdn>) {
    forall i :: 0 <= i < |chain| ==> ObjectAttribute(chain[i].attr)
  }

  predicate CommaFree(chain: seq<Rdn>, domain: string) {
    ',' !in domain && forall i :: 0 <= i < |chain| ==> ',' !in chain[i].value
  }

  // ---------------------------------------------------------------- parsing what was printed

  lemma {:induction false} ParseRdnOfPrinted(r: Rdn)
    requires '=' !in r.attr
    ensures ParseRdn(PrintRdn(r)) == r
    decreases |r.attr|
  {
    if r.attr == "" {
      assert PrintRdn(r) == "=" + r.value;
    } else {
      var tail := Rdn(r.attr[1..], r.value);
      assert r.attr == [r.attr[0]] + tail.attr;
      ParseRdnOfPrinted(tail);
      assert PrintRdn(r) == [r.attr[0]] + PrintRdn(tail);
    }
  }

  lemma ParseRdnsOfConcat(a: seq<string>, b: seq<string>)
    ensures ParseRdns(a + b) == ParseRdns(a) + ParseRdns(b)
  {
  }

  /** A comma always separates components, whatever stands on either side of it. */
  lemma ParseDnAtComma(u: string, v: string)
    ensures ParseDn(u + "," + v) == ParseDn(u) + ParseDn(v)
  {
    SplitOfConcat(u, v, ',');
    ParseRdnsOfConcat(Split(u, ','), Split(v, ','));
  }

  /** Printing one object in front of its parent's DN puts one component in front, if its name has no comma. */
  lemma ParseDnOfCons(r: Rdn, rest: string)
    requires ObjectAttribute(r.attr) || r.attr == "dc"
    ensures |ParseDn(PrintRdn(r) + "," + rest)| == 1 + Count(r.value, ',') + |ParseDn(rest)|
    ensures ',' !in r.value ==> ParseDn(PrintRdn(r) + "," + rest) == [r] + ParseDn(rest)
  {
    ParseDnAtComma(PrintRdn(r), rest);
    SplitCounts(PrintRdn(r), ',');
    CountOfPrinted(r.attr + "=", r.value);
    CountZero(r.attr + "=", ',');
    if ',' !in r.value {
      SplitOfFree(PrintRdn(r), ',');
      ParseRdnOfPrinted(r);
    }
  }

  lemma {:induction false} CountOfPrinted(u: string, v: string)
    ensures Count(u + v, ',') == Count(u, ',') + Count(v, ',')
  {
    if u == "" {
      assert u + v == v;
    } else {
      assert (u + v)[1..] == u[1..] + v;
      CountOfPrinted(u[1..], v);
    }
  }

  function Commas(parts: seq<string>): nat {
    if parts == [] then 0 else Count(parts[0], ',') + Commas(parts[1..])
  }

  lemma {:induction false} CommasZero(parts: seq<string>)
    ensures Commas(parts) == 0 <==> forall i :: 0 <= i < |parts| ==> ',' !in parts[i]
  {
    if parts != [] {
      CommasZero(parts[1..]);
      CountZero(parts[0], ',');
      assert parts == [parts[0]] + parts[1..];
    }
  }

  lemma {:induction false} ParseLabels(labels: seq<string>)
    requires labels != []
    ensures |ParseDn("dc=" + Join(labels, ",dc="))| == |labels| + Commas(labels)
    ensures Commas(labels) == 0 ==> ParseDn("dc=" + Join(labels, ",dc=")) == DcRdns(labels)
  {
    var r := Rdn("dc", labels[0]);
    if |labels| == 1 {
      assert "dc=" + Join(labels, ",dc=") == PrintRdn(r);
      assert Commas(labels) == Count(labels[0], ',');
      SplitCounts(PrintRdn(r), ',');
      CountOfPrinted("dc=", labels[0]);
      CountZero("dc=", ',');
      CountZero(labels[0], ',');
      if ',' !in labels[0] {
        SplitOfFree(PrintRdn(r), ',');
        ParseRdnOfPrinted(r);
      }
    } else {
      ParseLabels(labels[1..]);
      ParseDnOfCons(r, "dc=" + Join(labels[1..], ",dc="));
      CountZero(labels[0], ',');
      assert "dc=" + Join(labels, ",dc=") == PrintRdn(r) + "," + ("dc=" + Join(labels[1..], ",dc="));
    }
  }

  lemma {:induction false} LabelsCommaFree(domain: string)
    ensures Commas(Split(domain, '.')) == Count(domain, ',')
  {
    if domain != "" {
      LabelsCommaFree(domain[1..]);
      var rest := Split(domain[1..], '.');
      if domain[0] == '.' {
        assert ([""] + rest)[1..] == rest;
      } else {
        var parts := [[domain[0]] + rest[0]] + rest[1..];
        assert parts[1..] == rest[1..];
        assert ([domain[0]] + rest[0])[1..] == rest[0];
      }
    }
  }

  function ChainValues(chain: seq<Rdn>): (vs: seq<string>)
    ensures |vs| == |chain|
    ensures forall i :: 0 <= i < |chain| ==> vs[i] == chain[i].value
  {
    if chain == [] then [] else [chain[0].value] + ChainValues(chain[1..])
  }

  lemma CommasOfChain(chain: seq<Rdn>)
    requires chain != []
    ensures Commas(ChainValues(chain)) == Count(chain[0].value, ',') + Commas(ChainValues(chain[1..]))
  {
  }

  lemma {:induction false} ParsedLength(chain: seq<Rdn>, domain: string)
    requires ObjectChain(chain)
    ensures |ParseDn(Print(chain, domain))| == |Path(chain, domain)| + Commas(ChainValues(chain)) + Count(domain, ',')
  {
    if chain == [] {
      ParseLabels(Split(domain, '.'));
      LabelsCommaFree(domain);
    } else {
      ParsedLength(chain[1..], domain);
      ParseDnOfCons(chain[0], Print(chain[1..], domain));
      CommasOfChain(chain);
    }
  }

  lemma ParseDirectoryDn(domain: string)
    requires ',' !in domain
    ensures ParseDn(DirectoryDn(domain)) == BasePath(domain)
  {
    ParseLabels(Split(domain, '.'));
    LabelsCommaFree(domain);
    CountZero(domain, ',');
  }

  lemma {:induction false} ParsePrinted(chain: seq<Rdn>, domain: string)
    requires ObjectChain(chain) && CommaFree(chain, domain)
    ensures ParseDn(Print(chain, domain)) == Path(chain, domain)
  {
    if chain == [] {
      ParseDirectoryDn(domain);
    } else {
      var rest := chain[1..];
      ParsePrinted(rest, domain);
      ParseDnOfCons(chain[0], Print(rest, domain));
      PathOfCons(chain, domain);
    }
  }

  /** The parser undoes the printer exactly on the names that hold no comma. */
  lemma RoundTripExactly(chain: seq<Rdn>, domain: string)
    requires ObjectChain(chain)
    ensures ParseDn(Print(chain, domain)) == Path(chain, domain) <==> CommaFree(chain, domain)
  {
    if CommaFree(chain, domain) {
      ParsePrinted(chain, domain);
    } else {
      ParsedLength(chain, domain);
      CommasZero(ChainValues(chain));
      CountZero(domain, ',');
      if Commas(ChainValues(chain)) == 0 {
        assert forall i :: 0 <= i < |chain| ==> ',' !in ChainValues(chain)[i];
      }
    }
  }

  /** Two comma-free chains print alike only if kinds, names and domain all agree. */
  lemma PrintInjective(a: seq<Rdn>, da: string, b: seq<Rdn>, db: string)
    requires ObjectChain(a) && ObjectChain(b) && CommaFree(a, da) && CommaFree(b, db)
    requires Print(a, da) == Print(b, db)
    ensures a == b && da == db
  {
    ParsePrinted(a, da);
    ParsePrinted(b, db);
    PathInjective(a, da, b, db);
  }

  /** The directory's own components start where the object components end. */
  lemma PathAttribute(chain: seq<Rdn>, domain: string, i: nat)
    requires ObjectChain(chain) && i < |Path(chain, domain)|
    ensures Path(chain, domain)[i].attr == "dc" <==> i >= |chain|
  {
  }

  lemma PathInjective(a: seq<Rdn>, da: string, b: seq<Rdn>, db: string)
    requires ObjectChain(a) && ObjectChain(b)
    requires Path(a, da) == Path(b, db)
    ensures a == b && da == db
  {
    var p, q := Path(a, da), Path(b, db);
    var shorter := if |a| < |b| then |a| else |b|;
    PathAttribute(a, da, shorter);
    PathAttribute(b, db, shorter);
    assert a == p[..|a|] && b == q[..|b|];
    assert BasePath(da) == p[|a|..] && BasePath(db) == q[|b|..];
    forall i | 0 <= i < |Split(da, '.')| ensures Split(da, '.')[i] == Split(db, '.')[i] {
      assert BasePath(da)[i] == BasePath(db)[i];
    }
    SplitInjective(da, db, '.');
  }

  /** With a comma in a name two different objects share one DN. */
  lemma CommaCollision(domain: string)
    ensures Print([Rdn("ou", "a,ou=b")], domain) == Print([Rdn("ou", "a"), Rdn("ou", "b")], domain)
  {
  }

  // ---------------------------------------------------------------- ancestry and subtrees

  predicate EndsWith(s: string, t: string) {
    |t| <= |s| && s[|s| - |t|..] == t
  }

  /** The chain of b passes through an object whose DN is that of a. */
  ghost predicate PassesThrough(b: seq<Rdn>, db: string, a: seq<Rdn>, da: string) {
    exists i :: 0 <= i < |b| && Print(b[i..], db) == Print(a, da)
  }

  lemma {:induction false} PrintSuffix(b: seq<Rdn>, db: string, i: nat)
    requires i <= |b|
    ensures i == 0 || EndsWith(Print(b, db), "," + Print(b[i..], db))
  {
    if i == 1 {
      assert Print(b, db) == PrintRdn(b[0]) + ("," + Print(b[1..], db));
    } else if i > 1 {
      PrintSuffix(b[1..], db, i - 1);
      assert b[1..][i - 1..] == b[i..];
      var s, t := Print(b[1..], db), "," + Print(b[i..], db);
      var p := PrintRdn(b[0]) + "," + s;
      assert p[|p| - |s|..] == s;
      assert p[|p| - |t|..] == s[|s| - |t|..];
    }
  }

  /**
   * Object ancestry is the LDAP subtree relation, on strings: the DN of b is that of a, or ends in a comma and the
   * DN of a, exactly when the parent chain of b passes through an object with a's DN.
   */
  lemma AncestryIsSubtree(a: seq<Rdn>, da: string, b: seq<Rdn>, db: string)
    requires a != [] && ObjectChain(a) && ObjectChain(b) && CommaFree(a, da) && CommaFree(b, db)
    ensures (Print(b, db) == Print(a, da) || EndsWith(Print(b, db), "," + Print(a, da)))
            <==> PassesThrough(b, db, a, da)
    ensures Under(Path(b, db), Path(a, da)) <==> PassesThrough(b, db, a, da)
  {
    if Print(b, db) == Print(a, da) || EndsWith(Print(b, db), "," + Print(a, da)) {
      SuffixIsUnder(a, da, b, db);
      UnderPasses(a, da, b, db);
    }
    if Under(Path(b, db), Path(a, da)) {
      UnderPasses(a, da, b, db);
    }
    if PassesThrough(b, db, a, da) {
      PassesIsSuffix(a, da, b, db);
    }
  }

  lemma PassesIsSuffix(a: seq<Rdn>, da: string, b: seq<Rdn>, db: string)
    requires a != [] && ObjectChain(a) && ObjectChain(b) && CommaFree(a, da) && CommaFree(b, db)
    requires PassesThrough(b, db, a, da)
    ensures Print(b, db) == Print(a, da) || EndsWith(Print(b, db), "," + Print(a, da))
    ensures Under(Path(b, db), Path(a, da))
  {
    var i :| 0 <= i < |b| && Print(b[i..], db) == Print(a, da);
    PrintSuffix(b, db, i);
    if i == 0 {
      assert b[i..] == b;
    }
    PrintInjective(b[i..], db, a, da);
    PathDrop(b, db, i);
  }

  lemma SuffixIsUnder(a: seq<Rdn>, da: string, b: seq<Rdn>, db: string)
    requires a != [] && ObjectChain(a) && ObjectChain(b) && CommaFree(a, da) && CommaFree(b, db)
    requires Print(b, db) == Print(a, da) || EndsWith(Print(b, db), "," + Print(a, da))
    ensures Under(Path(b, db), Path(a, da))
  {
    var s, t := Print(b, db), Print(a, da);
    ParsePrinted(a, da);
    ParsePrinted(b, db);
    if s != t {
      var u := s[..|s| - |t| - 1];
      assert s == u + "," + t;
      ParseDnAtComma(u, t);
    }
  }

  lemma UnderPasses(a: seq<Rdn>, da: string, b: seq<Rdn>, db: string)
    requires a != [] && ObjectChain(a) && ObjectChain(b)
    requires Under(Path(b, db), Path(a, da))
    ensures PassesThrough(b, db, a, da)
  {
    var p, q := Path(a, da), Path(b, db);
    var i := |q| - |p|;
    assert q[i] == q[i..][0] == p[0] == a[0];
    PathAttribute(b, db, i);
    PathDrop(b, db, i);
    PathInjective(b[i..], db, a, da);
  }
}
