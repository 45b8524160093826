// What a client call comes to when it runs operation by operation and nobody interferes: every outcome its contract
// allows has a run, and a cascading delete has one that succeeds.
module AloneRuns {
  import opened Common
  import opened DistinguishedNames
  import opened Dit
  import opened LdapClient
  import opened Convergence
  import opened Interleaving

  // ---------------------------------------------------------------- one task by itself

  ghost predicate WalkAt(base: Dn, ws: seq<(Tree, Task)>, i: nat)
    requires i + 1 < |ws|
  {
    TaskStep(base, ws[i].0, ws[i].1, ws[i + 1].0, ws[i + 1].1)
  }

  /** Step after step of one task. */
  ghost predicate Walk(base: Dn, ws: seq<(Tree, Task)>) {
    ws != [] && forall i: nat {:trigger WalkAt(base, ws, i)} :: i + 1 < |ws| ==> WalkAt(base, ws, i)
  }

  ghost predicate Leads(base: Dn, t: Tree, task: Task, t': Tree, task': Task) {
    exists ws :: Walk(base, ws) && ws[0] == (t, task) && ws[|ws| - 1] == (t', task')
  }

  lemma LeadsByStep(base: Dn, t: Tree, task: Task, t': Tree, task': Task)
    requires TaskStep(base, t, task, t', task')
    ensures Leads(base, t, task, t', task')
  {
    hide TaskStep;
    var ws := [(t, task), (t', task')];
    assert WalkAt(base, ws, 0);
    assert Walk(base, ws);
  }

  lemma LeadsOn(base: Dn, t: Tree, task: Task, m: Tree, between: Task, t': Tree, task': Task)
    requires Leads(base, t, task, m, between) && Leads(base, m, between, t', task')
    ensures Leads(base, t, task, t', task')
  {
    hide TaskStep;
    var a :| Walk(base, a) && a[0] == (t, task) && a[|a| - 1] == (m, between);
    var b :| Walk(base, b) && b[0] == (m, between) && b[|b| - 1] == (t', task');
    var ws := a + b[1..];
    forall i: nat | i + 1 < |ws| ensures WalkAt(base, ws, i) {
      if i + 1 < |a| {
        assert WalkAt(base, a, i);
      } else {
        assert WalkAt(base, b, i - (|a| - 1));
      }
    }
  }

  /** Such steps are a run of the machine in which nothing else is going on. */
  lemma LeadsIsRun(base: Dn, t: Tree, task: Task, t': Tree, task': Task, id: nat) returns (ss: seq<State>)
    requires WellFormed(base, t) && Interleaving.Fresh(task) && Leads(base, t, task, t', task')
    ensures Run(base, ss) && Alone(ss, id) && ss[0] == State(t, map[id := task])
    ensures ss[|ss| - 1] == State(t', map[id := task'])
  {
    hide TaskStep, WellFormed;
    var ws: seq<(Tree, Task)> :| Walk(base, ws) && ws[0] == (t, task) && ws[|ws| - 1] == (t', task');
    ss := seq(|ws|, i requires 0 <= i < |ws| => State(ws[i].0, map[id := ws[i].1]));
    forall i: nat | i + 1 < |ss| ensures NextAt(base, ss, i) {
      assert WalkAt(base, ws, i);
      assert Moves(base, ss[i], Step(id, ws[i + 1].1), ss[i + 1]);
    }
  }

  // ---------------------------------------------------------------- a create-or-update

  /** A search may return its hits in any order, and each hit's values in any order. */
  lemma {:induction false} ListingAfter(t: Tree, dns: set<Dn>, done: set<Dn>, entries: seq<SearchEntry>)
    returns (all: seq<SearchEntry>)
    requires dns <= t.Keys && done <= dns && Lists(t, done, entries)
    ensures Lists(t, dns, all) && entries <= all
    decreases dns - done
  {
    if dns - done == {} {
      assert done == dns;
      all := entries;
    } else {
      var d :| d in dns - done;
      var found := Showing(t[d].attrs);
      ListsMore(t, done, entries, SearchEntry(d, found));
      all := ListingAfter(t, dns, done + {d}, entries + [SearchEntry(d, found)]);
    }
  }

  /** One of the hits first, shown like this. */
  lemma ListingFrom(t: Tree, dns: set<Dn>, d: Dn, found: map<string, seq<string>>) returns (all: seq<SearchEntry>)
    requires dns <= t.Keys && d in dns && Shows(found, t[d].attrs)
    ensures Lists(t, dns, all) && all != [] && all[0] == SearchEntry(d, found)
  {
    hide Lists, Shows;
    NothingListed(t);
    ListsMore(t, {}, [], SearchEntry(d, found));
    assert {} + {d} == {d} && [] + [SearchEntry(d, found)] == [SearchEntry(d, found)];
    all := ListingAfter(t, dns, {d}, [SearchEntry(d, found)]);
  }

  lemma NothingListed(t: Tree)
    ensures Lists(t, {}, [])
  {
  }

  /** Whichever candidate the contract lets the search return first, it can. */
  lemma FindLeadsToUpdate(base: Dn, t: Tree, e: DirectoryEntry, found: map<string, seq<string>>)
    requires Picked(t, Candidates(t, e), found)
    ensures Leads(base, t, Writing(e, Finding), t, Writing(e, Modifying(Plan(ManagedAttributes(e), found))))
  {
    hide Leads, Plan, ManagedAttributes, FilterFor, Lists, Shows, Matches;
    var d :| d in Candidates(t, e) && d in t && Shows(found, t[d].attrs);
    var entries := ListingFrom(t, Candidates(t, e), d, found);
    assert SearchReplies(t, e.dn, WholeSubtree, FilterFor(e), 0, false, Success, entries);
    LeadsByStep(base, t, Writing(e, Finding), t, Writing(e, Modifying(Plan(ManagedAttributes(e), found))));
  }

  lemma FindLeadsToAdd(base: Dn, t: Tree, e: DirectoryEntry)
    requires Candidates(t, e) == {}
    ensures Leads(base, t, Writing(e, Finding), t, Writing(e, Adding))
  {
    hide Leads;
    assert Lists(t, {}, []);
    var code := if e.dn in t then Success else NoSuchObject;
    assert SearchReplies(t, e.dn, WholeSubtree, FilterFor(e), 0, false, code, []);
    LeadsByStep(base, t, Writing(e, Finding), t, Writing(e, Adding));
  }

  lemma FindFails(base: Dn, t: Tree, e: DirectoryEntry)
    ensures Leads(base, t, Writing(e, Finding), t, WriteOver(e, Refused(Unavailable)))
  {
    hide Leads;
    assert SearchReplies(t, e.dn, WholeSubtree, FilterFor(e), 0, false, Unavailable, []);
    LeadsByStep(base, t, Writing(e, Finding), t, WriteOver(e, Refused(Unavailable)));
  }

  lemma PasswordLeads(base: Dn, t: Tree, e: DirectoryEntry, created: bool, r: Outcome, t': Tree)
    requires e.UserEntry? && PasswordOutcome(base, t, e, false, created, r, t')
    ensures Leads(base, t, Writing(e, SettingPassword(created)), t', WriteOver(e, r))
  {
    hide Leads, Responds;
    LeadsByStep(base, t, Writing(e, SettingPassword(created)), t', WriteOver(e, r));
  }

  lemma AddLeads(base: Dn, t: Tree, e: DirectoryEntry, r: Outcome, t': Tree)
    requires CreateOutcome(base, t, e, false, r, t')
    ensures Leads(base, t, Writing(e, Adding), t', WriteOver(e, r))
  {
    hide Leads, Responds, PasswordOutcome, InitialAttributes;
    var code: Code, t1: Tree :| Responds(base, t, AddEntry(e.dn, InitialAttributes(e)), false, code, t1)
                    && if code != Success then r == Refused(code) && t' == t1
                       else if e.UserEntry? && e.password != "" then PasswordOutcome(base, t1, e, false, true, r, t')
                       else r == Done(true) && t' == t1;
    var next := Failing(e, code, AfterAdd(e));
    LeadsByStep(base, t, Writing(e, Adding), t1, next);
    if code == Success && e.UserEntry? && e.password != "" {
      PasswordLeads(base, t1, e, true, r, t');
      LeadsOn(base, t, Writing(e, Adding), t1, next, t', WriteOver(e, r));
    }
  }

  lemma VerifyLeads(base: Dn, t: Tree, e: DirectoryEntry, r: Outcome, t': Tree)
    requires e.UserEntry? && VerifyOutcome(base, t, e, false, r, t')
    ensures Leads(base, t, Writing(e, Verifying), t', WriteOver(e, r))
  {
    hide Leads, PasswordOutcome;
    if r == Refused(Unavailable) && t' == t {
      assert BindReplies(t, e.dn, e.password, false, Unavailable);
      LeadsByStep(base, t, Writing(e, Verifying), t', WriteOver(e, r));
    } else {
      var code :| BindReplies(t, e.dn, e.password, false, code)
                  && match code
                     case Success => r == Done(false) && t' == t
                     case InvalidCredentials => PasswordOutcome(base, t, e, false, false, r, t')
                     case _ => r == Refused(code) && t' == t;
      if code == InvalidCredentials {
        LeadsByStep(base, t, Writing(e, Verifying), t, Writing(e, SettingPassword(false)));
        PasswordLeads(base, t, e, false, r, t');
        LeadsOn(base, t, Writing(e, Verifying), t, Writing(e, SettingPassword(false)), t', WriteOver(e, r));
      } else {
        LeadsByStep(base, t, Writing(e, Verifying), t', WriteOver(e, r));
      }
    }
  }

  lemma ModifyLeads(base: Dn, t: Tree, e: DirectoryEntry, found: map<string, seq<string>>, r: Outcome, t': Tree)
    requires UpdateOutcome(base, t, e, found, false, r, t')
    ensures Leads(base, t, Writing(e, Modifying(Plan(ManagedAttributes(e), found))), t', WriteOver(e, r))
  {
    hide Leads, ModifyOutcome, VerifyOutcome, Plan, ManagedAttributes;
    var changes := Plan(ManagedAttributes(e), found);
    var code: Code, t1: Tree :| ModifyOutcome(base, t, e.dn, changes, false, code, t1)
                    && if code != Success then r == Refused(code) && t' == t1
                       else if e.UserEntry? then VerifyOutcome(base, t1, e, false, r, t')
                       else r == Done(false) && t' == t1;
    var next := Failing(e, code, AfterModify(e));
    LeadsByStep(base, t, Writing(e, Modifying(changes)), t1, next);
    if code == Success && e.UserEntry? {
      VerifyLeads(base, t1, e, r, t');
      LeadsOn(base, t, Writing(e, Modifying(changes)), t1, next, t', WriteOver(e, r));
    }
  }

  lemma UpsertLeads(base: Dn, t: Tree, e: DirectoryEntry, r: Outcome, t': Tree)
    requires UpsertOutcome(base, t, e, false, r, t')
    ensures Leads(base, t, Writing(e, Finding), t', WriteOver(e, r))
  {
    hide Leads, CreateOutcome, UpdateOutcome, Plan, ManagedAttributes;
    if r == Refused(Unavailable) && t' == t {
      FindFails(base, t, e);
    } else if Candidates(t, e) == {} && CreateOutcome(base, t, e, false, r, t') {
      FindLeadsToAdd(base, t, e);
      AddLeads(base, t, e, r, t');
      LeadsOn(base, t, Writing(e, Finding), t, Writing(e, Adding), t', WriteOver(e, r));
    } else {
      var found :| Picked(t, Candidates(t, e), found) && UpdateOutcome(base, t, e, found, false, r, t');
      var changes := Plan(ManagedAttributes(e), found);
      FindLeadsToUpdate(base, t, e, found);
      ModifyLeads(base, t, e, found, r, t');
      LeadsOn(base, t, Writing(e, Finding), t, Writing(e, Modifying(changes)), t', WriteOver(e, r));
    }
  }

  /** A run of a create-or-update by itself, from its beginning on t to its end on t'. */
  ghost predicate WritesAlone(base: Dn, t: Tree, e: DirectoryEntry, ss: seq<State>, r: Outcome, t': Tree) {
    && Run(base, ss) && Alone(ss, 0) && ss[0] == State(t, map[0 := Writing(e, Finding)])
    && ss[|ss| - 1] == State(t', map[0 := WriteOver(e, r)])
  }

  /** The outcomes of a create-or-update's contract are exactly those of its runs by itself. */
  lemma UpsertRunsExactly(base: Dn, t: Tree, e: DirectoryEntry, r: Outcome, t': Tree)
    requires WellFormed(base, t)
    ensures UpsertOutcome(base, t, e, false, r, t') <==> exists ss :: WritesAlone(base, t, e, ss, r, t')
  {
    hide UpsertOutcome, Leads, Run;
    if UpsertOutcome(base, t, e, false, r, t') {
      UpsertLeads(base, t, e, r, t');
      var ss := LeadsIsRun(base, t, Writing(e, Finding), t', WriteOver(e, r), 0);
      assert WritesAlone(base, t, e, ss, r, t');
    }
    if exists ss :: WritesAlone(base, t, e, ss, r, t') {
      var ss :| WritesAlone(base, t, e, ss, r, t');
      RunStarts(base, ss);
      UndisturbedUpsert(base, ss, |ss| - 1, 0, e);
    }
  }

  lemma RunStarts(base: Dn, ss: seq<State>)
    requires Run(base, ss)
    ensures ss != []
  {
  }

  // ---------------------------------------------------------------- a cascading delete

  /** What is left once the innermost activation has returned. */
  function Returned(root: Dn, rest: seq<Frame>): Task {
    if rest == [] then DeleteOver(root, Success) else Deleting(root, rest)
  }

  predicate ChildrenAre(t: Tree, dn: Dn, dns: seq<Dn>) {
    Distinct(dns) && (forall d :: d in dns ==> d in t) && forall d :: d in t ==> (IsChild(d, dn) <==> d in dns)
  }

  lemma ChildrenListed(t: Tree, dn: Dn) returns (entries: seq<SearchEntry>)
    requires dn in t
    ensures SearchReplies(t, dn, SingleLevel, Anything, 0, false, Success, entries)
    ensures ChildrenAre(t, dn, Dns(entries))
  {
    var hits := Hits(t, dn, SingleLevel, Anything);
    assert Lists(t, {}, []);
    entries := ListingAfter(t, hits, {}, []);
    var dns := Dns(entries);
    forall d | d in t ensures IsChild(d, dn) <==> d in dns {
      if d in hits {
        var i :| 0 <= i < |entries| && entries[i].dn == d;
        assert dns[i] == d;
      }
      if d in dns {
        var i :| 0 <= i < |dns| && dns[i] == d;
        assert entries[i].dn in hits;
      }
    }
    forall d | d in dns ensures d in t {
      var i :| 0 <= i < |dns| && dns[i] == d;
      assert entries[i].dn in t;
    }
  }

  /** A leaf is removed, and its activation returns. */
  lemma LeafLeads(base: Dn, t: Tree, root: Dn, dn: Dn, rest: seq<Frame>)
    requires WellFormed(base, t) && dn in t && ChildrenAre(t, dn, [])
    ensures Leads(base, t, Deleting(root, [Frame(dn, Some([]))] + rest), t - Subtree(t, dn), Returned(root, rest))
  {
    hide Leads;
    var stack := [Frame(dn, Some([]))] + rest;
    assert stack[1..] == rest;
    forall d | d in Subtree(t, dn) ensures d == dn {
      if d != dn {
        SubtreeSplits(base, t, dn, d);
      }
    }
    assert dn in Subtree(t, dn);
    assert Subtree(t, dn) == {dn};
    assert Responds(base, t, DeleteLeaf(dn), false, Success, t - {dn});
    LeadsByStep(base, t, Deleting(root, stack), t - {dn}, Returned(root, rest));
  }

  /** Without the first child's subtree the other children are left, and the rest of the subtree is the rest. */
  lemma FirstChildGone(base: Dn, t: Tree, dn: Dn, dns: seq<Dn>)
    requires WellFormed(base, t) && dn in t && dns != [] && ChildrenAre(t, dn, dns)
    ensures var c, t1 := dns[0], t - Subtree(t, dns[0]);
            && c in t && Subtree(t, c) < Subtree(t, dn)
            && WellFormed(base, t1) && dn in t1 && ChildrenAre(t1, dn, dns[1..])
            && t1 - Subtree(t1, dn) == t - Subtree(t, dn) && |Subtree(t1, dn)| < |Subtree(t, dn)|
  {
    hide WellFormed, ChildrenAre;
    var c, t1 := dns[0], t - Subtree(t, dns[0]);
    FirstChild(t, dn, dns);
    RemovingSubtreeKeepsShape(base, t, c);
    forall d | d in Subtree(t, c) ensures d in Subtree(t, dn) && d != dn {
      UnderChild(d, c, dn);
    }
    assert dn in Subtree(t, dn) && dn in t1;
    OtherChildrenLeft(t, dn, dns);
    assert Subtree(t1, dn) == Subtree(t, dn) - Subtree(t, c);
    SmallerSet(Subtree(t1, dn), Subtree(t, dn), c);
    assert t1 - Subtree(t1, dn) == t - Subtree(t, dn);
  }

  lemma FirstChild(t: Tree, dn: Dn, dns: seq<Dn>)
    requires dns != [] && ChildrenAre(t, dn, dns)
    ensures dns[0] in t && IsChild(dns[0], dn)
  {
    assert dns[0] in dns;
  }

  lemma OtherChildrenLeft(t: Tree, dn: Dn, dns: seq<Dn>)
    requires dns != [] && ChildrenAre(t, dn, dns)
    ensures ChildrenAre(t - Subtree(t, dns[0]), dn, dns[1..])
  {
    var c, t1 := dns[0], t - Subtree(t, dns[0]);
    assert c in dns && IsChild(c, dn) && c in Subtree(t, c);
    forall d | d in dns[1..] ensures d in t1 {
      assert d in dns && d != c && IsChild(d, dn);
      SiblingsApart(d, c, dn);
    }
  }

  lemma SiblingsApart(d: Dn, c: Dn, dn: Dn)
    requires IsChild(d, dn) && IsChild(c, dn) && d != c
    ensures !Under(d, c)
  {
    assert |d| == |c|;
  }

  lemma SmallerSet(a: set<Dn>, b: set<Dn>, x: Dn)
    requires a <= b && x in b && x !in a
    ensures |a| < |b|
  {
    assert b == a + (b - a);
    assert x in b - a;
  }

  lemma NextChildCalled(base: Dn, t: Tree, root: Dn, dn: Dn, dns: seq<Dn>, rest: seq<Frame>)
    requires dns != []
    ensures Leads(base, t, Deleting(root, [Frame(dn, Some(dns))] + rest),
                  t, Deleting(root, [Frame(dns[0], None)] + ([Frame(dn, Some(dns[1..]))] + rest)))
  {
    hide Leads;
    var listed, called := [Frame(dn, Some(dns))] + rest, [Frame(dns[0], None)] + ([Frame(dn, Some(dns[1..]))] + rest);
    assert listed[1..] == rest && called == [Frame(dns[0], None), Frame(dn, Some(dns[1..]))] + rest;
    LeadsByStep(base, t, Deleting(root, listed), t, Deleting(root, called));
  }

  /** An activation that has just begun removes its subtree and returns. */
  lemma {:induction false} SubtreeLeads(base: Dn, t: Tree, root: Dn, dn: Dn, rest: seq<Frame>)
    requires WellFormed(base, t) && dn in t
    ensures Leads(base, t, Deleting(root, [Frame(dn, None)] + rest), t - Subtree(t, dn), Returned(root, rest))
    decreases |Subtree(t, dn)|, 1
  {
    hide Leads, WellFormed;
    var entries := ChildrenListed(t, dn);
    var begun, listed := [Frame(dn, None)] + rest, [Frame(dn, Some(Dns(entries)))] + rest;
    assert begun[1..] == rest;
    LeadsByStep(base, t, Deleting(root, begun), t, Deleting(root, listed));
    ListedLead(base, t, root, dn, Dns(entries), rest);
    LeadsOn(base, t, Deleting(root, begun), t, Deleting(root, listed), t - Subtree(t, dn), Returned(root, rest));
  }

  /** One that has listed its children removes them one after the other, and then itself. */
  lemma {:induction false} ListedLead(base: Dn, t: Tree, root: Dn, dn: Dn, dns: seq<Dn>, rest: seq<Frame>)
    requires WellFormed(base, t) && dn in t && ChildrenAre(t, dn, dns)
    ensures Leads(base, t, Deleting(root, [Frame(dn, Some(dns))] + rest), t - Subtree(t, dn), Returned(root, rest))
    decreases |Subtree(t, dn)|, 0
  {
    hide Leads, WellFormed;
    if dns == [] {
      LeafLeads(base, t, root, dn, rest);
    } else {
      FirstChildGone(base, t, dn, dns);
      var c, t1, left := dns[0], t - Subtree(t, dns[0]), [Frame(dn, Some(dns[1..]))] + rest;
      var listed, called := [Frame(dn, Some(dns))] + rest, [Frame(c, None)] + left;
      NextChildCalled(base, t, root, dn, dns, rest);
      assert |Subtree(t, c)| < |Subtree(t, dn)| by {
        SmallerSet(Subtree(t, c), Subtree(t, dn), dn);
      }
      SubtreeLeads(base, t, root, c, left);
      LeadsOn(base, t, Deleting(root, listed), t, Deleting(root, called), t1, Deleting(root, left));
      ListedLead(base, t1, root, dn, dns[1..], rest);
      LeadsOn(base, t, Deleting(root, listed), t1, Deleting(root, left), t - Subtree(t, dn), Returned(root, rest));
    }
  }

  lemma MissingLeads(base: Dn, t: Tree, root: Dn)
    requires root !in t
    ensures Leads(base, t, Deleting(root, [Frame(root, None)]), t, DeleteOver(root, Success))
  {
    hide Leads;
    var listed := Deleting(root, [Frame(root, Some([]))]);
    assert SearchReplies(t, root, SingleLevel, Anything, 0, false, NoSuchObject, []);
    assert [Frame(root, Some(Dns([])))] + [Frame(root, None)][1..] == listed.stack;
    LeadsByStep(base, t, Deleting(root, [Frame(root, None)]), t, listed);
    assert Responds(base, t, DeleteLeaf(root), false, NoSuchObject, t);
    LeadsByStep(base, t, listed, t, DeleteOver(root, Success));
    LeadsOn(base, t, Deleting(root, [Frame(root, None)]), t, listed, t, DeleteOver(root, Success));
  }

  /** From every tree a cascading delete by itself can succeed, and has then removed the subtree and nothing else. */
  lemma DeleteCanSucceed(base: Dn, t: Tree, root: Dn) returns (ss: seq<State>)
    requires WellFormed(base, t)
    ensures Run(base, ss) && Alone(ss, 0) && ss[0] == State(t, map[0 := Deleting(root, [Frame(root, None)])])
    ensures ss[|ss| - 1] == State(t - Subtree(t, root), map[0 := DeleteOver(root, Success)])
  {
    hide Leads, WellFormed;
    if root in t {
      SubtreeLeads(base, t, root, root, []);
      assert [Frame(root, None)] + [] == [Frame(root, None)];
    } else {
      MissingLeads(base, t, root);
      assert t - Subtree(t, root) == t;
    }
    ss := LeadsIsRun(base, t, Deleting(root, [Frame(root, None)]), t - Subtree(t, root), DeleteOver(root, Success), 0);
  }
}
