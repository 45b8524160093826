// Any number of LDAP client calls at once on one tree: each of their server operations is one step, and a call may
// fail, or its process crash, between any two of them.
module Interleaving {
  import opened Common
  import opened DistinguishedNames
  import opened Dit
  import opened LdapClient

  /** One activation of the recursive delete: its dn, and the children still to be deleted once it has searched. */
  datatype Frame = Frame(dn: Dn, listed: Option<seq<Dn>>)

  datatype WritePoint = Finding | Adding | Modifying(changes: seq<Change>) | Verifying | SettingPassword(created: bool)

  /** A cascading delete, its stack innermost first, or a create-or-update; and what is left of either. */
  datatype Task =
    | Deleting(root: Dn, stack: seq<Frame>)
    | DeleteOver(root: Dn, code: Code)
    | Writing(entry: DirectoryEntry, at: WritePoint)
    | WriteOver(entry: DirectoryEntry, outcome: Outcome)

  datatype State = State(tree: Tree, tasks: map<nat, Task>)

  // ---------------------------------------------------------------- one step of one task

  /** Both the search and the removal take a missing entry for success. */
  predicate Tolerated(code: Code) {
    code == Success || code == NoSuchObject
  }

  function Dns(entries: seq<SearchEntry>): (r: seq<Dn>)
    ensures |r| == |entries|
  {
    seq(|entries|, i requires 0 <= i < |entries| => entries[i].dn)
  }

  ghost predicate SearchStep(t: Tree, root: Dn, stack: seq<Frame>, next: Task)
    requires stack != []
  {
    exists code: Code, entries: seq<SearchEntry> ::
      && SearchReplies(t, stack[0].dn, SingleLevel, Anything, 0, false, code, entries)
      && next == if Tolerated(code) then Deleting(root, [Frame(stack[0].dn, Some(Dns(entries)))] + stack[1..])
                 else DeleteOver(root, code)
  }

  ghost predicate RemoveStep(base: Dn, t: Tree, root: Dn, stack: seq<Frame>, t': Tree, next: Task)
    requires stack != []
  {
    exists code: Code ::
      && Responds(base, t, DeleteLeaf(stack[0].dn), false, code, t')
      && next == if !Tolerated(code) then DeleteOver(root, code)
                 else if |stack| == 1 then DeleteOver(root, Success)
                 else Deleting(root, stack[1..])
  }

  ghost predicate DeleteStep(base: Dn, t: Tree, root: Dn, stack: seq<Frame>, t': Tree, next: Task) {
    && stack != []
    && match stack[0].listed
       case None => t' == t && SearchStep(t, root, stack, next)
       case Some(dns) =>
         if dns == [] then RemoveStep(base, t, root, stack, t', next)
         else t' == t && next == Deleting(root, [Frame(dns[0], None), Frame(stack[0].dn, Some(dns[1..]))] + stack[1..])
  }

  function Failing(e: DirectoryEntry, code: Code, rest: Task): Task {
    if code == Success then rest else WriteOver(e, Refused(code))
  }

  function AfterAdd(e: DirectoryEntry): Task {
    if e.UserEntry? && e.password != "" then Writing(e, SettingPassword(true)) else WriteOver(e, Done(true))
  }

  function AfterModify(e: DirectoryEntry): Task {
    if e.UserEntry? then Writing(e, Verifying) else WriteOver(e, Done(false))
  }

  ghost predicate FindStep(t: Tree, e: DirectoryEntry, next: Task) {
    exists code: Code, entries: seq<SearchEntry> ::
      && SearchReplies(t, e.dn, WholeSubtree, FilterFor(e), 0, false, code, entries)
      && next == if !Tolerated(code) then WriteOver(e, Refused(code))
                 else if entries == [] then Writing(e, Adding)
                 else Writing(e, Modifying(Plan(ManagedAttributes(e), entries[0].attrs)))
  }

  ghost predicate PasswordStep(base: Dn, t: Tree, e: DirectoryEntry, created: bool, t': Tree, next: Task) {
    && e.UserEntry?
    && exists hash: Hash, code: Code ::
         PasswordSet(base, t, e, hash, false, code, t') && next == Failing(e, code, WriteOver(e, Done(created)))
  }

  ghost predicate VerifyStep(t: Tree, e: DirectoryEntry, next: Task) {
    && e.UserEntry?
    && exists code: Code ::
         && BindReplies(t, e.dn, e.password, false, code)
         && next == if code == InvalidCredentials then Writing(e, SettingPassword(false))
                    else Failing(e, code, WriteOver(e, Done(false)))
  }

  ghost predicate WriteStep(base: Dn, t: Tree, e: DirectoryEntry, at: WritePoint, t': Tree, next: Task) {
    match at
    case Finding => t' == t && FindStep(t, e, next)
    case Adding =>
      exists code: Code ::
        && Responds(base, t, AddEntry(e.dn, InitialAttributes(e)), false, code, t')
        && next == Failing(e, code, AfterAdd(e))
    case Modifying(changes) =>
      exists code: Code ::
        ModifyOutcome(base, t, e.dn, changes, false, code, t') && next == Failing(e, code, AfterModify(e))
    case Verifying => t' == t && VerifyStep(t, e, next)
    case SettingPassword(created) => PasswordStep(base, t, e, created, t', next)
  }

  ghost predicate TaskStep(base: Dn, t: Tree, task: Task, t': Tree, next: Task) {
    match task
    case Deleting(root, stack) => DeleteStep(base, t, root, stack, t', next)
    case Writing(e, at) => WriteStep(base, t, e, at, t', next)
    case _ => false
  }

  // ---------------------------------------------------------------- all tasks together

  datatype Move = Start(id: nat, task: Task) | Step(id: nat, next: Task) | Crash(id: nat)

  predicate Fresh(task: Task) {
    || (task.Deleting? && task.stack == [Frame(task.root, None)])
    || (task.Writing? && task.at == Finding)
  }

  ghost predicate Moves(base: Dn, s: State, m: Move, s': State) {
    match m
    case Start(id, task) => id !in s.tasks && Fresh(task) && s' == s.(tasks := s.tasks[id := task])
    case Step(id, next) =>
      && id in s.tasks && TaskStep(base, s.tree, s.tasks[id], s'.tree, next)
      && s'.tasks == s.tasks[id := next]
    case Crash(id) => id in s.tasks && s' == s.(tasks := s.tasks - {id})
  }

  ghost predicate Next(base: Dn, s: State, s': State) {
    exists m :: Moves(base, s, m, s')
  }

  ghost predicate NextAt(base: Dn, ss: seq<State>, i: nat)
    requires i + 1 < |ss|
  {
    Next(base, ss[i], ss[i + 1])
  }

  /** A run: any starts, steps and crashes, from calls that have only just begun. */
  ghost predicate Run(base: Dn, ss: seq<State>) {
    && ss != []
    && WellFormed(base, ss[0].tree)
    && (forall id :: id in ss[0].tasks ==> Fresh(ss[0].tasks[id]))
    && forall i: nat {:trigger NextAt(base, ss, i)} :: i + 1 < |ss| ==> NextAt(base, ss, i)
  }

  // ---------------------------------------------------------------- what every step keeps

  ghost predicate FrameFine(f: Frame) {
    f.listed.Some? ==> forall d :: d in f.listed.value ==> IsChild(d, f.dn)
  }

  /** Each frame is for a child of the next one out, the outermost for the root, and listed names are children. */
  ghost predicate StackFine(root: Dn, stack: seq<Frame>) {
    && stack != [] && FrameFine(stack[0])
    && if |stack| == 1 then stack[0].dn == root
       else IsChild(stack[0].dn, stack[1].dn) && StackFine(root, stack[1..])
  }

  ghost predicate TaskFine(task: Task) {
    task.Deleting? ==> StackFine(task.root, task.stack)
  }

  ghost predicate Fine(base: Dn, s: State) {
    && WellFormed(base, s.tree)
    && forall id {:trigger TaskFine(s.tasks[id])} :: id in s.tasks ==> TaskFine(s.tasks[id])
  }

  lemma {:induction false} TopUnderRoot(root: Dn, stack: seq<Frame>)
    requires StackFine(root, stack)
    ensures Under(stack[0].dn, root)
    decreases |stack|
  {
    if |stack| > 1 {
      TopUnderRoot(root, stack[1..]);
      var d := stack[0].dn;
      assert d[1..] == stack[1].dn;
      assert d[|d| - |root|..] == d[1..][|d| - 1 - |root|..];
    }
  }

  /** The tree is as it was, or has lost one entry at or below root. */
  ghost predicate LosesAtMostOne(t: Tree, t': Tree, root: Dn) {
    t' == t || exists d :: d in t && Under(d, root) && t' == t - {d}
  }

  lemma RelistedFine(root: Dn, stack: seq<Frame>, dns: seq<Dn>)
    requires StackFine(root, stack) && forall d :: d in dns ==> IsChild(d, stack[0].dn)
    ensures StackFine(root, [Frame(stack[0].dn, Some(dns))] + stack[1..])
  {
  }

  lemma CalledFine(root: Dn, stack: seq<Frame>, dns: seq<Dn>)
    requires StackFine(root, stack) && dns != [] && forall d :: d in dns ==> IsChild(d, stack[0].dn)
    ensures StackFine(root, [Frame(dns[0], None), Frame(stack[0].dn, Some(dns[1..]))] + stack[1..])
  {
  }

  /** Every child is listed, and only children are. */
  lemma SearchListsChildren(t: Tree, dn: Dn, code: Code, entries: seq<SearchEntry>)
    requires SearchReplies(t, dn, SingleLevel, Anything, 0, false, code, entries) && Tolerated(code)
    ensures forall d :: d in Dns(entries) ==> IsChild(d, dn)
    ensures forall d :: d in t && dn in t && IsChild(d, dn) ==> d in Dns(entries)
  {
    forall d | d in t && dn in t && IsChild(d, dn) ensures d in Dns(entries) {
      assert d in Hits(t, dn, SingleLevel, Anything);
      var i :| 0 <= i < |entries| && entries[i].dn == d;
      assert Dns(entries)[i] == d;
    }
  }

  /** A delete's step removes at most one entry, at or below its root, and leaves all others as they were. */
  lemma DeleteStepEffect(base: Dn, t: Tree, root: Dn, stack: seq<Frame>, t': Tree, next: Task)
    requires WellFormed(base, t) && StackFine(root, stack) && DeleteStep(base, t, root, stack, t', next)
    ensures WellFormed(base, t') && TaskFine(next) && LosesAtMostOne(t, t', root)
    ensures (next.Deleting? || next.DeleteOver?) && next.root == root
  {
    match stack[0].listed
    case None =>
      var code: Code, entries: seq<SearchEntry> :|
        && SearchReplies(t, stack[0].dn, SingleLevel, Anything, 0, false, code, entries)
        && next == if Tolerated(code) then Deleting(root, [Frame(stack[0].dn, Some(Dns(entries)))] + stack[1..])
                   else DeleteOver(root, code);
      if Tolerated(code) {
        SearchListsChildren(t, stack[0].dn, code, entries);
        RelistedFine(root, stack, Dns(entries));
      }
    case Some(dns) =>
      if dns == [] {
        RemoveStepEffect(base, t, root, stack, t', next);
      } else {
        CalledFine(root, stack, dns);
      }
  }

  lemma RemoveStepEffect(base: Dn, t: Tree, root: Dn, stack: seq<Frame>, t': Tree, next: Task)
    requires WellFormed(base, t) && StackFine(root, stack) && RemoveStep(base, t, root, stack, t', next)
    ensures WellFormed(base, t') && TaskFine(next) && LosesAtMostOne(t, t', root)
    ensures (next.Deleting? || next.DeleteOver?) && next.root == root
  {
    TopUnderRoot(root, stack);
    var code: Code :| Responds(base, t, DeleteLeaf(stack[0].dn), false, code, t')
                      && next == if !Tolerated(code) then DeleteOver(root, code)
                                 else if |stack| == 1 then DeleteOver(root, Success)
                                 else Deleting(root, stack[1..]);
    RespondsKeepsShape(base, t, DeleteLeaf(stack[0].dn), false, code, t');
  }

  /** A write changes nothing but the entry it is for, and does not remove that. */
  lemma WriteStepEffect(base: Dn, t: Tree, e: DirectoryEntry, at: WritePoint, t': Tree, next: Task)
    requires WellFormed(base, t) && WriteStep(base, t, e, at, t', next)
    ensures WellFormed(base, t') && OnlyAt(t, t', e.dn)
    ensures (next.Writing? || next.WriteOver?) && next.entry == e
  {
    match at
    case Finding =>
    case Adding =>
      var op := AddEntry(e.dn, InitialAttributes(e));
      var code: Code :| Responds(base, t, op, false, code, t');
      RespondsKeepsShape(base, t, op, false, code, t');
    case Modifying(changes) =>
      var code: Code :| ModifyOutcome(base, t, e.dn, changes, false, code, t');
      if changes != [] {
        RespondsKeepsShape(base, t, ModifyEntry(e.dn, changes), false, code, t');
      }
    case Verifying =>
    case SettingPassword(created) =>
      var hash: Hash, code: Code :| PasswordSet(base, t, e, hash, false, code, t');
      RespondsKeepsShape(base, t, SetPassword(e.dn, hash), false, code, t');
  }

  lemma NextKeepsFine(base: Dn, s: State, s': State)
    requires Fine(base, s) && Next(base, s, s')
    ensures Fine(base, s')
  {
    var m :| Moves(base, s, m, s');
    if m.Step? {
      assert TaskFine(s.tasks[m.id]);
      match s.tasks[m.id]
      case Deleting(root, stack) => DeleteStepEffect(base, s.tree, root, stack, s'.tree, m.next);
      case Writing(e, at) => WriteStepEffect(base, s.tree, e, at, s'.tree, m.next);
      case _ =>
    }
    forall id | id in s'.tasks ensures TaskFine(s'.tasks[id]) {
      assert id in s.tasks ==> TaskFine(s.tasks[id]);
    }
  }

  /** Over any run the tree keeps its shape: no interleaving or failure leaves an entry without its superior. */
  lemma {:induction false} RunKeepsShape(base: Dn, ss: seq<State>, i: nat)
    requires Run(base, ss) && i < |ss|
    ensures Fine(base, ss[i])
  {
    if i > 0 {
      RunKeepsShape(base, ss, i - 1);
      assert NextAt(base, ss, i - 1);
      NextKeepsFine(base, ss[i - 1], ss[i]);
    }
  }

  // ---------------------------------------------------------------- who may change an entry

  predicate DeletesAbove(task: Task, d: Dn) {
    task.Deleting? && Under(d, task.root)
  }

  predicate WritesAt(task: Task, d: Dn) {
    task.Writing? && task.entry.dn == d
  }

  predicate SameAt(t: Tree, t': Tree, d: Dn) {
    (d in t <==> d in t') && (d in t ==> t'[d] == t[d])
  }

  /** An entry goes only by a delete at or above it, and is added or altered only by a write of its own. */
  lemma NextChanges(base: Dn, s: State, s': State, d: Dn)
    requires Fine(base, s) && Next(base, s, s')
    ensures (forall id :: id in s.tasks ==> !DeletesAbove(s.tasks[id], d)) && d in s.tree ==> d in s'.tree
    ensures (forall id :: id in s.tasks ==> !WritesAt(s.tasks[id], d)) && d in s'.tree ==>
              d in s.tree && s'.tree[d] == s.tree[d]
  {
    var m :| Moves(base, s, m, s');
    if m.Step? {
      var task := s.tasks[m.id];
      assert TaskFine(task);
      match task
      case Deleting(root, stack) => DeleteStepEffect(base, s.tree, root, stack, s'.tree, m.next);
      case Writing(e, at) => WriteStepEffect(base, s.tree, e, at, s'.tree, m.next);
      case _ =>
    }
  }

  /** Over whole runs: an entry that no delete is at or above is never removed. */
  lemma {:induction false} OnlyDeletesAboveRemove(base: Dn, ss: seq<State>, i: nat, d: Dn)
    requires Run(base, ss) && i < |ss| && d in ss[0].tree
    requires forall j, id {:trigger ss[j].tasks[id]} :: 0 <= j < i && id in ss[j].tasks ==>
               !DeletesAbove(ss[j].tasks[id], d)
    ensures d in ss[i].tree
  {
    if i > 0 {
      OnlyDeletesAboveRemove(base, ss, i - 1, d);
      RunKeepsShape(base, ss, i - 1);
      assert NextAt(base, ss, i - 1);
      NextChanges(base, ss[i - 1], ss[i], d);
    }
  }

  /** And one that nobody writes either stays exactly as it was, present or not. */
  lemma {:induction false} UntouchedIsUnchanged(base: Dn, ss: seq<State>, i: nat, d: Dn)
    requires Run(base, ss) && i < |ss|
    requires forall j, id {:trigger ss[j].tasks[id]} :: 0 <= j < i && id in ss[j].tasks ==>
               !DeletesAbove(ss[j].tasks[id], d) && !WritesAt(ss[j].tasks[id], d)
    ensures SameAt(ss[0].tree, ss[i].tree, d)
  {
    if i > 0 {
      UntouchedIsUnchanged(base, ss, i - 1, d);
      RunKeepsShape(base, ss, i - 1);
      assert NextAt(base, ss, i - 1);
      NextChanges(base, ss[i - 1], ss[i], d);
    }
  }

  /** An entry that nobody writes was there from the beginning, the same. */
  lemma {:induction false} OnlyWritesAdd(base: Dn, ss: seq<State>, i: nat, d: Dn)
    requires Run(base, ss) && i < |ss| && d in ss[i].tree
    requires forall j, id {:trigger ss[j].tasks[id]} :: 0 <= j < i && id in ss[j].tasks ==>
               !WritesAt(ss[j].tasks[id], d)
    ensures d in ss[0].tree && ss[i].tree[d] == ss[0].tree[d]
  {
    if i > 0 {
      RunKeepsShape(base, ss, i - 1);
      assert NextAt(base, ss, i - 1);
      NextChanges(base, ss[i - 1], ss[i], d);
      OnlyWritesAdd(base, ss, i - 1, d);
    }
  }

  // ---------------------------------------------------------------- creations

  /** A call that has created its entry: all that may be left is its password. */
  predicate HasCreated(task: Task, e: DirectoryEntry) {
    task == WriteOver(e, Done(true)) || task == Writing(e, SettingPassword(true))
  }

  /** The j-th step is the Add of the call with this id, and takes its dn from absent to present. */
  ghost predicate AddsAt(ss: seq<State>, j: nat, id: nat, e: DirectoryEntry) {
    && j + 1 < |ss| && id in ss[j].tasks && id in ss[j + 1].tasks
    && ss[j].tasks[id] == Writing(e, Adding) && ss[j + 1].tasks[id] != ss[j].tasks[id]
    && e.dn !in ss[j].tree && e.dn in ss[j + 1].tree
  }

  lemma AddingCreates(base: Dn, t: Tree, e: DirectoryEntry, t': Tree, next: Task)
    requires WriteStep(base, t, e, Adding, t', next) && HasCreated(next, e)
    ensures e.dn !in t && e.dn in t'
  {
    hide InitialAttributes, Content;
  }

  lemma OnlyAddingCreates(base: Dn, t: Tree, task: Task, t': Tree, next: Task, e: DirectoryEntry)
    requires TaskStep(base, t, task, t', next) && HasCreated(next, e)
    ensures task == Writing(e, Adding) || HasCreated(task, e)
  {
    hide Responds, SearchReplies, BindReplies, ModifyOutcome, PasswordSet, Plan, ManagedAttributes;
  }

  /** In every run, a create-or-update that reports a creation has an Add of its own that took its dn into the tree. */
  lemma {:induction false} CreationHasItsAdd(base: Dn, ss: seq<State>, i: nat, id: nat, e: DirectoryEntry)
    returns (j: nat)
    requires Run(base, ss) && i < |ss| && id in ss[i].tasks && HasCreated(ss[i].tasks[id], e)
    ensures j < i && AddsAt(ss, j, id, e)
  {
    hide TaskStep, WriteStep, Fine;
    assert i > 0;
    assert NextAt(base, ss, i - 1);
    var s, s' := ss[i - 1], ss[i];
    NotFromNothing(base, s, s', id, e);
    if s.tasks[id] == s'.tasks[id] {
      j := CreationHasItsAdd(base, ss, i - 1, id, e);
    } else {
      LastMove(base, s, s', id);
      OnlyAddingCreates(base, s.tree, s.tasks[id], s'.tree, s'.tasks[id], e);
      if HasCreated(s.tasks[id], e) {
        j := CreationHasItsAdd(base, ss, i - 1, id, e);
      } else {
        j := i - 1;
        AddingMove(base, s, s', id, e);
      }
    }
  }

  lemma NotFromNothing(base: Dn, s: State, s': State, id: nat, e: DirectoryEntry)
    requires Next(base, s, s') && id in s'.tasks && HasCreated(s'.tasks[id], e)
    ensures id in s.tasks
  {
    hide TaskStep;
    var m :| Moves(base, s, m, s');
  }

  lemma AddingMove(base: Dn, s: State, s': State, id: nat, e: DirectoryEntry)
    requires id in s.tasks && id in s'.tasks && s.tasks[id] == Writing(e, Adding) && HasCreated(s'.tasks[id], e)
    requires TaskStep(base, s.tree, s.tasks[id], s'.tree, s'.tasks[id])
    ensures e.dn !in s.tree && e.dn in s'.tree
  {
    hide WriteStep;
    AddingCreates(base, s.tree, e, s'.tree, s'.tasks[id]);
  }

  /** What was there and is missing later has been removed in between. */
  lemma {:induction false} RemovedBetween(ss: seq<State>, j: nat, i: nat, d: Dn) returns (m: nat)
    requires j < i < |ss| && d in ss[j].tree && d !in ss[i].tree
    ensures j <= m < i && d in ss[m].tree && d !in ss[m + 1].tree
    decreases i
  {
    if d in ss[i - 1].tree {
      m := i - 1;
    } else {
      m := RemovedBetween(ss, j, i - 1, d);
    }
  }

  /**
   * Between two creations of one dn, by whichever calls, some delete at or above it removes the entry: without one, at
   * most one call per dn ever reports a creation.
   */
  lemma CreationsNeedRemoval(base: Dn, ss: seq<State>, j: nat, id: nat, e: DirectoryEntry, j': nat, id': nat,
                             e': DirectoryEntry) returns (m: nat)
    requires Run(base, ss) && AddsAt(ss, j, id, e) && AddsAt(ss, j', id', e') && e.dn == e'.dn
    requires j < j' || (j == j' && id != id')
    ensures j < m < j' && e.dn in ss[m].tree && e.dn !in ss[m + 1].tree
    ensures exists x :: x in ss[m].tasks && DeletesAbove(ss[m].tasks[x], e.dn)
  {
    hide TaskStep, WriteStep, Fine;
    assert NextAt(base, ss, j);
    if j == j' {
      OneMovesOnly(base, ss[j], ss[j + 1], id, id');
    }
    m := RemovedBetween(ss, j + 1, j', e.dn);
    RunKeepsShape(base, ss, m);
    assert NextAt(base, ss, m);
    NextChanges(base, ss[m], ss[m + 1], e.dn);
  }

  /** One step moves one task. */
  lemma OneMovesOnly(base: Dn, s: State, s': State, id: nat, id': nat)
    requires Next(base, s, s') && id in s.tasks && id in s'.tasks && s'.tasks[id] != s.tasks[id]
    requires id' in s.tasks && id' in s'.tasks && s'.tasks[id'] != s.tasks[id']
    ensures id == id'
  {
    hide TaskStep;
    var m :| Moves(base, s, m, s');
  }

  // ---------------------------------------------------------------- what a finished delete has achieved

  ghost predicate NothingUnder(t: Tree, root: Dn) {
    forall d :: d in t ==> !Under(d, root)
  }

  lemma SuccessEmpties(base: Dn, t: Tree, root: Dn, stack: seq<Frame>, t': Tree, next: Task)
    requires WellFormed(base, t) && StackFine(root, stack) && DeleteStep(base, t, root, stack, t', next)
    requires next == DeleteOver(root, Success) && Under(root, base)
    ensures NothingUnder(t', root)
  {
    DeleteStepEffect(base, t, root, stack, t', next);
    NothingBelowMissing(base, t', root);
  }

  /** With nobody writing root itself nothing at or below it comes back. */
  lemma {:induction false} MissingStaysMissing(base: Dn, ss: seq<State>, j: nat, i: nat, root: Dn)
    requires Run(base, ss) && j <= i < |ss| && Under(root, base) && root !in ss[j].tree
    requires forall k, id {:trigger ss[k].tasks[id]} :: j <= k < i && id in ss[k].tasks ==>
               !WritesAt(ss[k].tasks[id], root)
    ensures root !in ss[i].tree && NothingUnder(ss[i].tree, root)
    decreases i
  {
    RunKeepsShape(base, ss, i);
    if i > j {
      MissingStaysMissing(base, ss, j, i - 1, root);
      RunKeepsShape(base, ss, i - 1);
      assert NextAt(base, ss, i - 1);
      NextChanges(base, ss[i - 1], ss[i], root);
    }
    NothingBelowMissing(base, ss[i].tree, root);
  }

  /** The j-th step is the last one of the delete with this id, which ends with this code. */
  ghost predicate DeleteEnds(ss: seq<State>, j: nat, id: nat, root: Dn, code: Code) {
    && j + 1 < |ss| && id in ss[j].tasks && ss[j].tasks[id].Deleting?
    && id in ss[j + 1].tasks && ss[j + 1].tasks[id] == DeleteOver(root, code)
  }

  lemma LastMove(base: Dn, s: State, s': State, id: nat)
    requires Next(base, s, s') && id in s.tasks && id in s'.tasks && s'.tasks[id] != s.tasks[id]
    ensures TaskStep(base, s.tree, s.tasks[id], s'.tree, s'.tasks[id])
  {
  }

  /**
   * Whatever else is going on, when a delete succeeds nothing at or below its root is left, and as long as nobody
   * writes the root itself nothing there comes back.
   */
  lemma DeletedStaysDeleted(base: Dn, ss: seq<State>, j: nat, i: nat, id: nat, root: Dn)
    requires Run(base, ss) && DeleteEnds(ss, j, id, root, Success) && j < i < |ss| && Under(root, base)
    requires forall k, x {:trigger ss[k].tasks[x]} :: j < k < i && x in ss[k].tasks ==> !WritesAt(ss[k].tasks[x], root)
    ensures NothingUnder(ss[i].tree, root)
  {
    RunKeepsShape(base, ss, j);
    var s, s' := ss[j], ss[j + 1];
    assert TaskFine(s.tasks[id]);
    assert NextAt(base, ss, j);
    LastMove(base, s, s', id);
    var task := s.tasks[id];
    DeleteStepEffect(base, s.tree, task.root, task.stack, s'.tree, s'.tasks[id]);
    SuccessEmpties(base, s.tree, root, task.stack, s'.tree, s'.tasks[id]);
    MissingStaysMissing(base, ss, j + 1, i, root);
  }

  // ---------------------------------------------------------------- no removal is refused for remaining children

  /** The entry lies strictly below root. */
  predicate Below(d: Dn, root: Dn) {
    Under(d, root) && d != root
  }

  /** Every child there is of a frame that has searched is still listed, or is the one being deleted right now. */
  ghost predicate Covered(t: Tree, stack: seq<Frame>, current: Option<Dn>) {
    || stack == []
    || (&& (stack[0].listed.Some? ==> ChildrenListed(t, stack[0].dn, stack[0].listed.value, current))
        && Covered(t, stack[1..], Some(stack[0].dn)))
  }

  ghost predicate ChildrenListed(t: Tree, dn: Dn, listed: seq<Dn>, current: Option<Dn>) {
    forall d :: d in t && IsChild(d, dn) ==> d in listed || current == Some(d)
  }

  ghost predicate NothingNewBelow(t: Tree, t': Tree, root: Dn) {
    forall d :: d in t' && Below(d, root) ==> d in t
  }

  lemma {:induction false} CoveredStays(t: Tree, t': Tree, root: Dn, stack: seq<Frame>, current: Option<Dn>)
    requires StackFine(root, stack) && Covered(t, stack, current) && NothingNewBelow(t, t', root)
    ensures Covered(t', stack, current)
    decreases |stack|
  {
    TopUnderRoot(root, stack);
    forall d | d in t' && IsChild(d, stack[0].dn) ensures d in t {
      UnderChild(d, d, stack[0].dn);
      UnderBoth(d, stack[0].dn, root);
    }
    if |stack| > 1 {
      CoveredStays(t, t', root, stack[1..], Some(stack[0].dn));
    }
  }

  lemma UnderBoth(d: Dn, e: Dn, root: Dn)
    requires Under(d, e) && Under(e, root)
    ensures Under(d, root)
  {
  }

  /** The current child is gone once it is missing. */
  lemma CoveredAfterReturn(t: Tree, stack: seq<Frame>, dn: Dn)
    requires Covered(t, stack, Some(dn)) && dn !in t
    ensures Covered(t, stack, None)
  {
  }

  lemma CoveredAfterCall(t: Tree, stack: seq<Frame>)
    requires Covered(t, stack, None) && stack != [] && stack[0].listed.Some? && stack[0].listed.value != []
    ensures var dns := stack[0].listed.value;
            Covered(t, [Frame(dns[0], None), Frame(stack[0].dn, Some(dns[1..]))] + stack[1..], None)
  {
  }

  lemma CoveredAfterSearch(base: Dn, t: Tree, root: Dn, stack: seq<Frame>, code: Code, entries: seq<SearchEntry>)
    requires WellFormed(base, t) && Under(root, base) && StackFine(root, stack) && Covered(t, stack, None)
    requires SearchReplies(t, stack[0].dn, SingleLevel, Anything, 0, false, code, entries) && Tolerated(code)
    ensures Covered(t, [Frame(stack[0].dn, Some(Dns(entries)))] + stack[1..], None)
  {
    var dn := stack[0].dn;
    SearchListsChildren(t, dn, code, entries);
    TopUnderRoot(root, stack);
    UnderBoth(dn, root, base);
    forall d | d in t && IsChild(d, dn) ensures dn in t {
      assert Anchored(base, t, d);
    }
    assert ([Frame(dn, Some(Dns(entries)))] + stack[1..])[1..] == stack[1..];
  }

  ghost predicate TaskCovered(t: Tree, task: Task) {
    task.Deleting? ==> Covered(t, task.stack, None)
  }

  /** A delete whose children are all accounted for keeps them so, and fails only where the server does. */
  lemma DeleteStepCovered(base: Dn, t: Tree, root: Dn, stack: seq<Frame>, t': Tree, next: Task)
    requires WellFormed(base, t) && Under(root, base) && StackFine(root, stack) && Covered(t, stack, None)
    requires DeleteStep(base, t, root, stack, t', next)
    ensures TaskCovered(t', next)
    ensures next.DeleteOver? ==> next.code in {Success, Unavailable}
  {
    match stack[0].listed
    case None =>
      var code: Code, entries: seq<SearchEntry> :|
        && SearchReplies(t, stack[0].dn, SingleLevel, Anything, 0, false, code, entries)
        && next == if Tolerated(code) then Deleting(root, [Frame(stack[0].dn, Some(Dns(entries)))] + stack[1..])
                   else DeleteOver(root, code);
      if Tolerated(code) {
        CoveredAfterSearch(base, t, root, stack, code, entries);
      }
    case Some(dns) =>
      if dns == [] {
        RemoveStepCovered(base, t, root, stack, t', next);
      } else {
        CoveredAfterCall(t, stack);
      }
  }

  lemma RemoveStepCovered(base: Dn, t: Tree, root: Dn, stack: seq<Frame>, t': Tree, next: Task)
    requires StackFine(root, stack) && Covered(t, stack, None) && stack[0].listed == Some([])
    requires RemoveStep(base, t, root, stack, t', next)
    ensures TaskCovered(t', next)
    ensures next.DeleteOver? ==> next.code in {Success, Unavailable}
  {
    var code: Code :| Responds(base, t, DeleteLeaf(stack[0].dn), false, code, t')
                      && next == if !Tolerated(code) then DeleteOver(root, code)
                                 else if |stack| == 1 then DeleteOver(root, Success)
                                 else Deleting(root, stack[1..]);
    assert forall d :: d in t ==> !IsChild(d, stack[0].dn);
    if Tolerated(code) && |stack| > 1 {
      CoveredStays(t, t', root, stack[1..], Some(stack[0].dn));
      CoveredAfterReturn(t', stack[1..], stack[0].dn);
    }
  }

  /** Nobody writes strictly below root. */
  predicate NoWriterBelow(s: State, root: Dn) {
    forall id :: id in s.tasks && s.tasks[id].Writing? ==> !Below(s.tasks[id].entry.dn, root)
  }

  ghost predicate DeletesCovered(s: State, root: Dn) {
    forall id {:trigger TaskCovered(s.tree, s.tasks[id])} ::
      id in s.tasks && s.tasks[id].Deleting? && s.tasks[id].root == root ==> TaskCovered(s.tree, s.tasks[id])
  }

  lemma NothingNew(base: Dn, s: State, s': State, root: Dn)
    requires Fine(base, s) && Next(base, s, s') && NoWriterBelow(s, root)
    ensures NothingNewBelow(s.tree, s'.tree, root)
  {
    forall d | d in s'.tree && Below(d, root) ensures d in s.tree {
      NextChanges(base, s, s', d);
    }
  }

  lemma NextKeepsCovered(base: Dn, s: State, s': State, root: Dn)
    requires Fine(base, s) && Next(base, s, s') && Under(root, base)
    requires NoWriterBelow(s, root) && DeletesCovered(s, root)
    ensures DeletesCovered(s', root)
  {
    NothingNew(base, s, s', root);
    var m :| Moves(base, s, m, s');
    forall id | id in s'.tasks && s'.tasks[id].Deleting? && s'.tasks[id].root == root
      ensures TaskCovered(s'.tree, s'.tasks[id])
    {
      if m.Step? && id == m.id {
        MovedCovered(base, s, s', id, root);
      } else if id in s.tasks {
        assert TaskFine(s.tasks[id]) && TaskCovered(s.tree, s.tasks[id]);
        CoveredStays(s.tree, s'.tree, root, s.tasks[id].stack, None);
      }
    }
  }

  lemma MovedCovered(base: Dn, s: State, s': State, id: nat, root: Dn)
    requires Fine(base, s) && Under(root, base) && id in s.tasks && id in s'.tasks && DeletesCovered(s, root)
    requires TaskStep(base, s.tree, s.tasks[id], s'.tree, s'.tasks[id])
    requires s'.tasks[id].Deleting? && s'.tasks[id].root == root
    ensures TaskCovered(s'.tree, s'.tasks[id])
  {
    assert TaskFine(s.tasks[id]);
    match s.tasks[id]
    case Deleting(r, stack) =>
      DeleteStepEffect(base, s.tree, r, stack, s'.tree, s'.tasks[id]);
      assert TaskCovered(s.tree, s.tasks[id]);
      DeleteStepCovered(base, s.tree, r, stack, s'.tree, s'.tasks[id]);
    case Writing(e, at) => WriteStepEffect(base, s.tree, e, at, s'.tree, s'.tasks[id]);
    case _ =>
  }

  lemma {:induction false} RunKeepsCovered(base: Dn, ss: seq<State>, i: nat, root: Dn)
    requires Run(base, ss) && i < |ss| && Under(root, base)
    requires forall j {:trigger ss[j]} :: 0 <= j < i ==> NoWriterBelow(ss[j], root)
    ensures DeletesCovered(ss[i], root)
  {
    if i == 0 {
      forall id | id in ss[0].tasks && ss[0].tasks[id].Deleting? ensures TaskCovered(ss[0].tree, ss[0].tasks[id]) {
        assert ss[0].tasks[id].stack[1..] == [];
      }
    } else {
      RunKeepsCovered(base, ss, i - 1, root);
      RunKeepsShape(base, ss, i - 1);
      assert NextAt(base, ss, i - 1);
      NextKeepsCovered(base, ss[i - 1], ss[i], root);
    }
  }

  /**
   * As long as nobody writes strictly below its root, a delete fails only because a call got no answer: none of its
   * removals is refused because of children, whatever other deletes do to the same subtree.
   */
  lemma DeleteNeverRefused(base: Dn, ss: seq<State>, j: nat, id: nat, root: Dn, code: Code)
    requires Run(base, ss) && DeleteEnds(ss, j, id, root, code) && Under(root, base)
    requires forall k {:trigger ss[k]} :: 0 <= k <= j ==> NoWriterBelow(ss[k], root)
    ensures code == Success || code == Unavailable
  {
    RunKeepsShape(base, ss, j);
    RunKeepsCovered(base, ss, j, root);
    var s, s' := ss[j], ss[j + 1];
    assert TaskFine(s.tasks[id]);
    assert NextAt(base, ss, j);
    LastMove(base, s, s', id);
    var task := s.tasks[id];
    DeleteStepEffect(base, s.tree, task.root, task.stack, s'.tree, s'.tasks[id]);
    assert TaskCovered(s.tree, task);
    DeleteStepCovered(base, s.tree, root, task.stack, s'.tree, s'.tasks[id]);
  }

  /** The two calls of the run below: a delete of root, and the creation of a unit right under it. */
  function Contest(t: Tree, deleter: Task, writer: Task): State {
    State(t, map[0 := deleter, 1 := writer])
  }

  /** A unit's Add succeeds where its superior is and it is not. */
  lemma UnitIsAdded(base: Dn, t: Tree, e: DirectoryEntry)
    requires e.OrganizationalUnitEntry? && e.dn !in t && e.dn != [] && e.dn != base && e.dn[1..] in t
    ensures var op := AddEntry(e.dn, InitialAttributes(e));
            && Apply(base, t, op).0 == Success && e.dn in Apply(base, t, op).1
            && t.Keys <= Apply(base, t, op).1.Keys
  {
  }

  lemma SearchOfLeaf(base: Dn, t: Tree, root: Dn, writer: Task)
    requires root in t && forall d :: d in t ==> !IsChild(d, root)
    ensures Next(base, Contest(t, Deleting(root, [Frame(root, None)]), writer),
                 Contest(t, Deleting(root, [Frame(root, Some([]))]), writer))
  {
    var before, next := Deleting(root, [Frame(root, None)]), Deleting(root, [Frame(root, Some([]))]);
    assert Hits(t, root, SingleLevel, Anything) == {};
    assert SearchReplies(t, root, SingleLevel, Anything, 0, false, Success, []);
    assert [Frame(root, Some(Dns([])))] + before.stack[1..] == next.stack;
    assert TaskStep(base, t, before, t, next);
    assert Moves(base, Contest(t, before, writer), Step(0, next), Contest(t, next, writer));
  }

  lemma UnitIsCreated(base: Dn, t: Tree, e: DirectoryEntry, deleter: Task)
    requires e.OrganizationalUnitEntry? && e.dn !in t && e.dn != [] && e.dn != base && e.dn[1..] in t
    ensures Next(base, Contest(t, deleter, Writing(e, Finding)), Contest(t, deleter, Writing(e, Adding)))
    ensures var t' := Apply(base, t, AddEntry(e.dn, InitialAttributes(e))).1;
            Next(base, Contest(t, deleter, Writing(e, Adding)), Contest(t', deleter, WriteOver(e, Done(true))))
  {
    assert SearchReplies(t, e.dn, WholeSubtree, FilterFor(e), 0, false, NoSuchObject, []);
    assert TaskStep(base, t, Writing(e, Finding), t, Writing(e, Adding));
    assert Moves(base, Contest(t, deleter, Writing(e, Finding)), Step(1, Writing(e, Adding)),
                 Contest(t, deleter, Writing(e, Adding)));
    UnitIsAdded(base, t, e);
    var t' := Apply(base, t, AddEntry(e.dn, InitialAttributes(e))).1;
    assert Responds(base, t, AddEntry(e.dn, InitialAttributes(e)), false, Success, t');
    assert TaskStep(base, t, Writing(e, Adding), t', WriteOver(e, Done(true)));
    assert Moves(base, Contest(t, deleter, Writing(e, Adding)), Step(1, WriteOver(e, Done(true))),
                 Contest(t', deleter, WriteOver(e, Done(true))));
  }

  lemma RemovalRefused(base: Dn, t: Tree, root: Dn, d: Dn, writer: Task)
    requires root in t && d in t && IsChild(d, root)
    ensures Next(base, Contest(t, Deleting(root, [Frame(root, Some([]))]), writer),
                 Contest(t, DeleteOver(root, NotAllowedOnNonLeaf), writer))
  {
    var before, next := Deleting(root, [Frame(root, Some([]))]), DeleteOver(root, NotAllowedOnNonLeaf);
    assert Responds(base, t, DeleteLeaf(root), false, NotAllowedOnNonLeaf, t);
    assert TaskStep(base, t, before, t, next);
    assert Moves(base, Contest(t, before, writer), Step(0, next), Contest(t, next, writer));
  }

  lemma Contested(base: Dn, t: Tree, root: Dn, e: DirectoryEntry) returns (t': Tree)
    requires Under(root, base) && root in t && e.dn !in t
    requires e.OrganizationalUnitEntry? && e.dn == [Rdn("ou", e.name)] + root
    ensures var listed := Deleting(root, [Frame(root, Some([]))]);
            && Next(base, Contest(t, listed, Writing(e, Finding)), Contest(t, listed, Writing(e, Adding)))
            && Next(base, Contest(t, listed, Writing(e, Adding)), Contest(t', listed, WriteOver(e, Done(true))))
            && Next(base, Contest(t', listed, WriteOver(e, Done(true))),
                    Contest(t', DeleteOver(root, NotAllowedOnNonLeaf), WriteOver(e, Done(true))))
  {
    assert e.dn[1..] == root && IsChild(e.dn, root);
    t' := Apply(base, t, AddEntry(e.dn, InitialAttributes(e))).1;
    UnitIsAdded(base, t, e);
    UnitIsCreated(base, t, e, Deleting(root, [Frame(root, Some([]))]));
    RemovalRefused(base, t', root, e.dn, WriteOver(e, Done(true)));
  }

  /**
   * The condition is needed: below every leaf a unit can be created between the delete's search and its removal,
   * with every call answered, and the delete fails.
   */
  lemma WriterBelowSpoilsDelete(base: Dn, t: Tree, root: Dn, e: DirectoryEntry)
    requires WellFormed(base, t) && Under(root, base) && root in t && forall d :: d in t ==> !IsChild(d, root)
    requires e.OrganizationalUnitEntry? && e.dn == [Rdn("ou", e.name)] + root
    ensures exists ss :: Run(base, ss) && DeleteEnds(ss, 3, 0, root, NotAllowedOnNonLeaf)
  {
    assert IsChild(e.dn, root);
    var t' := Contested(base, t, root, e);
    SearchOfLeaf(base, t, root, Writing(e, Finding));
    var begun, listed := Deleting(root, [Frame(root, None)]), Deleting(root, [Frame(root, Some([]))]);
    var added, refused := WriteOver(e, Done(true)), DeleteOver(root, NotAllowedOnNonLeaf);
    var ss := FourSteps(base, Contest(t, begun, Writing(e, Finding)), Contest(t, listed, Writing(e, Finding)),
                        Contest(t, listed, Writing(e, Adding)), Contest(t', listed, added),
                        Contest(t', refused, added));
    assert DeleteEnds(ss, 3, 0, root, NotAllowedOnNonLeaf);
  }

  lemma FourSteps(base: Dn, a: State, b: State, c: State, d: State, e: State) returns (ss: seq<State>)
    requires Next(base, a, b) && Next(base, b, c) && Next(base, c, d) && Next(base, d, e)
    requires WellFormed(base, a.tree) && forall id :: id in a.tasks ==> Fresh(a.tasks[id])
    ensures ss == [a, b, c, d, e] && Run(base, ss)
  {
    ss := [a, b, c, d, e];
    forall i: nat | i + 1 < |ss| ensures NextAt(base, ss, i) {
      match i
      case 0 =>
      case 1 =>
      case 2 =>
      case _ =>
    }
  }

  // ---------------------------------------------------------------- deletes come to an end

  /** The sizes of the subtrees of the listed entries, as they are in t, together. */
  function Total(t: Tree, dns: seq<Dn>): nat {
    if dns == [] then 0 else |Subtree(t, dns[0])| + Total(t, dns[1..])
  }

  lemma {:induction false} TotalFits(t: Tree, dns: seq<Dn>, dn: Dn, within: set<Dn>)
    requires Distinct(dns) && forall c :: c in dns ==> IsChild(c, dn) && Subtree(t, c) <= within
    ensures Total(t, dns) <= |within|
    decreases |dns|
  {
    if dns != [] {
      var first := Subtree(t, dns[0]);
      assert dns[0] in dns;
      forall c | c in dns[1..] ensures IsChild(c, dn) && Subtree(t, c) <= within - first {
        assert c in dns && c != dns[0];
      }
      TotalFits(t, dns[1..], dn, within - first);
      assert |within - first| == |within| - |first|;
    }
  }

  lemma ChildrenFit(t: Tree, dn: Dn, dns: seq<Dn>)
    requires dn in t && Distinct(dns) && forall c :: c in dns ==> IsChild(c, dn)
    ensures Total(t, dns) < |Subtree(t, dn)|
  {
    var rest := Subtree(t, dn) - {dn};
    forall c | c in dns ensures Subtree(t, c) <= rest {
      forall d | d in Subtree(t, c) ensures d in rest {
        UnderChild(d, c, dn);
      }
    }
    TotalFits(t, dns, dn, rest);
    assert dn in Subtree(t, dn);
  }

  /** At most how many steps a frame, then a stack, still takes if nothing is added to t below its root. */
  function FrameBudget(t: Tree, f: Frame): nat {
    match f.listed
    case None => if f.dn in t then assert f.dn in Subtree(t, f.dn); 5 * |Subtree(t, f.dn)| - 1 else 4
    case Some(dns) => 5 * Total(t, dns) + 3
  }

  function Budget(t: Tree, stack: seq<Frame>): nat {
    if stack == [] then 0 else FrameBudget(t, stack[0]) + Budget(t, stack[1..])
  }

  /** Frames and listed names, other than the root's, are from t. */
  ghost predicate Known(t: Tree, root: Dn, stack: seq<Frame>) {
    || stack == []
    || (&& (stack[0].dn in t || stack[0].dn == root)
        && (stack[0].listed.Some? ==>
              Distinct(stack[0].listed.value) && forall c :: c in stack[0].listed.value ==> c in t)
        && Known(t, root, stack[1..]))
  }

  lemma CallSpends(t: Tree, root: Dn, stack: seq<Frame>)
    requires Known(t, root, stack) && stack != [] && stack[0].listed.Some? && stack[0].listed.value != []
    ensures var dns := stack[0].listed.value;
            var more := [Frame(dns[0], None), Frame(stack[0].dn, Some(dns[1..]))] + stack[1..];
            Known(t, root, more) && Budget(t, more) < Budget(t, stack)
  {
  }

  /** Distinct children of dn, which lie strictly below root in t. */
  ghost predicate ChildrenOf(t: Tree, root: Dn, dn: Dn, dns: seq<Dn>) {
    Distinct(dns) && forall c :: c in dns ==> IsChild(c, dn) && Below(c, root) && c in t
  }

  /** What a search finds below root was already there before: now has nothing new below root. */
  lemma ListedKnown(before: Tree, now: Tree, root: Dn, dn: Dn, code: Code, entries: seq<SearchEntry>)
    requires Under(dn, root) && NothingNewBelow(before, now, root)
    requires SearchReplies(now, dn, SingleLevel, Anything, 0, false, code, entries) && Tolerated(code)
    ensures ChildrenOf(before, root, dn, Dns(entries))
  {
  }

  lemma ListingSpends(base: Dn, before: Tree, root: Dn, stack: seq<Frame>, dns: seq<Dn>)
    requires WellFormed(base, before) && Under(root, base)
    requires stack != [] && Known(before, root, stack) && stack[0].listed.None?
    requires ChildrenOf(before, root, stack[0].dn, dns)
    ensures var more := [Frame(stack[0].dn, Some(dns))] + stack[1..];
            Known(before, root, more) && Budget(before, more) < Budget(before, stack)
  {
    assert ([Frame(stack[0].dn, Some(dns))] + stack[1..])[1..] == stack[1..];
    assert dns != [] ==> dns[0] in dns;
    if stack[0].dn in before {
      ChildrenFit(before, stack[0].dn, dns);
    } else {
      NothingBelowMissing(base, before, root);
    }
  }

  lemma DeleteStepSpends(base: Dn, before: Tree, t: Tree, root: Dn, stack: seq<Frame>, t': Tree, next: Task)
    requires WellFormed(base, before) && Under(root, base) && NothingNewBelow(before, t, root)
    requires StackFine(root, stack) && Known(before, root, stack)
    requires DeleteStep(base, t, root, stack, t', next)
    ensures next.Deleting? ==> Known(before, root, next.stack) && Budget(before, next.stack) < Budget(before, stack)
    ensures next.DeleteOver? ==> 0 < Budget(before, stack)
  {
    match stack[0].listed
    case None =>
      var code: Code, entries: seq<SearchEntry> :|
        && SearchReplies(t, stack[0].dn, SingleLevel, Anything, 0, false, code, entries)
        && next == if Tolerated(code) then Deleting(root, [Frame(stack[0].dn, Some(Dns(entries)))] + stack[1..])
                   else DeleteOver(root, code);
      if Tolerated(code) {
        TopUnderRoot(root, stack);
        ListedKnown(before, t, root, stack[0].dn, code, entries);
        ListingSpends(base, before, root, stack, Dns(entries));
      }
    case Some(dns) =>
      if dns != [] {
        CallSpends(before, root, stack);
      }
  }

  /** How many of the steps from j to i this call took: each of them changes it. */
  function StepsTaken(ss: seq<State>, id: nat, j: nat, i: nat): nat
    requires j <= i < |ss| && forall k :: j <= k <= i ==> id in ss[k].tasks
    decreases i
  {
    if i == j then 0 else StepsTaken(ss, id, j, i - 1) + if ss[i].tasks[id] == ss[i - 1].tasks[id] then 0 else 1
  }

  ghost predicate Spending(before: Tree, root: Dn, task: Task, left: nat) {
    match task
    case Deleting(r, stack) => r == root && Known(before, root, stack) && Budget(before, stack) <= left
    case DeleteOver(r, _) => r == root
    case _ => false
  }

  lemma NextSpends(base: Dn, before: Tree, s: State, s': State, id: nat, root: Dn, left: nat)
    requires WellFormed(base, before) && Under(root, base) && NothingNewBelow(before, s.tree, root)
    requires Fine(base, s) && Next(base, s, s') && id in s.tasks && id in s'.tasks
    requires Spending(before, root, s.tasks[id], left)
    ensures s'.tasks[id] != s.tasks[id] ==> left > 0 && Spending(before, root, s'.tasks[id], left - 1)
  {
    if s'.tasks[id] != s.tasks[id] {
      LastMove(base, s, s', id);
      assert TaskFine(s.tasks[id]);
      var stack := s.tasks[id].stack;
      DeleteStepEffect(base, s.tree, root, stack, s'.tree, s'.tasks[id]);
      DeleteStepSpends(base, before, s.tree, root, stack, s'.tree, s'.tasks[id]);
    }
  }

  /** From j to i a delete that began at j has spent part of its budget, and nothing new is below its root. */
  lemma {:induction false} RunSpends(base: Dn, ss: seq<State>, j: nat, i: nat, id: nat, root: Dn, left: nat)
    requires Run(base, ss) && j <= i < |ss| && Under(root, base)
    requires forall k {:trigger ss[k].tasks} :: j <= k <= i ==> id in ss[k].tasks
    requires forall k {:trigger NoWriterBelow(ss[k], root)} :: j <= k < i ==> NoWriterBelow(ss[k], root)
    requires Spending(ss[j].tree, root, ss[j].tasks[id], left)
    ensures NothingNewBelow(ss[j].tree, ss[i].tree, root)
    ensures StepsTaken(ss, id, j, i) <= left
    ensures Spending(ss[j].tree, root, ss[i].tasks[id], left - StepsTaken(ss, id, j, i))
    decreases i
  {
    if i > j {
      RunSpends(base, ss, j, i - 1, id, root, left);
      RunKeepsShape(base, ss, j);
      RunKeepsShape(base, ss, i - 1);
      assert NextAt(base, ss, i - 1) && NoWriterBelow(ss[i - 1], root);
      assert id in ss[i - 1].tasks && id in ss[i].tasks;
      NextSpends(base, ss[j].tree, ss[i - 1], ss[i], id, root, left - StepsTaken(ss, id, j, i - 1));
      NothingNew(base, ss[i - 1], ss[i], root);
    }
  }

  /**
   * Under any interleaving in which nobody writes strictly below its root, a delete takes a number of steps that is
   * bounded by the size of the subtree it began with.
   */
  lemma DeleteStepsBounded(base: Dn, ss: seq<State>, j: nat, i: nat, id: nat, root: Dn)
    requires Run(base, ss) && j <= i < |ss| && Under(root, base)
    requires forall k {:trigger ss[k].tasks} :: j <= k <= i ==> id in ss[k].tasks
    requires forall k {:trigger NoWriterBelow(ss[k], root)} :: j <= k < i ==> NoWriterBelow(ss[k], root)
    requires ss[j].tasks[id] == Deleting(root, [Frame(root, None)])
    ensures StepsTaken(ss, id, j, i) <= 5 * |Subtree(ss[j].tree, root)| + 4
  {
    var t, stack := ss[j].tree, [Frame(root, None)];
    assert stack[1..] == [];
    RunSpends(base, ss, j, i, id, root, FrameBudget(t, stack[0]));
  }

  // ---------------------------------------------------------------- undisturbed, a call is one step

  /** A delete at or below root, under way or over. */
  predicate DeletesWithin(task: Task, root: Dn) {
    (task.Deleting? || task.DeleteOver?) && Under(task.root, root)
  }

  ghost predicate OnlyDeletesWithin(ss: seq<State>, root: Dn) {
    forall j, id {:trigger ss[j].tasks[id]} ::
      0 <= j < |ss| && id in ss[j].tasks ==> DeletesWithin(ss[j].tasks[id], root)
  }

  lemma LostUnderRoot(base: Dn, ss: seq<State>, i: nat, root: Dn, d: Dn)
    requires Run(base, ss) && i < |ss| && OnlyDeletesWithin(ss, root) && d in ss[0].tree && d !in ss[i].tree
    ensures Under(d, root)
  {
    if !Under(d, root) {
      forall j, id | 0 <= j < i && id in ss[j].tasks ensures !DeletesAbove(ss[j].tasks[id], d) {
        assert DeletesWithin(ss[j].tasks[id], root);
        if DeletesAbove(ss[j].tasks[id], d) {
          UnderBoth(d, ss[j].tasks[id].root, root);
        }
      }
      OnlyDeletesAboveRemove(base, ss, i, d);
    }
  }

  lemma KeptAsItWas(base: Dn, ss: seq<State>, i: nat, root: Dn, d: Dn)
    requires Run(base, ss) && i < |ss| && OnlyDeletesWithin(ss, root) && d in ss[i].tree
    ensures d in ss[0].tree && ss[i].tree[d] == ss[0].tree[d]
  {
    forall j, id | 0 <= j < i && id in ss[j].tasks ensures !WritesAt(ss[j].tasks[id], d) {
      assert DeletesWithin(ss[j].tasks[id], root);
    }
    OnlyWritesAdd(base, ss, i, d);
  }

  /** Amid nothing but deletes at or below its root, a delete has the outcome its caller counts on. */
  lemma UndisturbedDelete(base: Dn, ss: seq<State>, j: nat, id: nat, root: Dn, code: Code)
    requires Run(base, ss) && DeleteEnds(ss, j, id, root, code) && Under(root, base) && OnlyDeletesWithin(ss, root)
    ensures DeleteOutcome(base, ss[0].tree, root, false, code, ss[j + 1].tree)
  {
    var t, t' := ss[0].tree, ss[j + 1].tree;
    RunKeepsShape(base, ss, 0);
    RunKeepsShape(base, ss, j + 1);
    forall k | 0 <= k <= j ensures NoWriterBelow(ss[k], root) {
      forall x | x in ss[k].tasks ensures !ss[k].tasks[x].Writing? {
        assert DeletesWithin(ss[k].tasks[x], root);
      }
    }
    DeleteNeverRefused(base, ss, j, id, root, code);
    forall d | d in t' ensures d in t && t'[d] == t[d] {
      KeptAsItWas(base, ss, j + 1, root, d);
    }
    forall d | d in t && d !in t' ensures d in Subtree(t, root) {
      LostUnderRoot(base, ss, j + 1, root, d);
      AncestorsPresent(base, t, d, root);
    }
    if code == Success {
      DeletedStaysDeleted(base, ss, j, j + 1, id, root);
    }
  }

  /** How far a create-or-update of e that began on t0 has come when nobody else interferes. */
  ghost predicate Reached(base: Dn, t0: Tree, e: DirectoryEntry, at: WritePoint, t: Tree) {
    match at
    case Finding => t == t0
    case Adding => t == t0 && Candidates(t0, e) == {}
    case Modifying(changes) =>
      && t == t0
      && exists found :: Picked(t0, Candidates(t0, e), found) && changes == Plan(ManagedAttributes(e), found)
    case Verifying => e.UserEntry? && exists found :: Modified(base, t0, e, found, t)
    case SettingPassword(created) =>
      && e.UserEntry?
      && if created then
           && e.password != "" && Candidates(t0, e) == {}
           && Responds(base, t0, AddEntry(e.dn, InitialAttributes(e)), false, Success, t)
         else
           && BindReplies(t, e.dn, e.password, false, InvalidCredentials)
           && exists found :: Modified(base, t0, e, found, t)
  }

  ghost predicate Modified(base: Dn, t0: Tree, e: DirectoryEntry, found: map<string, seq<string>>, t: Tree) {
    && Picked(t0, Candidates(t0, e), found)
    && ModifyOutcome(base, t0, e.dn, Plan(ManagedAttributes(e), found), false, Success, t)
  }

  ghost predicate ReachedOrOver(base: Dn, t0: Tree, e: DirectoryEntry, t: Tree, task: Task) {
    match task
    case Writing(e', at) => e' == e && Reached(base, t0, e, at, t)
    case WriteOver(e', r) => e' == e && UpsertOutcome(base, t0, e, false, r, t)
    case _ => false
  }

  lemma FindReaches(base: Dn, t0: Tree, e: DirectoryEntry, next: Task)
    requires FindStep(t0, e, next)
    ensures ReachedOrOver(base, t0, e, t0, next)
  {
  }

  lemma AddReaches(base: Dn, t0: Tree, e: DirectoryEntry, t: Tree, next: Task)
    requires Candidates(t0, e) == {} && WriteStep(base, t0, e, Adding, t, next)
    ensures ReachedOrOver(base, t0, e, t, next)
  {
  }

  lemma ModifyReaches(base: Dn, t0: Tree, e: DirectoryEntry, changes: seq<Change>, t: Tree, next: Task)
    requires Reached(base, t0, e, Modifying(changes), t0) && WriteStep(base, t0, e, Modifying(changes), t, next)
    ensures ReachedOrOver(base, t0, e, t, next)
  {
    var found :| Picked(t0, Candidates(t0, e), found) && changes == Plan(ManagedAttributes(e), found);
    var code: Code :| ModifyOutcome(base, t0, e.dn, changes, false, code, t)
                      && next == Failing(e, code, AfterModify(e));
    if next.WriteOver? {
      assert UpdateOutcome(base, t0, e, found, false, next.outcome, t);
    } else {
      assert Modified(base, t0, e, found, t);
    }
  }

  lemma VerifyReaches(base: Dn, t0: Tree, e: DirectoryEntry, t: Tree, next: Task)
    requires Reached(base, t0, e, Verifying, t) && VerifyStep(t, e, next)
    ensures ReachedOrOver(base, t0, e, t, next)
  {
  }

  lemma PasswordReaches(base: Dn, t0: Tree, e: DirectoryEntry, t: Tree, created: bool, t': Tree, next: Task)
    requires Reached(base, t0, e, SettingPassword(created), t) && PasswordStep(base, t, e, created, t', next)
    ensures ReachedOrOver(base, t0, e, t', next)
  {
    assert next.WriteOver? && next.entry == e && PasswordOutcome(base, t, e, false, created, next.outcome, t');
    if created {
      assert CreateOutcome(base, t0, e, false, next.outcome, t');
    } else {
      var found :| Modified(base, t0, e, found, t);
      PasswordEndsUpdate(base, t0, e, found, t, next.outcome, t');
    }
  }

  lemma PasswordEndsUpdate(base: Dn, t0: Tree, e: DirectoryEntry, found: map<string, seq<string>>, t: Tree, r: Outcome,
                           t': Tree)
    requires e.UserEntry? && Modified(base, t0, e, found, t)
    requires BindReplies(t, e.dn, e.password, false, InvalidCredentials)
    requires PasswordOutcome(base, t, e, false, false, r, t')
    ensures UpsertOutcome(base, t0, e, false, r, t')
  {
  }

  lemma WriteReaches(base: Dn, t0: Tree, e: DirectoryEntry, t: Tree, at: WritePoint, t': Tree, next: Task)
    requires Reached(base, t0, e, at, t) && WriteStep(base, t, e, at, t', next)
    ensures ReachedOrOver(base, t0, e, t', next)
  {
    match at
    case Finding => FindReaches(base, t0, e, next);
    case Adding => AddReaches(base, t0, e, t', next);
    case Modifying(changes) => ModifyReaches(base, t0, e, changes, t', next);
    case Verifying => VerifyReaches(base, t0, e, t', next);
    case SettingPassword(created) => PasswordReaches(base, t0, e, t, created, t', next);
  }

  /** Nothing but the create-or-update with this id is going on. */
  ghost predicate Alone(ss: seq<State>, id: nat) {
    forall j {:trigger ss[j]} :: 0 <= j < |ss| ==> ss[j].tasks.Keys == {id}
  }

  lemma AloneMove(base: Dn, s: State, s': State, id: nat)
    requires Next(base, s, s') && s.tasks.Keys == {id} && s'.tasks.Keys == {id}
    ensures TaskStep(base, s.tree, s.tasks[id], s'.tree, s'.tasks[id])
  {
  }

  /** On its own, a create-or-update is at each point where its contract says, and ends with an outcome it allows. */
  lemma {:induction false} UndisturbedUpsert(base: Dn, ss: seq<State>, i: nat, id: nat, e: DirectoryEntry)
    requires Run(base, ss) && i < |ss| && Alone(ss, id)
    requires id in ss[0].tasks && ss[0].tasks[id] == Writing(e, Finding)
    ensures id in ss[i].tasks && ReachedOrOver(base, ss[0].tree, e, ss[i].tree, ss[i].tasks[id])
  {
    if i > 0 {
      UndisturbedUpsert(base, ss, i - 1, id, e);
      assert NextAt(base, ss, i - 1);
      assert ss[i - 1].tasks.Keys == {id} && ss[i].tasks.Keys == {id};
      AloneMove(base, ss[i - 1], ss[i], id);
      assert ss[i - 1].tasks[id].Writing?;
      WriteReaches(base, ss[0].tree, e, ss[i - 1].tree, ss[i - 1].tasks[id].at, ss[i].tree, ss[i].tasks[id]);
    }
  }
}
