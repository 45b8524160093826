// Reconciling organizational units, groups and users, as a machine: any number of workers, one per object, each of
// whose calls to the Kubernetes API or the LDAP client is one step, interleaved with each other and with users.
module ObjectModel {
  import opened Common
  import opened DistinguishedNames
  import opened Dit
  import opened LdapClient
  import opened Mapper

  datatype Key = Key(kind: Kind, name: string)

  /** What a parentRef may name: another LDAP object, a directory, or an object of an unrelated kind. */
  datatype ParentRef = ObjectRef(key: Key) | DirectoryRef(directory: string) | OtherRef(name: string)

  /** The part of a spec that is fixed for each object: where it belongs, and the name its DN is made from. */
  datatype Identity = Identity(directory: string, parent: Option<ParentRef>, name: string)

  datatype Phase = Unset | Pending | Ready | Failed

  datatype Status = Status(phase: Phase, observedGeneration: nat)

  datatype Owner = DirectoryOwner(directory: string) | ObjectOwner(key: Key)

  datatype Object = Object(details: Details, generation: nat, finalizer: bool, deleting: bool, status: Status,
                           owner: Option<Owner>)

  /** The cluster and the LDAP servers behind it. directories holds whether each LDAPDirectory is Ready. */
  datatype Store = Store(objects: map<Key, Object>, others: set<string>, directories: map<string, bool>,
                         secrets: Secrets, trees: map<string, Tree>)

  /** Why a finalizer is being removed. */
  datatype Farewell = Unresolvable | EntryDeleted(dn: Dn) | DeleteRefused

  /** Marking holds whether the error marked is also returned, which is so for some failures only. */
  datatype Point =
    | AddingFinalizer
    | ResolvingReferences
    | ResolvingDirectory
    | ResolvingParent
    | BuildingClient
    | ComputingDn
    | DeletingEntry(dn: Dn)
    | RemovingFinalizer(why: Farewell)
    | SettingOwner(dn: Dn)
    | MappingEntry(dn: Dn)
    | Upserting(entry: DirectoryEntry)
    | Marking(phase: Phase, reported: bool := false)

  /** A worker holds its own copy of the object and the parent it resolved, if any. */
  datatype Worker = Starting | Working(obj: Object, parent: Option<Key>, at: Point)

  /**
   * What has happened so far: when each object first became Ready, which object's reconcile added each entry, and
   * which objects have an entry added and have not been finalized since.
   */
  datatype History = History(clock: nat, firstReady: map<Key, nat>, creator: map<(string, Dn), Key>, holders: set<Key>)

  /** plan, domains and bases are fixed: each object's identity, each directory's domain and its server's base. */
  datatype World = World(plan: map<Key, Identity>, domains: map<string, string>, bases: map<string, Dn>, store: Store,
                         workers: map<Key, Worker>, history: History)

  datatype Reply = Ok | Fail | Deleted(code: Code, tree: Tree) | Upserted(outcome: Outcome, tree: Tree)

  // ---------------------------------------------------------------- names

  function RdnOf(k: Key, id: Identity): Rdn {
    Rdn(NamingAttribute(k.kind), id.name)
  }

  datatype DnResult = DnFound(dn: string) | DnMissing | DnTooDeep

  /**
   * GetDistinguishedName to a recursion depth of n: own name, comma, the DN of the parent as it is found in the
   * store, and without a parent that of the directory.
   */
  function DnWithin(w: World, k: Key, n: nat): DnResult
    requires k in w.plan
    decreases n
  {
    var id := w.plan[k];
    match id.parent
    case Some(ObjectRef(p)) =>
      if p !in w.store.objects || p !in w.plan then DnMissing
      else if n == 0 then DnTooDeep
      else
        var above := DnWithin(w, p, n - 1);
        if above.DnFound? then DnFound(PrintRdn(RdnOf(k, id)) + "," + above.dn) else above
    case Some(DirectoryRef(d)) => DnBelowDirectory(w, k, d)
    case Some(OtherRef(_)) => DnMissing
    case None => DnBelowDirectory(w, k, id.directory)
  }

  function DnBelowDirectory(w: World, k: Key, d: string): DnResult
    requires k in w.plan
  {
    if d !in w.store.directories || d !in w.domains then DnMissing
    else DnFound(PrintRdn(RdnOf(k, w.plan[k])) + "," + DirectoryDn(w.domains[d]))
  }

  /** The recursion comes to an end. */
  ghost predicate Terminates(w: World, k: Key)
    requires k in w.plan
  {
    exists n: nat :: !DnWithin(w, k, n).DnTooDeep?
  }

  /** Its result, when it does. */
  ghost function ComputedDn(w: World, k: Key): DnResult
    requires k in w.plan && Terminates(w, k)
  {
    var n: nat :| !DnWithin(w, k, n).DnTooDeep?;
    DnWithin(w, k, n)
  }

  lemma {:induction false} DeeperIsSame(w: World, k: Key, n: nat, m: nat)
    requires k in w.plan && n <= m && !DnWithin(w, k, n).DnTooDeep?
    ensures DnWithin(w, k, m) == DnWithin(w, k, n)
    decreases n
  {
    match w.plan[k].parent
    case Some(ObjectRef(p)) =>
      if p in w.store.objects && p in w.plan && n > 0 {
        DeeperIsSame(w, p, n - 1, m - 1);
      }
    case Some(DirectoryRef(_)) =>
    case Some(OtherRef(_)) =>
    case None =>
  }

  /** Any depth that suffices gives the result. */
  lemma ComputedAt(w: World, k: Key, n: nat)
    requires k in w.plan && !DnWithin(w, k, n).DnTooDeep?
    ensures Terminates(w, k) && ComputedDn(w, k) == DnWithin(w, k, n)
  {
    var m: nat :| !DnWithin(w, k, m).DnTooDeep? && ComputedDn(w, k) == DnWithin(w, k, m);
    if n <= m {
      DeeperIsSame(w, k, n, m);
    } else {
      DeeperIsSame(w, k, m, n);
    }
  }

  // ---------------------------------------------------------------- one call of a worker

  function Refers(w: World, ref: ParentRef): bool {
    match ref
    case ObjectRef(p) => p in w.store.objects
    case DirectoryRef(d) => d in w.store.directories
    case OtherRef(n) => n in w.store.others
  }

  /** ResolveReferences: the directory, the parent and, for users, the password secret exist. */
  function AllResolve(w: World, k: Key, obj: Object): bool
    requires k in w.plan
  {
    && w.plan[k].directory in w.store.directories
    && (w.plan[k].parent.Some? ==> Refers(w, w.plan[k].parent.value))
    && (obj.details.UserDetails? && obj.details.passwordSecretRef.Some? ==>
          obj.details.passwordSecretRef.value in w.store.secrets)
  }

  predicate Typed(w: World) {
    && w.store.trees.Keys == w.domains.Keys
    && w.bases.Keys == w.domains.Keys
    && w.store.directories.Keys <= w.domains.Keys
    && w.store.objects.Keys <= w.plan.Keys
    && w.workers.Keys <= w.plan.Keys
    && forall k :: k in w.plan ==> w.plan[k].directory in w.domains
  }

  function Stop(w: World, k: Key): World {
    w.(workers := w.workers - {k})
  }

  function Goto(w: World, k: Key, me: Worker): World {
    w.(workers := w.workers[k := me])
  }

  function WithObject(w: World, k: Key, obj: Object): World {
    w.(store := w.store.(objects := w.store.objects[k := obj]))
  }

  function WithTree(w: World, d: string, t: Tree): World {
    w.(store := w.store.(trees := w.store.trees[d := t]))
  }

  predicate HoldsFinalizer(w: World, k: Key) {
    k in w.store.objects && w.store.objects[k].finalizer
  }

  /** The worker on k is at neither of its two decisive calls: removing the finalizer and marking Ready. */
  predicate Ordinary(w: World, k: Key) {
    k in w.workers && w.workers[k].Working? ==>
      var at := w.workers[k].at; !at.RemovingFinalizer? && !(at.Marking? && at.phase == Ready)
  }

  /** The replies a call may get: API calls succeed or fail, LDAP calls as their client's contract allows. */
  ghost predicate ValidReply(w: World, k: Key, r: Reply)
    requires Typed(w) && k in w.workers
  {
    var d := w.plan[k].directory;
    match w.workers[k]
    case Working(_, _, DeletingEntry(dn)) =>
      r.Deleted? && exists reliable :: DeleteOutcome(w.bases[d], w.store.trees[d], dn, reliable, r.code, r.tree)
    case Working(_, _, Upserting(e)) =>
      r.Upserted? && exists reliable :: UpsertOutcome(w.bases[d], w.store.trees[d], e, reliable, r.outcome, r.tree)
    case _ => r.Ok? || r.Fail?
  }

  function AfterFetch(w: World, k: Key, r: Reply): (w': World)
    ensures w'.history == w.history && w'.store == w.store
    ensures Ordinary(w', k)
  {
    if r.Fail? || k !in w.store.objects then Stop(w, k)
    else
      var obj := w.store.objects[k];
      Goto(w, k, Working(obj, None, if obj.finalizer then ResolvingReferences else AddingFinalizer))
  }

  function AfterAddFinalizer(w: World, k: Key, r: Reply): (w': World)
    ensures w'.history == w.history
    ensures k in w'.store.objects ==> k in w.store.objects && w'.store.objects[k].status == w.store.objects[k].status
    ensures Ordinary(w', k)
    ensures HoldsFinalizer(w, k) ==> HoldsFinalizer(w', k)
  {
    if r.Fail? || k !in w.store.objects then Stop(w, k)
    else
      var obj := w.store.objects[k].(finalizer := true);
      Goto(WithObject(w, k, obj), k, Working(obj, None, ResolvingReferences))
  }

  function AfterResolveReferences(w: World, k: Key, me: Worker, r: Reply): (w': World)
    requires me.Working? && k in w.plan
    ensures w'.history == w.history && w'.store == w.store
  {
    if r.Fail? then Goto(w, k, me.(at := Marking(Failed, true)))
    else if AllResolve(w, k, me.obj) then Goto(w, k, me.(at := ResolvingDirectory))
    else if me.obj.deleting then Goto(w, k, me.(at := RemovingFinalizer(Unresolvable)))
    else Goto(w, k, me.(at := Marking(Pending)))
  }

  /** Whether the directory was found is not looked at here: a missing one makes the worker panic. */
  function AfterResolveDirectory(w: World, k: Key, me: Worker, r: Reply): (w': World)
    requires me.Working? && k in w.plan
    ensures w'.history == w.history && w'.store == w.store
    ensures Ordinary(w', k)
  {
    var d := w.plan[k].directory;
    if r.Fail? then Goto(w, k, me.(at := Marking(Failed)))
    else if d !in w.store.directories then Stop(w, k)
    else if !w.store.directories[d] then Goto(w, k, me.(at := Marking(Pending)))
    else Goto(w, k, me.(at := if w.plan[k].parent.Some? then ResolvingParent else BuildingClient))
  }

  /** Nor is it for the parent: a missing one passes for no parent at all. */
  function AfterResolveParent(w: World, k: Key, me: Worker, r: Reply): (w': World)
    requires me.Working? && k in w.plan && w.plan[k].parent.Some?
    ensures w'.history == w.history && w'.store == w.store
    ensures Ordinary(w', k)
  {
    var ref := w.plan[k].parent.value;
    if r.Fail? then Goto(w, k, me.(at := Marking(Failed)))
    else if !Refers(w, ref) then Goto(w, k, me.(at := BuildingClient))
    else if !ref.ObjectRef? then Goto(w, k, me.(at := Marking(Failed, true)))
    else if w.store.objects[ref.key].status.phase != Ready then Goto(w, k, me.(at := Marking(Pending)))
    else Goto(w, k, me.(parent := Some(ref.key), at := BuildingClient))
  }

  /** A recursion that does not end overflows the stack and takes every worker with it. */
  ghost function AfterComputeDn(w: World, k: Key, me: Worker, r: Reply): (w': World)
    requires me.Working? && k in w.plan
    ensures w'.history == w.history && w'.store == w.store
    ensures Ordinary(w', k)
  {
    if r.Fail? then Stop(w, k)
    else if !Terminates(w, k) then w.(workers := map[])
    else
      match ComputedDn(w, k)
      case DnFound(s) =>
        Goto(w, k, me.(at := if me.obj.deleting then DeletingEntry(ParseDn(s)) else SettingOwner(ParseDn(s))))
      case _ => Stop(w, k)
  }

  /** A failed delete does not block the finalizer's removal. */
  function AfterDeleteEntry(w: World, k: Key, me: Worker, dn: Dn, r: Reply): (w': World)
    requires me.Working? && k in w.plan && r.Deleted?
    ensures w'.history == w.history
    ensures w'.store == w.store.(trees := w'.store.trees)
  {
    var why := if r.code == Success then EntryDeleted(dn) else DeleteRefused;
    Goto(WithTree(w, w.plan[k].directory, r.tree), k, me.(at := RemovingFinalizer(why)))
  }

  /** Without its last finalizer an object being deleted is gone. */
  function AfterRemoveFinalizer(w: World, k: Key, r: Reply): (w': World)
    ensures w'.history == w.history.(holders := w'.history.holders)
    ensures k in w'.store.objects ==> k in w.store.objects && w'.store.objects[k].status == w.store.objects[k].status
  {
    if r.Fail? || k !in w.store.objects then Stop(w, k)
    else
      var obj := w.store.objects[k].(finalizer := false);
      var freed := w.(history := w.history.(holders := w.history.holders - {k}));
      Stop(if obj.deleting then freed.(store := freed.store.(objects := freed.store.objects - {k}))
           else WithObject(freed, k, obj), k)
  }

  /** The owner is the parent or else the directory; a parent that was not found makes the worker panic. */
  function AfterSetOwner(w: World, k: Key, me: Worker, dn: Dn, r: Reply): (w': World)
    requires me.Working? && k in w.plan
    ensures w'.history == w.history
    ensures k in w'.store.objects ==> k in w.store.objects && w'.store.objects[k].status == w.store.objects[k].status
    ensures Ordinary(w', k)
    ensures HoldsFinalizer(w, k) ==> HoldsFinalizer(w', k)
  {
    if r.Fail? then Goto(w, k, me.(at := Marking(Failed)))
    else if w.plan[k].parent.Some? && me.parent.None? then Stop(w, k)
    else if k !in w.store.objects then Goto(w, k, me.(at := Marking(Failed)))
    else
      var owner := if me.parent.Some? then ObjectOwner(me.parent.value) else DirectoryOwner(w.plan[k].directory);
      var obj := w.store.objects[k].(owner := Some(owner));
      Goto(WithObject(w, k, obj), k, me.(obj := obj, at := MappingEntry(dn)))
  }

  function AfterMapToEntry(w: World, k: Key, me: Worker, dn: Dn, r: Reply): (w': World)
    requires me.Working?
    ensures w'.history == w.history && w'.store == w.store
    ensures Ordinary(w', k)
  {
    var entry := MapToEntry(w.store.secrets, dn, me.obj.details);
    if r.Fail? || entry.None? then Goto(w, k, me.(at := Marking(Failed)))
    else Goto(w, k, me.(at := Upserting(entry.value)))
  }

  /** Only a created entry leads to Ready; an update that succeeds writes no status. */
  function AfterUpsert(w: World, k: Key, me: Worker, dn: Dn, r: Reply): (w': World)
    requires me.Working? && k in w.plan && r.Upserted?
    ensures w'.history == w.history.(creator := w'.history.creator, holders := w'.history.holders)
    ensures w'.store == w.store.(trees := w'.store.trees)
  {
    var d := w.plan[k].directory;
    var after := WithTree(w, d, r.tree);
    match r.outcome
    case Refused(_) => Goto(after, k, me.(at := Marking(Failed)))
    case Done(false) => Stop(after, k)
    case Done(true) =>
      var history := after.history.(creator := after.history.creator[(d, dn) := k],
                                    holders := after.history.holders + {k});
      Goto(after.(history := history), k, me.(at := Marking(Ready)))
  }

  function AfterMark(w: World, k: Key, phase: Phase, r: Reply): (w': World)
    ensures w'.history == w.history.(firstReady := w'.history.firstReady)
    ensures HoldsFinalizer(w, k) ==> HoldsFinalizer(w', k)
  {
    if r.Fail? || k !in w.store.objects then Stop(w, k)
    else
      var obj := w.store.objects[k].(status := Status(phase, w.store.objects[k].generation));
      var marked := WithObject(w, k, obj);
      if phase != Ready || k in w.history.firstReady then Stop(marked, k)
      else
        var history := w.history.(firstReady := w.history.firstReady[k := w.history.clock]);
        Stop(marked.(history := history), k)
  }

  /** One call of the worker on k and its reply. A reply of the wrong kind is never valid and changes nothing. */
  ghost function Next(w: World, k: Key, r: Reply): World
    requires k in w.workers && k in w.plan
  {
    var me := w.workers[k];
    match me
    case Starting => AfterFetch(w, k, r)
    case Working(_, _, at) =>
      match at
      case AddingFinalizer => AfterAddFinalizer(w, k, r)
      case ResolvingReferences => AfterResolveReferences(w, k, me, r)
      case ResolvingDirectory => AfterResolveDirectory(w, k, me, r)
      case ResolvingParent => if w.plan[k].parent.None? then Stop(w, k) else AfterResolveParent(w, k, me, r)
      case BuildingClient => if r.Fail? then Stop(w, k) else Goto(w, k, me.(at := ComputingDn))
      case ComputingDn => AfterComputeDn(w, k, me, r)
      case DeletingEntry(dn) => if r.Deleted? then AfterDeleteEntry(w, k, me, dn, r) else w
      case RemovingFinalizer(_) => AfterRemoveFinalizer(w, k, r)
      case SettingOwner(dn) => AfterSetOwner(w, k, me, dn, r)
      case MappingEntry(dn) => AfterMapToEntry(w, k, me, dn, r)
      case Upserting(e) => if r.Upserted? then AfterUpsert(w, k, me, e.dn, r) else w
      case Marking(phase, _) => AfterMark(w, k, phase, r)
  }

  // ---------------------------------------------------------------- everything that can happen

  datatype Event =
    | Begin(key: Key)
    | Call(key: Key, reply: Reply)
    | Restart
    | CreateObject(key: Key, details: Details)
    | EditObject(key: Key, details: Details)
    | DeleteObject(key: Key)
    | SetDirectories(directories: map<string, bool>)
    | SetSecrets(secrets: Secrets)
    | SetOthers(others: set<string>)
    | EditTree(directory: string, tree: Tree)

  /** An object's details agree with its key and its fixed name. */
  predicate Conforms(w: World, k: Key, details: Details) {
    k in w.plan && details.Kind() == k.kind && details.Name() == w.plan[k].name
  }

  ghost predicate Enabled(w: World, e: Event)
    requires Typed(w)
  {
    match e
    case Begin(k) => k in w.plan && k !in w.workers
    case Call(k, r) => k in w.workers && ValidReply(w, k, r)
    case Restart => true
    case CreateObject(k, details) => Conforms(w, k, details) && k !in w.store.objects
    case EditObject(k, details) => Conforms(w, k, details) && k in w.store.objects
    case DeleteObject(k) => k in w.store.objects
    case SetDirectories(directories) => directories.Keys <= w.domains.Keys
    case SetSecrets(_) => true
    case SetOthers(_) => true
    case EditTree(d, t) => d in w.domains && WellFormed(w.bases[d], t)
  }

  function NewObject(details: Details): Object {
    Object(details, 1, false, false, Status(Unset, 0), None)
  }

  function Edited(obj: Object, details: Details): Object {
    obj.(details := details, generation := obj.generation + 1)
  }

  function Deleting(w: World, k: Key): World
    requires k in w.store.objects
  {
    var obj := w.store.objects[k];
    if obj.finalizer then WithObject(w, k, obj.(deleting := true))
    else w.(store := w.store.(objects := w.store.objects - {k}))
  }

  function Tick(w: World): World {
    w.(history := w.history.(clock := w.history.clock + 1))
  }

  /** The world in which a worker on k has just begun. */
  function Begun(w: World, k: Key): World {
    Tick(Goto(w, k, Starting))
  }

  ghost function Effect(w: World, e: Event): World
    requires Typed(w) && Enabled(w, e)
  {
    match e
    case Begin(k) => Goto(w, k, Starting)
    case Call(k, r) => Next(w, k, r)
    case Restart => w.(workers := map[])
    case CreateObject(k, details) => WithObject(w, k, NewObject(details))
    case EditObject(k, details) => WithObject(w, k, Edited(w.store.objects[k], details))
    case DeleteObject(k) => Deleting(w, k)
    case SetDirectories(directories) => w.(store := w.store.(directories := directories))
    case SetSecrets(secrets) => w.(store := w.store.(secrets := secrets))
    case SetOthers(others) => w.(store := w.store.(others := others))
    case EditTree(d, t) => WithTree(w, d, t)
  }

  ghost function Happen(w: World, e: Event): World
    requires Typed(w) && Enabled(w, e)
  {
    Tick(Effect(w, e))
  }
}
