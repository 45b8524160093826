# Verified model of the LDAP operator

The operator turns Kubernetes objects (directories, organizational units, groups, users) into entries of OpenLDAP
servers. This project models its two controllers, its LDAP client, its name printing and its mappers in Dafny, and
proves what they keep over whole runs. Verify it with `dafny verify dfyconfig.toml`.

| file | models |
|---|---|
| `Strings.dfy`, `DistinguishedNames.dfy` | how DNs are printed from chains of objects, and a parser that undoes it |
| `Dit.dfy` | the LDAP server: a tree under RFC 4511 (search 4.5.1, modify 4.6, add 4.7, delete 4.8) and RFC 4512 section 2.1 |
| `LdapClient.dfy` | the LDAP client as a class whose methods change a server's tree, each with the exact set of its outcomes |
| `Convergence.dfy`, `Mapper.dfy` | what create-or-update achieves: exact patch, convergence, idempotence, recovery, reading back |
| `SpecConvergence.dfy` | what an object's spec comes to in the directory, spelled out: classes, names, values, passwords, and what reads return |
| `Interleaving.dfy`, `AloneRuns.dfy` | any number of client calls on one tree, one server operation at a time, with failures and crashes anywhere; a call by itself |
| `ObjectModel.dfy` | the generic object controller as a machine: one worker per object, one API or client call per step |
| `ObjectInvariants.dfy`, `ObjectRuns.dfy` | what every call and every other event keeps; runs; cycles and termination |
| `ObjectTheorems.dfy`, `ObjectLifecycle.dfy` | parents first, one Ready object per DN, stuck objects, finalizers, cascades |
| `ParentCycles.dfy`, `ParentRace.dfy` | when the unguarded DN recursion ends, exactly; the one way it does not, and a run |
| `ObjectNames.dfy` | DNs spelled out, what objects with one DN have in common, and that workers write their own objects' entries |
| `ObjectCalls.dfy` | what each call leaves behind, one lemma per call, and what a reconcile returns |
| `ObjectProgress.dfy`, `ProgressWitness.dfy` | exactly when a reconcile makes its object Ready; chains from the top; a creation that gets lost |
| `ObjectOutcomes.dfy` | what one answered reconcile comes to, from what is in the store: status, finalizer, tree, value returned; and failed calls |
| `ObjectReconciler.dfy` | the reconciler's own code, call by call, amid everyone else's events, proved to be a run of that machine |
| `OrderedMerge.dfy`, `DirectoryController.dfy` | the override-by-name merge and the directory controller with its status history |

How the pieces fit. The client's methods are proved against outcome relations (`UpsertOutcome`, `DeleteOutcome`) that
also describe every failure. The object machine takes each client call as one step with such an outcome;
`Interleaving.dfy` splits the calls into single server operations and proves what survives any interleaving;
an undisturbed create-or-update has exactly the outcomes of its relation (`AloneRuns.UpsertRunsExactly`). The reconciler class is proved, method by method,
to make only moves of the machine, with others' events between any two of its calls: `Others` stands for them, and its
contract lets them do all that the machine lets them do. `ObjectOutcomes.dfy` and `SpecConvergence.dfy` say what comes
out in the end without the machine's and the client's own functions, in terms of what stands in the store and in the
tree before and after. So every theorem about runs of the machine is about it too.

## Findings

Points where the code does not do what one would expect, each with a theorem below:

- The object controller ignores whether the parent was found when it resolves it the second time
  (`internal/controller/ldapobject_controller.go:162`), and passes a parent that is missing at that moment for no
  parent at all. If the parent is back when the DN is computed and the parentRefs form a cycle, the recursion never
  ends (`ParentRace.RecursionCanRunAway`). The comment at line 164 says an error there should never happen; with
  concurrent edits it can. There is no other way: a recursion ends exactly when no existing parents form a cycle above
  it (`ParentCycles.TerminatesExactly`), and below a cycle a worker gets only after looking for its parent in vain
  (`ParentRace.RunawayNeedsCycleAndRace`).
- Ready is written only when the call that created the entry succeeded as a whole. A reconcile with all its calls
  answered makes its object Ready exactly when, its references being there and Ready, its entry is missing and can be
  added (`ObjectProgress.ReadyExactly`). A user whose entry was added but whose password could not be set never becomes
  Ready, nor does any object that lost that status or whose entry somebody else made
  (`ObjectProgress.CreationCanBeLost`, `ObjectLifecycle.DemotedIsStuck`, `ObjectLifecycle.NeverReadyAgain`).
- The search of create-or-update covers the whole subtree, so the values compared may be those of a namesake below the
  entry that is then modified (`Convergence.NamesakeSpoilsUpdate`; the exact condition is
  `Convergence.UpdateConvergesExactly`).
- DN components are printed without escaping: with a comma in a name two different chains share a DN
  (`DistinguishedNames.CommaCollision`; round trip exactly for comma-free names, `DistinguishedNames.RoundTripExactly`).
- A directory that is Ready is not marked again, so a newer generation stays unobserved
  (`DirectoryController.Directory.Reconcile`, in the state of `DirectoryController.ReadyCanLagBehind`).
- The documentation of `volumeMounts` (`api/v1alpha1/ldapdirectory_types.go:67-70`) lists the mounts config and data;
  the code adds certs as well, and the model follows the code.
- A read that covers no entry of the class asked for indexes an empty list (`Mapper.ReadCanPanic`; exactly when it
  cannot, and exactly when a read returns the entry asked for: `Mapper.ReadsItselfExactly`).

## Model

| member | source | states |
|---|---|---|
| `DistinguishedNames.BaseDnsAgree` | internal/ldap/client_builder.go:106 | the client's replace-all and the directory's split and join give the same base DN for every domain string |
| `DistinguishedNames.RoundTripExactly` | api/v1alpha1/ldapuser_types.go:66-106 | parsing a printed DN gives back the chain of kinds and names and the domain labels if and only if no name and no domain holds a comma |
| `DistinguishedNames.PrintInjective` | api/v1alpha1/ldapgroup_types.go:62-102 | comma-free chains with the same DN have the same kinds and names all along and the same domain |
| `DistinguishedNames.CommaCollision` | api/v1alpha1/ldaporganizationalunit_types.go:78 | two different chains with one DN, for every domain, once a name holds a comma |
| `DistinguishedNames.AncestryIsSubtree` | api/v1alpha1/ldaporganizationalunit_types.go:73-78 | for comma-free names: DN(b) is DN(a) or ends in a comma and DN(a), and equally lies in the LDAP subtree of DN(a), exactly when b's chain passes through an object with a's DN |
| `Dit.ApplyKeepsShape` | internal/ldap/client.go:146-149 | no operation from any client leaves an entry without its superior; only a delete removes, and any other operation touches its own entry alone |
| `LdapClient.Client.DeleteEntry` | internal/ldap/client.go:115-152 | a cascading delete removes exactly the subtree at dn when it succeeds (also when nothing is there), otherwise some of that subtree and nothing else; on a reliable server it always succeeds, so no removal hits a non-leaf; it terminates by subtree size |
| `LdapClient.NextChildIntact` | internal/ldap/client.go:138-144 | deleting one listed sibling's subtree leaves the next one's as it was in the snapshot |
| `LdapClient.OnlyRootLeft` | internal/ldap/client.go:138-147 | once all listed children are done, dn alone is left of its subtree, as a leaf |
| `LdapClient.RemovingSubtreeKeepsShape` | internal/ldap/client.go:115-152 | removing a whole subtree leaves every other entry with its superior |
| `LdapClient.Client.CreateOrUpdateEntry` | internal/ldap/client.go:100-111 | any entry's create-or-update has one of the outcomes of `UpsertOutcome`, failures at every point included |
| `LdapClient.Client.CreateOrUpdateOrganizationalUnit` | internal/ldap/client.go:181-231 | the same for organizational units: search the subtree, add when nothing was found, else modify by the first entry found |
| `LdapClient.Client.CreateOrUpdateGroup` | internal/ldap/client.go:261-317 | the same for groups, members compared as sets |
| `LdapClient.Client.CreateOrUpdateUser` | internal/ldap/client.go:349-441 | the same for users, with the password set after an Add and verified after a Modify |
| `LdapClient.Client.CreateUser` | internal/ldap/client.go:370-393 | Add without a password, then the password if there is one; a failure between the two leaves the entry without it |
| `LdapClient.Client.UpdateUser` | internal/ldap/client.go:395-441 | the planned Modify, if any, then the password check |
| `LdapClient.Client.VerifyPassword` | internal/ldap/client.go:418-438 | bind as the user; only invalidCredentials leads to a new password, any other failure ends the call |
| `LdapClient.Client.SetUserPassword` | internal/ldap/client.go:386-391 | on success the entry holds a hash that verifies, whichever the server chose |
| `LdapClient.Client.GetEntry` | internal/ldap/client.go:70-98 | what a read may return for each kind: the one entry of the class in scope, size limit exceeded for several, no such object, or a panic on an empty result |
| `LdapClient.OptionalAttributeModifications` | internal/ldap/client.go:460-470 | appends the change that the difference between existing and desired value calls for |
| `LdapClient.GroupRequest` | internal/ldap/client.go:300-308 | the accumulated group changes are the plan for description and members |
| `LdapClient.UserRequest` | internal/ldap/client.go:397-410 | the accumulated user changes are the plan for cn, sn and mail |
| `Convergence.PatchExactly` | internal/ldap/client.go:460-470 | applying the planned changes of one attribute under RFC 4511 section 4.6 brings it to its target if and only if they fit what is stored, for multi-valued attributes too, and touches no other attribute |
| `Convergence.TidyExactly` | internal/ldap/client.go:300-308 | the plan fits for every order in which the server may return the values if and only if the stored values are tidy (no empty optional value; a member replace with distinct members; cn and sn not multi-valued with the desired value among them) |
| `Convergence.PlanExactly` | internal/ldap/client.go:397-416 | a whole request reaches all its targets if and only if each part fits; unmanaged attributes stay |
| `Convergence.CreateConverges` | internal/ldap/client.go:202-215 | a missing entry with its superior present is created with exactly the requested attributes, and a password that verifies |
| `Convergence.CreatesExactly` | internal/ldap/client.go:202-215 | for every entry and tree, a call on an answering server reports a creation if and only if the entry is missing, its superior is there and a group has members, each once; then the entry is there and nothing else has changed |
| `Convergence.UpdateConverges` | internal/ldap/client.go:219-230 | an update whose plan fits leaves the entry as desired, its other attributes and all other entries unchanged |
| `Convergence.Converges` | internal/ldap/client.go:100-111 | on an answering server and without a namesake below, create-or-update succeeds, tells truthfully whether it created the entry, and leaves it as desired and all else unchanged |
| `Convergence.Idempotent` | internal/ldap/client.go:226-230 | when the entry is as desired, another call reports no creation and leaves the tree equal |
| `Convergence.SecondCallChangesNothing` | internal/ldap/client.go:100-111 | the second of two calls on an answering server creates nothing and leaves the tree equal |
| `Convergence.SuccessIsAnswered` | internal/ldap/client.go:181-441 | whatever a call that succeeds has done and reports on a server that may lose requests and answers, it could have done and reported on one that answers every call |
| `Convergence.UpdateConvergesExactly` | internal/ldap/client.go:188-195 | every outcome of an update is right if and only if the plan made from each candidate the search may return first fits the entry itself |
| `Convergence.NamesakeSpoilsUpdate` | internal/ldap/client.go:217-222 | a tree in which a namesake below the entry makes a successful update leave two descriptions |
| `Convergence.UpsertEffects` | internal/ldap/client.go:100-111 | whatever the outcome, only the entry at dn changes and the tree keeps its shape; a reported creation means dn went from absent to present; with the superior present no call is refused for lack of it |
| `Convergence.FailureLeavesManageable` | internal/ldap/client.go:349-441 | a call that fails at any point leaves a tree from which the same request can be completed |
| `Convergence.RecoversFromFailure` | internal/ldap/client.go:384-391 | after a call that failed at any point, also between Add and password, one answered call ends with the desired attributes and a password that verifies |
| `Mapper.MappedSaysTheSame` | internal/mapper/mapper.go:34-72 | each mapper's entry says what the spec says: same dn, name and attributes |
| `Mapper.ReadsItselfExactly` | internal/ldap/client.go:233-259 | for every tree, kind and dn: a read returns that dn's entry in every case if and only if it is the one entry of the class covered, and cannot index an empty result if and only if dn is missing or something of the class is covered |
| `Mapper.ReadCanPanic` | internal/ldap/client.go:319-341 | a tree in which reading a unit as a user indexes an empty result |
| `Mapper.WriteReadRoundTrip` | internal/mapper/mapper.go:34-72 | reading after a create-or-update of a mapped spec on an answering server returns the same dn, name, description, e-mail, names, and members as a set, if before the call the read covered no other entry of the class |
| `SpecConvergence.ClearIsManageable` | internal/ldap/client.go:188-195 | where nothing strictly below the DN has the object's own class (organizationalUnit, groupOfNames, inetOrgPerson) and its name in ou, cn or uid, the mapped entry meets the conditions of `Convergence.Converges` |
| `SpecConvergence.SpecArrives` | internal/ldap/client.go:181-441 | a create-or-update of a mapped spec that is answered, or succeeds all the same, leaves under those conditions an entry with the spec's class, name and values, attribute by attribute; a new one holds exactly the classes and attributes of the Add; a user's password is the content of the secret |
| `SpecConvergence.OtherNameIsNoRival` | internal/ldap/client.go:188-195 | in the tree of `Convergence.NamesakeSpoilsUpdate`, but with another name on the unit below, every answered update leaves exactly the new description |
| `SpecConvergence.NoPasswordGiven` | internal/mapper/mapper.go:51-72 | a new user whose spec names no password secret, or an empty one, is created without a password |
| `SpecConvergence.ReadsSpelledOut` | internal/ldap/client.go:154-341 | an answered read always returns the entry at its DN, as one of its kind, if and only if that is an organizationalUnit, whatever lies below; for groups and users if and only if it is of the class and nothing below it is |
| `OrderedMerge.Override` | internal/controller/ldapdirectory_controller.go:378-393 | the nested loops compute the ordered merge of defaults and overrides, duplicate names allowed |
| `OrderedMerge.MergedNames` | internal/controller/ldapdirectory_controller.go:378-393 | each default keeps its position, new names follow in the order of their first occurrence |
| `OrderedMerge.MergedLookup` | internal/controller/ldapdirectory_controller.go:409-423 | looking a name up gives the last override, or else the default |
| `OrderedMerge.LastOverrideStands` | internal/controller/ldapdirectory_controller.go:409-423 | by position: the override after which its name does not come again is what the merge holds under that name, and a name never overridden keeps its default |
| `OrderedMerge.MergedUnique` | internal/controller/ldapdirectory_controller.go:409-423 | names stay unique |
| `OrderedMerge.MergedExactly` | internal/controller/ldapdirectory_controller.go:378-423 | uniqueness, name order and last-override lookup together determine the merge |
| `OrderedMerge.MergeIdempotent` | internal/controller/ldapdirectory_controller.go:378-423 | merging the same overrides again changes nothing |
| `DirectoryController.LabelsFor` | internal/controller/ldapdirectory_controller.go:511-517 | the user's labels with the operator's three over them |
| `DirectoryController.StatefulSetTemplate` | internal/controller/ldapdirectory_controller.go:342-520 | claims and mounts are the merges of the defaults with the spec's, names unique, the certs mount never lost, one replica |
| `DirectoryController.DefaultsStand` | internal/controller/ldapdirectory_controller.go:394-423 | config and data claims and config, data and certs mounts stay in front, in this order, and with their default sizes and paths unless overridden |
| `DirectoryController.SetStatusCondition` | internal/controller/ldapdirectory_controller.go:279-285 | sets the condition of one type and no other |
| `DirectoryController.ConditionsAreHistory` | internal/controller/ldapdirectory_controller.go:273-340 | after any run the condition list is the ordered merge of every condition ever set |
| `DirectoryController.MarkKeepsConsistent` | internal/controller/ldapdirectory_controller.go:273-340 | one mark keeps the status consistent: unique True conditions of the three types, none newer than the status, the current phase's at its generation |
| `DirectoryController.StatusOverRuns` | internal/controller/ldapdirectory_controller.go:273-340 | over any run the status stays consistent, has at most three conditions, and its observed generation never runs backwards or ahead of the object's |
| `DirectoryController.ReadyCanLagBehind` | internal/controller/ldapdirectory_controller.go:253-260 | a run after which a directory is Ready and observes an older generation |
| `DirectoryController.OneConditionPerPhaseMarked` | internal/controller/ldapdirectory_controller.go:273-340 | from an empty status there is one True condition for each phase ever marked and no other |
| `DirectoryController.OneMarkKeepsConsistent` | internal/controller/ldapdirectory_controller.go:79-263 | a whole reconcile, which marks at most once, keeps the status consistent |
| `DirectoryController.Directory.MarkPending` | internal/controller/ldapdirectory_controller.go:273-294 | writes the pending mark or, if the update fails, nothing; written, the status says Pending with a True condition of that type for the current generation, and other conditions stay |
| `DirectoryController.Directory.MarkReady` | internal/controller/ldapdirectory_controller.go:296-317 | writes the ready mark or nothing, likewise |
| `DirectoryController.Directory.MarkFailed` | internal/controller/ldapdirectory_controller.go:319-340 | writes the failed mark or, silently, nothing, likewise |
| `DirectoryController.Directory.Reconcile` | internal/controller/ldapdirectory_controller.go:79-263 | at most one mark; success on a live directory means everything is up and the phase is Ready; its generation is then observed exactly if it was not Ready before or had been observed; requeueing means Pending and not up; errors leave the status or mark it failed; while the API answers there is no error, a live directory is finished exactly when the certificate is there and its one replica ready, and otherwise Pending and requeued; without an error stateful set, service and password are in place; the admin password is never replaced; deletion touches nothing but the finalizer |
| `DirectoryController.Directory.CreateOrUpdate` | internal/controller/ldapdirectory_controller.go:150-263 | which mark each way out of the second half writes, and that success means the stateful set and service are as their templates say; while the API answers, finished if the one replica is ready and requeued with the pending mark if not |
| `DirectoryController.Directory.EnsurePassword` | internal/controller/ldapdirectory_controller.go:150-182 | the admin password is generated if there is none and never replaced |
| `DirectoryController.Directory.RollOut` | internal/controller/ldapdirectory_controller.go:184-226 | on success the stateful set and the service are as their templates say and the status is untouched; on failure it is so or marked failed |
| `ObjectModel.ComputedAt` | api/v1alpha1/ldapuser_types.go:66-106 | any depth at which the recursive DN computation comes to an end gives the same result |
| `ObjectInvariants.ComputedIsPrinted` | api/v1alpha1/ldapgroup_types.go:62-102 | a DN computed from the objects found in the store is the one their fixed parentRefs spell |
| `ObjectNames.DnSpelledOut` | api/v1alpha1/ldapuser_types.go:66-106 | an object's DN is ou=, cn= or uid= by its kind, its name, a comma, and the DN of its parent or of its directory, and nothing else is |
| `ObjectNames.SameDnSameName` | api/v1alpha1/ldapgroup_types.go:62-102 | objects with one DN are of one kind and one name, below one DN, if their own names hold no comma |
| `ObjectNames.DnCarriesName` | api/v1alpha1/ldapuser_types.go:85 | the DN of an object whose details agree with its key begins with the component its spec gives: ou=, cn= or uid= and the name, if it holds no comma |
| `ObjectNames.EntryNamedAsObject` | internal/controller/ldapobject_controller.go:258-271 | over every run, the entry a worker is about to write is of its object's kind and name, at a DN whose first component is ou=, cn= or uid= by the kind and that name, if it holds no comma |
| `ObjectInvariants.CallKeepsInv` | internal/controller/ldapobject_controller.go:65-294 | any call of any worker, with any valid reply, keeps the invariant: ranks fall along parents, workers hold what they rely on, finalizers are in place, trees are closed; and touches one object, one worker and one tree |
| `ObjectRuns.EventKeepsInv` | internal/controller/ldapobject_controller.go:65-294 | so does every other event: users' edits, crashes, directories and secrets coming and going, outside edits of the tree |
| `ObjectRuns.RunKeepsInv` | internal/controller/ldapobject_controller.go:65-294 | the invariant holds after every run |
| `ObjectRuns.RanksFall` | internal/controller/ldapobject_controller.go:177-203 | along parentRefs from an object that was ever Ready, every ancestor was Ready, each strictly earlier |
| `ObjectRuns.CyclesOverRuns` | internal/controller/ldapobject_controller.go:160-204 | over every run from a world without Ready objects, no object on a parentRef cycle is ever Ready |
| `ObjectRuns.DnTerminatesOverRuns` | internal/controller/ldapobject_controller.go:206-214 | over every run, the DN recursion of a worker that found its parent Ready, or needs none, ends |
| `ParentCycles.TerminatesExactly` | api/v1alpha1/ldaporganizationalunit_types.go:59-99 | the DN recursion ends if and only if the parentRefs of existing objects do not lead into a cycle |
| `ParentCycles.EndsWithinObjects` | api/v1alpha1/ldapgroup_types.go:62-102 | and if and only if it ends within as many parents as there are objects, with that result |
| `ParentCycles.FindsDnExactly` | api/v1alpha1/ldapuser_types.go:66-106 | a DN is found if and only if existing parents lead from the object to an existing directory |
| `ParentRace.RunawayNeedsCycleAndRace` | internal/controller/ldapobject_controller.go:160-214 | over every run, a worker whose recursion has no end when it computes its DN stands below a cycle, and at an earlier call of its own looked for its parent when that was missing, which now exists |
| `ParentRace.RecursionCanRunAway` | internal/controller/ldapobject_controller.go:160-214 | a legal run of eight events after which a worker computes a DN that has no end |
| `ObjectTheorems.DnEndsInClientBase` | internal/controller/ldapobject_controller.go:206-214 | with one directory along the parent chain, an object's DN ends in the base DN of its client and names an entry below that base, commas or not |
| `ObjectTheorems.SuperiorExactly` | api/v1alpha1/ldapuser_types.go:85 | an object's entry lies right below that of its parent, or the base, if and only if its name has no comma |
| `ObjectTheorems.AncestorsHaveEntries` | internal/controller/ldapobject_controller.go:145-204 | over every run in which no recorded entry is removed, every object that was ever Ready and all its ancestors have their entries in the directory's tree |
| `ObjectTheorems.SuperiorPresent` | internal/controller/ldapobject_controller.go:179-203 | the superior of an object with a once Ready parent in the same directory, or none, is there |
| `ObjectTheorems.NoAddLacksSuperior` | internal/controller/ldapobject_controller.go:271-283 | so in such a run no create-or-update is refused for a missing superior |
| `ObjectTheorems.OneReadyPerDn` | internal/controller/ldapobject_controller.go:285-291 | in such a run at most one object per DN and directory is ever Ready |
| `ObjectLifecycle.OnlyMarkingMakesReady` | internal/controller/ldapobject_controller.go:324-339 | a call makes an object Ready only at the end of a reconcile that is marking it Ready |
| `ObjectLifecycle.ReadyNeedsCreation` | internal/controller/ldapobject_controller.go:271-291 | a worker comes to mark Ready only by a create-or-update that took its DN from absent to present |
| `ObjectLifecycle.NeverReadyAgain` | internal/controller/ldapobject_controller.go:285-293 | entry present and phase not Ready is closed under every event while the entry stays, so over every such run the object never becomes Ready |
| `ObjectLifecycle.LostCreationIsStuck` | internal/ldap/client.go:386-391 | a create-or-update that left the entry but reported failure puts its object in that set |
| `ObjectLifecycle.DemotedIsStuck` | internal/controller/ldapobject_controller.go:145-158 | so does marking an object with an entry anything but Ready |
| `ObjectProgress.ReadyExactly` | internal/controller/ldapobject_controller.go:65-294 | from every world with the invariant, a reconcile with all its calls answered makes an object Ready if and only if its references exist, directory and parent are Ready, its DN is found, it is not being deleted, and its entry can be added (it is missing, its superior is there, and a group has members, each once); then its entry is there and nothing else has changed |
| `ObjectProgress.ChainBecomesReady` | internal/controller/ldapobject_controller.go:177-203 | reconciled from the top with all calls answered, a chain of parents whose entries are missing becomes Ready, every object of it, and what was Ready stays so |
| `ObjectProgress.ChainCanBecomeReady` | internal/controller/ldapobject_controller.go:177-203 | there is a run of the machine that does so |
| `ObjectProgress.CreationCanBeLost` | internal/ldap/client.go:384-391 | from every world in which a user with a password can be added there is a run, its last call an Add that was answered and a password change that was not, after which the object is in the set that never becomes Ready |
| `ObjectOutcomes.ReturnsExactly` | internal/controller/ldapobject_controller.go:65-294 | the reconciles with all their calls answered are exactly those that return, with one of the values below |
| `ObjectOutcomes.NoObjectEnds` | internal/controller/ldapobject_controller.go:69-77 | without the object an answered reconcile changes nothing and succeeds |
| `ObjectOutcomes.MissingReference` | internal/controller/ldapobject_controller.go:92-121 | if the directory, the parentRef's target or a user's password secret is not in the store, an answered reconcile leaves a live object Pending for its generation and asks to be called again, and lets one that is being deleted go; no tree and nothing else changes |
| `ObjectOutcomes.WaitsForReady` | internal/controller/ldapobject_controller.go:145-204 | if the directory or the parent object is there and not Ready: Pending and again later, for an object that is being deleted too |
| `ObjectOutcomes.ForeignParentFails` | internal/controller/ldapobject_controller.go:177-187 | if the parent is no object of the operator's: Failed, and an error |
| `ObjectOutcomes.NoDnIsError` | internal/controller/ldapobject_controller.go:211-214 | if existing parents do not lead to an existing directory: an error, and nothing but the finalizer is written |
| `ObjectOutcomes.DeletionRemovesSubtree` | internal/controller/ldapobject_controller.go:218-236 | otherwise an object that is being deleted goes, and from its directory's tree exactly the entry at its DN and all below |
| `ObjectOutcomes.EntryWritten` | internal/controller/ldapobject_controller.go:238-294 | and a live one gets its finalizer and its owner, its entry is created or updated from its spec, and its status says Ready if that created it, Failed if it was refused, and what it said before if it updated it; the reconcile succeeds; nothing else changes |
| `ObjectOutcomes.SpecIsWritten` | internal/controller/ldapobject_controller.go:65-294 | end to end: with a clear place for the entry, one answered reconcile leaves an entry that says what the spec says, a password that is the secret's content, and a Ready object if the entry is new |
| `ObjectOutcomes.UnansweredCall` | internal/controller/ldapobject_controller.go:122-175 | a failed API call from references to mapping is marked: the object says Failed for its generation, and only a failure to resolve references is returned as well; any other ends the reconcile with an error, but that to mark a failure; no tree changes |
| `ObjectOutcomes.DeleteNeverBlocks` | internal/controller/ldapobject_controller.go:218-236 | whatever the LDAP delete answers, the object goes with the next call, and no entry outside the subtree is touched |
| `ObjectOutcomes.SomeReturn` | internal/controller/ldapobject_controller.go:65-294 | every object without a reconcile under way has an answered one |
| `ProgressWitness.ReadyIsReached` | internal/controller/ldapobject_controller.go:285-293 | from a given initial world a run makes a unit and the user below it Ready |
| `ProgressWitness.StuckIsReached` | internal/controller/ldapobject_controller.go:271-283 | from the same world a run leaves another user's object in that set |
| `ObjectLifecycle.FinalizerRemovedOnlyOnDeletion` | internal/controller/ldapobject_controller.go:218-236 | only the last call of a worker on a deleting object takes the finalizer, and with it the object |
| `ObjectLifecycle.FarewellIsJustified` | internal/controller/ldapobject_controller.go:92-108 | a worker comes to that call only by an unresolvable reference, a swallowed delete error, or a delete after which the whole subtree at the object's DN is gone |
| `ObjectLifecycle.CreatorsHoldFinalizers` | internal/controller/ldapobject_controller.go:79-90 | over every run, an object whose reconcile added an entry holds the finalizer until it is finalized |
| `ObjectLifecycle.FinalizerBeforeAdd` | internal/controller/ldapobject_controller.go:79-90 | over every run, a worker about to add an entry has the finalizer in place |
| `ObjectLifecycle.CascadeRemovesExactly` | internal/controller/ldapobject_controller.go:218-224 | deleting object a removes the entry of object b exactly when b's chain passes through an object with a's DN |
| `ObjectReconciler.Reconciler.Handle` | internal/controller/ldapobject_controller.go:65-294 | from any state with the invariant and whatever others do between its calls, a reconcile is a legal run of the machine: a begin, then k's calls and others' events in some order, ending with k's last call; what it returns is what that call comes to; requeueing means Pending was written for the current generation |
| `ObjectReconciler.Reconciler.Reconcile` | internal/controller/ldapobject_controller.go:65-90 | the code stays within every set of worlds closed under the worker's calls and others' events, whatever each call answers, and returns what its last call comes to |
| `ObjectReconciler.Reconciler.ReconcileObject` | internal/controller/ldapobject_controller.go:92-128 | the part from the references on, likewise: missing ones end in finalization or Pending, errors in Failed and an error |
| `ObjectReconciler.Reconciler.ReconcileResolved` | internal/controller/ldapobject_controller.go:130-158 | the part from the directory on, likewise, a directory that has vanished included |
| `ObjectReconciler.Reconciler.ReconcileChild` | internal/controller/ldapobject_controller.go:160-204 | the part from the parent on, likewise: no further unless the parent is Ready, or was not found |
| `ObjectReconciler.Reconciler.ReconcileEntry` | internal/controller/ldapobject_controller.go:206-216 | client and DN, then removal or writing, likewise, errors and an overflowing recursion included |
| `ObjectReconciler.Reconciler.RemoveEntry` | internal/controller/ldapobject_controller.go:218-236 | delete, then finalizer, whatever the delete answered |
| `ObjectReconciler.Reconciler.WriteEntry` | internal/controller/ldapobject_controller.go:238-256 | owner first, without which nothing is mapped: the parent if there is a parentRef, else the directory; a parent that was not found panics |
| `ObjectReconciler.Reconciler.UpsertEntry` | internal/controller/ldapobject_controller.go:258-293 | map, create or update, and Ready only after a creation |
| `ObjectReconciler.Reconciler.Get` | internal/controller/ldapobject_controller.go:69-77 | a missing object ends the reconcile in success, a failed read in an error |
| `ObjectReconciler.Reconciler.AddFinalizer` | internal/controller/ldapobject_controller.go:79-90 | the worker goes on with the object as it was read again, or not at all |
| `ObjectReconciler.Reconciler.ResolveReferences` | api/v1alpha1/ldapuser_types.go:108-129 | directory, parent and password secret are looked up in order; each answer puts the worker where the machine says |
| `ObjectReconciler.Reconciler.ResolveDirectory` | internal/controller/ldapobject_controller.go:130-158 | not Ready means Pending, an error Failed, a directory that is not found a panic |
| `ObjectReconciler.Reconciler.ResolveParent` | internal/controller/ldapobject_controller.go:160-204 | a parent of the operator's that is Ready leads on, one that is not means Pending, a foreign one or an error Failed, and one that is not found leads on without |
| `ObjectReconciler.Reconciler.GetDistinguishedName` | api/v1alpha1/ldapuser_types.go:66-106 | the recursion, to any depth and from any object, gives the machine's DN to that depth unless a lookup fails |
| `ObjectReconciler.Reconciler.ComputeDn` | internal/controller/ldapobject_controller.go:211-214 | a DN found is the one the worker goes on with, an error ends the reconcile, a recursion without end the process |
| `ObjectReconciler.Reconciler.DeleteEntry` | internal/controller/ldapobject_controller.go:218-224 | the client's delete on the directory's server is the machine's step, and its error is dropped |
| `ObjectReconciler.Reconciler.CreateOrUpdate` | internal/controller/ldapobject_controller.go:271-283 | the client's create-or-update on the directory's server is the machine's step |
| `ObjectReconciler.Reconciler.SetOwner` | internal/controller/ldapobject_controller.go:359-368 | the owner written is the parent, or without a parentRef the directory, on the object as it is now; a parentRef whose parent was not found panics |
| `ObjectReconciler.Reconciler.Mark` | internal/controller/ldapobject_controller.go:307-357 | a status written carries the phase and the object's current generation |
| `ObjectReconciler.Reconciler.MarkReady` | internal/controller/ldapobject_controller.go:285-293 | success means Ready was written for the current generation |
| `ObjectReconciler.Reconciler.Finalize` | internal/controller/ldapobject_controller.go:226-236 | success means the object is gone |
| `Interleaving.RunKeepsShape` | internal/ldap/client.go:115-152 | under any interleaving of single operations, failures and crashes the tree stays closed under superiors |
| `Interleaving.DeleteStepEffect` | internal/ldap/client.go:122-149 | one step of a delete removes at most one entry, at or below its own root, and changes nothing else |
| `Interleaving.WriteStepEffect` | internal/ldap/client.go:181-231 | one step of a create-or-update changes at most its own entry and does not remove it |
| `Interleaving.OnlyDeletesAboveRemove` | internal/ldap/client.go:122-151 | over any run an entry no delete is at or above is never removed |
| `Interleaving.OnlyWritesAdd` | internal/ldap/client.go:202-215 | over any run an entry nobody writes was there from the beginning, unchanged |
| `Interleaving.UntouchedIsUnchanged` | internal/ldap/client.go:115-152 | over any run a place that no delete is at or above and nobody writes stays as it was, present or not |
| `Interleaving.CreationHasItsAdd` | internal/ldap/client.go:202-215 | in every run a create-or-update that reports a creation has an Add of its own that took its dn from absent to present |
| `Interleaving.CreationsNeedRemoval` | internal/ldap/client.go:202-215 | between two such Adds at one dn, by whichever calls, a delete at or above it removes the entry; without one at most one call per dn ever reports a creation |
| `Interleaving.DeletedStaysDeleted` | internal/ldap/client.go:138-151 | whatever else goes on, when a delete succeeds nothing at or below its root is left, and nothing there comes back until somebody writes the root itself |
| `Interleaving.DeleteNeverRefused` | internal/ldap/client.go:146-149 | amid any other deletes, and writes elsewhere, a delete ends with success or an unanswered call: no removal is refused because of children |
| `Interleaving.WriterBelowSpoilsDelete` | internal/ldap/client.go:123-149 | the condition that nobody writes below is needed: under every leaf a unit created between search and removal makes the delete fail with every call answered |
| `Interleaving.DeleteStepsBounded` | internal/ldap/client.go:138-144 | under any such interleaving a delete takes at most five steps per entry of the subtree it began with, and four |
| `Interleaving.UndisturbedDelete` | internal/ldap/client.go:115-152 | amid nothing but deletes within its own subtree, a delete has exactly the outcome its contract states |
| `Interleaving.UndisturbedUpsert` | internal/ldap/client.go:349-441 | on its own, a create-or-update run operation by operation is at each point where its contract says and ends with an outcome its contract allows |
| `AloneRuns.UpsertRunsExactly` | internal/ldap/client.go:181-441 | the outcomes of a create-or-update's contract, failures at every point included, are exactly those of its runs by itself, operation by operation |
| `AloneRuns.DeleteCanSucceed` | internal/ldap/client.go:115-152 | from every tree a cascading delete by itself has a run, operation by operation, that succeeds and removes exactly the subtree |

## Left out

Assumptions of the model:

- An object's directoryRef, parentRef and name are fixed per kind and name, also when the object is deleted and made again; editing them is not modelled.
- Resolving a reference that names nothing yields no object and no error, which is how the two later calls in the controller (lines 131 and 162) come to see it; the first then fails a type assertion, and the model ends that worker.
- A stack overflow or panic ends the worker, or all workers; what the process does next is the event Restart.
- CreateOrPatch on an object that has meanwhile vanished fails; status updates and patches read the object again and apply atomically or fail, so conflicts show as failures.
- Of all finalizers only the operator's own is modelled, and nobody else edits it.
- A server may refuse an operation for a reason of its own only as if the call had no answer; schema checks, access control and time limits are therefore not told apart.
- A bind with an empty password may be accepted, refused or not be sent, since that depends on the client library; convergence is stated for non-empty user passwords.
- Names in filters and DNs are compared as plain strings: no escaping, no case folding, no aliases. The parser is total and takes a component without an equals sign for an attribute without value.
- A stored password is an abstract hash with a check; hashing schemes, and the hash that a read of a user also returns, are not modelled.
- Each directory has a server of its own. Its base entry may be missing; parents-first is stated for bases that are there.
- The lookups of one ResolveReferences, and those of one DN computation, see the same state: each of the two is one call of the machine.
- What others do between two calls of a reconcile does not crash its process; a crash is the event Restart, after which the reconcile makes no more calls.

Weaker than one might state:

- ObjectRuns.DnTerminatesOverRuns: for workers that found their parent or need none; the remaining case is decided by ParentCycles.TerminatesExactly.
- ObjectTheorems.OneReadyPerDn: for runs that remove no entry recorded as created, since an object deleted and made again may become Ready at the same DN.
- ObjectTheorems.NoAddLacksSuperior: for names without a comma and parents in the same directory; with a comma the superior is another entry (ObjectTheorems.SuperiorExactly), and ObjectProgress.ReadyExactly says what then happens.
- DirectoryController.SetStatusCondition: transition times are not modelled.
- DirectoryController.Directory.Reconcile: the object is not edited while it is being reconciled; runs with edits in between are in DirectoryController.StatusOverRuns.
- Convergence.Converges: for users with a password and groups whose members are listed once, and where dn holds no entry of another class; what is created is stated for all entries by Convergence.CreatesExactly.
- SpecConvergence.SpecArrives: for an existing user the spec must give a password, since what a bind without one answers depends on the client library.
- LdapClient.Client.GetEntry: the stored password hash of a user is not part of the entry read.
- Interleaving.DeleteStepsBounded: says nothing about a delete below which others keep adding entries, which need not end.

Not modelled:

- Connecting, TLS, the admin bind and its secret, timeouts and Ping, beyond succeeding or failing.
- DeleteEntry with cascading off in the interleaved model; the controller never asks for it.
- Events, logging, return values of log calls, requeue times, watches and garbage collection by owner; a garbage collected object is a deleted object.
- The message of an object's status.
- The fixed parts of the stateful set and service: ports, probes, images, environment, selectors, security contexts.
- Creating an instance by reflection, manager set-up, command line, fake client, generated code, manifests and bootstrap script.
