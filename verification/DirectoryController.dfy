// The LDAPDirectory reconciler: the stateful set it asks for, and the status it reports.
module DirectoryController {
  import opened Common
  import opened OrderedMerge

  datatype Phase = Unset | Pending | Ready | Failed

  /** A status condition; its type is the name of the item that holds it. */
  datatype Condition = Condition(holds: bool, observedGeneration: nat, reason: string, message: string)

  datatype Status = Status(phase: Phase, observedGeneration: nat, conditions: seq<Item<Condition>>)

  const EMPTY_STATUS := Status(Unset, 0, [])

  function TypeOf(p: Phase): string {
    match p
    case Unset => ""
    case Pending => "Pending"
    case Ready => "Ready"
    case Failed => "Failed"
  }

  function ConditionFor(generation: nat, p: Phase, message: string): Item<Condition> {
    Item(TypeOf(p), Condition(true, generation, TypeOf(p), message))
  }

  /**
   * What one mark writes. Setting a condition overwrites the condition of that type in place or appends it
   * (the apimachinery helper; transition times are not modelled); the conditions of other phases stay True.
   */
  function Marked(s: Status, generation: nat, p: Phase, message: string): Status {
    Status(p, generation, Put(s.conditions, ConditionFor(generation, p, message)))
  }

  // ---------------------------------------------------------------- status as history

  datatype Event = SpecEdited | PhaseMarked(phase: Phase, message: string)

  datatype Snapshot = Snapshot(generation: nat, status: Status)

  function Play(d: Snapshot, es: seq<Event>): Snapshot
    decreases |es|
  {
    if es == [] then d
    else
      match es[0]
      case SpecEdited => Play(d.(generation := d.generation + 1), es[1..])
      case PhaseMarked(p, message) => Play(d.(status := Marked(d.status, d.generation, p, message)), es[1..])
  }

  /** Every condition ever set in a run, in order. */
  function Record(generation: nat, es: seq<Event>): seq<Item<Condition>>
    decreases |es|
  {
    if es == [] then []
    else
      match es[0]
      case SpecEdited => Record(generation + 1, es[1..])
      case PhaseMarked(p, message) => [ConditionFor(generation, p, message)] + Record(generation, es[1..])
  }

  function Edits(es: seq<Event>): nat {
    if es == [] then 0 else (if es[0].SpecEdited? then 1 else 0) + Edits(es[1..])
  }

  predicate Proper(es: seq<Event>) {
    forall i :: 0 <= i < |es| && es[i].PhaseMarked? ==> es[i].phase != Unset
  }

  /** The condition list is the ordered merge of the whole record: one entry per type, first-set order, last value. */
  lemma {:induction false} ConditionsAreHistory(d: Snapshot, es: seq<Event>)
    ensures Play(d, es).status.conditions == Merged(d.status.conditions, Record(d.generation, es))
    ensures Play(d, es).generation == d.generation + Edits(es)
    decreases |es|
  {
    if es != [] {
      match es[0]
      case SpecEdited => ConditionsAreHistory(d.(generation := d.generation + 1), es[1..]);
      case PhaseMarked(p, message) =>
        ConditionsAreHistory(d.(status := Marked(d.status, d.generation, p, message)), es[1..]);
        var record := Record(d.generation, es);
        assert record[0] == ConditionFor(d.generation, p, message) && record[1..] == Record(d.generation, es[1..]);
    }
  }

  /** What the status of a directory always satisfies. */
  ghost predicate Consistent(d: Snapshot) {
    && UniqueNames(d.status.conditions)
    && d.status.observedGeneration <= d.generation
    && (forall i :: 0 <= i < |d.status.conditions| ==>
          var c := d.status.conditions[i];
          && c.name in {"Pending", "Ready", "Failed"}
          && c.body.holds
          && c.body.observedGeneration <= d.status.observedGeneration)
    && (d.status.phase.Unset? <==> d.status.conditions == [])
    && (!d.status.phase.Unset? ==>
          var c := Lookup(d.status.conditions, TypeOf(d.status.phase));
          c.Some? && c.value.observedGeneration == d.status.observedGeneration)
  }

  lemma {:induction false} PutEach<T>(xs: seq<Item<T>>, y: Item<T>, i: nat)
    requires i < |Put(xs, y)|
    ensures Put(xs, y)[i] == y || Put(xs, y)[i] in xs
  {
    if xs != [] && xs[0].name != y.name && i > 0 {
      PutEach(xs[1..], y, i - 1);
    }
  }

  lemma MarkKeepsConsistent(d: Snapshot, p: Phase, message: string)
    requires Consistent(d) && p != Unset
    ensures Consistent(d.(status := Marked(d.status, d.generation, p, message)))
  {
    var y := ConditionFor(d.generation, p, message);
    var after := Put(d.status.conditions, y);
    PutUnique(d.status.conditions, y);
    PutLookup(d.status.conditions, y, TypeOf(p));
    forall i | 0 <= i < |after|
      ensures && after[i].name in {"Pending", "Ready", "Failed"}
              && after[i].body.holds
              && after[i].body.observedGeneration <= d.generation
    {
      PutEach(d.status.conditions, y, i);
    }
  }

  /** Over any run the status stays consistent, has at most three conditions, and never observes an older generation. */
  lemma {:induction false} StatusOverRuns(d: Snapshot, es: seq<Event>)
    requires Consistent(d) && Proper(es)
    ensures Consistent(Play(d, es))
    ensures |Play(d, es).status.conditions| <= 3
    ensures d.status.observedGeneration <= Play(d, es).status.observedGeneration
    decreases |es|
  {
    if es == [] {
      DistinctFit(Names(d.status.conditions), {"Pending", "Ready", "Failed"});
    } else {
      match es[0]
      case SpecEdited => StatusOverRuns(d.(generation := d.generation + 1), es[1..]);
      case PhaseMarked(p, message) =>
        MarkKeepsConsistent(d, p, message);
        StatusOverRuns(d.(status := Marked(d.status, d.generation, p, message)), es[1..]);
    }
  }

  predicate EverMarked(es: seq<Event>, p: Phase) {
    exists i :: 0 <= i < |es| && es[i].PhaseMarked? && es[i].phase == p
  }

  lemma {:induction false} RecordedMarks(generation: nat, es: seq<Event>, p: Phase)
    requires Proper(es) && p != Unset
    ensures LastOf(Record(generation, es), TypeOf(p)).Some? <==> EverMarked(es, p)
    decreases |es|
  {
    if es != [] {
      assert forall i :: 0 < i < |es| ==> es[i] == es[1..][i - 1];
      match es[0]
      case SpecEdited => RecordedMarks(generation + 1, es[1..], p);
      case PhaseMarked(q, message) =>
        RecordedMarks(generation, es[1..], p);
        var record := Record(generation, es);
        assert record[1..] == Record(generation, es[1..]);
        assert es[0].phase == q;
    }
  }

  /** From an empty status: one True condition for each phase ever marked, and no others. */
  lemma OneConditionPerPhaseMarked(generation: nat, es: seq<Event>, p: Phase)
    requires Proper(es) && p != Unset
    ensures var cs := Play(Snapshot(generation, EMPTY_STATUS), es).status.conditions;
            && UniqueNames(cs)
            && (Lookup(cs, TypeOf(p)).Some? <==> EverMarked(es, p))
            && (Lookup(cs, TypeOf(p)).Some? ==> Lookup(cs, TypeOf(p)).value.holds)
  {
    var start := Snapshot(generation, EMPTY_STATUS);
    StatusOverRuns(start, es);
    ConditionsAreHistory(start, es);
    RecordedMarks(generation, es, p);
    MergedLookup([], Record(generation, es), TypeOf(p));
    LookupIsListed(Play(start, es).status.conditions, TypeOf(p));
  }

  lemma {:induction false} LookupIsListed<T>(xs: seq<Item<T>>, name: string)
    ensures Lookup(xs, name).Some? ==> exists i :: 0 <= i < |xs| && xs[i] == Item(name, Lookup(xs, name).value)
  {
    if xs != [] {
      if xs[0].name == name {
        assert xs[0] == Item(name, xs[0].body);
      } else {
        LookupIsListed(xs[1..], name);
        if Lookup(xs[1..], name).Some? {
          var i :| 0 <= i < |xs[1..]| && xs[1..][i] == Item(name, Lookup(xs[1..], name).value);
          assert xs[i + 1] == xs[1..][i];
        }
      }
    }
  }

  /**
   * A directory that was marked Ready and then edited is Ready and observes an older generation: the state in which a
   * reconcile that finds everything up leaves the newer one unobserved.
   */
  lemma ReadyCanLagBehind()
    ensures var d := Play(Snapshot(1, EMPTY_STATUS), [PhaseMarked(Ready, "LDAP directory is ready"), SpecEdited]);
            && Consistent(d) && d.status.phase == Ready && d.status.observedGeneration < d.generation
  {
    var start, mark := Snapshot(1, EMPTY_STATUS), PhaseMarked(Ready, "LDAP directory is ready");
    StatusOverRuns(start, [mark, SpecEdited]);
    assert [mark, SpecEdited][1..] == [SpecEdited] && [SpecEdited][1..] == [];
  }

  /** What one reconcile may do to the status: nothing, or one mark. */
  ghost predicate AtMostOneMark(generation: nat, before: Status, after: Status) {
    after == before || exists p, message :: p != Unset && after == Marked(before, generation, p, message)
  }

  lemma OneMarkKeepsConsistent(generation: nat, before: Status, after: Status)
    requires Consistent(Snapshot(generation, before)) && AtMostOneMark(generation, before, after)
    ensures Consistent(Snapshot(generation, after))
    ensures before.observedGeneration <= after.observedGeneration
  {
    if after != before {
      var p, message :| p != Unset && after == Marked(before, generation, p, message);
      MarkKeepsConsistent(Snapshot(generation, before), p, message);
    }
  }

  // ---------------------------------------------------------------- the objects it manages

  /** Volume claims by name with their size, mounts by name with their path. */
  datatype StatefulSet = StatefulSet(labels: map<string, string>, claims: seq<Item<string>>, mounts: seq<Item<string>>,
                                     replicas: int)

  const DEFAULT_CLAIMS := [Item("config", "10Mi"), Item("data", "100Mi")]

  const DEFAULT_MOUNTS := [
    Item("config", "/etc/ldap/slapd.d"), Item("data", "/var/lib/ldap"), Item("certs", "/etc/ldap/certs")
  ]

  function OwnLabels(name: string): map<string, string> {
    map["app.kubernetes.io/name" := "directory",
        "app.kubernetes.io/instance" := name,
        "app.kubernetes.io/managed-by" := "ldap-operator"]
  }

  /** The user's labels are copied one by one, then the operator's own are set over them. */
  method LabelsFor(name: string, given: map<string, string>) returns (labels: map<string, string>)
    ensures labels == given + OwnLabels(name)
  {
    labels := map[];
    var rest := given.Keys;
    while rest != {}
      invariant rest <= given.Keys
      invariant labels == given - rest
    {
      var k :| k in rest;
      labels := labels[k := given[k]];
      rest := rest - {k};
    }
    assert given - {} == given;
    labels := labels["app.kubernetes.io/name" := "directory"];
    labels := labels["app.kubernetes.io/instance" := name];
    labels := labels["app.kubernetes.io/managed-by" := "ldap-operator"];
  }

  method StatefulSetTemplate(name: string, given: map<string, string>, claims: seq<Item<string>>,
                             mounts: seq<Item<string>>) returns (sts: StatefulSet)
    ensures sts.labels == given + OwnLabels(name)
    ensures sts.claims == Merged(DEFAULT_CLAIMS, claims)
    ensures sts.mounts == Merged(DEFAULT_MOUNTS, mounts)
    ensures UniqueNames(sts.claims) && UniqueNames(sts.mounts)
    ensures Lookup(sts.mounts, "certs").Some?
    ensures sts.replicas == 1
  {
    var mergedClaims := Override(DEFAULT_CLAIMS, claims);
    var mergedMounts := Override(DEFAULT_MOUNTS, mounts);
    var labels := LabelsFor(name, given);
    MergedUnique(DEFAULT_CLAIMS, claims);
    MergedUnique(DEFAULT_MOUNTS, mounts);
    MergedLookup(DEFAULT_MOUNTS, mounts, "certs");
    assert DEFAULT_MOUNTS[1..][1..] == [Item("certs", "/etc/ldap/certs")];
    sts := StatefulSet(labels, mergedClaims, mergedMounts, 1);
  }

  /** What is not overridden stays: the default claims and mounts, at their places in front. */
  lemma DefaultsStand(claims: seq<Item<string>>, mounts: seq<Item<string>>, name: string)
    ensures LastOf(claims, name).None? ==>
              Lookup(Merged(DEFAULT_CLAIMS, claims), name)
              == if name == "config" then Some("10Mi") else if name == "data" then Some("100Mi") else None
    ensures LastOf(mounts, name).None? ==>
              Lookup(Merged(DEFAULT_MOUNTS, mounts), name)
              == if name == "config" then Some("/etc/ldap/slapd.d")
                 else if name == "data" then Some("/var/lib/ldap")
                 else if name == "certs" then Some("/etc/ldap/certs") else None
    ensures ["config", "data"] <= Names(Merged(DEFAULT_CLAIMS, claims))
    ensures ["config", "data", "certs"] <= Names(Merged(DEFAULT_MOUNTS, mounts))
  {
    MergedLookup(DEFAULT_CLAIMS, claims, name);
    MergedLookup(DEFAULT_MOUNTS, mounts, name);
    MergedNames(DEFAULT_CLAIMS, claims);
    MergedNames(DEFAULT_MOUNTS, mounts);
    assert DEFAULT_CLAIMS[1..] == [Item("data", "100Mi")] && DEFAULT_CLAIMS[1..][1..] == [];
    assert DEFAULT_MOUNTS[1..] == [Item("data", "/var/lib/ldap"), Item("certs", "/etc/ldap/certs")];
    assert DEFAULT_MOUNTS[1..][1..] == [Item("certs", "/etc/ldap/certs")] && DEFAULT_MOUNTS[1..][1..][1..] == [];
    assert Lookup(DEFAULT_CLAIMS[1..], name) == if name == "data" then Some("100Mi") else None;
    assert Lookup(DEFAULT_MOUNTS[1..][1..], name) == if name == "certs" then Some("/etc/ldap/certs") else None;
    assert Lookup(DEFAULT_MOUNTS[1..], name) == if name == "data" then Some("/var/lib/ldap")
                                                else Lookup(DEFAULT_MOUNTS[1..][1..], name);
    assert Names(DEFAULT_CLAIMS) == ["config", "data"];
    assert Names(DEFAULT_MOUNTS) == ["config", "data", "certs"];
  }

  datatype Result = Finished | Requeued | Errored

  class Directory {
    const name: string
    // the LDAPDirectory object
    var present: bool
    var deleting: bool
    var finalizer: bool
    var generation: nat
    var labels: map<string, string>
    var claims: seq<Item<string>>
    var mounts: seq<Item<string>>
    var status: Status
    // what surrounds it in the cluster
    var certificate: bool
    var adminPassword: Option<string>
    var statefulSet: Option<StatefulSet>
    var service: Option<map<string, string>>
    var readyReplicas: int
    // every call to the Kubernetes API succeeds
    const answering: bool

    constructor (name: string, answering: bool)
      ensures status == EMPTY_STATUS && Consistent(Snapshot(generation, status))
      ensures present && !deleting && this.answering == answering
    {
      this.name, this.answering := name, answering;
      present, deleting, finalizer, generation := true, false, false, 1;
      labels, claims, mounts, status := map[], [], [], EMPTY_STATUS;
      certificate, adminPassword, statefulSet, service, readyReplicas := false, None, None, None, 0;
    }

    /** A call to the Kubernetes API that may fail, unless the API answers. */
    method ApiCall() returns (ok: bool)
      ensures answering ==> ok
    {
      ok := *;
      ok := ok || answering;
    }

    /** Naming the directory as the owner of an object built for it may fail too. */
    method OwnerSet() returns (ok: bool)
      ensures answering ==> ok
    {
      ok := *;
      ok := ok || answering;
    }

    /** The status says this phase, for the current generation, and so does the condition of its name. */
    predicate Says(phase: Phase, type_: string, message: string)
      reads this
    {
      && status.phase == phase && status.observedGeneration == generation
      && Lookup(status.conditions, type_) == Some(Condition(true, generation, type_, message))
    }

    /** Writes the status, unless the update fails. */
    method MarkPending() returns (ok: bool)
      modifies `status
      ensures answering ==> ok
      ensures status == if ok then Marked(old(status), generation, Pending, "LDAP directory is pending")
                        else old(status)
      ensures ok ==> Says(Pending, "Pending", "LDAP directory is pending")
      ensures forall other :: other != "Pending" ==>
                Lookup(status.conditions, other) == old(Lookup(status.conditions, other))
    {
      ok := ApiCall();
      if ok {
        status := status.(observedGeneration := generation);
        status := status.(phase := Pending);
        status := status.(conditions := SetStatusCondition(status.conditions, "Pending",
                                                           Condition(true, generation, "Pending",
                                                                     "LDAP directory is pending")));
      }
    }

    method MarkReady() returns (ok: bool)
      modifies `status
      ensures answering ==> ok
      ensures ok ==> Says(Ready, "Ready", "LDAP directory is ready")
      ensures forall other :: other != "Ready" ==>
                Lookup(status.conditions, other) == old(Lookup(status.conditions, other))
      ensures status == if ok then Marked(old(status), generation, Ready, "LDAP directory is ready") else old(status)
    {
      ok := ApiCall();
      if ok {
        status := status.(observedGeneration := generation);
        status := status.(phase := Ready);
        status := status.(conditions := SetStatusCondition(status.conditions, "Ready",
                                                           Condition(true, generation, "Ready",
                                                                     "LDAP directory is ready")));
      }
    }

    /** A failed status update is only logged. */
    method MarkFailed(message: string)
      modifies `status
      ensures status == Marked(old(status), generation, Failed, message) || status == old(status)
      ensures Says(Failed, "Failed", message) || (!answering && status == old(status))
      ensures forall other :: other != "Failed" ==>
                Lookup(status.conditions, other) == old(Lookup(status.conditions, other))
    {
      var ok := ApiCall();
      if ok {
        status := status.(observedGeneration := generation);
        status := status.(phase := Failed);
        status := status.(conditions := SetStatusCondition(status.conditions, "Failed",
                                                           Condition(true, generation, "Failed", message)));
      }
    }

    method Reconcile() returns (result: Result)
      modifies `status, `finalizer, `present, `adminPassword, `statefulSet, `service
      // the status moves by at most one mark, so it stays consistent
      ensures AtMostOneMark(generation, old(status), status)
      // a plain success on a live directory means it is up and reported Ready
      ensures result.Finished? && old(present) && !deleting ==> Up() && status.phase == Ready
      // a directory that is Ready already is not marked again, so a new generation goes unobserved
      ensures result.Finished? && old(present) && !deleting ==>
                (status.observedGeneration == generation
                 <==> old(status.phase) != Ready || old(status.observedGeneration) == generation)
      // Ready is reported in no other case, and asking to be called again means Pending
      ensures status.phase == Ready ==> status == old(status) || result.Finished?
      ensures result.Requeued? ==>
                !Up() && status == Marked(old(status), generation, Pending, "LDAP directory is pending")
      // an error leaves the status as it was or marked as failed
      ensures result.Errored? ==>
                status == old(status) || exists message :: status == Marked(old(status), generation, Failed, message)
      // a live directory gets its finalizer first
      ensures old(present) && !deleting && !result.Errored? ==> finalizer
      // the generated password is never replaced
      ensures old(adminPassword).Some? ==> adminPassword == old(adminPassword)
      // deletion touches nothing but the finalizer
      ensures !old(present) || deleting ==> status == old(status) && adminPassword == old(adminPassword)
                                            && statefulSet == old(statefulSet) && service == old(service)
      ensures deleting && result.Finished? ==> !present
      ensures present ==> old(present)
      // while the API answers there is no error, and what is up and what is not decides
      ensures answering ==> !result.Errored?
      ensures answering && old(present) && !deleting ==>
                && (result.Finished? <==> certificate && readyReplicas == 1)
                && (result.Requeued? <==> !(certificate && readyReplicas == 1))
                && (result.Requeued? ==> Says(Pending, "Pending", "LDAP directory is pending"))
                && (result.Finished? && old(status.phase) != Ready ==> Says(Ready, "Ready", "LDAP directory is ready"))
      // without an error everything it asks for is in place, ready or not
      ensures old(present) && !deleting && certificate && !result.Errored? ==> RolledOut() && adminPassword.Some?
      ensures answering && (!old(present) || deleting) ==> result.Finished? && !present
    {
      if !present {
        return Finished;
      }
      var ok := ApiCall();
      if !ok {
        return Errored;
      }
      if !finalizer {
        ok := ApiCall();
        if !ok {
          return Errored;
        }
        finalizer := true;
      }
      if deleting {
        ok := ApiCall();
        if !ok {
          return Errored;
        }
        finalizer := false;
        present := false;
        return Finished;
      }
      ok := ApiCall();
      if !ok {
        MarkFailed("failed to resolve references");
        return Errored;
      }
      if !certificate {
        result := Wait();
        return;
      }
      result := CreateOrUpdate();
    }

    /** The stateful set runs as its template says, the service is there, and all replicas are ready. */
    ghost predicate Up()
      reads this
    {
      && certificate && adminPassword.Some? && RolledOut()
      && readyReplicas == statefulSet.value.replicas
    }

    /** The stateful set and the service are as their templates say. */
    ghost predicate RolledOut()
      reads this
    {
      && statefulSet.Some? && statefulSet.value.replicas == 1 && service == Some(labels + OwnLabels(name))
      && statefulSet.value.claims == Merged(DEFAULT_CLAIMS, claims)
      && statefulSet.value.mounts == Merged(DEFAULT_MOUNTS, mounts)
      && statefulSet.value.labels == labels + OwnLabels(name)
    }

    /** The second half of a reconcile: password, stateful set, service, and the resulting phase. */
    method CreateOrUpdate() returns (result: Result)
      requires certificate
      modifies `status, `adminPassword, `statefulSet, `service
      ensures result.Finished? ==>
                Up() && status == if old(status.phase) == Ready then old(status)
                                  else Marked(old(status), generation, Ready, "LDAP directory is ready")
      ensures result.Requeued? ==>
                !Up() && status == Marked(old(status), generation, Pending, "LDAP directory is pending")
      ensures result.Errored? ==>
                status == old(status) || exists message :: status == Marked(old(status), generation, Failed, message)
      ensures old(adminPassword).Some? ==> adminPassword == old(adminPassword)
      ensures !result.Errored? ==> RolledOut() && adminPassword.Some?
      ensures answering ==> result == if readyReplicas == 1 then Finished else Requeued
      ensures answering && result.Finished? && old(status.phase) != Ready ==>
                Says(Ready, "Ready", "LDAP directory is ready")
      ensures result.Requeued? ==> Says(Pending, "Pending", "LDAP directory is pending")
    {
      var ok := EnsurePassword();
      if !ok {
        return Errored;
      }
      ok := RollOut();
      if !ok {
        return Errored;
      }
      ok := ApiCall();
      if !ok {
        MarkFailed("failed to check if statefulset is ready");
        return Errored;
      }
      if readyReplicas != statefulSet.value.replicas {
        result := Wait();
        return;
      }
      if status.phase != Ready {
        ok := MarkReady();
        if !ok {
          return Errored;
        }
      }
      return Finished;
    }

    /** The admin password is generated once. */
    method EnsurePassword() returns (ok: bool)
      modifies `adminPassword
      ensures answering ==> ok
      ensures ok ==> adminPassword.Some?
      ensures old(adminPassword).Some? ==> adminPassword == old(adminPassword)
    {
      ok := ApiCall();
      if ok && adminPassword.None? {
        var generated: string := *;
        ok := ApiCall();
        if ok {
          adminPassword := Some(generated);
        }
      }
    }

    /** The stateful set and the service, each as its template says; the first failure is marked. */
    method RollOut() returns (ok: bool)
      modifies `status, `statefulSet, `service
      ensures answering ==> ok
      ensures ok ==> RolledOut() && status == old(status)
      ensures !ok ==>
                status == old(status) || exists message :: status == Marked(old(status), generation, Failed, message)
    {
      ok := OwnerSet();
      if !ok {
        MarkFailed("failed to generate statefulset template");
        return;
      }
      var sts := StatefulSetTemplate(name, labels, claims, mounts);
      ok := ApiCall();
      if !ok {
        MarkFailed("failed to reconcile statefulset");
        return;
      }
      statefulSet := Some(sts);
      ok := OwnerSet();
      if !ok {
        MarkFailed("failed to generate service template");
        return;
      }
      var serviceLabels := LabelsFor(name, labels);
      ok := ApiCall();
      if !ok {
        MarkFailed("failed to reconcile service");
        return;
      }
      service := Some(serviceLabels);
    }

    /** Mark as pending and ask to be called again. */
    method Wait() returns (result: Result)
      modifies `status
      ensures result.Requeued? ==> status == Marked(old(status), generation, Pending, "LDAP directory is pending")
      ensures result.Requeued? ==> Says(Pending, "Pending", "LDAP directory is pending")
      ensures !result.Requeued? ==> result.Errored? && !answering && status == old(status)
    {
      var ok := MarkPending();
      result := if ok then Requeued else Errored;
    }
  }

  /** Finds the condition of the type and overwrites it, or appends a new one. */
  function SetStatusCondition(conditions: seq<Item<Condition>>, type_: string, c: Condition): (r: seq<Item<Condition>>)
    ensures Lookup(r, type_) == Some(c)
    ensures forall other :: other != type_ ==> Lookup(r, other) == Lookup(conditions, other)
  {
    PutLookup(conditions, Item(type_, c), type_);
    var r := Put(conditions, Item(type_, c));
    assert forall other :: other != type_ ==> Lookup(r, other) == Lookup(conditions, other) by {
      forall other | other != type_ ensures Lookup(r, other) == Lookup(conditions, other) {
        PutLookup(conditions, Item(type_, c), other);
      }
    }
    r
  }
}
