/**
 * Installing what a build needs in the cluster, and removing the registry
 * secret again (docker-build-cli.py:171-221, 370-403, 457-463).
 *
 * Each operation says how the program carries on: it proceeds, it calls
 * `sys.exit(1)`, or an exception escapes it uncaught (which also ends the
 * process with status 1, through Python's default handler).
 */
module Provision {
  import opened Cluster
  import opened Polling

  datatype Flow = Proceed | SysExit | Uncaught(fault: Fault)

  /** Request number `n` raises something other than an `ApiException`. */
  predicate Raises(refuse: map<nat, Fault>, n: nat) {
    n in refuse && refuse[n].Transport?
  }

  /**
   * create_namespace: a 409 (the namespace is already there) counts as
   * success; any other `ApiException` exits; any other exception escapes.
   * Whether it proceeds does not depend on whether the namespace already
   * existed, so running it again after a success succeeds again.
   */
  method CreateNamespace(c: FakeCluster, ns: string) returns (flow: Flow)
    requires c.Valid()
    modifies c`namespaces, c`log
    ensures c.log == old(c.log) + [NamespaceCreate(ns)]
    ensures Ranked(c.log[|old(c.log)|..], 0, 0)
    ensures flow.Proceed? <==> |old(c.log)| !in c.refuse
    ensures flow.Proceed? ==> ns in c.namespaces
    ensures c.namespaces == if flow.Proceed? then old(c.namespaces) + {ns} else old(c.namespaces)
    ensures !flow.Proceed? ==> flow == if c.refuse[|old(c.log)|].Api? then SysExit else Uncaught(Transport)
  {
    var r := c.CreateNamespace(ns);
    if r.Done? || r.fault == Api(409) {
      flow := Proceed;
    } else if r.fault.Api? {
      flow := SysExit;
    } else {
      flow := Uncaught(r.fault);
    }
    assert c.log[|old(c.log)|..] == [NamespaceCreate(ns)];
  }

  /**
   * When create_dockerhub_secret, sending its deletion as request `n` and
   * its creation as request `n + 1`, installs `k`: the deletion does not
   * raise outside `ApiException`, the creation is not refused, the namespace
   * exists, and an old secret is not left in place by a refused deletion.
   */
  predicate SecretInstalls(refuse: map<nat, Fault>, n: nat, namespaces: set<string>, secrets: set<Key>, k: Key) {
    && !Raises(refuse, n)
    && n + 1 !in refuse
    && k.namespace in namespaces
    && (k !in secrets || n !in refuse)
  }

  /**
   * create_dockerhub_secret: delete any old secret, ignoring an
   * `ApiException` (such as the 404 for a secret that is not there), then
   * create it. Anything else that goes wrong exits with status 1. After a
   * success the secret exists; no other secret is touched.
   */
  method CreateDockerhubSecret(c: FakeCluster, k: Key) returns (flow: Flow)
    requires c.Valid()
    modifies c`secrets, c`log
    ensures flow == Proceed || flow == SysExit
    ensures c.log == old(c.log) + if Raises(c.refuse, |old(c.log)|) then [SecretDelete(k)] else [SecretDelete(k), SecretCreate(k)]
    ensures Ranked(c.log[|old(c.log)|..], 1, 2)
    ensures c.secrets - {k} == old(c.secrets) - {k}
    ensures flow.Proceed? ==> k in c.secrets
    ensures flow.Proceed? <==> SecretInstalls(c.refuse, |old(c.log)|, c.namespaces, old(c.secrets), k)
  {
    var d := c.DeleteSecret(k);
    if d.Raised? && d.fault.Transport? {
      assert c.log[|old(c.log)|..] == [SecretDelete(k)];
      return SysExit;
    }
    var r := c.CreateSecret(k);
    flow := if r.Done? then Proceed else SysExit;
    assert c.log[|old(c.log)|..] == [SecretDelete(k), SecretCreate(k)];
  }

  /** The existence check of create_buildkit_pod, sent as request `n`, finds the pod. */
  predicate Found(refuse: map<nat, Fault>, n: nat, pods: set<Key>, k: Key) {
    n !in refuse && k in pods
  }

  /**
   * When create_buildkit_pod, starting at request `n`, leaves a new pod `k`:
   * a refused existence check is ignored only for an `ApiException`, and the
   * creation then succeeds only if there was no pod; a pod that is not there
   * is created; one that is there must be deleted and seen gone first.
   */
  predicate PodInstalls(refuse: map<nat, Fault>, n: nat, namespaces: set<string>, pods: set<Key>, k: Key, gone: Script) {
    && k.namespace in namespaces
    && if n in refuse then refuse[n].Api? && k !in pods && n + 1 !in refuse
       else if k !in pods then n + 1 !in refuse
       else n + 1 !in refuse && DeletionVerdict(gone) && n + 2 !in refuse
  }

  /**
   * How the inner `try` of create_buildkit_pod ends, its existence check sent
   * as request `n`: an `ApiException` from the check or the deletion is
   * swallowed; another exception exits, and so does a deletion that is not
   * confirmed in time.
   */
  function RemovalFlow(refuse: map<nat, Fault>, n: nat, pods: set<Key>, k: Key, gone: Script): Flow {
    if n in refuse then (if refuse[n].Api? then Proceed else SysExit)
    else if k !in pods then Proceed
    else if n + 1 in refuse then (if refuse[n + 1].Api? then Proceed else SysExit)
    else if DeletionVerdict(gone) then Proceed
    else SysExit
  }

  /** The pods after that `try`: the pod is gone only when it was found and its deletion was not refused. */
  function AfterRemoval(refuse: map<nat, Fault>, n: nat, pods: set<Key>, k: Key): set<Key> {
    if Found(refuse, n, pods, k) && n + 1 !in refuse then pods - {k} else pods
  }

  /** The requests the `try` sends. */
  function RemovalRequests(refuse: map<nat, Fault>, n: nat, pods: set<Key>, k: Key): seq<Call> {
    if Found(refuse, n, pods, k) then [PodRead(k), PodDelete(k)] else [PodRead(k)]
  }

  /**
   * The pod is installed exactly when the `try` proceeds and the creation
   * that follows it is neither refused nor in conflict with a pod that is
   * still there.
   */
  lemma PodInstallsInSteps(refuse: map<nat, Fault>, n: nat, namespaces: set<string>, pods: set<Key>, k: Key, gone: Script)
    ensures PodInstalls(refuse, n, namespaces, pods, k, gone) <==>
              && RemovalFlow(refuse, n, pods, k, gone) == Proceed
              && n + |RemovalRequests(refuse, n, pods, k)| !in refuse
              && k.namespace in namespaces
              && k !in AfterRemoval(refuse, n, pods, k)
  {
  }

  /** The inner `try` of create_buildkit_pod: if the pod is there, delete it and wait until it is gone. */
  method RemoveExistingPod(c: FakeCluster, k: Key, gone: Script) returns (flow: Flow)
    requires c.Valid()
    modifies c`pods, c`log
    ensures c.log == old(c.log) + RemovalRequests(c.refuse, |old(c.log)|, old(c.pods), k)
    ensures c.pods == AfterRemoval(c.refuse, |old(c.log)|, old(c.pods), k)
    ensures flow == RemovalFlow(c.refuse, |old(c.log)|, old(c.pods), k, gone)
  {
    var r := c.ReadPod(k);
    if r.Raised? {
      return if r.fault.Transport? then SysExit else Proceed;
    }
    var d := c.DeletePod(k);
    if d.Raised? {
      return if d.fault.Transport? then SysExit else Proceed;
    }
    var confirmed := WaitForPodDeletion(gone);
    flow := if confirmed then Proceed else SysExit;
  }

  /**
   * create_buildkit_pod. An existing pod is deleted and the pod is created
   * only once a later read answers 404; a deletion that is not confirmed
   * within 60 seconds exits and creates nothing. As written, an
   * `ApiException` from the existence check or from the deletion is
   * swallowed, whatever its status, and creation goes ahead. Any other
   * exception, and any failure of the creation, exits with status 1.
   */
  method CreateBuildkitPod(c: FakeCluster, k: Key, gone: Script) returns (flow: Flow)
    requires c.Valid()
    modifies c`pods, c`log
    ensures flow == Proceed || flow == SysExit
    ensures old(c.log) <= c.log && Ranked(c.log[|old(c.log)|..], 3, 5)
    ensures c.pods - {k} == old(c.pods) - {k}
    ensures flow.Proceed? <==> PodInstalls(c.refuse, |old(c.log)|, c.namespaces, old(c.pods), k, gone)
    ensures flow.Proceed? ==>
              && k in c.pods
              && c.log == old(c.log) + if Found(c.refuse, |old(c.log)|, old(c.pods), k)
                                       then [PodRead(k), PodDelete(k), PodCreate(k)]
                                       else [PodRead(k), PodCreate(k)]
    // an existing pod is replaced only after its deletion is confirmed
    ensures Found(c.refuse, |old(c.log)|, old(c.pods), k) && |old(c.log)| + 1 !in c.refuse ==>
              && (PodCreate(k) in c.log[|old(c.log)|..] <==> DeletionVerdict(gone))
              && (!DeletionVerdict(gone) ==> flow == SysExit && k !in c.pods
                                             && c.log == old(c.log) + [PodRead(k), PodDelete(k)])
    // a pod that is not there is simply created
    ensures k !in old(c.pods) && |old(c.log)| !in c.refuse ==>
              c.log == old(c.log) + [PodRead(k), PodCreate(k)]
    // a failed existence check with an ApiException is ignored: creation runs,
    // and fails with a conflict if the pod was there
    ensures |old(c.log)| in c.refuse && c.refuse[|old(c.log)|].Api? ==>
              && c.log == old(c.log) + [PodRead(k), PodCreate(k)]
              && (k in old(c.pods) ==> flow == SysExit)
  {
    ghost var n := |c.log|;
    ghost var removal := RemovalRequests(c.refuse, n, c.pods, k);
    PodInstallsInSteps(c.refuse, n, c.namespaces, c.pods, k, gone);
    flow := RemoveExistingPod(c, k, gone);
    assert c.log[|old(c.log)|..] == removal;
    if flow.SysExit? {
      return;
    }
    var p := c.CreatePod(k);
    flow := if p.Done? then Proceed else SysExit;
    assert c.log[|old(c.log)|..] == removal + [PodCreate(k)];
  }

  /**
   * cleanup_secret: delete the secret, swallowing an `ApiException`; any
   * other exception escapes to the caller.
   */
  method CleanupSecret(c: FakeCluster, k: Key) returns (flow: Flow)
    modifies c`secrets, c`log
    ensures c.log == old(c.log) + [SecretDelete(k)]
    ensures c.secrets == if |old(c.log)| in c.refuse then old(c.secrets) else old(c.secrets) - {k}
    ensures flow == if Raises(c.refuse, |old(c.log)|) then Uncaught(Transport) else Proceed
  {
    var d := c.DeleteSecret(k);
    flow := if d.Raised? && d.fault.Transport? then Uncaught(Transport) else Proceed;
  }
}
