/**
 * An in-memory stand-in for the Kubernetes API server that the program talks
 * to through `client.CoreV1Api` (docker-build-cli.py:171-221, 370-403,
 * 457-463), and for the two `kubectl` commands it runs against the build pod
 * (docker-build-cli.py:283-306, 309-328).
 *
 * Conflicts (409) and missing objects (404) follow from the cluster's state.
 * Every other failure is injected, request by request: `refuse` maps the
 * number of a request (its position in `log`, counting from 0) to how it
 * fails, either with an `ApiException` carrying another status or with some
 * other exception (a dropped connection, say). The same request can thus
 * fail once and succeed when it is sent again. `log` records every request
 * the cluster serves, in order. The reads made while polling (the pod reads
 * of the three polling loops and the log reads of the watch) are not served
 * here: what they return is a script (`Polling.Script`, `Build.LogScript`),
 * so they are neither logged nor numbered.
 */
module Cluster {
  import opened Tree

  datatype Phase = Pending | Running | Succeeded | Failed | Unknown

  /** Why a request failed: an `ApiException` with its status, or any other exception. */
  datatype Fault = Api(status: int) | Transport

  /** A namespaced object: its namespace and its name. */
  datatype Key = Key(namespace: string, name: string)

  /** One request to the cluster. */
  datatype Call =
    | NamespaceCreate(ns: string)
    | SecretDelete(secret: Key)
    | SecretCreate(secret: Key)
    | PodRead(pod: Key)
    | PodDelete(pod: Key)
    | PodCreate(pod: Key)
    | ContextCopy(pod: Key)     // kubectl cp <source> -n <ns> <pod>:/build-context
    | BuildTrigger(pod: Key)    // kubectl exec ... touch /build-context/BUILD_READY

  datatype Reply = Done | Raised(fault: Fault)

  /** How a shell command ended: with an exit status, or by raising in `subprocess.run`. */
  datatype Command = Exited(status: int) | Crashed

  /** An injected fault is never the 404 or 409 the state itself decides. */
  predicate Injectable(f: Fault) {
    f.Api? ==> f.status != 404 && f.status != 409
  }

  /**
   * The position of each request in the order a build issues them; the
   * secret's deletion counts as part of installing it.
   */
  function Rank(c: Call): nat {
    match c
    case NamespaceCreate(_) => 0
    case SecretDelete(_) => 1
    case SecretCreate(_) => 2
    case PodRead(_) => 3
    case PodDelete(_) => 4
    case PodCreate(_) => 5
    case ContextCopy(_) => 6
    case BuildTrigger(_) => 7
  }

  /** Ranks never decrease along `calls`. */
  predicate Sorted(calls: seq<Call>)
    decreases |calls|
  {
    |calls| <= 1 || (Rank(calls[0]) <= Rank(calls[1]) && Sorted(calls[1..]))
  }

  /** `calls` come in non-decreasing rank, from at least `lo` up to at most `hi`. */
  predicate Ranked(calls: seq<Call>, lo: nat, hi: nat) {
    Sorted(calls) && (calls != [] ==> lo <= Rank(calls[0]) && Rank(calls[|calls| - 1]) <= hi)
  }

  /** Stated with indices: every rank lies within [lo, hi], and no later request ranks lower. */
  lemma {:induction false} RankedMeans(calls: seq<Call>, lo: nat, hi: nat)
    requires Ranked(calls, lo, hi)
    ensures forall i :: 0 <= i < |calls| ==> lo <= Rank(calls[i]) <= hi
    ensures forall i, j :: 0 <= i <= j < |calls| ==> Rank(calls[i]) <= Rank(calls[j])
    decreases |calls|
  {
    if |calls| > 1 {
      var rest := calls[1..];
      RankedMeans(rest, Rank(calls[1]), hi);
      assert forall i :: 0 < i < |calls| ==> calls[i] == rest[i - 1];
    }
  }

  /** Requests of a later step, appended to those of an earlier one, stay in order. */
  lemma {:induction false} SortedAppend(a: seq<Call>, b: seq<Call>)
    requires Sorted(a) && Sorted(b)
    requires a != [] && b != [] ==> Rank(a[|a| - 1]) <= Rank(b[0])
    ensures Sorted(a + b)
    decreases |a|
  {
    if a == [] {
      assert a + b == b;
    } else if |a| == 1 {
      assert (a + b)[1..] == b;
    } else {
      SortedAppend(a[1..], b);
      assert (a + b)[1..] == a[1..] + b;
    }
  }

  lemma RankedAppend(a: seq<Call>, b: seq<Call>, lo: nat, x: nat, y: nat, hi: nat)
    requires lo <= x <= y <= hi && Ranked(a, lo, x) && Ranked(b, y, hi)
    ensures Ranked(a + b, lo, hi)
  {
    SortedAppend(a, b);
  }

  class FakeCluster {
    const refuse: map<nat, Fault>
    var namespaces: set<string>
    var secrets: set<Key>
    var pods: set<Key>
    /** The files under /build-context of each pod that received a context. */
    var contexts: map<Key, seq<Entry>>
    /** The pods whose BUILD_READY file exists. */
    var triggered: set<Key>
    var log: seq<Call>

    ghost predicate Valid()
      reads this
    {
      forall n :: n in refuse ==> Injectable(refuse[n])
    }

    constructor (refuse: map<nat, Fault>, namespaces: set<string>, secrets: set<Key>, pods: set<Key>)
      requires forall n :: n in refuse ==> Injectable(refuse[n])
      ensures Valid()
      ensures this.refuse == refuse && this.namespaces == namespaces
      ensures this.secrets == secrets && this.pods == pods
      ensures contexts == map[] && triggered == {} && log == []
    {
      this.refuse := refuse;
      this.namespaces := namespaces;
      this.secrets := secrets;
      this.pods := pods;
      contexts := map[];
      triggered := {};
      log := [];
    }

    /** The reply to request number `n` when the state alone would give `fromState`. */
    function Answer(n: nat, fromState: Reply): (r: Reply)
      reads this
      ensures n in refuse ==> r == Raised(refuse[n])
      ensures n !in refuse ==> r == fromState
    {
      if n in refuse then Raised(refuse[n]) else fromState
    }

    /** v1.create_namespace. */
    method CreateNamespace(ns: string) returns (r: Reply)
      modifies this`namespaces, this`log
      ensures r == Answer(|old(log)|, if ns in old(namespaces) then Raised(Api(409)) else Done)
      ensures namespaces == if r.Done? then old(namespaces) + {ns} else old(namespaces)
      ensures log == old(log) + [NamespaceCreate(ns)]
    {
      log := log + [NamespaceCreate(ns)];
      r := Answer(|log| - 1, if ns in namespaces then Raised(Api(409)) else Done);
      if r.Done? {
        namespaces := namespaces + {ns};
      }
    }

    /** v1.delete_namespaced_secret. */
    method DeleteSecret(k: Key) returns (r: Reply)
      modifies this`secrets, this`log
      ensures r == Answer(|old(log)|, if k in old(secrets) then Done else Raised(Api(404)))
      ensures secrets == if r.Done? then old(secrets) - {k} else old(secrets)
      ensures log == old(log) + [SecretDelete(k)]
    {
      log := log + [SecretDelete(k)];
      r := Answer(|log| - 1, if k in secrets then Done else Raised(Api(404)));
      if r.Done? {
        secrets := secrets - {k};
      }
    }

    /** v1.create_namespaced_secret. */
    method CreateSecret(k: Key) returns (r: Reply)
      modifies this`secrets, this`log
      ensures r == Answer(|old(log)|,
                          if k.namespace !in namespaces then Raised(Api(404))
                          else if k in old(secrets) then Raised(Api(409))
                          else Done)
      ensures secrets == if r.Done? then old(secrets) + {k} else old(secrets)
      ensures log == old(log) + [SecretCreate(k)]
    {
      log := log + [SecretCreate(k)];
      r := Answer(|log| - 1,
                  if k.namespace !in namespaces then Raised(Api(404))
                  else if k in secrets then Raised(Api(409))
                  else Done);
      if r.Done? {
        secrets := secrets + {k};
      }
    }

    /** v1.read_namespaced_pod, as an existence check. */
    method ReadPod(k: Key) returns (r: Reply)
      modifies this`log
      ensures r == Answer(|old(log)|, if k in pods then Done else Raised(Api(404)))
      ensures log == old(log) + [PodRead(k)]
    {
      log := log + [PodRead(k)];
      r := Answer(|log| - 1, if k in pods then Done else Raised(Api(404)));
    }

    /**
     * v1.delete_namespaced_pod. The pod leaves the cluster's records at once;
     * when it actually goes away is what the deletion poll observes.
     */
    method DeletePod(k: Key) returns (r: Reply)
      modifies this`pods, this`log
      ensures r == Answer(|old(log)|, if k in old(pods) then Done else Raised(Api(404)))
      ensures pods == if r.Done? then old(pods) - {k} else old(pods)
      ensures log == old(log) + [PodDelete(k)]
    {
      log := log + [PodDelete(k)];
      r := Answer(|log| - 1, if k in pods then Done else Raised(Api(404)));
      if r.Done? {
        pods := pods - {k};
      }
    }

    /** v1.create_namespaced_pod with the BuildKit pod. */
    method CreatePod(k: Key) returns (r: Reply)
      modifies this`pods, this`log
      ensures r == Answer(|old(log)|,
                          if k.namespace !in namespaces then Raised(Api(404))
                          else if k in old(pods) then Raised(Api(409))
                          else Done)
      ensures pods == if r.Done? then old(pods) + {k} else old(pods)
      ensures log == old(log) + [PodCreate(k)]
    {
      log := log + [PodCreate(k)];
      r := Answer(|log| - 1,
                  if k.namespace !in namespaces then Raised(Api(404))
                  else if k in pods then Raised(Api(409))
                  else Done);
      if r.Done? {
        pods := pods + {k};
      }
    }

    /** `kubectl cp` of `files` into the pod's /build-context, ending as `run` says. */
    method CopyContext(k: Key, files: seq<Entry>, run: Command)
      modifies this`contexts, this`log
      ensures contexts == if run == Exited(0) then old(contexts)[k := files] else old(contexts)
      ensures log == old(log) + [ContextCopy(k)]
    {
      log := log + [ContextCopy(k)];
      if run == Exited(0) {
        contexts := contexts[k := files];
      }
    }

    /** `kubectl exec ... touch /build-context/BUILD_READY`, ending as `run` says. */
    method Trigger(k: Key, run: Command)
      modifies this`triggered, this`log
      ensures triggered == if run == Exited(0) then old(triggered) + {k} else old(triggered)
      ensures log == old(log) + [BuildTrigger(k)]
    {
      log := log + [BuildTrigger(k)];
      if run == Exited(0) {
        triggered := triggered + {k};
      }
    }
  }
}
