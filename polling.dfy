/**
 * The three polling loops of the program: waiting for the build pod to run
 * (docker-build-cli.py:240-262), waiting for an old pod to disappear
 * (docker-build-cli.py:348-367) and watching the build (the loop of
 * docker-build-cli.py:406-454).
 *
 * The wall clock is replaced by whole seconds elapsed since the loop began,
 * and what the pod reads return by a `Script` indexed by that clock. The
 * clock moves only by the loop's own `time.sleep`, so a loop that polls
 * every `step` seconds reads at 0, step, 2*step, ... (its `Beat`s) while
 * below its timeout. Each loop stops at the first read it treats as final;
 * `FirstStop` is the second of that read, defined once for the three loops,
 * and `FirstStopIs` and `NoStop` say what it means.
 */
module Polling {
  import opened Wrappers
  import opened Cluster

  /** What one `read_namespaced_pod` inside a poll returns. */
  datatype PodRead = Observed(phase: Phase) | ReadFailed(fault: Fault)

  /** The reads of one poll, by seconds elapsed since it began. */
  type Script = nat -> PodRead

  const ReadyTimeout: nat := 120
  const ReadyInterval: nat := 2
  const DeletionTimeout: nat := 60
  const DeletionInterval: nat := 1

  /** Second `t` is one at which a loop that reads every `step` seconds from second 0 reads. */
  predicate Beat(step: nat, t: nat)
    decreases t
  {
    t == 0 || (step > 0 && t >= step && Beat(step, t - step))
  }

  /** Two reads of such a loop lie at least `step` seconds apart. */
  lemma {:induction false} BeatsApart(step: nat, t: nat, u: nat)
    requires Beat(step, t) && Beat(step, u) && t < u
    ensures t + step <= u
    decreases u
  {
    if t < u - step {
      BeatsApart(step, t, u - step);
    } else if u - step < t {
      BeatsApart(step, u - step, t);
    }
  }

  /** The second of the first read, from second `t` on, that stops the loop. */
  function FirstStop(stops: PodRead -> bool, probe: Script, step: nat, timeout: nat, t: nat): Option<nat>
    requires step > 0
    decreases timeout - t
  {
    if t >= timeout then None
    else if stops(probe(t)) then Some(t)
    else FirstStop(stops, probe, step, timeout, t + step)
  }

  /** The read at second `t` happens before the timeout, stops the loop, and no earlier read did. */
  ghost predicate StopsFirstAt(stops: PodRead -> bool, probe: Script, step: nat, timeout: nat, t: nat) {
    && Beat(step, t) && t < timeout
    && stops(probe(t))
    && forall u: nat :: Beat(step, u) && u < t ==> !stops(probe(u))
  }

  /** No read before the timeout stops the loop. */
  ghost predicate NeverStops(stops: PodRead -> bool, probe: Script, step: nat, timeout: nat) {
    forall u: nat :: Beat(step, u) && u < timeout ==> !stops(probe(u))
  }

  /** What `FirstStop` from the read at second `t` finds, stated without recursion. */
  lemma {:induction false} FirstStopFrom(stops: PodRead -> bool, probe: Script, step: nat, timeout: nat, t: nat)
    requires step > 0 && Beat(step, t)
    ensures var r := FirstStop(stops, probe, step, timeout, t);
      && (r.Some? ==> && t <= r.value < timeout && Beat(step, r.value) && stops(probe(r.value))
                      && forall u: nat :: Beat(step, u) && t <= u < r.value ==> !stops(probe(u)))
      && (r.None? ==> forall u: nat :: Beat(step, u) && t <= u < timeout ==> !stops(probe(u)))
    decreases timeout - t
  {
    if t < timeout && !stops(probe(t)) {
      assert Beat(step, t + step);
      FirstStopFrom(stops, probe, step, timeout, t + step);
      forall u: nat | Beat(step, u) && t < u
        ensures t + step <= u
      {
        BeatsApart(step, t, u);
      }
    }
  }

  /** The loop stops at second `t` exactly when the read there is the first that stops it. */
  lemma FirstStopIs(stops: PodRead -> bool, probe: Script, step: nat, timeout: nat, t: nat)
    requires step > 0
    ensures FirstStop(stops, probe, step, timeout, 0) == Some(t) <==> StopsFirstAt(stops, probe, step, timeout, t)
  {
    FirstStopFrom(stops, probe, step, timeout, 0);
  }

  /** The loop finds no stopping read exactly when none of its reads stops it. */
  lemma NoStop(stops: PodRead -> bool, probe: Script, step: nat, timeout: nat)
    requires step > 0
    ensures FirstStop(stops, probe, step, timeout, 0).None? <==> NeverStops(stops, probe, step, timeout)
  {
    FirstStopFrom(stops, probe, step, timeout, 0);
  }

  // ----- wait_for_pod_ready -----

  /** A read that ends the readiness wait: phase Running or phase Failed. */
  predicate Settles(r: PodRead) {
    r == Observed(Running) || r == Observed(Failed)
  }

  /** What wait_for_pod_ready returns for the reads `probe`. */
  function ReadyVerdict(probe: Script): bool {
    match FirstStop(Settles, probe, ReadyInterval, ReadyTimeout, 0)
    case Some(t) => probe(t) == Observed(Running)
    case None => false
  }

  /**
   * The pod counts as ready exactly when some read within the 120 seconds
   * shows it Running and no earlier read showed it Running or Failed; read
   * errors and other phases only keep the loop going.
   */
  lemma ReadyExactlyWhenRunningFirst(probe: Script)
    ensures ReadyVerdict(probe) <==>
            exists t: nat :: StopsFirstAt(Settles, probe, ReadyInterval, ReadyTimeout, t) && probe(t) == Observed(Running)
  {
    var r := FirstStop(Settles, probe, ReadyInterval, ReadyTimeout, 0);
    forall t: nat | StopsFirstAt(Settles, probe, ReadyInterval, ReadyTimeout, t)
      ensures r == Some(t)
    {
      FirstStopIs(Settles, probe, ReadyInterval, ReadyTimeout, t);
    }
    if r.Some? {
      FirstStopIs(Settles, probe, ReadyInterval, ReadyTimeout, r.value);
    }
  }

  /** A first deciding read that shows Failed makes the wait give up unready. */
  lemma FailedFirstIsNotReady(probe: Script, t: nat)
    requires StopsFirstAt(Settles, probe, ReadyInterval, ReadyTimeout, t)
    requires probe(t) == Observed(Failed)
    ensures !ReadyVerdict(probe)
  {
    FirstStopIs(Settles, probe, ReadyInterval, ReadyTimeout, t);
  }

  /** When no read within the 120 seconds shows Running or Failed, the wait times out unready. */
  lemma TimeoutIsNotReady(probe: Script)
    requires NeverStops(Settles, probe, ReadyInterval, ReadyTimeout)
    ensures !ReadyVerdict(probe)
  {
    NoStop(Settles, probe, ReadyInterval, ReadyTimeout);
  }

  /** wait_for_pod_ready: poll every 2 seconds for at most 120. */
  method WaitForPodReady(probe: Script) returns (ready: bool)
    ensures ready == ReadyVerdict(probe)
  {
    var elapsed: nat := 0;
    while elapsed < ReadyTimeout
      invariant FirstStop(Settles, probe, ReadyInterval, ReadyTimeout, elapsed)
             == FirstStop(Settles, probe, ReadyInterval, ReadyTimeout, 0)
      decreases ReadyTimeout - elapsed
    {
      var pod := probe(elapsed);
      if pod == Observed(Running) {
        return true;
      } else if pod == Observed(Failed) {
        return false;
      }
      elapsed := elapsed + ReadyInterval;
    }
    return false;
  }

  // ----- wait_for_pod_deletion -----

  /** The only read that ends the deletion wait: an `ApiException` with status 404. */
  predicate Gone(r: PodRead) {
    r == ReadFailed(Api(404))
  }

  /** What wait_for_pod_deletion returns for the reads `probe`. */
  function DeletionVerdict(probe: Script): bool {
    FirstStop(Gone, probe, DeletionInterval, DeletionTimeout, 0).Some?
  }

  /**
   * The deletion is confirmed exactly when some read within the 60 seconds
   * answers 404; a pod that is still there, any other status and any other
   * exception all keep the loop going.
   */
  lemma DeletedExactlyWhenNotFound(probe: Script)
    ensures DeletionVerdict(probe) <==> exists k: nat :: k < DeletionTimeout && probe(k) == ReadFailed(Api(404))
  {
    NoStop(Gone, probe, DeletionInterval, DeletionTimeout);
    forall t: nat
      ensures Beat(DeletionInterval, t)
    {
      EverySecond(t);
    }
  }

  /** A loop that reads every second reads at every second. */
  lemma {:induction false} EverySecond(t: nat)
    ensures Beat(1, t)
  {
    if t > 0 {
      EverySecond(t - 1);
    }
  }

  /** wait_for_pod_deletion: poll every second for at most 60. */
  method WaitForPodDeletion(probe: Script) returns (gone: bool)
    ensures gone == DeletionVerdict(probe)
  {
    var elapsed: nat := 0;
    while elapsed < DeletionTimeout
      invariant FirstStop(Gone, probe, DeletionInterval, DeletionTimeout, elapsed)
             == FirstStop(Gone, probe, DeletionInterval, DeletionTimeout, 0)
      decreases DeletionTimeout - elapsed
    {
      var pod := probe(elapsed);
      if pod.ReadFailed? && pod.fault == Api(404) {
        return true;
      }
      elapsed := elapsed + DeletionInterval;
    }
    return false;
  }

  // ----- the loop of monitor_pod -----

  const MonitorTimeout: nat := 600
  const MonitorInterval: nat := 5

  /** A read that ends the watch: Succeeded, Failed, or any exception. */
  predicate Ends(r: PodRead) {
    r.ReadFailed? || r == Observed(Succeeded) || r == Observed(Failed)
  }

  /** How the watch of the build ends. */
  datatype Watch = Built | BuildFailed | Broken | TimedOut

  /** How the reads `probe` end the watch. */
  function WatchVerdict(probe: Script): Watch {
    match FirstStop(Ends, probe, MonitorInterval, MonitorTimeout, 0)
    case None => TimedOut
    case Some(t) =>
      match probe(t)
      case Observed(Succeeded) => Built
      case Observed(_) => BuildFailed
      case ReadFailed(_) => Broken
  }

  /** How the first read that ends the watch makes it end. */
  function Outcome(r: PodRead): Watch {
    if r == Observed(Succeeded) then Built
    else if r.ReadFailed? then Broken
    else BuildFailed
  }

  /**
   * The watch ends as the first read within the 600 seconds showing
   * Succeeded, Failed or an error says; it times out exactly when no read
   * within the 600 seconds does. Pending, Running and Unknown keep it going.
   */
  lemma WatchEndsAtFirstDecidingRead(probe: Script)
    ensures WatchVerdict(probe) == TimedOut <==> NeverStops(Ends, probe, MonitorInterval, MonitorTimeout)
    ensures forall t: nat :: StopsFirstAt(Ends, probe, MonitorInterval, MonitorTimeout, t) ==>
              WatchVerdict(probe) == Outcome(probe(t))
  {
    NoStop(Ends, probe, MonitorInterval, MonitorTimeout);
    forall t: nat | StopsFirstAt(Ends, probe, MonitorInterval, MonitorTimeout, t)
      ensures WatchVerdict(probe) == Outcome(probe(t))
    {
      FirstStopIs(Ends, probe, MonitorInterval, MonitorTimeout, t);
    }
  }
}
