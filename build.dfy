/**
 * Watching the build, shipping the build context, starting the build, and
 * the whole run of build_and_push (docker-build-cli.py:265-328, 406-454,
 * 466-496).
 *
 * The run talks to two places: the cluster (a `FakeCluster`) and the local
 * working directory (a `Host`). What the clock, `kubectl` and the pod's logs
 * do is given as parameters: scripts of pod reads for the three polls, the
 * log text readable at each second of the watch, and how the two `kubectl`
 * commands end.
 */
module Build {
  import opened Wrappers
  import opened Naming
  import opened Ignore
  import opened Tree
  import opened LocalHost
  import opened Cluster
  import opened Polling
  import opened LogTail
  import opened Provision

  /** What `read_namespaced_pod_log` returns at each second of the watch; None when it raises. */
  type LogScript = nat -> Option<string>

  // ----- monitor_pod -----

  lemma Regroup<T>(a: seq<T>, b: seq<T>, c: seq<T>)
    ensures a + b + c == a + (b + c)
  {
  }

  /** What the progress branch shows for one attempt to read the logs. */
  function ShownFor(text: Option<string>): seq<string> {
    match text
    case None => []
    case Some(t) => Tail(t)
  }

  /** The progress lines shown from the read at second `t` of the watch until it ends. */
  function Progress(probe: Script, logs: LogScript, t: nat): seq<string>
    decreases MonitorTimeout - t
  {
    if t >= MonitorTimeout then []
    else if Ends(probe(t)) then []
    else ShownFor(logs(t)) + Progress(probe, logs, t + MonitorInterval)
  }

  /** A shown line: not blank, and a single line. */
  predicate IsLogLine(l: string) {
    !Blank(l) && Newline !in l
  }

  predicate AllLogLines(ls: seq<string>) {
    forall i :: 0 <= i < |ls| ==> IsLogLine(ls[i])
  }

  /** Every progress line is one line of a log that is not blank. */
  lemma {:induction false} ProgressLinesAreLines(probe: Script, logs: LogScript, t: nat)
    ensures AllLogLines(Progress(probe, logs, t))
    decreases MonitorTimeout - t
  {
    if t < MonitorTimeout && !Ends(probe(t)) {
      ShownForLines(logs(t));
      ProgressLinesAreLines(probe, logs, t + MonitorInterval);
      LogLinesConcat(ShownFor(logs(t)), Progress(probe, logs, t + MonitorInterval));
    }
  }

  lemma LogLinesConcat(a: seq<string>, b: seq<string>)
    requires AllLogLines(a) && AllLogLines(b)
    ensures AllLogLines(a + b)
  {
    forall j | 0 <= j < |a + b|
      ensures IsLogLine((a + b)[j])
    {
      if j >= |a| {
        assert (a + b)[j] == b[j - |a|];
      }
    }
  }

  lemma ShownForLines(text: Option<string>)
    ensures AllLogLines(ShownFor(text))
  {
    if text.Some? {
      TailShowsLastLines(text.value);
    }
  }

  /** The second of the read that ends the watch, when one does. */
  function EndSecond(probe: Script): nat {
    match FirstStop(Ends, probe, MonitorInterval, MonitorTimeout, 0)
    case Some(t) => t
    case None => MonitorTimeout
  }

  /**
   * Whether the ending branch's deletion of the secret, sent as request `n`,
   * is sent again: after Succeeded and Failed it runs inside the loop's
   * `try`, so an exception other than an `ApiException` reaches the loop's
   * `except`, which deletes the secret once more.
   */
  predicate Retried(refuse: map<nat, Fault>, n: nat, w: Watch) {
    Raises(refuse, n) && (w == Built || w == BuildFailed)
  }

  /** The deletions of the secret that end a watch with verdict `w`, the first sent as request `n`. */
  function WatchCleanup(refuse: map<nat, Fault>, n: nat, secret: Key, w: Watch): seq<Call> {
    if Retried(refuse, n, w) then [SecretDelete(secret), SecretDelete(secret)] else [SecretDelete(secret)]
  }

  /**
   * How monitor_pod ends for verdict `w`, its first deletion of the secret
   * sent as request `n`: it returns normally only after Succeeded and a
   * deletion that does not raise. A retried deletion that succeeds still
   * exits with status 1; one that raises again escapes.
   */
  function WatchFlow(refuse: map<nat, Fault>, n: nat, w: Watch): Flow {
    if Retried(refuse, n, w) then (if Raises(refuse, n + 1) then Uncaught(Transport) else SysExit)
    else if Raises(refuse, n) then Uncaught(Transport)
    else if w == Built then Proceed
    else SysExit
  }

  /** The secrets once the watch's deletions are done: the last one decides. */
  function AfterCleanup(refuse: map<nat, Fault>, n: nat, secret: Key, w: Watch, secrets: set<Key>): set<Key> {
    if n + |WatchCleanup(refuse, n, secret, w)| - 1 in refuse then secrets else secrets - {secret}
  }

  /** A secret that exists is gone after the watch's deletions exactly when the last one was not refused. */
  lemma AfterCleanupRemoves(refuse: map<nat, Fault>, n: nat, secret: Key, w: Watch, secrets: set<Key>)
    requires secret in secrets
    ensures secret !in AfterCleanup(refuse, n, secret, w, secrets) <==> n + |WatchCleanup(refuse, n, secret, w)| - 1 !in refuse
  {
  }

  /** The watch lets the run go on exactly after a build that succeeded and a cleanup that did not raise. */
  lemma WatchProceedsExactly(refuse: map<nat, Fault>, n: nat, w: Watch)
    ensures WatchFlow(refuse, n, w).Proceed? <==> w == Built && !Raises(refuse, n)
    ensures WatchFlow(refuse, n, w) != Proceed ==> WatchFlow(refuse, n, w) == SysExit || WatchFlow(refuse, n, w) == Uncaught(Transport)
  {
  }

  /**
   * A first deletion that raises and a second that succeeds: the secret is
   * gone, yet the run exits with status 1 even after a successful build.
   */
  lemma RetryThatSucceedsExits(refuse: map<nat, Fault>, n: nat, secret: Key, w: Watch, secrets: set<Key>)
    requires Raises(refuse, n) && n + 1 !in refuse && (w == Built || w == BuildFailed)
    ensures WatchFlow(refuse, n, w) == SysExit
    ensures WatchCleanup(refuse, n, secret, w) == [SecretDelete(secret), SecretDelete(secret)]
    ensures secret !in AfterCleanup(refuse, n, secret, w, secrets)
  {
  }

  /**
   * cleanup_secret called inside the watch loop's `try`: an exception it
   * lets escape is caught by the loop's `except`, which calls it once more
   * and then exits; an exception from that second call escapes monitor_pod.
   * `Proceed` means the first call returned and the branch carries on.
   */
  method CleanupInLoop(c: FakeCluster, secret: Key) returns (flow: Flow)
    modifies c`secrets, c`log
    ensures var n := |old(c.log)|;
      && c.log == old(c.log) + (if Raises(c.refuse, n) then [SecretDelete(secret), SecretDelete(secret)] else [SecretDelete(secret)])
      && c.secrets == (if (if Raises(c.refuse, n) then n + 1 else n) in c.refuse then old(c.secrets) else old(c.secrets) - {secret})
      && flow == if !Raises(c.refuse, n) then Proceed else if Raises(c.refuse, n + 1) then Uncaught(Transport) else SysExit
  {
    flow := CleanupSecret(c, secret);
    if flow.Uncaught? {
      flow := CleanupSecret(c, secret);
      if !flow.Uncaught? {
        flow := SysExit;
      }
    }
  }

  /**
   * The three branches of the watch loop for a read that ends it: Succeeded
   * deletes the secret and leaves the loop, Failed deletes it and exits, and
   * a read that raised reaches the loop's `except`, which deletes it and
   * exits.
   */
  method EndWatch(c: FakeCluster, secret: Key, pod: PodRead) returns (flow: Flow)
    requires Ends(pod)
    modifies c`secrets, c`log
    ensures c.log == old(c.log) + WatchCleanup(c.refuse, |old(c.log)|, secret, Outcome(pod))
    ensures c.secrets == AfterCleanup(c.refuse, |old(c.log)|, secret, Outcome(pod), old(c.secrets))
    ensures flow == WatchFlow(c.refuse, |old(c.log)|, Outcome(pod))
  {
    if pod == Observed(Succeeded) {
      flow := CleanupInLoop(c, secret);
    } else if pod == Observed(Failed) {
      flow := CleanupInLoop(c, secret);
      if flow.Proceed? {
        flow := SysExit;
      }
    } else {
      flow := CleanupSecret(c, secret);
      if !flow.Uncaught? {
        flow := SysExit;
      }
    }
  }

  /**
   * The watch loop meets its first read that ends it, `pod`, at second
   * `elapsed`: a failed build's full log is read for printing, and the
   * secret is deleted as the loop's branch for that read says.
   */
  method WatchEnds(c: FakeCluster, secret: Key, probe: Script, logs: LogScript, pod: PodRead, elapsed: nat)
    returns (flow: Flow, dumped: Option<string>)
    requires pod == probe(elapsed) && Ends(pod)
    requires FirstStop(Ends, probe, MonitorInterval, MonitorTimeout, 0) == Some(elapsed)
    modifies c`secrets, c`log
    ensures flow == WatchFlow(c.refuse, |old(c.log)|, WatchVerdict(probe))
    ensures c.log == old(c.log) + WatchCleanup(c.refuse, |old(c.log)|, secret, WatchVerdict(probe))
    ensures c.secrets == AfterCleanup(c.refuse, |old(c.log)|, secret, WatchVerdict(probe), old(c.secrets))
    ensures dumped == if WatchVerdict(probe) == BuildFailed then logs(EndSecond(probe)) else None
  {
    assert WatchVerdict(probe) == Outcome(pod) && EndSecond(probe) == elapsed;
    dumped := if pod == Observed(Failed) then logs(elapsed) else None;
    flow := EndWatch(c, secret, pod);
  }

  /** The watch runs out of its 600 seconds: the secret is deleted and the program exits. */
  method WatchTimesOut(c: FakeCluster, secret: Key, probe: Script) returns (flow: Flow)
    requires FirstStop(Ends, probe, MonitorInterval, MonitorTimeout, 0) == None
    modifies c`secrets, c`log
    ensures WatchVerdict(probe) == TimedOut
    ensures flow == WatchFlow(c.refuse, |old(c.log)|, WatchVerdict(probe))
    ensures c.log == old(c.log) + WatchCleanup(c.refuse, |old(c.log)|, secret, WatchVerdict(probe))
    ensures c.secrets == AfterCleanup(c.refuse, |old(c.log)|, secret, WatchVerdict(probe), old(c.secrets))
  {
    flow := CleanupSecret(c, secret);
    if !flow.Uncaught? {
      flow := SysExit;
    }
  }

  /** One read of the watch loop, at second `t`: it ends the watch, or the watch goes on from the next. */
  lemma WatchReadAt(probe: Script, logs: LogScript, t: nat)
    requires t < MonitorTimeout
    ensures FirstStop(Ends, probe, MonitorInterval, MonitorTimeout, t)
         == if Ends(probe(t)) then Some(t) else FirstStop(Ends, probe, MonitorInterval, MonitorTimeout, t + MonitorInterval)
    ensures Progress(probe, logs, t) == if Ends(probe(t)) then [] else ShownFor(logs(t)) + Progress(probe, logs, t + MonitorInterval)
  {
  }

  /**
   * The reads of the watch loop: every 5 seconds the pod is read, and while
   * it has not finished the progress lines are shown. The loop is left at
   * the first read that ends the watch, `pod` at second `elapsed`, or at the
   * timeout.
   */
  method PollUntilEnd(probe: Script, logs: LogScript) returns (pod: PodRead, elapsed: nat, shown: seq<string>)
    ensures shown == Progress(probe, logs, 0)
    ensures Ends(pod) ==> pod == probe(elapsed) && FirstStop(Ends, probe, MonitorInterval, MonitorTimeout, 0) == Some(elapsed)
    ensures !Ends(pod) ==> FirstStop(Ends, probe, MonitorInterval, MonitorTimeout, 0) == None
  {
    shown, elapsed, pod := [], 0, Observed(Pending);
    while elapsed < MonitorTimeout
      invariant FirstStop(Ends, probe, MonitorInterval, MonitorTimeout, elapsed)
             == FirstStop(Ends, probe, MonitorInterval, MonitorTimeout, 0)
      invariant shown + Progress(probe, logs, elapsed) == Progress(probe, logs, 0)
      invariant !Ends(pod)
      decreases MonitorTimeout - elapsed
    {
      pod := probe(elapsed);
      WatchReadAt(probe, logs, elapsed);
      if Ends(pod) {
        assert shown + [] == shown;
        return;
      }
      var here := ShownFor(logs(elapsed));
      Regroup(shown, here, Progress(probe, logs, elapsed + MonitorInterval));
      shown := shown + here;
      elapsed := elapsed + MonitorInterval;
    }
    assert shown + [] == shown;
  }

  /**
   * monitor_pod. Whatever ends the watch, the secret is deleted; only
   * Succeeded lets the run finish normally. When the deletion raises
   * something other than an `ApiException` inside the loop's `try` (after
   * Succeeded or Failed), the loop's `except` deletes it again and exits,
   * or lets that second exception escape. `shown` are the progress lines and
   * `dumped` the full log printed after a failed build.
   */
  method MonitorPod(c: FakeCluster, secret: Key, probe: Script, logs: LogScript)
    returns (flow: Flow, shown: seq<string>, dumped: Option<string>)
    modifies c`secrets, c`log
    ensures shown == Progress(probe, logs, 0)
    ensures flow == WatchFlow(c.refuse, |old(c.log)|, WatchVerdict(probe))
    ensures c.log == old(c.log) + WatchCleanup(c.refuse, |old(c.log)|, secret, WatchVerdict(probe))
    ensures c.secrets == AfterCleanup(c.refuse, |old(c.log)|, secret, WatchVerdict(probe), old(c.secrets))
    ensures dumped == if WatchVerdict(probe) == BuildFailed then logs(EndSecond(probe)) else None
  {
    var pod, elapsed;
    pod, elapsed, shown := PollUntilEnd(probe, logs);
    // every read that ends the watch leaves the loop (by `break`, `sys.exit`
    // or an escaping exception), so its branch runs once the reads stop;
    // after a `break` the clock is below the timeout and the check after
    // the loop does nothing
    if Ends(pod) {
      flow, dumped := WatchEnds(c, secret, probe, logs, pod, elapsed);
    } else {
      flow := WatchTimesOut(c, secret, probe);
      dumped := None;
    }
  }

  // ----- upload_build_context and trigger_build -----

  /**
   * The files `kubectl cp` puts into the pod: the whole working directory
   * without a specification, otherwise the filtered copy.
   */
  function Delivered(spec: Option<Matcher>, root: seq<Node>, uncopyable: set<Path>): seq<Entry> {
    if spec.None? then AllFiles([], root) else KeptOnly(spec, uncopyable, AllFiles([], root))
  }

  /** What the upload copies for walk setup `s`: '.' itself without a specification, else the walk's copy. */
  function Sent(s: Setup, root: seq<Node>): seq<Entry> {
    if s.spec.None? then AllFiles([], root) else Walk(s, root).copied
  }

  /** The upload succeeds: the filtered copy (if any) is made, and `kubectl cp` exits with 0. */
  predicate Uploads(s: Setup, root: seq<Node>, cp: Command) {
    (s.spec.None? || !Walk(s, root).failed) && cp == Exited(0)
  }

  /**
   * When should_ignore_path receives each path below the absolute working
   * directory (or there is no specification), the upload sends exactly the
   * files the specification keeps.
   */
  lemma SentIsDelivered(s: Setup, root: seq<Node>)
    requires Anchored(s) || s.spec.None?
    requires s.spec.None? || !Walk(s, root).failed
    ensures Sent(s, root) == Delivered(s.spec, root, s.faults.uncopyable)
  {
    if s.spec.Some? {
      WalkCopiesExactlyKept(s, root);
    }
  }

  /**
   * As written (os.walk('.') hands relative paths to should_ignore_path), the
   * upload fails whenever a specification loads and '.' is not empty.
   */
  lemma AsWrittenUploadFails(s: Setup, root: seq<Node>, cp: Command)
    requires FromDot(s) && s.spec.Some? && root != []
    ensures !Uploads(s, root, cp)
  {
    AsWrittenWalkAborts(s, root);
  }

  /**
   * upload_build_context. Without a specification the working directory
   * itself is copied and no temporary directory exists; otherwise the
   * filtered copy is built (the walk handing should_ignore_path the paths
   * `top` prefixes, see `Tree.AsWrittenWalkAborts`), copied, and removed
   * whatever `kubectl cp` did. A failed walk, a non-zero status and an
   * exception all exit.
   */
  method UploadBuildContext(c: FakeCluster, host: Host, pod: Key, file: IgnoreFile,
                            compile: string -> Option<Matcher>, top: FsPath, cp: Command)
    returns (flow: Flow)
    requires host.Valid()
    modifies host, c`contexts, c`log
    ensures host.Valid()
    ensures var s := Setup(LoadDockerignore(file, compile), host.cwd, top, host.faults);
      && host.temps == old(host.temps)
      && (s.spec.None? ==> host.tempLog == old(host.tempLog))
      && (s.spec.Some? ==> exists t :: host.tempLog == old(host.tempLog) + [Created(t), Removed(t)])
      && (flow.Proceed? <==> Uploads(s, host.root, cp))
      && (!flow.Proceed? ==> flow == SysExit)
      && c.log == old(c.log) + (if s.spec.Some? && Walk(s, host.root).failed then [] else [ContextCopy(pod)])
      && c.contexts == (if flow.Proceed? then old(c.contexts)[pod := Sent(s, host.root)] else old(c.contexts))
    ensures var s := Setup(LoadDockerignore(file, compile), host.cwd, top, host.faults);
      FromDot(s) && s.spec.Some? && host.root != [] ==> flow == SysExit && c.log == old(c.log)
  {
    var spec := LoadDockerignore(file, compile);
    ghost var s := Setup(spec, host.cwd, top, host.faults);
    if FromDot(s) && spec.Some? && host.root != [] {
      AsWrittenWalkAborts(s, host.root);
    }
    if spec.None? {
      c.CopyContext(pod, AllFiles([], host.root), cp);
    } else {
      var temp, copied, ignored := CreateFilteredBuildContext(host, spec, top);
      if temp.None? {
        return SysExit;
      }
      var t := temp.value;
      c.CopyContext(pod, host.temps[t].files, cp);
      DropTemp(old(host.temps), host.temps[t], host.temps, t);
      host.RemoveTree(t);
    }
    flow := if cp == Exited(0) then Proceed else SysExit;
  }

  /** trigger_build: create BUILD_READY in the pod; a non-zero status or an exception exits. */
  method TriggerBuild(c: FakeCluster, pod: Key, exec: Command) returns (flow: Flow)
    modifies c`triggered, c`log
    ensures c.log == old(c.log) + [BuildTrigger(pod)]
    ensures flow == if exec == Exited(0) then Proceed else SysExit
    ensures c.triggered == if flow.Proceed? then old(c.triggered) + {pod} else old(c.triggered)
  {
    c.Trigger(pod, exec);
    flow := if exec == Exited(0) then Proceed else SysExit;
  }

  // ----- build_and_push -----

  const BuildNamespace: string := "docker-builds"
  const SecretName: string := "dockerhub-secret"
  const Secret: Key := Key(BuildNamespace, SecretName)

  /** The build pod for an image. */
  function BuildPod(image: string): Key {
    Key(BuildNamespace, PodName(image))
  }

  /** validate_dockerfile: "./Dockerfile" exists (as a file or a directory). */
  predicate HasDockerfile(root: seq<Node>) {
    exists i :: 0 <= i < |root| && root[i].name == "Dockerfile"
  }

  /** How far a run (or a part of it) got: the step at which it stopped, or Finished. */
  datatype Stage = Preflight | NamespaceStep | SecretStep | PodStep | NotReady | UploadStep | TriggerStep | MonitorStep | Finished

  /**
   * Where the three provisioning steps, the first request sent as number
   * `n`, stop: the first of namespace, secret and pod that does not proceed,
   * or Finished.
   */
  function ProvisionStage(refuse: map<nat, Fault>, n: nat, namespaces: set<string>, secrets: set<Key>,
                          pods: set<Key>, pod: Key, gone: Script): Stage {
    if n in refuse then NamespaceStep
    else if !SecretInstalls(refuse, n + 1, namespaces + {BuildNamespace}, secrets, Secret) then SecretStep
    else if !PodInstalls(refuse, n + 3, namespaces + {BuildNamespace}, pods, pod, gone) then PodStep
    else Finished
  }

  /** How many requests provisioning sends when it succeeds. */
  function ProvisionRequests(refuse: map<nat, Fault>, n: nat, pods: set<Key>, pod: Key): nat {
    if Found(refuse, n + 3, pods, pod) then 6 else 5
  }

  /**
   * Cleanup requests only: no, one or two deletions of the registry secret
   * (two when the cleanup inside the watch loop raises and the loop's
   * `except` runs it again).
   */
  predicate OnlyCleanup(calls: seq<Call>) {
    calls == [] || calls == [SecretDelete(Secret)] || calls == [SecretDelete(Secret), SecretDelete(Secret)]
  }

  /**
   * The first three steps of build_and_push: namespace, secret, pod.
   * `stage` names the step that stopped the run, or is Finished when all
   * three succeed. The registry secret exists once its step has succeeded.
   */
  method Provide(c: FakeCluster, pod: Key, gone: Script) returns (flow: Flow, ghost stage: Stage, ghost sent: seq<Call>)
    requires c.Valid()
    modifies c`namespaces, c`secrets, c`pods, c`log
    ensures c.log == old(c.log) + sent && Ranked(sent, 0, 5)
    ensures stage == ProvisionStage(c.refuse, |old(c.log)|, old(c.namespaces), old(c.secrets), old(c.pods), pod, gone)
    ensures flow.Proceed? <==> stage == Finished
    ensures flow.Proceed? ==> |sent| == ProvisionRequests(c.refuse, |old(c.log)|, old(c.pods), pod)
    ensures flow.Proceed? || stage == PodStep ==> Secret in c.secrets
    ensures flow.Proceed? ==> BuildNamespace in c.namespaces && pod in c.pods
  {
    ghost var n := |c.log|;
    ghost var namespaces := c.namespaces + {BuildNamespace};
    flow := CreateNamespace(c, BuildNamespace);
    sent := c.log[n..];
    if !flow.Proceed? {
      return flow, NamespaceStep, sent;
    }
    ghost var mark := c.log;
    flow := CreateDockerhubSecret(c, Secret);
    RankedAppend(sent, c.log[|mark|..], 0, 0, 1, 2);
    sent := sent + c.log[|mark|..];
    if !flow.Proceed? {
      assert !SecretInstalls(c.refuse, n + 1, namespaces, old(c.secrets), Secret);
      return flow, SecretStep, sent;
    }
    mark := c.log;
    assert |mark| == n + 3 && c.namespaces == namespaces;
    flow := CreateBuildkitPod(c, pod, gone);
    RankedAppend(sent, c.log[|mark|..], 0, 2, 3, 5);
    sent := sent + c.log[|mark|..];
    stage := if flow.Proceed? then Finished else PodStep;
  }

  /**
   * Upload and trigger: the fifth and sixth steps of build_and_push.
   * `stage` names the step that stopped the run, or is Finished.
   */
  method Deliver(c: FakeCluster, host: Host, pod: Key, file: IgnoreFile,
                 compile: string -> Option<Matcher>, top: FsPath, cp: Command, exec: Command)
    returns (flow: Flow, ghost stage: Stage, ghost sent: seq<Call>)
    requires host.Valid()
    modifies host, c`contexts, c`triggered, c`log
    ensures host.Valid() && host.temps == old(host.temps)
    ensures c.log == old(c.log) + sent && Ranked(sent, 6, 7)
    ensures var s := Setup(LoadDockerignore(file, compile), host.cwd, top, host.faults);
      stage == if !Uploads(s, host.root, cp) then UploadStep else if exec != Exited(0) then TriggerStep else Finished
    ensures flow.Proceed? <==> stage == Finished
    ensures flow.Proceed? ==>
              && sent == [ContextCopy(pod), BuildTrigger(pod)]
              && pod in c.triggered
              && c.contexts == old(c.contexts)[pod := Sent(Setup(LoadDockerignore(file, compile), host.cwd, top, host.faults), host.root)]
  {
    flow := UploadBuildContext(c, host, pod, file, compile, top, cp);
    sent := c.log[|old(c.log)|..];
    if !flow.Proceed? {
      return flow, UploadStep, sent;
    }
    ghost var mark := c.log;
    flow := TriggerBuild(c, pod, exec);
    RankedAppend(sent, c.log[|mark|..], 6, 6, 7, 7);
    sent := sent + c.log[|mark|..];
    stage := if flow.Proceed? then Finished else TriggerStep;
  }

  /**
   * Where the steps after the pod is ready stop: upload, trigger, watch
   * (whose first deletion of the secret is request `n`), or Finished.
   */
  function DeliveryStage(uploads: bool, exec: Command, refuse: map<nat, Fault>, n: nat, watch: Script): Stage {
    if !uploads then UploadStep
    else if exec != Exited(0) then TriggerStep
    else if !WatchFlow(refuse, n, WatchVerdict(watch)).Proceed? then MonitorStep
    else Finished
  }

  /**
   * The steps of build_and_push once the pod is ready: deliver the context,
   * trigger and watch the build. The secret is deleted when the watch ends,
   * and left alone when the upload or the trigger fails.
   */
  method DeliverAndWatch(c: FakeCluster, host: Host, pod: Key, file: IgnoreFile,
                         compile: string -> Option<Matcher>, top: FsPath, watch: Script, logs: LogScript,
                         cp: Command, exec: Command)
    returns (status: int, ghost stage: Stage, ghost run: seq<Call>, ghost tail: seq<Call>)
    requires host.Valid()
    modifies host, c`secrets, c`contexts, c`triggered, c`log
    ensures host.Valid() && host.temps == old(host.temps)
    ensures var s := Setup(LoadDockerignore(file, compile), host.cwd, top, host.faults);
      stage == DeliveryStage(Uploads(s, host.root, cp), exec, c.refuse, |old(c.log)| + 2, watch)
    ensures (status == 0 <==> stage == Finished) && (status == 0 || status == 1)
    ensures c.log == old(c.log) + run + tail && Ranked(run, 6, 7)
    ensures stage in {UploadStep, TriggerStep} ==> tail == [] && c.secrets == old(c.secrets)
    ensures stage in {MonitorStep, Finished} ==>
              && run == [ContextCopy(pod), BuildTrigger(pod)]
              && tail == WatchCleanup(c.refuse, |old(c.log)| + 2, Secret, WatchVerdict(watch))
              && c.secrets == AfterCleanup(c.refuse, |old(c.log)| + 2, Secret, WatchVerdict(watch), old(c.secrets))
    ensures stage == Finished ==>
              && pod in c.triggered
              && c.contexts == old(c.contexts)[pod := Sent(Setup(LoadDockerignore(file, compile), host.cwd, top, host.faults), host.root)]
  {
    var flow;
    flow, stage, run := Deliver(c, host, pod, file, compile, top, cp, exec);
    if !flow.Proceed? {
      assert run + [] == run;
      return 1, stage, run, [];
    }
    ghost var sent := c.log;
    var shown, dumped;
    flow, shown, dumped := MonitorPod(c, Secret, watch, logs);
    tail := WatchCleanup(c.refuse, |sent|, Secret, WatchVerdict(watch));
    assert c.log == sent + tail;
    if !flow.Proceed? {
      return 1, MonitorStep, run, tail;
    }
    return 0, Finished, run, tail;
  }

  /**
   * Where the steps after provisioning stop: readiness, then the delivery
   * and the watch.
   */
  function BuildStage(ready: Script, uploads: bool, exec: Command, refuse: map<nat, Fault>, n: nat, watch: Script): Stage {
    if !ReadyVerdict(ready) then NotReady else DeliveryStage(uploads, exec, refuse, n, watch)
  }

  /**
   * The steps of build_and_push after the pod is created: wait for it to
   * run, then deliver, trigger and watch. The secret is deleted when the pod
   * does not become ready and when the watch ends, and left alone when the
   * upload or the trigger fails.
   */
  method RunBuild(c: FakeCluster, host: Host, pod: Key, file: IgnoreFile,
                  compile: string -> Option<Matcher>, top: FsPath, ready: Script, watch: Script, logs: LogScript,
                  cp: Command, exec: Command)
    returns (status: int, ghost stage: Stage, ghost run: seq<Call>, ghost tail: seq<Call>)
    requires host.Valid()
    modifies host, c`secrets, c`contexts, c`triggered, c`log
    ensures host.Valid() && host.temps == old(host.temps)
    ensures var s := Setup(LoadDockerignore(file, compile), host.cwd, top, host.faults);
      stage == BuildStage(ready, Uploads(s, host.root, cp), exec, c.refuse, |old(c.log)| + 2, watch)
    ensures (status == 0 <==> stage == Finished) && (status == 0 || status == 1)
    ensures c.log == old(c.log) + run + tail && Ranked(run, 6, 7) && OnlyCleanup(tail)
    ensures stage == NotReady ==>
              && run == [] && tail == [SecretDelete(Secret)]
              && (Secret in old(c.secrets) ==> (Secret !in c.secrets <==> |old(c.log)| + |run| !in c.refuse))
              && c.contexts == old(c.contexts) && c.triggered == old(c.triggered)
    ensures stage in {UploadStep, TriggerStep} ==> tail == [] && c.secrets == old(c.secrets)
    ensures stage in {MonitorStep, Finished} ==>
              && run == [ContextCopy(pod), BuildTrigger(pod)]
              && (Secret in old(c.secrets) ==> WatchCleanedUp(c.refuse, |old(c.log)| + |run|, watch, tail, c.secrets))
    ensures stage == Finished ==>
              && pod in c.triggered
              && c.contexts == old(c.contexts)[pod := Sent(Setup(LoadDockerignore(file, compile), host.cwd, top, host.faults), host.root)]
  {
    var isReady := WaitForPodReady(ready);
    if !isReady {
      var flow := CleanupSecret(c, Secret);
      return 1, NotReady, [], [SecretDelete(Secret)];
    }
    status, stage, run, tail := DeliverAndWatch(c, host, pod, file, compile, top, watch, logs, cp, exec);
    if stage in {MonitorStep, Finished} && Secret in old(c.secrets) {
      AfterCleanupRemoves(c.refuse, |old(c.log)| + 2, Secret, WatchVerdict(watch), old(c.secrets));
      assert |run| == 2;
      ghost var w := WatchVerdict(watch);
      ghost var n := |old(c.log)| + 2;
      assert tail == WatchCleanup(c.refuse, n, Secret, w);
      assert Secret !in c.secrets <==> n + |tail| - 1 !in c.refuse;
      assert WatchCleanedUp(c.refuse, n, watch, tail, c.secrets);
    }
  }

  /**
   * The end of a watch whose first deletion of the registry secret was
   * request `n`: `tail` are its deletions, and the secret is gone exactly
   * when the last of them was not refused.
   */
  predicate WatchCleanedUp(refuse: map<nat, Fault>, n: nat, watch: Script, tail: seq<Call>, secrets: set<Key>) {
    && tail == WatchCleanup(refuse, n, Secret, WatchVerdict(watch))
    && (Secret !in secrets <==> n + |tail| - 1 !in refuse)
  }

  /** Where build_and_push stops once the preflight checks passed, provisioning from request `n`. */
  function ProvisionedStage(refuse: map<nat, Fault>, n: nat, namespaces: set<string>, secrets: set<Key>, pods: set<Key>,
                            pod: Key, s: Setup, root: seq<Node>, gone: Script, ready: Script, watch: Script,
                            cp: Command, exec: Command): Stage {
    var first := ProvisionStage(refuse, n, namespaces, secrets, pods, pod, gone);
    if first != Finished then first
    else BuildStage(ready, Uploads(s, root, cp), exec, refuse, n + ProvisionRequests(refuse, n, pods, pod) + 2, watch)
  }

  /** Where build_and_push stops: the preflight checks, then the rest. */
  function RunStage(root: seq<Node>, kubeConfig: bool, refuse: map<nat, Fault>, n: nat,
                    namespaces: set<string>, secrets: set<Key>, pods: set<Key>, image: string,
                    s: Setup, gone: Script, ready: Script, watch: Script, cp: Command, exec: Command): Stage {
    if !HasDockerfile(root) || !kubeConfig then Preflight
    else ProvisionedStage(refuse, n, namespaces, secrets, pods, BuildPod(image), s, root, gone, ready, watch, cp, exec)
  }

  /**
   * With no request refused, a run finishes exactly when the Dockerfile and
   * the cluster configuration are there, an old pod of the same name (if
   * any) disappears in time, the new pod runs, the upload and the trigger
   * succeed and the build succeeds.
   */
  lemma FaultFreeRunFinishes(root: seq<Node>, kubeConfig: bool, n: nat, namespaces: set<string>, secrets: set<Key>,
                             pods: set<Key>, image: string, s: Setup, gone: Script, ready: Script, watch: Script,
                             cp: Command, exec: Command)
    ensures RunStage(root, kubeConfig, map[], n, namespaces, secrets, pods, image, s, gone, ready, watch, cp, exec) == Finished
        <==> && HasDockerfile(root) && kubeConfig
             && (BuildPod(image) in pods ==> DeletionVerdict(gone))
             && ReadyVerdict(ready) && Uploads(s, root, cp) && exec == Exited(0)
             && WatchVerdict(watch) == Built
  {
    var pod := BuildPod(image);
    var ns := namespaces + {BuildNamespace};
    assert SecretInstalls(map[], n + 1, ns, secrets, Secret);
    assert PodInstalls(map[], n + 3, ns, pods, pod, gone) <==> (pod in pods ==> DeletionVerdict(gone));
  }

  /**
   * Once the preflight checks pass and the three provisioning steps succeed,
   * the run stops at the readiness wait exactly when the pod does not become
   * ready; the secret is then deleted and nothing is sent to the pod (see
   * `BuildAndPush`).
   */
  lemma NotReadyStopsRun(root: seq<Node>, kubeConfig: bool, refuse: map<nat, Fault>, n: nat, namespaces: set<string>,
                         secrets: set<Key>, pods: set<Key>, image: string, s: Setup, gone: Script, ready: Script,
                         watch: Script, cp: Command, exec: Command)
    requires HasDockerfile(root) && kubeConfig
    requires ProvisionStage(refuse, n, namespaces, secrets, pods, BuildPod(image), gone) == Finished
    ensures RunStage(root, kubeConfig, refuse, n, namespaces, secrets, pods, image, s, gone, ready, watch, cp, exec) == NotReady
        <==> !ReadyVerdict(ready)
  {
  }

  /**
   * As written, a run whose .dockerignore loads never finishes: when it gets
   * as far as the upload, the walk of '.' fails and the run stops there.
   */
  lemma AsWrittenRunStopsAtUpload(root: seq<Node>, kubeConfig: bool, refuse: map<nat, Fault>, n: nat,
                                  namespaces: set<string>, secrets: set<Key>, pods: set<Key>, image: string,
                                  s: Setup, gone: Script, ready: Script, watch: Script, cp: Command, exec: Command)
    requires FromDot(s) && s.spec.Some?
    ensures RunStage(root, kubeConfig, refuse, n, namespaces, secrets, pods, image, s, gone, ready, watch, cp, exec) != Finished
    ensures RunStage(root, kubeConfig, refuse, n, namespaces, secrets, pods, image, s, gone, ready, watch, cp, exec) == UploadStep
        <==> && HasDockerfile(root) && kubeConfig
             && ProvisionStage(refuse, n, namespaces, secrets, pods, BuildPod(image), gone) == Finished
             && ReadyVerdict(ready)
  {
    if HasDockerfile(root) {
      AsWrittenUploadFails(s, root, cp);
    }
  }

  /** build_and_push after its preflight checks: provision, then run the build. */
  method ProvideAndRun(c: FakeCluster, host: Host, pod: Key, file: IgnoreFile,
                       compile: string -> Option<Matcher>, top: FsPath,
                       gone: Script, ready: Script, watch: Script, logs: LogScript,
                       cp: Command, exec: Command)
    returns (status: int, ghost stage: Stage, ghost run: seq<Call>, ghost tail: seq<Call>)
    requires c.Valid() && host.Valid()
    modifies c, host
    ensures host.Valid() && host.temps == old(host.temps)
    ensures stage == ProvisionedStage(c.refuse, |old(c.log)|, old(c.namespaces), old(c.secrets), old(c.pods), pod,
                                      Setup(LoadDockerignore(file, compile), host.cwd, top, host.faults),
                                      host.root, gone, ready, watch, cp, exec)
    ensures (status == 0 <==> stage == Finished) && (status == 0 || status == 1)
    ensures c.log == old(c.log) + run + tail && Ranked(run, 0, 7) && OnlyCleanup(tail)
    ensures stage == NotReady ==>
              && Ranked(run, 0, 5) && tail == [SecretDelete(Secret)]
              && (Secret !in c.secrets <==> |old(c.log)| + |run| !in c.refuse)
              && c.contexts == old(c.contexts) && c.triggered == old(c.triggered)
    ensures stage in {NamespaceStep, SecretStep} ==> tail == []
    ensures stage in {PodStep, UploadStep, TriggerStep} ==> tail == [] && Secret in c.secrets
    ensures stage in {MonitorStep, Finished} ==> WatchCleanedUp(c.refuse, |old(c.log)| + |run|, watch, tail, c.secrets)
    ensures stage == Finished ==>
              && pod in c.pods && pod in c.triggered
              && c.contexts == old(c.contexts)[pod := Sent(Setup(LoadDockerignore(file, compile), host.cwd, top, host.faults), host.root)]
  {
    var flow;
    flow, stage, run := Provide(c, pod, gone);
    if !flow.Proceed? {
      assert run + [] == run;
      return 1, stage, run, [];
    }
    ghost var first := run;
    ghost var sent := c.log;
    assert Secret in c.secrets && |sent| == |old(c.log)| + |first|;
    status, stage, run, tail := RunBuild(c, host, pod, file, compile, top, ready, watch, logs, cp, exec);
    RankedAppend(first, run, 0, 5, 6, 7);
    Regroup(old(c.log), first, run);
    run := first + run;
    assert |sent| + |run| - |first| == |old(c.log)| + |run|;
  }

  /**
   * build_and_push, returning the process exit status. Steps run in the
   * fixed order namespace, secret, pod, readiness, upload, trigger, watch:
   * `run` are the run's requests in that order, and `tail` the deletions of
   * the secret that follow them. As written, the secret is deleted when the
   * pod never becomes ready and whenever the watch ends, but stays behind
   * when the run stops at the pod, the upload or the trigger. `top` is what
   * the walk of the upload prefixes to the paths it checks.
   */
  method BuildAndPush(c: FakeCluster, host: Host, image: string, file: IgnoreFile,
                      compile: string -> Option<Matcher>, top: FsPath, kubeConfig: bool,
                      gone: Script, ready: Script, watch: Script, logs: LogScript,
                      cp: Command, exec: Command)
    returns (status: int, ghost stage: Stage, ghost run: seq<Call>, ghost tail: seq<Call>)
    requires c.Valid() && host.Valid()
    modifies c, host
    ensures host.Valid() && host.temps == old(host.temps)
    ensures stage == RunStage(host.root, kubeConfig, c.refuse, |old(c.log)|, old(c.namespaces), old(c.secrets), old(c.pods),
                              image, Setup(LoadDockerignore(file, compile), host.cwd, top, host.faults),
                              gone, ready, watch, cp, exec)
    ensures (status == 0 <==> stage == Finished) && (status == 0 || status == 1)
    ensures c.log == old(c.log) + run + tail && Ranked(run, 0, 7) && OnlyCleanup(tail)
    ensures stage == Preflight ==> c.log == old(c.log)
    ensures stage == NotReady ==>
              && Ranked(run, 0, 5) && tail == [SecretDelete(Secret)]
              && (Secret !in c.secrets <==> |old(c.log)| + |run| !in c.refuse)
              && c.contexts == old(c.contexts) && c.triggered == old(c.triggered)
    ensures stage in {PodStep, UploadStep, TriggerStep} ==> tail == [] && Secret in c.secrets
    ensures stage in {MonitorStep, Finished} ==> WatchCleanedUp(c.refuse, |old(c.log)| + |run|, watch, tail, c.secrets)
    ensures stage == Finished ==>
              && BuildPod(image) in c.pods && BuildPod(image) in c.triggered
              && c.contexts == old(c.contexts)[BuildPod(image) :=
                   Sent(Setup(LoadDockerignore(file, compile), host.cwd, top, host.faults), host.root)]
  {
    if !HasDockerfile(host.root) || !kubeConfig {
      return 1, Preflight, [], [];
    }
    status, stage, run, tail := ProvideAndRun(c, host, BuildPod(image), file, compile, top, gone, ready, watch, logs, cp, exec);
  }
}
