# docker-build-cli in Dafny

A model of `docker-build-cli.py`, a command-line tool that builds a Docker
image inside a Kubernetes cluster. The tool validates that a `Dockerfile`
exists and then sets up the cluster side:

- creates the namespace `docker-builds`;
- installs the registry secret `dockerhub-secret`;
- (re)creates a BuildKit pod named after the image.

It waits for that pod to run, uploads the build context, and triggers and
watches the build. Then it removes the secret again. The upload sends the
current directory as it is, or a filtered copy of it when `.dockerignore`
can be loaded.

The project is organised by the program's own parts:

| module (file) | what it models |
|---|---|
| `Naming` (naming.dfy) | the build pod's name derived from the image reference |
| `Ignore` (ignore.dfy) | `load_dockerignore`, `should_ignore_path`, pathlib's `relative_to` |
| `Tree` (tree.dfy) | the build context as a tree, the filtered `os.walk` as a function (`Walk`), and an independent description of the files it should keep (`AllFiles`, `KeptOnly`) |
| `LocalHost` (host.dfy) | the local machine as a class (`Host`) whose temporary directories change in place, and the imperative walk of `create_filtered_build_context` proved equal to `Walk` |
| `Cluster` (cluster.dfy) | an in-memory Kubernetes API server and `kubectl` (`FakeCluster`): namespaces, secrets, pods, delivered contexts, triggered builds, and a log of every request except the reads made while polling (pod reads and log reads), which come from scripts |
| `Polling` (polling.dfy) | the loops of `wait_for_pod_ready` and `wait_for_pod_deletion` over a scripted clock, and the verdict of the watch in `monitor_pod` (whose loop is `Build.PollUntilEnd`) |
| `LogTail` (logtail.dfy) | the progress lines: `strip`, `split('\n')`, the last five lines, non-blank ones only |
| `Provision` (provision.dfy) | `create_namespace`, `create_dockerhub_secret`, `create_buildkit_pod`, `cleanup_secret` |
| `Build` (build.dfy) | `monitor_pod`, `upload_build_context`, `trigger_build`, `build_and_push` |

How the environment is represented:

- **Cluster failures.** For the requests the fake cluster serves, missing
  objects (404) and conflicts (409) follow from its state. Every other
  failure comes from a fault script, `FakeCluster.refuse`, keyed by the
  number of the request (its position in the request log). It says how that
  request fails: an `ApiException` with some other status, or any other
  exception (`Transport`). The same kind of request can therefore fail once
  and succeed when it is sent again.
- **Polling reads.** The pod reads of the three polling loops
  (docker-build-cli.py:247, 354, 415) and the log reads of the watch
  (docker-build-cli.py:425, 435) do not go through the fake cluster: what
  they return, including a 404 or any other failure, is a script. They are
  not in the request log, so request numbers and the step order of requests
  count only the other requests.
- **Shell commands.** How `kubectl cp` and `kubectl exec` end is a parameter
  (`Command`): an exit status, or an exception from `subprocess.run`.
- **Clock.** The wall clock is whole seconds since a loop began. What a pod
  read returns at each second is a script (`Polling.Script`), and so are the
  pod's logs (`Build.LogScript`).
- **Outcome.** Each step says whether the program proceeds, calls
  `sys.exit(1)`, or lets an exception escape (`Provision.Flow`).
  `build_and_push` returns the exit status together with the step at which it
  stopped.

The registry secret is left behind on some failures. A temporary
credential is evidently meant to be removed on every exit path once it has
been installed, but the code deletes it only in three cases:

- when the pod never becomes ready;
- when the watch ends;
- when the watch times out.

A run that stops at the pod, the upload or the trigger step exits with the
secret still installed. The model follows the code, and `Build.BuildAndPush`
states the leak (`stage in {PodStep, UploadStep, TriggerStep} ==> Secret in
c.secrets`).

The walk as written raises as soon as a `.dockerignore` loads (see
"Findings"): `os.walk('.')` hands should_ignore_path relative paths, and
`relative_to` an absolute working directory rejects them. The upload and
everything that calls it therefore take the walk's starting point `top` as
a parameter:

- `top = '.'` (`Tree.FromDot`) is the program as written. With a
  specification the upload exits 1 before `kubectl cp` runs
  (`Build.UploadBuildContext`), and the run never finishes
  (`Build.AsWrittenRunStopsAtUpload`).
- `top` equal to the absolute working directory (`Tree.Anchored`) is the
  evidently intended behaviour: should_ignore_path then receives the working
  directory joined with each relative path, and `Tree.WalkCopiesExactlyKept`
  shows that exactly the kept files are copied.

## Model

| member | source | states |
|---|---|---|
| Naming.PodNameShape | docker-build-cli.py:476 | the pod name is "build-" followed by one character per image character, each with '/' and ':' turned into '-' and ASCII upper case lowered |
| Naming.PodNameHasNoSeparators | docker-build-cli.py:476 | no '/', ':' or ASCII upper-case letter appears anywhere in the pod name |
| Naming.SanitizeIdempotent | docker-build-cli.py:476 | rewriting an already rewritten name changes nothing |
| Naming.SanitizeCollides | docker-build-cli.py:476 | two image references get the same pod name exactly when they have the same length and agree character by character once separators and case are ignored, so one build replaces the other's pod |
| Ignore.LoadDockerignore | docker-build-cli.py:82-98 | there is no specification exactly when the file is missing, unreadable, or rejected by the pattern compiler; otherwise the specification is the compiled text |
| Ignore.RelativeTo | docker-build-cli.py:107 | relative_to succeeds exactly when both paths are of the same kind and the base is a prefix, and then base + result is the path |
| Ignore.ShouldIgnorePath | docker-build-cli.py:101-108 | no specification ignores nothing; with one, it raises exactly when the path is not an absolute path under the working directory, and otherwise answers the matcher on the part below that directory |
| Ignore.NoSpecIgnoresNothing | docker-build-cli.py:103-104 | without a specification no path is ignored |
| Ignore.AnchoredPathIsMatched | docker-build-cli.py:101-108 | a path under the absolute working directory is ignored exactly when the specification matches its part below that directory |
| Ignore.RelativePathRaises | docker-build-cli.py:107 | with a specification, every relative path makes should_ignore_path raise |
| Tree.WalkCopiesExactlyKept | docker-build-cli.py:111-152 | when the walk does not abort, it copies, in os.walk order, exactly the files that are not ignored, lie under no ignored directory and copy without error |
| Tree.NoIgnoredFileCopied | docker-build-cli.py:123-140 | every copied file is a file of the context, is not ignored, and has no ignored ancestor directory |
| Tree.NoSpecCopiesEverything | docker-build-cli.py:111-152 | with no specification and no local fault, every file is copied and the ignored count is 0 |
| Tree.CopyFailureSkipsOnlyThatFile | docker-build-cli.py:142-148 | one more failing copy removes just that file from what is copied; directories, ignored count and abort are unchanged |
| Tree.WalkMirrorsAndCounts | docker-build-cli.py:121-148 | when the walk does not abort, it mirrors, in os.walk order, exactly the root and the directories that are not ignored and lie below no ignored directory; ignored_files counts exactly the files that are ignored themselves (with no ignored directory above) or lie directly in the first ignored directory on their path, and none deeper |
| Tree.NoIgnoredDirectoryMirrored | docker-build-cli.py:124-133 | a directory is mirrored exactly when it is a directory of the context and is the root, or is neither ignored nor below an ignored directory |
| Tree.AsWrittenWalkAborts | docker-build-cli.py:119-138 | as written (walk from '.'), with a specification the walk aborts on any non-empty context |
| LocalHost.Host.MakeTemp | docker-build-cli.py:113 | a new, empty temporary directory with a fresh id, logged as created |
| LocalHost.Host.Mkdir | docker-build-cli.py:131-133 | the mirror directory is created unless that path is unwritable; nothing else changes |
| LocalHost.Host.Copy | docker-build-cli.py:142-146 | the file is added to the temporary directory unless its copy fails; nothing else changes |
| LocalHost.Host.RemoveTree | docker-build-cli.py:155 | the temporary directory is gone and the removal is logged |
| LocalHost.CopyFile | docker-build-cli.py:137-148 | one file of a visited directory: a check that raises aborts and changes nothing, an ignored file is only counted, a failed copy is skipped; otherwise the temporary directory grows by exactly that file step of Walk |
| LocalHost.CopyFiles | docker-build-cli.py:136-148 | the loop over a directory's files aborts exactly when Walk's file steps do, and otherwise adds exactly their copies to the temporary directory and returns their counters; no other directory changes |
| LocalHost.VisitDirectory | docker-build-cli.py:122-148 | one directory of the walk: an ignored directory only counts its files, otherwise it is mirrored and its files copied, exactly as Walk's step for that directory; it aborts exactly when that step does |
| LocalHost.MirrorTree | docker-build-cli.py:119-148 | the os.walk loop succeeds exactly when Walk does not abort, and then fills the temporary directory with Walk's directories and files and returns its counters |
| LocalHost.CreateFilteredBuildContext | docker-build-cli.py:111-157 | returns a fresh temporary directory holding exactly Walk's directories and files, or none when Walk aborts, in which case the directory is created, removed again, and no other one changes |
| Cluster.RankedMeans | docker-build-cli.py:478-500 | a Ranked request sequence has every rank within its bounds and no request ranks below an earlier one |
| Polling.FirstStopIs | docker-build-cli.py:245-259 | a polling loop stops at second t exactly when it reads at t, t is before the timeout, the read at t stops it, and no earlier read did |
| Polling.NoStop | docker-build-cli.py:245-262 | a polling loop finds no stopping read exactly when no read before the timeout stops it |
| Polling.WaitForPodReady | docker-build-cli.py:240-262 | polling every 2 seconds for 120, the result is the verdict of the first Running or Failed read |
| Polling.ReadyExactlyWhenRunningFirst | docker-build-cli.py:245-262 | the pod is ready exactly when some read within 120 seconds shows Running and no earlier one showed Running or Failed |
| Polling.FailedFirstIsNotReady | docker-build-cli.py:253-255 | a first deciding read that shows Failed gives "not ready" |
| Polling.TimeoutIsNotReady | docker-build-cli.py:261-262 | when no read within 120 seconds decides, the wait gives "not ready" |
| Polling.WaitForPodDeletion | docker-build-cli.py:348-367 | polling every second for 60, the result is whether some read answered 404 |
| Polling.DeletedExactlyWhenNotFound | docker-build-cli.py:352-367 | the deletion counts as confirmed exactly when some read within 60 seconds answers 404; other statuses and exceptions only keep it waiting |
| Polling.WatchEndsAtFirstDecidingRead | docker-build-cli.py:413-449 | the watch times out exactly when no read within 600 seconds shows Succeeded, Failed or raises; otherwise the first such read decides how it ends |
| LogTail.StripIsTrim | docker-build-cli.py:437 | strip keeps a middle part of the text, removes only whitespace, and leaves none at either end |
| LogTail.StripIdempotent | docker-build-cli.py:437 | stripping twice is stripping once |
| LogTail.JoinSplit | docker-build-cli.py:437 | joining the pieces of split('\n') with '\n' gives back the text |
| LogTail.SplitJoin | docker-build-cli.py:437 | splitting a '\n'-join of pieces without '\n' gives back the pieces |
| LogTail.TailShowsLastLines | docker-build-cli.py:434-440 | at most five lines are shown, each non-blank and single-line; they are exactly the non-blank lines among the last five, in their order (an increasing selection of those lines), so every non-blank one of them is shown |
| LogTail.NonBlankSelects | docker-build-cli.py:438-440 | keeping the non-blank lines selects them in order: some increasing index sequence picks exactly the non-blank lines |
| LogTail.SelectsAll | docker-build-cli.py:438-440 | such a selection contains every line that is not blank |
| LogTail.BlankLogShowsNothing | docker-build-cli.py:435-440 | an empty or all-whitespace log shows no line |
| Provision.CreateNamespace | docker-build-cli.py:171-184 | proceeds exactly when the request is not refused (a 409 for an existing namespace counts as success); an ApiException exits, any other exception escapes |
| Provision.CreateDockerhubSecret | docker-build-cli.py:187-221 | deletes then creates the secret; proceeds exactly when the deletion raises nothing but an ApiException and the creation succeeds; no other secret changes |
| Provision.PodInstallsInSteps | docker-build-cli.py:370-403 | the pod is installed exactly when removing an old pod proceeds, the creation request is not refused, the namespace exists and no pod of that name is left |
| Provision.RemoveExistingPod | docker-build-cli.py:373-385 | an existing pod is deleted and the deletion waited for; ApiExceptions from the check or the deletion are swallowed, other exceptions and an unconfirmed deletion exit |
| Provision.CreateBuildkitPod | docker-build-cli.py:370-403 | an existing pod is replaced only after its deletion is confirmed; an absent pod is created; on success the pod exists; no other pod changes |
| Provision.CleanupSecret | docker-build-cli.py:457-463 | deletes the secret, swallowing an ApiException and letting any other exception escape |
| Build.ProgressLinesAreLines | docker-build-cli.py:432-441 | every progress line shown during the watch is a single non-blank line |
| Build.PollUntilEnd | docker-build-cli.py:413-444 | the read loop shows exactly the progress lines for the reads before the first deciding one and stops at that read, or at the timeout |
| Build.CleanupInLoop | docker-build-cli.py:419-449 | cleanup_secret inside the loop's try: proceeds when it does not raise; when it raises, the except deletes again and exits 1 if that second deletion does not raise, or lets it escape; the secret set follows the last deletion |
| Build.WatchProceedsExactly | docker-build-cli.py:413-454 | the watch lets the run go on exactly after Succeeded and a first deletion that does not raise; otherwise it exits 1 or an exception escapes |
| Build.RetryThatSucceedsExits | docker-build-cli.py:446-449 | a first deletion that raises and a retry that succeeds delete the secret twice, remove it, and still exit 1, even after a successful build |
| Build.AfterCleanupRemoves | docker-build-cli.py:457-463 | an existing secret is gone after the watch's deletions exactly when the last of them was not refused |
| Build.EndWatch | docker-build-cli.py:417-449 | Succeeded deletes the secret and proceeds, Failed and a raising read delete it and exit; a deletion that raises inside the try is sent again, and the run then exits 1 or escapes as that retry raises or not |
| Build.WatchEnds | docker-build-cli.py:415-449 | the first deciding read determines the flow, the cleanup requests (one deletion, or two when the first raises inside the try), the secret and the dumped log of a failed build |
| Build.WatchTimesOut | docker-build-cli.py:451-454 | after 600 seconds the secret is deleted once and the program exits |
| Build.MonitorPod | docker-build-cli.py:406-454 | the flow, shown lines, dumped log, cleanup requests and secret are those the watch verdict of the reads calls for |
| Build.SentIsDelivered | docker-build-cli.py:270-283 | when should_ignore_path receives paths under the working directory (or no specification loads) and the walk succeeds, the pod receives exactly the files the specification keeps |
| Build.AsWrittenUploadFails | docker-build-cli.py:270-280 | as written (walk from '.'), the upload fails whenever a specification loads and the working directory is not empty |
| Build.UploadBuildContext | docker-build-cli.py:265-306 | proceeds exactly when the filtered copy (if any) is made and kubectl cp exits 0; the pod receives the whole context without a specification, otherwise exactly the filtered copy, which is removed again; as written, a loaded specification and a non-empty working directory exit 1 before kubectl cp is sent; temporary directories end as they began |
| Build.TriggerBuild | docker-build-cli.py:309-328 | the build is triggered and the run proceeds exactly when the exec command exits 0 |
| Build.Provide | docker-build-cli.py:478-486 | namespace, secret and pod requests come in that order; it proceeds exactly when all three steps proceed, and otherwise names the first that does not (ProvisionStage); once the secret step succeeded the secret exists |
| Build.Deliver | docker-build-cli.py:493-497 | upload then trigger, in that order; it stops at the upload exactly when the upload fails, at the trigger exactly when exec does not exit 0, and otherwise proceeds with the pod holding the delivered context and triggered |
| Build.DeliverAndWatch | docker-build-cli.py:493-500 | the run after readiness stops at the upload, the trigger or the watch exactly as DeliveryStage says; status 0 exactly when it finishes; the watch's deletions follow the transfer requests |
| Build.RunBuild | docker-build-cli.py:488-500 | after the pod exists: the stage is BuildStage of the inputs (NotReady exactly when the pod does not become ready); NotReady sends one deletion of the secret, which is gone unless that request is refused, and no upload or trigger; a failed upload or trigger keeps it; a finished watch deletes it; status 0 exactly when it finishes |
| Build.ProvideAndRun | docker-build-cli.py:478-500 | provisioning then the build, stopping where ProvisionedStage says; status 0 exactly when it finishes; the secret stays after a pod, upload or trigger failure |
| Build.BuildAndPush | docker-build-cli.py:466-500 | the stage is RunStage of the inputs and status 0 exactly for Finished; requests come in step order followed only by secret deletions; a missing Dockerfile or kube config sends nothing; not ready sends no transfer and one deletion of the secret, which is gone unless that request is refused; the secret stays behind after a pod, upload or trigger failure |
| Build.FaultFreeRunFinishes | docker-build-cli.py:466-500 | with no request refused, a run finishes (exit 0) exactly when the Dockerfile and kube config exist, an old pod disappears in time, the pod becomes ready, the upload and trigger succeed and the build succeeds |
| Build.NotReadyStopsRun | docker-build-cli.py:488-491 | once preflight and provisioning succeed, the run stops at the readiness wait exactly when the pod does not become ready |
| Build.AsWrittenRunStopsAtUpload | docker-build-cli.py:493-494 | as written, a run whose .dockerignore loads never finishes, and stops at the upload exactly when it gets that far |

## Left out

- Command-line parsing, environment variables and credential checks (docker-build-cli.py:22-70) are not modelled. The image name is a parameter.
- load_kubernetes_config (docker-build-cli.py:160-168) is a boolean parameter of `Build.BuildAndPush`. Reading kube configuration files is I/O.
- The pod YAML template and its formatting (docker-build-cli.py:331-345, 388-398) are left out. Pod creation is a request that succeeds or fails; whether the template loads is not modelled.
- The JSON and base64 content of the registry secret (docker-build-cli.py:189-209) is left out. Only the secret's existence is modelled.
- The gitwildmatch semantics of pathspec are left out. A compiled specification is an arbitrary predicate on relative paths, and the compiler is a parameter.
- run_kubectl_command (docker-build-cli.py:224-237) is never called by the core and is not modelled.
- Printed messages are left out, except for the progress lines (`shown`) and the dumped log of a failed build (`dumped`).
- Symbolic links, os.walk's error callback and the order in which the file system lists entries are not modelled. A directory's entries are a sequence in listing order.
- `kubectl cp` either delivers the whole source directory or fails. Partial copies are not modelled.
- Polling reads (docker-build-cli.py:247, 354, 415, 425, 435) come from scripts that are independent of the fake cluster's pod records. Readiness and deletion are therefore not tied to the `pods` set. These reads are not in the request log, so `refuse` cannot inject a fault into them by request number, and the request order stated by `Build.BuildAndPush` leaves them out.
- Build.MonitorPod: time spent inside requests is not counted; the clock moves only by the loop's sleeps. The model therefore does not capture a cleanup that pushes the clock past 600 seconds before the check at docker-build-cli.py:451.
- Build.MonitorPod: the branch for the read that ends the watch runs right after the read loop rather than inside it. Every such branch leaves the loop (by `break`, `sys.exit` or an escaping exception), so requests, output and exit status are the same.
- Build.BuildAndPush: which exception escapes is not recorded, only that the exit status is 1.
- Naming.PodNameShape: Python's `str.lower()` is modelled on ASCII letters only; non-ASCII letters, which Python also lowers, are left unchanged in the model.

## Findings

| source | as written | input that shows it | evidently intended | confidence | as-written member | corrected member |
|---|---|---|---|---|---|---|
| docker-build-cli.py:107 | should_ignore_path makes each path relative to the absolute `Path.cwd()`, but the walk started with `os.walk('.')` hands it relative paths such as `.dockerignore` or `./src`, so `relative_to` raises ValueError | any working directory with a loadable `.dockerignore`: the first file checked makes the walk abort, the temporary directory is removed and the program exits with status 1 | match each path relative to the build context root, so that ignored files are skipped and the rest copied | high; not executed | Tree.AsWrittenWalkAborts | Tree.WalkCopiesExactlyKept |
