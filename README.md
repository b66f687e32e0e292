# wdmon disruption monitor — Dafny model

wdmon watches pod changes across every namespace of a Kubernetes cluster. For
each MODIFIED notification, it looks at each container status of the pod and
prints a line when the container was SIGKILLed (exit code 137) in one of two
ways:

- an out-of-memory kill: reason `"OOMKilled"`;
- a likely non-graceful termination: reason `"Error"`, while the pod carries a
  deletion timestamp and a deletion grace period of exactly 0.

This project models that loop and the classification it makes, and proves what
comes out of it.

- `kube.dfy` (module `Kube`): the parts of the Kubernetes objects that the loop
  reads. Each field the loop may find as `None` is an `Option`; the two
  exceptions, `pod.metadata` and `pod.metadata.name`, are listed under
  "Left out".
- `classifier.dfy` (module `Classifier`): `Classify` is the if/elif chain for
  one container status. `Qualifies` states the same decision kind by kind,
  and the lemmas tie the two together.
- `monitor.dfy` (module `Monitor`): `Examine` handles one notification and
  `Watch` a whole stream. Both are pure specifications built from `Chain`,
  which runs outcomes in order and stops at the first fault.
  `ScanContainers` (the inner `for` loop) and `Run` (the outer `for` loop) are
  the imperative loops. Each is proved equal to its specification.

Each printed line is a `Report(container, pod, kind)` value appended to the
output sequence. The watch stream is an input `seq<Notification>`.

The Python code has a few edge cases that the model keeps, because the code
crashes on them:

- A MODIFIED pod whose `status` is `None` raises AttributeError at line 12.
- A container status whose `state` is `None` raises AttributeError at line 14.

Nothing catches these errors, so `main()` ends: lines already printed stay
printed, and nothing further is examined. The model calls these faults
`MissingPodStatus` and `MissingContainerState`.

## Model

| member | source | states |
|---|---|---|
| Classifier.ClassifySpec | wdmon.py:14-22 | A container status with no state raises; the classifier emits a report of kind k for a container exactly when its terminated exit code is 137 and its reason and the pod's deletion metadata qualify for k; every report names the examined container and the pod |
| Classifier.NotKilledIsQuiet | wdmon.py:14 | No terminated state, or an exit code other than 137, gives no report |
| Classifier.OOMKillIgnoresDeletion | wdmon.py:14-16 | Exit 137 with reason "OOMKilled" gives exactly the OOMKilled report for that container and pod, and the deletion timestamp and grace period do not change it |
| Classifier.ErrorNeedsForcedDeletion | wdmon.py:17-22 | Exit 137 with reason "Error" gives a NonGracefulTermination report if and only if a deletion timestamp is present and the grace period equals 0; an absent grace period gives nothing |
| Classifier.OtherReasonIsQuiet | wdmon.py:15-17 | Exit 137 with any other reason, or none, gives no report |
| Monitor.NonModifiedIsSilent | wdmon.py:11 | A notification that is not MODIFIED emits nothing and cannot fail, whatever its pod holds |
| Monitor.AbsentStatusesAreEmpty | wdmon.py:12 | An absent container-status list emits nothing, just like an empty list |
| Monitor.ExamineFault | wdmon.py:12-14 | A notification fails only when it is MODIFIED and either its pod has no status (MissingPodStatus) or some container status has no state (MissingContainerState) |
| Monitor.ExamineReports | wdmon.py:12-22 | When nothing is missing, a MODIFIED notification's reports are the classifier's reports of its container statuses, in list order; there are at most as many reports as container statuses; and a report is emitted if and only if the classifier emits it for some container status |
| Monitor.ExamineMissingState | wdmon.py:12-14 | When container status k is the first with no state, only the reports of the statuses before it are emitted, and then MissingContainerState ends processing |
| Monitor.ChainAppend | wdmon.py:8-22 | Running two runs of parts back to back equals running the first and then, unless it failed, the second |
| Monitor.ChainFault | wdmon.py:8-22 | A run fails if and only if one of its parts fails, and then with that part's fault |
| Monitor.WatchAppend | wdmon.py:8-22 | The output of a concatenated stream is the first part's output followed, unless it failed, by the rest's: no state carries over between notifications |
| Monitor.WatchSingle | wdmon.py:8-22 | A one-notification stream emits exactly what that notification does |
| Monitor.WatchPassing | wdmon.py:8-22 | A stream with no failing notification emits the concatenation of each notification's reports, in stream order |
| Monitor.WatchStopsAt | wdmon.py:8-22 | When notification k is the first to fail, the stream emits the reports of the notifications before it and those k emitted before failing, nothing after, and ends with k's fault |
| Monitor.WatchIgnoresNonModified | wdmon.py:8-11 | Removing every notification that is not MODIFIED from a stream does not change its output |
| Monitor.ScanContainers | wdmon.py:12-22 | The inner loop over the container statuses emits exactly the reports and the fault of the chained classifier steps |
| Monitor.Run | wdmon.py:8-22 | The outer watch loop emits exactly the reports and the fault that Watch specifies for the stream |

## Left out

- Kubernetes client setup and the watch itself (`load_kube_config`, `CoreV1Api`, `watch.Watch().stream`, wdmon.py:2-8): network I/O and library calls. The stream is an input sequence. Its unbounded length, and any exception the stream raises, are not modelled.
- The text of the printed messages (wdmon.py:16, 22): console output. Each line is a `Report` value.
- `pod.metadata` or `pod.metadata.name` being `None`: the API server always sets both for a pod, so the model makes them required fields. A `None` name, which the f-strings at wdmon.py:16 and wdmon.py:22 would print as "None", cannot be represented.
- The object of a watch `ERROR` notification is a status object, not a pod. Only MODIFIED notifications are read, so every notification carries a `Pod` here.
- `static/js/app.js`: the browser dashboard (DOM queries, `fetch`, `localStorage`, timers, row filtering and locale-dependent sorting). This is UI code with no counterpart in the monitor.
- The per-workload counts and records that the dashboard in `static/js/app.js` shows come from a component that is not among these files; `wdmon.py` has none of it.
