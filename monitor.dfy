/** The watch loop of the disruption monitor: it examines each notification of the
    pod watch in turn and emits the reports of the classifier, until an uncaught
    AttributeError ends it. */
module Monitor {
  import opened Kube
  import opened Classifier

  /** The reports emitted so far, in order, and the fault that ended the run, if any. */
  datatype Outcome = Outcome(reports: seq<Report>, fault: Option<Fault>)

  /** A part of the run that emits nothing and does not fail. */
  const Silent := Outcome([], None)

  /** Running `first` and then, unless it failed, `next`. */
  function Then(first: Outcome, next: Outcome): Outcome {
    if first.fault.Some? then first else Outcome(first.reports + next.reports, next.fault)
  }

  /** The outcome of one classifier step. */
  function StepOutcome(s: Step): Outcome {
    match s
    case Emit(r) => Outcome([r], None)
    case Quiet => Silent
    case Raise(f) => Outcome([], Some(f))
  }

  /** Running the parts one after the other; the first fault ends the run. */
  function Chain(parts: seq<Outcome>): Outcome {
    if parts == [] then Silent
    else Then(Chain(parts[..|parts| - 1]), parts[|parts| - 1])
  }

  /** All reports of all parts, in order, as if none had failed. */
  function Flatten(parts: seq<Outcome>): seq<Report> {
    if parts == [] then [] else parts[0].reports + Flatten(parts[1..])
  }

  /** The classifier's verdict on each container status, in list order. */
  function Steps(m: Metadata, css: seq<ContainerStatus>): seq<Outcome> {
    seq(|css|, i requires 0 <= i < |css| => StepOutcome(Classify(m, css[i])))
  }

  /** `container_statuses or []`: an absent list is read as the empty list. */
  function ContainerStatusesOf(st: PodStatus): seq<ContainerStatus> {
    match st.containerStatuses
    case None => []
    case Some(css) => css
  }

  /** What the monitor does with one notification. Only MODIFIED notifications are
      inspected; reading the container statuses of a pod without a status fails. */
  function Examine(n: Notification): Outcome {
    if n.kind != Modified then Silent
    else
      match n.pod.status
      case None => Outcome([], Some(MissingPodStatus))
      case Some(st) => Chain(Steps(n.pod.metadata, ContainerStatusesOf(st)))
  }

  /** The outcome of each notification of a stream, in stream order. */
  function Examined(ns: seq<Notification>): seq<Outcome> {
    seq(|ns|, i requires 0 <= i < |ns| => Examine(ns[i]))
  }

  /** What the watch loop emits for a stream of notifications. */
  function Watch(ns: seq<Notification>): Outcome {
    Chain(Examined(ns))
  }

  /** The notifications of a stream that the monitor inspects. */
  function OnlyModified(ns: seq<Notification>): seq<Notification> {
    if ns == [] then []
    else (if ns[0].kind == Modified then [ns[0]] else []) + OnlyModified(ns[1..])
  }

  // ---------------------------------------------------------------------------
  // Running outcomes in sequence

  lemma ThenAssociative(a: Outcome, b: Outcome, c: Outcome)
    ensures Then(Then(a, b), c) == Then(a, Then(b, c))
  {
  }

  lemma ChainSnoc(parts: seq<Outcome>, last: Outcome)
    ensures Chain(parts + [last]) == Then(Chain(parts), last)
  {
    assert (parts + [last])[..|parts|] == parts;
  }

  /** Running two sequences of parts back to back is running the first and then,
      unless it failed, the second: no state carries over from one to the next. */
  lemma {:induction false} ChainAppend(a: seq<Outcome>, b: seq<Outcome>)
    ensures Chain(a + b) == Then(Chain(a), Chain(b))
  {
    if b == [] {
      assert a + b == a;
    } else {
      var init, last := b[..|b| - 1], b[|b| - 1];
      assert b == init + [last];
      assert a + b == (a + init) + [last];
      ChainSnoc(a + init, last);
      ChainAppend(a, init);
      ChainSnoc(init, last);
      ThenAssociative(Chain(a), Chain(init), last);
    }
  }

  /** Once a run has failed, nothing after it changes the outcome. */
  lemma ChainFaultSticks(a: seq<Outcome>, b: seq<Outcome>)
    requires Chain(a).fault.Some?
    ensures Chain(a + b) == Chain(a)
  {
    ChainAppend(a, b);
  }

  lemma {:induction false} FlattenAppend(a: seq<Outcome>, b: seq<Outcome>)
    ensures Flatten(a + b) == Flatten(a) + Flatten(b)
  {
    if a == [] {
      assert a + b == b;
    } else {
      assert (a + b)[1..] == a[1..] + b;
      FlattenAppend(a[1..], b);
    }
  }

  /** A run in which no part fails emits every report of every part, in order. */
  lemma {:induction false} ChainPassing(parts: seq<Outcome>)
    requires forall i :: 0 <= i < |parts| ==> parts[i].fault.None?
    ensures Chain(parts) == Outcome(Flatten(parts), None)
  {
    if parts != [] {
      var init, last := parts[..|parts| - 1], parts[|parts| - 1];
      assert parts == init + [last];
      ChainPassing(init);
      FlattenAppend(init, [last]);
      assert Flatten([last]) == last.reports;
    }
  }

  /** A run whose first failing part is part `k` emits the reports of the parts
      before it and those of part `k`, and ends with part `k`'s fault. */
  lemma ChainStopsAt(parts: seq<Outcome>, k: nat)
    requires k < |parts| && parts[k].fault.Some?
    requires forall i :: 0 <= i < k ==> parts[i].fault.None?
    ensures Chain(parts) == Outcome(Flatten(parts[..k]) + parts[k].reports, parts[k].fault)
  {
    var before, upto, after := parts[..k], parts[..k + 1], parts[k + 1..];
    assert upto == before + [parts[k]];
    assert parts == upto + after;
    assert forall i :: 0 <= i < |before| ==> before[i].fault.None? by {
      forall i | 0 <= i < |before| ensures before[i].fault.None? {
        assert before[i] == parts[i];
      }
    }
    ChainPassing(before);
    ChainSnoc(before, parts[k]);
    assert Chain(upto) == Outcome(Flatten(before) + parts[k].reports, parts[k].fault);
    ChainFaultSticks(upto, after);
  }

  /** A run fails if and only if one of its parts fails, and then with the fault of
      one of them. */
  lemma {:induction false} ChainFault(parts: seq<Outcome>)
    ensures Chain(parts).fault.None? <==> forall i :: 0 <= i < |parts| ==> parts[i].fault.None?
    ensures Chain(parts).fault.Some? ==> exists i :: 0 <= i < |parts| && parts[i].fault == Chain(parts).fault
  {
    if parts != [] {
      var init := parts[..|parts| - 1];
      ChainFault(init);
      assert forall i :: 0 <= i < |init| ==> init[i] == parts[i];
    }
  }

  /** Parts that emit at most one report each emit at most one report per part. */
  lemma {:induction false} FlattenLength(parts: seq<Outcome>)
    requires forall i :: 0 <= i < |parts| ==> |parts[i].reports| <= 1
    ensures |Flatten(parts)| <= |parts|
  {
    if parts != [] {
      FlattenLength(parts[1..]);
    }
  }

  // ---------------------------------------------------------------------------
  // One notification

  lemma StepsAppend(m: Metadata, a: seq<ContainerStatus>, b: seq<ContainerStatus>)
    ensures Steps(m, a + b) == Steps(m, a) + Steps(m, b)
  {
  }

  /** The reports of the containers' steps are exactly the reports the classifier
      emits for some container status of the list. */
  lemma {:induction false} FlattenStepsMembers(m: Metadata, css: seq<ContainerStatus>, r: Report)
    ensures r in Flatten(Steps(m, css)) <==> exists i :: 0 <= i < |css| && Classify(m, css[i]) == Emit(r)
  {
    if css != [] {
      assert Steps(m, css)[1..] == Steps(m, css[1..]);
      FlattenStepsMembers(m, css[1..], r);
      if r in Flatten(Steps(m, css[1..])) {
        var i :| 0 <= i < |css[1..]| && Classify(m, css[1..][i]) == Emit(r);
        assert Classify(m, css[i + 1]) == Emit(r);
      }
      if exists i :: 0 <= i < |css| && Classify(m, css[i]) == Emit(r) {
        var i :| 0 <= i < |css| && Classify(m, css[i]) == Emit(r);
        if i > 0 {
          assert Classify(m, css[1..][i - 1]) == Emit(r);
        }
      }
    }
  }

  /** A notification other than MODIFIED emits nothing and cannot fail, whatever
      its pod holds. */
  lemma NonModifiedIsSilent(n: Notification)
    requires n.kind != Modified
    ensures Examine(n) == Silent
  {
  }

  /** An absent container-status list is read as an empty one and emits nothing. */
  lemma AbsentStatusesAreEmpty(n: Notification)
    requires n.pod.status == Some(PodStatus(None))
    ensures Examine(n) == Silent
    ensures Examine(n) == Examine(Notification(n.kind, Pod(n.pod.metadata, Some(PodStatus(Some([]))))))
  {
  }

  /** A MODIFIED notification fails exactly when its pod has no status or one of its
      container statuses has no state; which of the two comes first decides the fault. */
  lemma ExamineFault(n: Notification)
    ensures Examine(n).fault ==
      if n.kind != Modified then None
      else if n.pod.status.None? then Some(MissingPodStatus)
      else if exists i :: 0 <= i < |ContainerStatusesOf(n.pod.status.value)| &&
                          ContainerStatusesOf(n.pod.status.value)[i].state.None?
      then Some(MissingContainerState)
      else None
  {
    if n.kind == Modified && n.pod.status.Some? {
      var m, css := n.pod.metadata, ContainerStatusesOf(n.pod.status.value);
      var parts := Steps(m, css);
      ChainFault(parts);
      forall i | 0 <= i < |css|
        ensures parts[i].fault.None? <==> css[i].state.Some?
        ensures parts[i].fault.Some? ==> parts[i].fault == Some(MissingContainerState)
      {
        ClassifySpec(m, css[i], OOMKilled);
      }
    }
  }

  /** A MODIFIED notification whose pod and containers all carry their states emits,
      in container-status order, one report for each container the classifier
      reports and nothing else: at most one report per container status. */
  lemma ExamineReports(n: Notification)
    requires n.kind == Modified && n.pod.status.Some?
    requires forall cs :: cs in ContainerStatusesOf(n.pod.status.value) ==> cs.state.Some?
    ensures var css := ContainerStatusesOf(n.pod.status.value);
      && Examine(n) == Outcome(Flatten(Steps(n.pod.metadata, css)), None)
      && |Examine(n).reports| <= |css|
      && forall r :: r in Examine(n).reports <==>
           exists i :: 0 <= i < |css| && Classify(n.pod.metadata, css[i]) == Emit(r)
  {
    var m, css := n.pod.metadata, ContainerStatusesOf(n.pod.status.value);
    var parts := Steps(m, css);
    forall i | 0 <= i < |parts|
      ensures parts[i].fault.None? && |parts[i].reports| <= 1
    {
      assert css[i] in css;
    }
    ChainPassing(parts);
    FlattenLength(parts);
    forall r ensures r in Examine(n).reports <==> exists i :: 0 <= i < |css| && Classify(m, css[i]) == Emit(r) {
      FlattenStepsMembers(m, css, r);
    }
  }

  /** When container status `k` is the first without a state, the notification emits
      the reports of the containers before it and then fails. */
  lemma ExamineMissingState(n: Notification, k: nat)
    requires n.kind == Modified && n.pod.status.Some?
    requires k < |ContainerStatusesOf(n.pod.status.value)|
    requires ContainerStatusesOf(n.pod.status.value)[k].state.None?
    requires forall i :: 0 <= i < k ==> ContainerStatusesOf(n.pod.status.value)[i].state.Some?
    ensures var css := ContainerStatusesOf(n.pod.status.value);
      Examine(n) == Outcome(Flatten(Steps(n.pod.metadata, css[..k])), Some(MissingContainerState))
  {
    var m, css := n.pod.metadata, ContainerStatusesOf(n.pod.status.value);
    var parts := Steps(m, css);
    assert parts[..k] == Steps(m, css[..k]);
    ChainStopsAt(parts, k);
  }

  // ---------------------------------------------------------------------------
  // The stream

  lemma ExaminedAppend(a: seq<Notification>, b: seq<Notification>)
    ensures Examined(a + b) == Examined(a) + Examined(b)
  {
  }

  /** The stream's outcome is that of its first part followed by that of the rest:
      no state carries over between notifications. */
  lemma WatchAppend(a: seq<Notification>, b: seq<Notification>)
    ensures Watch(a + b) == Then(Watch(a), Watch(b))
  {
    ExaminedAppend(a, b);
    ChainAppend(Examined(a), Examined(b));
  }

  /** A stream of one notification emits what that notification does. */
  lemma WatchSingle(n: Notification)
    ensures Watch([n]) == Examine(n)
  {
    assert Examined([n]) == [] + [Examine(n)];
    ChainSnoc([], Examine(n));
  }

  /** A stream in which no notification fails emits the concatenation, in stream
      order, of each notification's reports. */
  lemma WatchPassing(ns: seq<Notification>)
    requires forall i :: 0 <= i < |ns| ==> Examine(ns[i]).fault.None?
    ensures Watch(ns) == Outcome(Flatten(Examined(ns)), None)
  {
    ChainPassing(Examined(ns));
  }

  /** When notification `k` is the first that fails, the stream emits the reports of
      the notifications before it and those notification `k` emitted before failing,
      and nothing after. */
  lemma WatchStopsAt(ns: seq<Notification>, k: nat)
    requires k < |ns| && Examine(ns[k]).fault.Some?
    requires forall i :: 0 <= i < k ==> Examine(ns[i]).fault.None?
    ensures Watch(ns) ==
      Outcome(Flatten(Examined(ns[..k])) + Examine(ns[k]).reports, Examine(ns[k]).fault)
  {
    assert Examined(ns)[..k] == Examined(ns[..k]);
    ChainStopsAt(Examined(ns), k);
  }

  /** Leaving out every notification other than MODIFIED does not change what the
      stream emits. */
  lemma {:induction false} WatchIgnoresNonModified(ns: seq<Notification>)
    ensures Watch(OnlyModified(ns)) == Watch(ns)
  {
    if ns != [] {
      var n, rest := ns[0], ns[1..];
      assert ns == [n] + rest;
      WatchAppend([n], rest);
      WatchSingle(n);
      WatchIgnoresNonModified(rest);
      if n.kind == Modified {
        WatchAppend([n], OnlyModified(rest));
      } else {
        assert OnlyModified(ns) == OnlyModified(rest);
      }
    }
  }

  // ---------------------------------------------------------------------------
  // The loop

  /** The inner loop over one pod's container statuses: emit a report for each
      SIGKILLed container the heuristic recognises; a status without a state raises. */
  method ScanContainers(m: Metadata, css: seq<ContainerStatus>) returns (emitted: seq<Report>, fault: Option<Fault>)
    ensures Outcome(emitted, fault) == Chain(Steps(m, css))
  {
    emitted := [];
    var j := 0;
    while j < |css|
      invariant 0 <= j <= |css|
      invariant Chain(Steps(m, css[..j])) == Outcome(emitted, None)
    {
      var cs := css[j];
      assert css[..j + 1] == css[..j] + [cs];
      StepsAppend(m, css[..j], [cs]);
      ChainSnoc(Steps(m, css[..j]), StepOutcome(Classify(m, cs)));
      if cs.state.None? {
        fault := Some(MissingContainerState);
        assert css == css[..j + 1] + css[j + 1..];
        StepsAppend(m, css[..j + 1], css[j + 1..]);
        ChainFaultSticks(Steps(m, css[..j + 1]), Steps(m, css[j + 1..]));
        return;
      }
      var terminated := cs.state.value.terminated;
      if terminated.Some? && terminated.value.exitCode == SigKillExitCode {
        if terminated.value.reason == Some("OOMKilled") {
          emitted := emitted + [Report(cs.name, m.name, OOMKilled)];
        } else if terminated.value.reason == Some("Error") {
          if ForceDeleted(m) {
            emitted := emitted + [Report(cs.name, m.name, NonGracefulTermination)];
          }
        }
      }
      j := j + 1;
    }
    assert css[..j] == css;
    fault := None;
  }

  /** The watch loop: each MODIFIED notification has its pod's container statuses
      scanned and their reports emitted; an AttributeError ends the loop with its fault. */
  method Run(ns: seq<Notification>) returns (reports: seq<Report>, fault: Option<Fault>)
    ensures Outcome(reports, fault) == Watch(ns)
  {
    reports := [];
    var i := 0;
    while i < |ns|
      invariant 0 <= i <= |ns|
      invariant Watch(ns[..i]) == Outcome(reports, None)
    {
      var n := ns[i];
      assert ns[..i + 1] == ns[..i] + [n];
      WatchAppend(ns[..i], [n]);
      WatchSingle(n);
      if n.kind == Modified {
        if n.pod.status.None? {
          fault := Some(MissingPodStatus);
          FailedNotificationEndsWatch(ns, i);
          return;
        }
        var emitted, failed := ScanContainers(n.pod.metadata, ContainerStatusesOf(n.pod.status.value));
        if failed.Some? {
          reports, fault := reports + emitted, failed;
          FailedNotificationEndsWatch(ns, i);
          return;
        }
        reports := reports + emitted;
      }
      i := i + 1;
    }
    assert ns[..i] == ns;
    fault := None;
  }

  /** A notification that fails ends the stream's run with what was emitted up to
      and including it. */
  lemma FailedNotificationEndsWatch(ns: seq<Notification>, i: nat)
    requires i < |ns|
    requires Examine(ns[i]).fault.Some?
    ensures Watch(ns) == Then(Watch(ns[..i]), Examine(ns[i]))
  {
    assert ns[..i + 1] == ns[..i] + [ns[i]];
    assert ns == ns[..i + 1] + ns[i + 1..];
    WatchAppend(ns[..i], [ns[i]]);
    WatchSingle(ns[i]);
    WatchAppend(ns[..i + 1], ns[i + 1..]);
  }
}
