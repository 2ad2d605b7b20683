/**
 * The pod status deriver: the readiness column, the pod state and the
 * restart summary, computed from the init and regular container statuses.
 * The current instant `now` is a parameter.
 */
module PodData {
  import opened Common
  import opened Objects
  import opened Sorting
  import K8s

  datatype PodState =
    | Pending
    | ContainerCreating
    | PodInitializing
    | Running
    | Error
    | CrashLoopBackOff
    | Terminating
    | Unknown
    | Other(reason: string)

  /** The reason strings that have a variant of their own. */
  const KnownReasons: set<string> :=
    {"Pending", "ContainerCreating", "PodInitializing", "Running", "Error", "CrashLoopBackOff"}

  /**
   * `Display`: the text of the State column. `Unknown` shows nothing, `Other`
   * its own text, and every other state a name that reads back as that state.
   */
  function Display(s: PodState): (r: string)
    ensures s == Unknown ==> r == ""
    ensures s.Other? ==> r == s.reason
    ensures s == Terminating ==> r == "Terminating"
    ensures !s.Other? && s != Unknown && s != Terminating ==> r in KnownReasons
  {
    match s
    case Unknown => ""
    case ContainerCreating => "ContainerCreating"
    case PodInitializing => "PodInitializing"
    case Running => "Running"
    case Pending => "Pending"
    case Error => "Error"
    case CrashLoopBackOff => "CrashLoopBackOff"
    case Terminating => "Terminating"
    case Other(state) => state
  }

  /**
   * `From<&str>`: a known reason becomes its variant, any other text is kept
   * as `Other`. Displaying the result gives the reason back.
   */
  function FromReason(reason: string): (r: PodState)
    ensures Display(r) == reason
    ensures r.Other? <==> reason !in KnownReasons
    ensures r != Unknown && r != Terminating
  {
    if reason == "Pending" then Pending
    else if reason == "ContainerCreating" then ContainerCreating
    else if reason == "PodInitializing" then PodInitializing
    else if reason == "Running" then Running
    else if reason == "Error" then Error
    else if reason == "CrashLoopBackOff" then CrashLoopBackOff
    else Other(reason)
  }

  /** `From<Option<&str>>`: a missing reason is `Unknown`. */
  function FromOptReason(reason: Option<string>): (r: PodState)
    ensures r == Unknown <==> reason.None?
    ensures reason.Some? ==> Display(r) == reason.value
    ensures r != Terminating
  {
    match reason
    case Some(s) => FromReason(s)
    case None => Unknown
  }

  /** A state with a name of its own is read back from that name. */
  lemma DisplayRoundTrip(s: PodState)
    requires !s.Other? && s != Unknown && s != Terminating
    ensures FromReason(Display(s)) == s
  {
  }

  /** Different reasons give different states. */
  lemma FromReasonInjective(a: string, b: string)
    ensures FromReason(a) == FromReason(b) ==> a == b
  {
    if FromReason(a) == FromReason(b) {
      assert Display(FromReason(a)) == a && Display(FromReason(b)) == b;
    }
  }

  function IsReady(c: ContainerStatus): bool {
    c.ready
  }

  /** Number of ready containers in a list: the length of its ready sublist. */
  function CountReady(cs: seq<ContainerStatus>): (n: nat)
    ensures n == |Filter(cs, IsReady)|
    ensures n <= |cs|
    ensures n == |cs| <==> forall i :: 0 <= i < |cs| ==> cs[i].ready
  {
    if cs == [] then 0
    else
      var rest := CountReady(cs[1..]);
      assert forall i :: 1 <= i < |cs| ==> cs[i] == cs[1..][i - 1];
      rest + if cs[0].ready then 1 else 0
  }

  /** The numbers behind the Ready column. */
  datatype Readiness = Readiness(init: bool, ready: nat, total: nat)

  /**
   * While some init container is not ready, the count is over init
   * containers only; otherwise over the regular containers, if their list is
   * present.
   */
  function ReadyCounts(status: PodStatus): (r: Option<Readiness>)
    ensures r.Some? ==> r.value.ready <= r.value.total
    ensures r.Some? && r.value.init <==>
      status.initContainerStatuses.Some? &&
      exists i :: 0 <= i < |status.initContainerStatuses.value| && !status.initContainerStatuses.value[i].ready
    ensures r.Some? && r.value.init ==>
      r.value.total == |status.initContainerStatuses.value| && r.value.ready < r.value.total
    ensures r.Some? && !r.value.init ==>
      status.containerStatuses.Some? && r.value.total == |status.containerStatuses.value|
    ensures r.None? ==> status.containerStatuses.None?
    ensures r.Some? && r.value.init ==> r.value.ready == |Filter(status.initContainerStatuses.value, IsReady)|
    ensures r.Some? && !r.value.init ==> r.value.ready == |Filter(status.containerStatuses.value, IsReady)|
  {
    if status.initContainerStatuses.Some? &&
       CountReady(status.initContainerStatuses.value) != |status.initContainerStatuses.value|
    then
      var inits := status.initContainerStatuses.value;
      Some(Readiness(true, CountReady(inits), |inits|))
    else if status.containerStatuses.Some? then
      var cs := status.containerStatuses.value;
      Some(Readiness(false, CountReady(cs), |cs|))
    else
      None
  }

  function ReadyText(r: Readiness): string {
    (if r.init then "Init:" else "") + NatToString(r.ready) + "/" + NatToString(r.total)
  }

  /** `make_ready`: the Ready column, "Init:<ready>/<total>" or "<ready>/<total>". */
  function MakeReady(status: PodStatus): (r: Option<string>)
    ensures r.None? <==> ReadyCounts(status).None?
    ensures r.Some? ==> r.value == ReadyText(ReadyCounts(status).value)
  {
    match ReadyCounts(status)
    case Some(counts) => Some(ReadyText(counts))
    case None => None
  }

  /** `all_containers`: init statuses, then regular statuses, each in order. */
  function AllContainers(status: PodStatus): (r: seq<ContainerStatus>)
    ensures var inits := status.initContainerStatuses.GetOr([]);
      var regular := status.containerStatuses.GetOr([]);
      |r| == |inits| + |regular| &&
      (forall i :: 0 <= i < |inits| ==> r[i] == inits[i]) &&
      (forall i :: 0 <= i < |regular| ==> r[|inits| + i] == regular[i])
  {
    status.initContainerStatuses.GetOr([]) + status.containerStatuses.GetOr([])
  }

  /** The elements of `s` that satisfy `p`, in order. */
  function Filter<T(!new)>(s: seq<T>, p: T -> bool): (r: seq<T>)
    ensures |r| <= |s|
    ensures forall x :: x in r <==> x in s && p(x)
    ensures r == [] <==> forall i :: 0 <= i < |s| ==> !p(s[i])
  {
    if s == [] then []
    else
      var rest := Filter(s[1..], p);
      assert forall x :: x in s <==> x == s[0] || x in s[1..];
      if p(s[0]) then [s[0]] + rest else rest
  }

  /** Timestamps a container state records. */
  function StateTimes(s: Option<ContainerState>): set<int> {
    if s.None? then {}
    else
      (if s.value.running.Some? && s.value.running.value.startedAt.Some?
       then {s.value.running.value.startedAt.value} else {}) +
      (if s.value.terminated.Some? && s.value.terminated.value.finishedAt.Some?
       then {s.value.terminated.value.finishedAt.value} else {})
  }

  /** A state gives a time when it has a start time, is waiting, or has a finish time. */
  ghost predicate HasTime(s: Option<ContainerState>) {
    s.Some? &&
    ((s.value.running.Some? && s.value.running.value.startedAt.Some?) ||
     s.value.waiting.Some? ||
     (s.value.terminated.Some? && s.value.terminated.value.finishedAt.Some?))
  }

  /**
   * `LastChange` for a container state: the start time of a running
   * container, `now` for a waiting one, the finish time of a terminated one.
   */
  function StateLastChange(s: Option<ContainerState>, now: int): (r: Option<int>)
    ensures r.Some? <==> HasTime(s)
    ensures r.Some? ==> r.value == now || r.value in StateTimes(s)
    ensures s.Some? && s.value.running.Some? && s.value.running.value.startedAt.Some? ==>
      r == s.value.running.value.startedAt
    ensures (s.Some? && s.value.waiting.Some? &&
             (s.value.running.None? || s.value.running.value.startedAt.None?)) ==> r == Some(now)
    ensures (s.Some? && s.value.waiting.None? &&
             (s.value.running.None? || s.value.running.value.startedAt.None?) &&
             s.value.terminated.Some?) ==> r == s.value.terminated.value.finishedAt
  {
    match s
    case None => None
    case Some(st) =>
      if st.running.Some? && st.running.value.startedAt.Some? then st.running.value.startedAt
      else if st.waiting.Some? then Some(now)
      else if st.terminated.Some? && st.terminated.value.finishedAt.Some? then st.terminated.value.finishedAt
      else None
  }

  /** `LastChange` for a container status: its current state, else its last state. */
  function LastChange(c: ContainerStatus, now: int): (r: Option<int>)
    ensures r.Some? <==> HasTime(c.state) || HasTime(c.lastState)
    ensures r.Some? ==> r.value == now || r.value in StateTimes(c.state) + StateTimes(c.lastState)
    ensures HasTime(c.state) ==> r == StateLastChange(c.state, now)
    ensures !HasTime(c.state) ==> r == StateLastChange(c.lastState, now)
  {
    match StateLastChange(c.state, now)
    case Some(time) => Some(time)
    case None => StateLastChange(c.lastState, now)
  }

  /** A container together with its last change. */
  datatype Stamped = Stamped(time: int, container: ContainerStatus)

  /** `with_last_changed`: keep the containers that have a last change, paired with it. */
  function WithLastChanged(cs: seq<ContainerStatus>, now: int): (r: seq<Stamped>)
    ensures |r| <= |cs|
    ensures forall s :: s in r ==> s.container in cs && LastChange(s.container, now) == Some(s.time)
    ensures forall c :: c in cs && LastChange(c, now).Some? ==> Stamped(LastChange(c, now).value, c) in r
  {
    if cs == [] then []
    else
      var rest := WithLastChanged(cs[1..], now);
      assert forall c :: c in cs <==> c == cs[0] || c in cs[1..];
      match LastChange(cs[0], now)
      case Some(time) => [Stamped(time, cs[0])] + rest
      case None => rest
  }

  function ByTime(a: Stamped, b: Stamped): bool {
    a.time <= b.time
  }

  lemma ByTimeOrders()
    ensures Total(ByTime) && Transitive(ByTime)
  {
  }

  /**
   * The first element after sorting by last change: a container whose
   * change is the earliest.
   */
  function Earliest(candidates: seq<Stamped>): (e: Stamped)
    requires candidates != []
    ensures e in candidates
    ensures forall d :: d in candidates ==> e.time <= d.time
  {
    ByTimeOrders();
    SortByFirstIsLeast(candidates, ByTime);
    SortBy(candidates, ByTime)[0]
  }

  /**
   * Collects the candidates into a vector, sorts it in place by time and
   * takes its first element, as `make_state` and `make_restarts` do.
   */
  method FirstChanged(candidates: seq<Stamped>) returns (first: Option<Stamped>)
    ensures candidates == [] ==> first.None?
    ensures candidates != [] ==> first == Some(Earliest(candidates))
  {
    var sorted := new Stamped[|candidates|](i requires 0 <= i < |candidates| => candidates[i]);
    assert sorted[..] == candidates;
    SortInPlace(sorted, ByTime);
    if sorted.Length > 0 {
      first := Some(sorted[0]);
    } else {
      first := None;
    }
  }

  /** The reason a container gives: from its waiting state if any, else from its terminated state. */
  function ContainerReason(c: ContainerStatus): (r: Option<string>)
    ensures c.state.Some? && c.state.value.waiting.Some? ==> r == c.state.value.waiting.value.reason
    ensures c.state.Some? && c.state.value.waiting.None? && c.state.value.terminated.Some? ==>
      r == c.state.value.terminated.value.reason
    ensures r.Some? ==> c.state.Some? && (c.state.value.waiting.Some? || c.state.value.terminated.Some?)
  {
    if c.state.Some? && c.state.value.waiting.Some? then c.state.value.waiting.value.reason
    else if c.state.Some? && c.state.value.terminated.Some? then c.state.value.terminated.value.reason
    else None
  }

  function NotReady(c: ContainerStatus): bool {
    !c.ready
  }

  function Restarted(c: ContainerStatus): bool {
    c.restartCount > 0
  }

  /** The not-ready containers that have a last change, each with that change. */
  function NotReadyCandidates(status: PodStatus, now: int): (r: seq<Stamped>)
    ensures forall s :: s in r ==>
      s.container in AllContainers(status) && !s.container.ready && LastChange(s.container, now) == Some(s.time)
    ensures forall c :: c in AllContainers(status) && !c.ready && LastChange(c, now).Some? ==>
      Stamped(LastChange(c, now).value, c) in r
  {
    WithLastChanged(Filter(AllContainers(status), NotReady), now)
  }

  /**
   * `make_state`: the reason of the not-ready container that changed first,
   * else the pod phase.
   */
  function MakeState(status: PodStatus, now: int): (r: PodState)
    ensures r != Terminating
    ensures NotReadyCandidates(status, now) == [] ==> r == FromOptReason(status.phase)
  {
    var candidates := NotReadyCandidates(status, now);
    if candidates != [] && ContainerReason(Earliest(candidates).container).Some? then
      FromReason(ContainerReason(Earliest(candidates).container).value)
    else
      FromOptReason(status.phase)
  }

  /** `make_state` with its in-place sort. */
  method ComputeState(status: PodStatus, now: int) returns (r: PodState)
    ensures r == MakeState(status, now)
  {
    var first := FirstChanged(NotReadyCandidates(status, now));
    if first.Some? && ContainerReason(first.value.container).Some? {
      r := FromReason(ContainerReason(first.value.container).value);
    } else {
      r := FromOptReason(status.phase);
    }
  }

  /** The containers that restarted and have a last change, each with that change. */
  function RestartCandidates(status: PodStatus, now: int): (r: seq<Stamped>)
    ensures forall s :: s in r ==>
      s.container in AllContainers(status) && s.container.restartCount > 0 && LastChange(s.container, now) == Some(s.time)
    ensures forall c :: c in AllContainers(status) && c.restartCount > 0 && LastChange(c, now).Some? ==>
      Stamped(LastChange(c, now).value, c) in r
  {
    WithLastChanged(Filter(AllContainers(status), Restarted), now)
  }

  /** Finish time of the previous run of a container, if it terminated. */
  function LastFinished(c: ContainerStatus): Option<int> {
    if c.lastState.Some? && c.lastState.value.terminated.Some? then c.lastState.value.terminated.value.finishedAt
    else None
  }

  /**
   * The text of the Restarts column for one container: its restart count,
   * followed by the age of its previous termination when that age is known.
   */
  function RestartText(c: ContainerStatus, now: int, format: nat -> string): (r: string)
    ensures LastFinished(c).Some? && K8s.AgeSeconds(LastFinished(c).value, now).Some? ==>
      r == IntToString(c.restartCount) + " (" + format(K8s.AgeSeconds(LastFinished(c).value, now).value) + " ago)"
    ensures LastFinished(c).None? || K8s.AgeSeconds(LastFinished(c).value, now).None? ==>
      r == IntToString(c.restartCount)
  {
    var when := if LastFinished(c).Some? then K8s.Ago(LastFinished(c).value, now, format) else None;
    match when
    case Some(w) => IntToString(c.restartCount) + " (" + w + " ago)"
    case None => IntToString(c.restartCount)
  }

  /**
   * `make_restarts`: the restart count of the restarted container that
   * changed first, with the age of its previous termination when known.
   */
  function MakeRestarts(status: PodStatus, now: int, format: nat -> string): (r: Option<string>)
    ensures r.None? <==> RestartCandidates(status, now) == []
  {
    var candidates := RestartCandidates(status, now);
    if candidates == [] then None
    else Some(RestartText(Earliest(candidates).container, now, format))
  }

  /**
   * The derived state does not depend on how ties are broken: if every
   * not-ready container that changed at the earliest time gives the same
   * reason as `c`, the state is the one `c` gives.
   */
  lemma MakeStateTieFree(status: PodStatus, now: int, c: Stamped)
    requires c in NotReadyCandidates(status, now)
    requires forall d :: d in NotReadyCandidates(status, now) ==> c.time <= d.time
    requires forall d :: d in NotReadyCandidates(status, now) && d.time == c.time ==>
      ContainerReason(d.container) == ContainerReason(c.container)
    ensures MakeState(status, now) ==
      match ContainerReason(c.container)
      case Some(reason) => FromReason(reason)
      case None => FromOptReason(status.phase)
  {
    var e := Earliest(NotReadyCandidates(status, now));
    assert e.time == c.time;
  }

  /** A pod whose containers are all ready shows its phase. */
  lemma {:induction false} MakeStateAllReady(status: PodStatus, now: int)
    requires forall c :: c in AllContainers(status) ==> c.ready
    ensures MakeState(status, now) == FromOptReason(status.phase)
  {
    var all := AllContainers(status);
    assert forall i :: 0 <= i < |all| ==> !NotReady(all[i]) by {
      forall i | 0 <= i < |all| ensures !NotReady(all[i]) {
        assert all[i] in all;
      }
    }
  }

  /**
   * The restart summary does not depend on how ties are broken: if every
   * restarted container that changed at the earliest time has the same text
   * as `c`, the summary is `c`'s.
   */
  lemma MakeRestartsTieFree(status: PodStatus, now: int, format: nat -> string, c: Stamped)
    requires c in RestartCandidates(status, now)
    requires forall d :: d in RestartCandidates(status, now) ==> c.time <= d.time
    requires forall d :: d in RestartCandidates(status, now) && d.time == c.time ==>
      RestartText(d.container, now, format) == RestartText(c.container, now, format)
    ensures MakeRestarts(status, now, format) == Some(RestartText(c.container, now, format))
  {
    var e := Earliest(RestartCandidates(status, now));
    assert e.time == c.time;
  }

  /**
   * One init container waiting with reason "PodInitializing" while every
   * regular container is ready: the pod reads "Init:0/1" and its state is
   * `PodInitializing`.
   */
  lemma InitializingPod(init: ContainerStatus, regular: seq<ContainerStatus>, phase: Option<string>, now: int)
    requires !init.ready
    requires init.state == Some(ContainerState(None, None, Some(ContainerStateWaiting(Some("PodInitializing")))))
    requires forall c :: c in regular ==> c.ready
    ensures MakeReady(PodStatus(phase, Some([init]), Some(regular))) == Some("Init:0/1")
    ensures MakeState(PodStatus(phase, Some([init]), Some(regular)), now) == PodInitializing
  {
    var status := PodStatus(phase, Some([init]), Some(regular));
    assert CountReady([init]) == 0;
    assert ReadyText(Readiness(true, 0, 1)) == "Init:0/1";
    var candidates := NotReadyCandidates(status, now);
    assert [init] <= AllContainers(status);
    assert init in Filter(AllContainers(status), NotReady);
    assert Stamped(now, init) in candidates;
    var e := Earliest(candidates);
    assert e.container in Filter(AllContainers(status), NotReady);
    assert e.container == init;
  }

  /**
   * A single regular container that restarted 3 times, running again since
   * `started`, whose previous run finished 90 seconds before `now`: the
   * summary is "3 (<90 seconds, formatted> ago)".
   */
  lemma RestartedContainer(c: ContainerStatus, started: int, phase: Option<string>, now: int, format: nat -> string)
    requires c.restartCount == 3
    requires c.state == Some(ContainerState(Some(ContainerStateRunning(Some(started))), None, None))
    requires c.lastState == Some(ContainerState(None, Some(ContainerStateTerminated(None, Some(now - 90 * K8s.SECOND))), None))
    ensures MakeRestarts(PodStatus(phase, None, Some([c])), now, format) == Some("3 (" + format(90) + " ago)")
  {
    var status := PodStatus(phase, None, Some([c]));
    assert AllContainers(status) == [c];
    assert c in Filter(AllContainers(status), Restarted);
    assert Stamped(started, c) in RestartCandidates(status, now);
    var e := Earliest(RestartCandidates(status, now));
    assert e.container in Filter(AllContainers(status), Restarted);
    assert e.container == c;
    K8s.TruncateToSeconds(90 * K8s.SECOND);
    assert K8s.AgeSeconds(now - 90 * K8s.SECOND, now) == Some(90);
    assert K8s.Ago(now - 90 * K8s.SECOND, now, format) == Some(format(90));
    assert LastFinished(c) == Some(now - 90 * K8s.SECOND);
    assert IntToString(3) == "3";
    assert "3" + " (" == "3 (";
    assert RestartText(c, now, format) == "3" + " (" + format(90) + " ago)";
  }

  /** `make_restarts` with its in-place sort. */
  method ComputeRestarts(status: PodStatus, now: int, format: nat -> string) returns (r: Option<string>)
    ensures r == MakeRestarts(status, now, format)
  {
    var first := FirstChanged(RestartCandidates(status, now));
    if first.Some? {
      r := Some(RestartText(first.value.container, now, format));
    } else {
      r := None;
    }
  }
}
