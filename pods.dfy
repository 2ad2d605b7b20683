/**
 * The pod list: its table (sorted by name, one row per pod) and the 'k' key,
 * which asks for the selected pod to be killed.
 */
module Pods {
  import opened Common
  import opened Objects
  import opened Sorting
  import opened Widgets
  import opened Input
  import PodData
  import K8s

  /** Commands the pod list queues. */
  datatype Msg = KillPod(pod: Pod)

  const Header: seq<string> := ["Name", "Ready", "State", "Restarts", "Age"]

  function PodName(p: Pod): string {
    p.metadata.name
  }

  /** Pods are ordered by name. */
  function ByPodName(): (Pod, Pod) -> bool {
    ByName(PodName)
  }

  /** The state shown for a pod: `Terminating` once it has a deletion timestamp. */
  function PodStateOf(pod: Pod, now: int): (r: PodData.PodState)
    ensures r == PodData.Terminating <==> pod.metadata.deletionTimestamp.Some?
    ensures pod.metadata.deletionTimestamp.None? && pod.status.None? ==> r == PodData.Unknown
    ensures pod.metadata.deletionTimestamp.None? && pod.status.Some? ==> r == PodData.MakeState(pod.status.value, now)
  {
    if pod.metadata.deletionTimestamp.Some? then PodData.Terminating
    else
      match pod.status
      case Some(status) => PodData.MakeState(status, now)
      case None => PodData.Unknown
  }

  /** Only pending, failing and terminating pods get a background colour. */
  function RowStyle(state: PodData.PodState): (s: Style)
    ensures s != Plain <==> state in {PodData.Pending, PodData.Error, PodData.CrashLoopBackOff, PodData.Terminating}
    ensures s.bold <==> state == PodData.Error
  {
    match state
    case Pending => Style(Some(Rgb(128, 0, 128)), false)
    case Error => Style(Some(Rgb(128, 0, 0)), true)
    case CrashLoopBackOff => Style(Some(Rgb(128, 0, 0)), false)
    case Terminating => Style(Some(Rgb(128, 128, 0)), false)
    case _ => Plain
  }

  /** The ready cell: the readiness text, or empty without a status. */
  function ReadyCell(pod: Pod): (c: string)
    ensures pod.status.None? ==> c == ""
    ensures pod.status.Some? && PodData.MakeReady(pod.status.value).None? ==> c == ""
    ensures pod.status.Some? && PodData.MakeReady(pod.status.value).Some? ==> c == PodData.MakeReady(pod.status.value).value
  {
    if pod.status.Some? then PodData.MakeReady(pod.status.value).GetOr("") else ""
  }

  /** The restarts cell: "0" when no container has restarted or there is no status. */
  function RestartsCell(pod: Pod, now: int, format: nat -> string): (c: string)
    ensures pod.status.None? ==> c == "0"
    ensures pod.status.Some? && PodData.MakeRestarts(pod.status.value, now, format).None? ==> c == "0"
    ensures pod.status.Some? && PodData.MakeRestarts(pod.status.value, now, format).Some? ==>
      c == PodData.MakeRestarts(pod.status.value, now, format).value
  {
    if pod.status.Some? then PodData.MakeRestarts(pod.status.value, now, format).GetOr("0") else "0"
  }

  /** The age cell: empty without a creation timestamp or for a timestamp in the future. */
  function AgeCell(meta: ObjectMeta, now: int, format: nat -> string): (c: string)
    ensures meta.creationTimestamp.None? ==> c == ""
    ensures meta.creationTimestamp.Some? && K8s.NumSeconds(now - meta.creationTimestamp.value) < 0 ==> c == ""
    ensures meta.creationTimestamp.Some? && K8s.AgeSeconds(meta.creationTimestamp.value, now).Some? ==>
      c == format(K8s.AgeSeconds(meta.creationTimestamp.value, now).value)
  {
    if meta.creationTimestamp.Some? then K8s.Ago(meta.creationTimestamp.value, now, format).GetOr("") else ""
  }

  /** `make_row`: the five cells of a pod's row and its style. */
  function MakeRow(pod: Pod, now: int, format: nat -> string): (r: Row)
    ensures r.cells == [pod.metadata.name, ReadyCell(pod), PodData.Display(PodStateOf(pod, now)),
                        RestartsCell(pod, now, format), AgeCell(pod.metadata, now, format)]
    ensures |r.cells| == |Header| && r.style == RowStyle(PodStateOf(pod, now))
    ensures pod.metadata.deletionTimestamp.Some? ==>
      r.cells[2] == "Terminating" && r.style == Style(Some(Rgb(128, 128, 0)), false)
  {
    var state := PodStateOf(pod, now);
    Row([pod.metadata.name, ReadyCell(pod), PodData.Display(state), RestartsCell(pod, now, format),
         AgeCell(pod.metadata, now, format)], RowStyle(state))
  }

  function Rows(pods: seq<Pod>, now: int, format: nat -> string): (rows: seq<Row>)
    ensures |rows| == |pods|
    ensures forall i :: 0 <= i < |pods| ==> rows[i] == MakeRow(pods[i], now, format)
  {
    seq(|pods|, i requires 0 <= i < |pods| => MakeRow(pods[i], now, format))
  }

  /** The table `render_table` builds from a list of pods. */
  function PodsTable(pods: seq<Pod>, now: int, format: nat -> string): (t: Table)
    ensures t.title == "Pods" && t.header == Header && |t.rows| == |pods|
    ensures |SortBy(pods, ByPodName())| == |pods| &&
      forall i :: 0 <= i < |pods| ==> t.rows[i] == MakeRow(SortBy(pods, ByPodName())[i], now, format)
  {
    ByNameOrders(PodName);
    SortBySorted(pods, ByPodName());
    SortByPermutation(pods, ByPodName());
    Table("Pods", Header, Rows(SortBy(pods, ByPodName()), now, format))
  }

  /** `render_table`: sorts the given slice by name in place and builds the table. */
  method RenderTable(items: array<Pod>, now: int, format: nat -> string) returns (t: Table)
    modifies items
    ensures items[..] == SortBy(old(items[..]), ByPodName())
    ensures t == PodsTable(old(items[..]), now, format)
  {
    SortInPlace(items, ByPodName());
    t := Table("Pods", Header, Rows(items[..], now, format));
  }

  /**
   * The kill command for the selected row of the name-sorted pods, or none
   * when nothing is selected or the index is past the end.
   */
  function KillTarget(pods: seq<Pod>, selected: Option<nat>): (r: Option<Msg>)
    ensures r.Some? <==> selected.Some? && selected.value < |pods|
    ensures r.Some? ==> r.value.pod in pods
  {
    match SelectedOf(pods, ByPodName(), selected)
    case Some(pod) => Some(KillPod(pod))
    case None => None
  }

  /** `trigger_kill`: sorts a copy of the pods, so the caller's list is left as it was. */
  method TriggerKill(pods: seq<Pod>, selected: Option<nat>) returns (r: Option<Msg>)
    ensures r == KillTarget(pods, selected)
  {
    var pod := SortedCopyAt(pods, ByPodName(), selected);
    if pod.Some? {
      r := Some(KillPod(pod.value));
    } else {
      r := None;
    }
  }

  /** `on_key`: 'k' kills the selected pod; no other key has a command. */
  function OnKey(items: seq<Pod>, selected: Option<nat>, key: Key): (r: Option<Msg>)
    ensures key != Char('k') ==> r.None?
    ensures key == Char('k') ==> r == KillTarget(items, selected)
  {
    match key
    case Char('k') => KillTarget(items, selected)
    case _ => None
  }

  /**
   * The highlighted row is the pod that gets killed: whatever order the table
   * was sorted into, and however the store listed the pods, when the names
   * are different the pod at the selected row of the table is the one the
   * command names.
   */
  lemma HighlightedIsKilled(pods: seq<Pod>, shown: seq<Pod>, i: nat, now: int, format: nat -> string)
    requires forall a, b :: 0 <= a < b < |pods| ==> pods[a].metadata.name != pods[b].metadata.name
    requires multiset(shown) == multiset(pods) && Sorted(shown, ByPodName())
    requires i < |pods|
    ensures |shown| == |pods|
    ensures KillTarget(pods, Some(i)) == Some(KillPod(shown[i]))
    ensures PodsTable(pods, now, format).rows[i] == MakeRow(shown[i], now, format)
  {
    ByNameOrders(PodName);
    ByNameDistinct(pods, PodName);
    SelectedOfAnySorted(pods, shown, ByPodName(), i);
  }
}
