/**
 * The deployment list: its table (sorted by name) and the 'r' key, which asks
 * for a rollout restart of the selected deployment.
 */
module Deployments {
  import opened Common
  import opened Objects
  import opened Sorting
  import opened Widgets
  import opened Input
  import Pods
  import K8s

  /** Commands the deployment list queues. */
  datatype Msg = Restart(deployment: Deployment)

  const Header: seq<string> := ["Name", "Ready", "Updated", "Available", "Age"]

  function DeploymentName(d: Deployment): string {
    d.metadata.name
  }

  function ByDeploymentName(): (Deployment, Deployment) -> bool {
    ByName(DeploymentName)
  }

  /**
   * The Ready, Updated and Available cells: "ready/replicas" and the two
   * counts, a missing count read as 0; all three empty without a status.
   */
  function Counts(status: Option<DeploymentStatus>): (c: (string, string, string))
    ensures status.None? ==> c == ("", "", "")
    ensures status.Some? ==>
      c.0 == IntToString(status.value.readyReplicas.GetOr(0)) + "/" + IntToString(status.value.replicas.GetOr(0))
    ensures status.Some? ==> c.1 == IntToString(status.value.updatedReplicas.GetOr(0)) && c.1 != ""
    ensures status.Some? ==> c.2 == IntToString(status.value.availableReplicas.GetOr(0)) && c.2 != ""
  {
    match status
    case None => ("", "", "")
    case Some(s) =>
      (IntToString(s.readyReplicas.GetOr(0)) + "/" + IntToString(s.replicas.GetOr(0)),
       IntToString(s.updatedReplicas.GetOr(0)),
       IntToString(s.availableReplicas.GetOr(0)))
  }

  /** `make_row`: five cells and the default style for every deployment. */
  function MakeRow(d: Deployment, now: int, format: nat -> string): (r: Row)
    ensures |r.cells| == |Header| && r.cells[0] == d.metadata.name
    ensures r.style == Plain
    ensures r.cells[1] == "" <==> d.status.None?
    ensures (r.cells[1], r.cells[2], r.cells[3]) == Counts(d.status)
    ensures r.cells[4] == Pods.AgeCell(d.metadata, now, format)
  {
    var (ready, updated, available) := Counts(d.status);
    assert d.status.Some? ==> |ready| > 0 by {
      if d.status.Some? {
        assert |ready| >= |"/"|;
      }
    }
    Row([d.metadata.name, ready, updated, available, Pods.AgeCell(d.metadata, now, format)], Plain)
  }

  function Rows(ds: seq<Deployment>, now: int, format: nat -> string): (rows: seq<Row>)
    ensures |rows| == |ds|
    ensures forall i :: 0 <= i < |ds| ==> rows[i] == MakeRow(ds[i], now, format)
  {
    seq(|ds|, i requires 0 <= i < |ds| => MakeRow(ds[i], now, format))
  }

  /** The table `render_table` builds; its title reads "Pods", as in the source. */
  function DeploymentsTable(ds: seq<Deployment>, now: int, format: nat -> string): (t: Table)
    ensures t.title == "Pods" && t.header == Header && |t.rows| == |ds|
    ensures |SortBy(ds, ByDeploymentName())| == |ds| &&
      forall i :: 0 <= i < |ds| ==> t.rows[i] == MakeRow(SortBy(ds, ByDeploymentName())[i], now, format)
  {
    SortByPermutation(ds, ByDeploymentName());
    Table("Pods", Header, Rows(SortBy(ds, ByDeploymentName()), now, format))
  }

  /** `render_table`: sorts the given slice by name in place and builds the table. */
  method RenderTable(items: array<Deployment>, now: int, format: nat -> string) returns (t: Table)
    modifies items
    ensures items[..] == SortBy(old(items[..]), ByDeploymentName())
    ensures t == DeploymentsTable(old(items[..]), now, format)
  {
    SortInPlace(items, ByDeploymentName());
    t := Table("Pods", Header, Rows(items[..], now, format));
  }

  /** The restart command for the selected row of the name-sorted deployments. */
  function RestartTarget(ds: seq<Deployment>, selected: Option<nat>): (r: Option<Msg>)
    ensures r.Some? <==> selected.Some? && selected.value < |ds|
    ensures r.Some? ==> r.value.deployment in ds
  {
    match SelectedOf(ds, ByDeploymentName(), selected)
    case Some(d) => Some(Restart(d))
    case None => None
  }

  /** `trigger_restart`: sorts a copy, so the caller's list is left as it was. */
  method TriggerRestart(ds: seq<Deployment>, selected: Option<nat>) returns (r: Option<Msg>)
    ensures r == RestartTarget(ds, selected)
  {
    var d := SortedCopyAt(ds, ByDeploymentName(), selected);
    if d.Some? {
      r := Some(Restart(d.value));
    } else {
      r := None;
    }
  }

  /** `on_key`: 'r' restarts the selected deployment; no other key has a command. */
  function OnKey(items: seq<Deployment>, selected: Option<nat>, key: Key): (r: Option<Msg>)
    ensures key != Char('r') ==> r.None?
    ensures key == Char('r') ==> r == RestartTarget(items, selected)
  {
    match key
    case Char('r') => RestartTarget(items, selected)
    case _ => None
  }

  /** With different names, the highlighted row is the deployment that gets restarted. */
  lemma HighlightedIsRestarted(ds: seq<Deployment>, shown: seq<Deployment>, i: nat, now: int, format: nat -> string)
    requires forall a, b :: 0 <= a < b < |ds| ==> ds[a].metadata.name != ds[b].metadata.name
    requires multiset(shown) == multiset(ds) && Sorted(shown, ByDeploymentName())
    requires i < |ds|
    ensures |shown| == |ds|
    ensures RestartTarget(ds, Some(i)) == Some(Restart(shown[i]))
    ensures DeploymentsTable(ds, now, format).rows[i] == MakeRow(shown[i], now, format)
  {
    ByNameOrders(DeploymentName);
    ByNameDistinct(ds, DeploymentName);
    SelectedOfAnySorted(ds, shown, ByDeploymentName(), i);
  }
}
