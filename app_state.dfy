/**
 * Which view the application shows. A list view is identified by the watcher
 * serving it; watchers are numbered in the order they are created, so a new
 * number stands for a freshly started watcher.
 */
module AppStates {
  import opened Common
  import opened Input

  datatype AppState = Initializing | Pods(watcher: nat) | Deployments(watcher: nat)

  /** A watcher of one of the two kinds. */
  datatype Watcher = PodWatcher(id: nat) | DeploymentWatcher(id: nat)

  /** A key handed to a watcher's `on_key`. */
  datatype Delivery = Delivery(to: Watcher, key: Key)

  /** `AppState::default()`: nothing is shown before the first view is chosen. */
  function Default(): (s: AppState)
    ensures RenderTarget(s).None?
  {
    Initializing
  }

  /** `render`: the watcher that draws the view; `Initializing` draws nothing. */
  function RenderTarget(s: AppState): (w: Option<Watcher>)
    ensures w.None? <==> s.Initializing?
    ensures s.Pods? ==> w == Some(PodWatcher(s.watcher))
    ensures s.Deployments? ==> w == Some(DeploymentWatcher(s.watcher))
  {
    match s
    case Pods(id) => Some(PodWatcher(id))
    case Deployments(id) => Some(DeploymentWatcher(id))
    case _ => None
  }

  /** `on_key`: the watcher that gets the key; keys are ignored while `Initializing`. */
  function OnKey(s: AppState, key: Key): (d: Option<Delivery>)
    ensures d.None? <==> s.Initializing?
    ensures d.Some? ==> d.value.key == key
  {
    match s
    case Pods(id) => Some(Delivery(PodWatcher(id), key))
    case Deployments(id) => Some(Delivery(DeploymentWatcher(id), key))
    case _ => None
  }

  /**
   * Keys reach exactly the watcher on screen: the pod watcher in the pod
   * view, the deployment watcher in the deployment view, and no watcher
   * otherwise.
   */
  lemma KeysReachShownWatcher(s: AppState, key: Key)
    ensures OnKey(s, key).Some? <==> RenderTarget(s).Some?
    ensures OnKey(s, key).Some? ==> OnKey(s, key).value.to == RenderTarget(s).value
    ensures s.Pods? ==> OnKey(s, key).value.to.PodWatcher?
    ensures s.Deployments? ==> OnKey(s, key).value.to.DeploymentWatcher?
  {
  }
}
