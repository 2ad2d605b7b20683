/**
 * The application: the current view, the global flags (log pane, help
 * screen) and the dispatch of key presses.
 */
module App {
  import opened Common
  import opened Input
  import opened AppStates

  datatype AppReturn = Exit | Continue

  /** The flags every view shares. */
  datatype Global = Global(logs: bool, help: bool)

  /**
   * Everything `do_action` reads and writes: the view, the flags, and the
   * number of watchers started so far (the next watcher's number).
   */
  datatype Snapshot = Snapshot(state: AppState, global: Global, started: nat)

  /** The result of one key press: the new snapshot, the return value and the key handed to a watcher, if any. */
  datatype Outcome = Outcome(after: Snapshot, ret: AppReturn, delivered: Option<Delivery>)

  /** The view's watcher, if any, was started before the snapshot's count. */
  predicate Started(s: Snapshot) {
    !s.state.Initializing? ==> s.state.watcher < s.started
  }

  /** `prev` and `next`: the other list kind, with a new watcher; `Initializing` stays. */
  function Swap(s: Snapshot): (r: Snapshot)
    ensures r.global == s.global
    ensures s.state.Initializing? ==> r == s
    ensures s.state.Pods? ==> r.state == Deployments(s.started) && r.started == s.started + 1
    ensures s.state.Deployments? ==> r.state == Pods(s.started) && r.started == s.started + 1
    ensures Started(s) ==> Started(r)
  {
    match s.state
    case Initializing => s
    case Pods(_) => Snapshot(Deployments(s.started), s.global, s.started + 1)
    case Deployments(_) => Snapshot(Pods(s.started), s.global, s.started + 1)
  }

  /** `do_action`: what one key press does. */
  function Action(s: Snapshot, key: Key): (o: Outcome)
    ensures o.ret == Exit <==> key == Ctrl('c') || key == Char('q') || (key == Esc && !s.global.help)
    ensures o.ret == Exit ==> o.after == s
    ensures o.delivered.Some? ==> o.after == s && o.delivered == AppStates.OnKey(s.state, key)
    ensures Started(s) ==> Started(o.after)
  {
    match key
    case Ctrl('c') => Outcome(s, Exit, None)
    case Char('q') => Outcome(s, Exit, None)
    case Esc =>
      if s.global.help then Outcome(s.(global := s.global.(help := false)), Continue, None)
      else Outcome(s, Exit, None)
    case Char('d') => Outcome(Snapshot(Deployments(s.started), s.global, s.started + 1), Continue, None)
    case Char('p') => Outcome(Snapshot(Pods(s.started), s.global, s.started + 1), Continue, None)
    case Char('l') => Outcome(s.(global := s.global.(logs := !s.global.logs)), Continue, None)
    case Char('h') => Outcome(s.(global := s.global.(help := !s.global.help)), Continue, None)
    case Char('?') => Outcome(s.(global := s.global.(help := !s.global.help)), Continue, None)
    case Left => Outcome(Swap(s), Continue, None)
    case Right => Outcome(Swap(s), Continue, None)
    case _ => Outcome(s, Continue, AppStates.OnKey(s.state, key))
  }

  /** Keys the application handles itself; every other key goes to the view. */
  predicate Handled(key: Key) {
    key in {Ctrl('c'), Char('q'), Esc, Char('d'), Char('p'), Char('l'), Char('h'), Char('?'), Left, Right}
  }

  class App {
    var state: AppState
    var global: Global
    /** Watchers started so far. */
    var started: nat
    /** The keys handed to watchers, oldest first. */
    var delivered: seq<Delivery>

    function Snap(): Snapshot
      reads this
    {
      Snapshot(state, global, started)
    }

    ghost predicate Valid()
      reads this
    {
      Started(Snap())
    }

    /** `App::new`: starts in the pod view with a new watcher, logs and help off. */
    constructor ()
      ensures state == Pods(0) && started == 1
      ensures global == Global(false, false) && delivered == []
      ensures Valid()
    {
      state := Pods(0);
      global := Global(false, false);
      started := 1;
      delivered := [];
    }

    /** `prev`. */
    method Prev()
      requires Valid()
      modifies this
      ensures Valid()
      ensures Snap() == Swap(old(Snap())) && delivered == old(delivered)
    {
      match state
      case Initializing =>
      case Pods(_) =>
        state := Deployments(started);
        started := started + 1;
      case Deployments(_) =>
        state := Pods(started);
        started := started + 1;
    }

    /** `next`: the same swap as `prev`, there being two list kinds. */
    method Next()
      requires Valid()
      modifies this
      ensures Valid()
      ensures Snap() == Swap(old(Snap())) && delivered == old(delivered)
    {
      match state
      case Initializing =>
      case Pods(_) =>
        state := Deployments(started);
        started := started + 1;
      case Deployments(_) =>
        state := Pods(started);
        started := started + 1;
    }

    /** `do_action`. */
    method DoAction(key: Key) returns (ret: AppReturn)
      requires Valid()
      modifies this
      ensures Valid()
      ensures Snap() == Action(old(Snap()), key).after && ret == Action(old(Snap()), key).ret
      ensures delivered == old(delivered) +
        (if Action(old(Snap()), key).delivered.Some? then [Action(old(Snap()), key).delivered.value] else [])
    {
      ret := Continue;
      match key {
        case Ctrl('c') => ret := Exit;
        case Char('q') => ret := Exit;
        case Esc =>
          if global.help {
            global := global.(help := false);
          } else {
            ret := Exit;
          }
        case Char('d') =>
          state := Deployments(started);
          started := started + 1;
        case Char('p') =>
          state := Pods(started);
          started := started + 1;
        case Char('l') => global := global.(logs := !global.logs);
        case Char('h') => global := global.(help := !global.help);
        case Char('?') => global := global.(help := !global.help);
        case Left => Prev();
        case Right => Next();
        case _ =>
          var d := AppStates.OnKey(state, key);
          if d.Some? {
            delivered := delivered + [d.value];
          }
      }
    }
  }

  /** Every key the application does not handle is handed to the view and the application continues. */
  lemma UnhandledKeysForwarded(s: Snapshot, key: Key)
    requires !Handled(key)
    ensures Action(s, key) == Outcome(s, Continue, AppStates.OnKey(s.state, key))
  {
  }

  /** 'l', 'h' and '?' toggle their flag: pressing the key twice restores the snapshot. */
  lemma TogglesTwice(s: Snapshot, key: Key)
    requires key in {Char('l'), Char('h'), Char('?')}
    ensures Action(s, key).after.state == s.state && Action(s, key).after.started == s.started
    ensures Action(Action(s, key).after, key).after == s
    ensures key == Char('l') ==> Action(s, key).after.global == s.global.(logs := !s.global.logs)
    ensures key != Char('l') ==> Action(s, key).after.global == s.global.(help := !s.global.help)
  {
  }

  /** 'd' and 'p' start a new watcher, even when the view already shows that kind. */
  lemma ChoosingStartsWatcher(s: Snapshot, key: Key)
    requires Started(s) && key in {Char('d'), Char('p')}
    ensures var t := Action(s, key).after.state;
      !t.Initializing? && t.watcher == s.started && (s.state.Initializing? || t.watcher != s.state.watcher)
    ensures key == Char('d') <==> Action(s, key).after.state.Deployments?
  {
  }

  /**
   * Left and Right swap the two list views with a new watcher each time, and
   * keep `Initializing`; two presses return to the kind shown first.
   */
  lemma SwapTwice(s: Snapshot, first: Key, second: Key)
    requires Started(s) && first in {Left, Right} && second in {Left, Right}
    ensures var t := Action(Action(s, first).after, second).after;
      t.global == s.global &&
      (s.state.Initializing? ==> t == s) &&
      (s.state.Pods? ==> t.state == Pods(s.started + 1)) &&
      (s.state.Deployments? ==> t.state == Deployments(s.started + 1))
    ensures !s.state.Initializing? ==> Action(s, first).after.state.Pods? != s.state.Pods?
  {
  }

  /** Esc closes the help screen and continues; with no help screen it exits. */
  lemma EscClosesHelp(s: Snapshot)
    ensures s.global.help ==> Action(s, Esc) == Outcome(s.(global := s.global.(help := false)), Continue, None)
    ensures !s.global.help ==> Action(s, Esc).ret == Exit
  {
  }
}
