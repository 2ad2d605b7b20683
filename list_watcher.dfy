/**
 * The generic list view: the shared watcher state (loading, a list with its
 * selection, or an error), rendering it, routing keys into the bounded
 * command queue, the reconnect loop that keeps the state up to date, and the
 * receiver that processes queued commands.
 */
module ListWatch {
  import opened Common
  import opened Input
  import opened Paging
  import opened Widgets

  /** The capacity of the command channel a new watcher opens. */
  const Capacity: nat := 10

  /** The error a watch stream that ended shows. */
  const StreamClosed: string := "Stream closed"

  /**
   * The watcher state. `items` is what the store holds at the moment; the
   * store is updated by the reflector, outside this model.
   */
  datatype State<R> = Loading | List(items: seq<R>, table: TableState) | Error(cause: string)

  /** What the render step hands to the terminal. */
  datatype Frame = Stateless(table: Table) | Stateful(table: Table, selected: Option<nat>) | ErrorBox(text: string)

  /** `try_send` on the bounded channel: the message is dropped when the queue is full. */
  function Offer<M>(queue: seq<M>, msg: Option<M>): (q: seq<M>)
    ensures |queue| <= Capacity ==> |q| <= Capacity
    ensures |queue| <= |q| <= |queue| + 1 && q[..|queue|] == queue
    ensures |q| == |queue| + 1 <==> msg.Some? && |queue| < Capacity
    ensures |q| == |queue| + 1 ==> q[|queue|] == msg.value
  {
    if msg.Some? && |queue| < Capacity then queue + [msg.value] else queue
  }

  /** The part of a watcher the UI thread and the runner share. */
  class Context<R, M> {
    var state: State<R>
    /** Commands sent and not yet received, oldest first. */
    var queue: seq<M>

    ghost predicate Valid()
      reads this
    {
      |queue| <= Capacity
    }

    /** `ListWatcher::new`: starts loading, with an empty command channel. */
    constructor ()
      ensures state == Loading && queue == []
      ensures Valid()
    {
      state := Loading;
      queue := [];
    }

    /**
     * `render`: draws the state. A list is drawn with its selection; an
     * unselected non-empty list gets its first row selected first.
     */
    method Render(renderTable: seq<R> -> Table) returns (f: Frame)
      modifies if state.List? then {state.table} else {}
      ensures state == old(state)
      ensures state.Loading? ==> f == Stateless(renderTable([]))
      ensures state.Error? ==> f == ErrorBox(state.cause)
      ensures state.List? ==>
        state.table.selected ==
          (if old(state.table.selected).None? && |state.items| > 0 then Some(0) else old(state.table.selected))
      ensures state.List? ==> f == Stateful(renderTable(state.items), state.table.selected)
    {
      match state
      case Loading =>
        f := Stateless(renderTable([]));
      case List(items, table) =>
        var t := renderTable(items);
        if table.selected.None? && |items| > 0 {
          table.Select(Some(0));
        }
        f := Stateful(t, table.selected);
      case Error(cause) =>
        f := ErrorBox(cause);
    }

    /** `try_send`: reports whether the message was queued. */
    method TrySend(msg: M) returns (sent: bool)
      requires Valid()
      modifies this
      ensures Valid() && state == old(state)
      ensures queue == Offer(old(queue), Some(msg))
      ensures sent <==> |old(queue)| < Capacity
    {
      if |queue| < Capacity {
        queue := queue + [msg];
        sent := true;
      } else {
        sent := false;
      }
    }

    /**
     * `on_key`: in a list, Down and Up page the selection over the current
     * items; any other key asks the kind for a command and sends it, if there
     * is one. Outside a list keys do nothing.
     */
    method OnKey(key: Key, increment: nat, kindOnKey: (seq<R>, Option<nat>, Key) -> Option<M>)
      requires Valid()
      modifies this, if state.List? then {state.table} else {}
      ensures Valid() && state == old(state)
      ensures !state.List? ==> queue == old(queue)
      ensures state.List? && key == Down ==>
        queue == old(queue) && state.table.selected == NextSelection(old(state.table.selected), |state.items|, increment)
      ensures state.List? && key == Up ==>
        queue == old(queue) && state.table.selected == PrevSelection(old(state.table.selected), |state.items|, increment)
      ensures state.List? && key != Down && key != Up ==>
        state.table.selected == old(state.table.selected) &&
        queue == Offer(old(queue), kindOnKey(state.items, state.table.selected, key))
    {
      match state
      case List(items, table) =>
        match key {
          case Down => table.Next(|items|, increment);
          case Up => table.Prev(|items|, increment);
          case _ =>
            var msg := kindOnKey(items, table.selected, key);
            if msg.Some? {
              var _ := TrySend(msg.value);
            }
        }
      case _ =>
    }

    /** `recv`: takes the oldest queued command, if any. */
    method Recv() returns (msg: Option<M>)
      requires Valid()
      modifies this
      ensures Valid() && state == old(state)
      ensures old(queue) == [] ==> msg.None? && queue == []
      ensures old(queue) != [] ==> msg == Some(old(queue)[0]) && queue == old(queue)[1..]
    {
      if queue == [] {
        msg := None;
      } else {
        msg := Some(queue[0]);
        queue := queue[1..];
      }
    }

    /**
     * The receiver loop: hands the queued commands to processing one at a
     * time, oldest first, until the queue is empty.
     */
    method Drain() returns (processed: seq<M>)
      requires Valid()
      modifies this
      ensures Valid() && state == old(state)
      ensures processed == old(queue) && queue == []
    {
      processed := [];
      var msg := Recv();
      while msg.Some?
        invariant Valid() && state == old(state)
        invariant msg.Some? ==> processed + [msg.value] + queue == old(queue)
        invariant msg.None? ==> processed == old(queue) && queue == []
        decreases |queue|, msg.Some?
      {
        processed := processed + [msg.value];
        msg := Recv();
      }
    }

    /**
     * `Runner::run`: the reconnect loop, over the attempts to build a
     * reflector. Before the first attempt the state is `Loading`; a built
     * reflector shows its store, with a fresh unselected table, and every
     * store update after it; a failed build, a watch error or a closed
     * stream shows that error while the next attempt is made. The source
     * loops forever: the model stops when the attempts run out or a stream
     * stays open. `views` lists every state written, in order.
     */
    method Run(attempts: seq<Attempt<R>>) returns (views: seq<View<R>>)
      modifies this
      ensures views == Views(attempts)
      ensures views != [] && ViewOf(state) == views[|views| - 1]
      ensures queue == old(queue)
      ensures state.List? ==> fresh(state.table) && state.table.selected == None
    {
      var reflector: Option<Reflector<R>> := None;
      var next := 0;
      views := [];
      var running := true;
      assert attempts[next..] == attempts;
      // What the loop has still to show.
      ghost var todo := Pending(reflector, attempts[next..]);
      while running
        invariant 0 <= next <= |attempts|
        invariant queue == old(queue)
        invariant reflector.None? ==> next == 0
        invariant views != [] ==> ViewOf(state) == views[|views| - 1]
        invariant views != [] && state.List? ==> fresh(state.table) && state.table.selected == None
        invariant running ==> todo == Pending(reflector, attempts[next..])
        invariant running ==> views + todo == Views(attempts)
        invariant !running ==> views == Views(attempts)
        decreases running, Measure(reflector, |attempts| - next)
      {
        var shown;
        ghost var after;
        shown, reflector, next, running, after := Step(attempts, reflector, next, todo);
        LastOfAppend(views, shown);
        if running {
          Regroup(views, shown, after);
        }
        views := views + shown;
        todo := after;
      }
    }

    /**
     * One pass of the reconnect loop, by the value of `reflector`: show
     * `Loading` and build (first pass only), show the error and rebuild, or
     * show the store and follow its stream. `shown` lists the states
     * written; `running` is false when nothing more is shown.
     */
    method Step(attempts: seq<Attempt<R>>, reflector: Option<Reflector<R>>, next: nat, ghost todo: seq<View<R>>)
      returns (shown: seq<View<R>>, reflector': Option<Reflector<R>>, next': nat, running: bool, ghost todo': seq<View<R>>)
      requires next <= |attempts| && (reflector.None? ==> next == 0)
      requires todo == Pending(reflector, attempts[next..])
      modifies this
      ensures next <= next' <= |attempts| && reflector'.Some? && shown != []
      ensures ViewOf(state) == shown[|shown| - 1] && queue == old(queue)
      ensures state.List? ==> fresh(state.table) && state.table.selected == None
      ensures running ==> todo' == Pending(reflector', attempts[next'..]) && shown + todo' == todo
      ensures running ==> Measure(reflector', |attempts| - next') < Measure(reflector, |attempts| - next)
      ensures !running ==> shown == todo
    {
      next' := next;
      reflector' := reflector;
      running := true;
      match reflector {
      case None =>
        state := Loading;
        shown := [ViewLoading];
        StartStep(attempts, next);
        if next < |attempts| {
          reflector' := Some(Build(attempts[next]));
          next' := next + 1;
        } else {
          reflector' := Some(Err(""));
          running := false;
        }
      case Some(Err(cause)) =>
        state := Error(cause);
        shown := [ViewError(cause)];
        ErrorStep(cause, attempts, next);
        if next < |attempts| {
          reflector' := Some(Build(attempts[next]));
          next' := next + 1;
        } else {
          running := false;
        }
      case Some(Ok(session)) =>
        shown := Watch(session);
        match session.end {
          case None =>
            running := false;
          case Some(end) =>
            reflector' := Some(Err(EndCause(end)));
        }
      }
      todo' := Pending(reflector', attempts[next'..]);
    }

    /**
     * Sets the store of a built reflector and follows its stream: each
     * update changes the listed items and keeps the selection; the loop
     * ends with the stream.
     */
    method Watch(session: Session<R>) returns (shown: seq<View<R>>)
      modifies this
      ensures shown == SessionViews(session) && ViewOf(state) == shown[|shown| - 1]
      ensures state.List? && fresh(state.table) && state.table.selected == None
      ensures queue == old(queue)
    {
      var table := new TableState();
      var items := session.initial;
      state := List(items, table);
      shown := [ViewList(items)];
      var j := 0;
      while j < |session.updates|
        invariant 0 <= j <= |session.updates|
        invariant shown == [ViewList(session.initial)] + UpdateViews(session.updates[..j])
        invariant state == List(items, table) && shown[|shown| - 1] == ViewList(items)
        invariant table.selected == None && queue == old(queue)
      {
        items := session.updates[j];
        state := List(items, table);
        UpdateViewsPrefix(session.updates, j);
        shown := shown + [ViewList(items)];
        j := j + 1;
      }
      assert session.updates[..j] == session.updates;
    }
  }

  /** How a watch stream ended: with an error event, or by closing. */
  datatype StreamEnd = WatchError(cause: string) | Closed

  /**
   * One built reflector: the store's contents when it was set, after each
   * successful stream event, and how the stream ended (`None`: it is still
   * open).
   */
  datatype Session<R> = Session(initial: seq<R>, updates: seq<seq<R>>, end: Option<StreamEnd>)

  /** The outcome of one `Reflector::new`. */
  datatype Attempt<R> = Built(session: Session<R>) | BuildFailed(cause: string)

  /** The runner's `reflector` variable once it is set. */
  datatype Reflector<R> = Ok(session: Session<R>) | Err(cause: string)

  /** A state as the UI sees it, without the selection. */
  datatype View<R> = ViewLoading | ViewList(items: seq<R>) | ViewError(cause: string)

  function ViewOf<R>(s: State<R>): View<R> {
    match s
    case Loading => ViewLoading
    case List(items, _) => ViewList(items)
    case Error(cause) => ViewError(cause)
  }

  function Build<R>(a: Attempt<R>): Reflector<R> {
    match a
    case Built(session) => Ok(session)
    case BuildFailed(cause) => Err(cause)
  }

  function EndCause(end: StreamEnd): string {
    match end
    case WatchError(cause) => cause
    case Closed => StreamClosed
  }

  /** The list states the store updates show, one per update. */
  function UpdateViews<R>(updates: seq<seq<R>>): (vs: seq<View<R>>)
    ensures |vs| == |updates|
    decreases |updates|
  {
    if updates == [] then [] else [ViewList(updates[0])] + UpdateViews(updates[1..])
  }

  /** One more update shows one more list state, at the end. */
  lemma UpdateViewsPrefix<R>(updates: seq<seq<R>>, j: nat)
    requires j < |updates|
    ensures UpdateViews(updates[..j + 1]) == UpdateViews(updates[..j]) + [ViewList(updates[j])]
  {
    assert updates[..j + 1] == updates[..j] + [updates[j]];
    UpdateViewsAppend(updates[..j], updates[j]);
  }

  lemma {:induction false} UpdateViewsAppend<R>(updates: seq<seq<R>>, u: seq<R>)
    ensures UpdateViews(updates + [u]) == UpdateViews(updates) + [ViewList(u)]
    decreases |updates|
  {
    if updates == [] {
      assert updates + [u] == [u];
    } else {
      assert (updates + [u])[1..] == updates[1..] + [u];
      UpdateViewsAppend(updates[1..], u);
    }
  }

  /** The states a session shows: its store, then each update. */
  function SessionViews<R>(s: Session<R>): seq<View<R>> {
    [ViewList(s.initial)] + UpdateViews(s.updates)
  }

  /** Whether the runner goes on to another attempt after this one. */
  predicate Continues<R>(a: Attempt<R>) {
    a.BuildFailed? || a.session.end.Some?
  }

  /** The cause the next iteration shows after an attempt that continues. */
  function FailureOf<R>(a: Attempt<R>): string
    requires Continues(a)
  {
    if a.BuildFailed? then a.cause else EndCause(a.session.end.value)
  }

  /**
   * The states the runner shows over a sequence of attempts, after the first
   * `Loading`: a session's states, and the error of each attempt that ends.
   */
  function AttemptsViews<R>(attempts: seq<Attempt<R>>): seq<View<R>>
    decreases |attempts|
  {
    if attempts == [] then []
    else
      var a := attempts[0];
      (if a.Built? then SessionViews(a.session) else []) +
      (if Continues(a) then [ViewError(FailureOf(a))] + AttemptsViews(attempts[1..]) else [])
  }

  /** Every state the runner writes, in order. */
  function Views<R>(attempts: seq<Attempt<R>>): seq<View<R>> {
    [ViewLoading] + AttemptsViews(attempts)
  }

  /**
   * The run starts with `Loading`, then shows the first attempt's store or
   * its build error; with no attempt it shows only `Loading`.
   */
  lemma ViewsStart<R>(attempts: seq<Attempt<R>>)
    ensures Views(attempts) != [] && Views(attempts)[0] == ViewLoading
    ensures attempts == [] ==> Views(attempts) == [ViewLoading]
    ensures attempts != [] && attempts[0].BuildFailed? ==>
      |Views(attempts)| >= 2 && Views(attempts)[1] == ViewError(attempts[0].cause)
    ensures attempts != [] && attempts[0].Built? ==>
      |Views(attempts)| >= 2 && Views(attempts)[1] == ViewList(attempts[0].session.initial)
  {
  }

  /** What the loop still has to show, given the `reflector` variable and the attempts not yet made. */
  function Pending<R>(reflector: Option<Reflector<R>>, rest: seq<Attempt<R>>): seq<View<R>> {
    match reflector
    case None => Views(rest)
    case Some(Err(cause)) => [ViewError(cause)] + AttemptsViews(rest)
    case Some(Ok(session)) =>
      SessionViews(session) +
      (if session.end.Some? then [ViewError(EndCause(session.end.value))] + AttemptsViews(rest) else [])
  }

  /** Making the next attempt leaves the same states still to show. */
  lemma NextAttempt<R>(attempts: seq<Attempt<R>>, next: nat)
    requires next < |attempts|
    ensures Pending(Some(Build(attempts[next])), attempts[next + 1..]) == AttemptsViews(attempts[next..])
  {
    assert attempts[next..][1..] == attempts[next + 1..];
  }

  /** The loop's termination measure: two per attempt left, one more while a stream is followed. */
  function Measure<R>(reflector: Option<Reflector<R>>, left: nat): nat {
    2 * left + (if reflector.Some? && reflector.value.Ok? then 1 else 0)
  }

  /** The first pass shows `Loading` and makes the first attempt. */
  lemma StartStep<R>(attempts: seq<Attempt<R>>, next: nat)
    requires next == 0
    ensures next < |attempts| ==>
      [ViewLoading] + Pending(Some(Build(attempts[next])), attempts[next + 1..]) == Pending(None, attempts[next..])
    ensures next == |attempts| ==> [ViewLoading] == Pending(None, attempts[next..])
  {
    if next < |attempts| {
      NextAttempt(attempts, next);
      assert attempts[next..] == attempts;
    }
  }

  /** A pass that shows an error makes the next attempt, if any is left. */
  lemma ErrorStep<R>(cause: string, attempts: seq<Attempt<R>>, next: nat)
    requires next <= |attempts|
    ensures next < |attempts| ==>
      [ViewError(cause)] + Pending(Some(Build(attempts[next])), attempts[next + 1..]) ==
      Pending(Some(Err(cause)), attempts[next..])
    ensures next == |attempts| ==> [ViewError(cause)] == Pending(Some(Err(cause)), attempts[next..])
  {
    if next < |attempts| {
      NextAttempt(attempts, next);
    } else {
      assert attempts[next..] == [];
    }
  }

  /** The causes of the error states among `vs`, in order. */
  function Errors<R>(vs: seq<View<R>>): seq<string>
    decreases |vs|
  {
    if vs == [] then []
    else (if vs[0].ViewError? then [vs[0].cause] else []) + Errors(vs[1..])
  }

  /** The item lists of the list states among `vs`, in order. */
  function Lists<R>(vs: seq<View<R>>): seq<seq<R>>
    decreases |vs|
  {
    if vs == [] then []
    else (if vs[0].ViewList? then [vs[0].items] else []) + Lists(vs[1..])
  }

  /** The errors the attempts end with, up to the first stream that stays open. */
  function Failures<R>(attempts: seq<Attempt<R>>): seq<string>
    decreases |attempts|
  {
    if attempts == [] || !Continues(attempts[0]) then []
    else [FailureOf(attempts[0])] + Failures(attempts[1..])
  }

  /** The store contents of the built reflectors, up to the first stream that stays open. */
  function Stores<R>(attempts: seq<Attempt<R>>): seq<seq<R>>
    decreases |attempts|
  {
    if attempts == [] then []
    else
      var a := attempts[0];
      (if a.Built? then [a.session.initial] + a.session.updates else []) +
      (if Continues(a) then Stores(attempts[1..]) else [])
  }

  lemma {:induction false} ErrorsAppend<R>(a: seq<View<R>>, b: seq<View<R>>)
    ensures Errors(a + b) == Errors(a) + Errors(b)
    decreases |a|
  {
    if a == [] {
      assert a + b == b;
    } else {
      assert (a + b)[0] == a[0] && (a + b)[1..] == a[1..] + b;
      ErrorsAppend(a[1..], b);
    }
  }

  lemma {:induction false} ListsAppend<R>(a: seq<View<R>>, b: seq<View<R>>)
    ensures Lists(a + b) == Lists(a) + Lists(b)
    decreases |a|
  {
    if a == [] {
      assert a + b == b;
    } else {
      assert (a + b)[0] == a[0] && (a + b)[1..] == a[1..] + b;
      ListsAppend(a[1..], b);
    }
  }

  lemma {:induction false} UpdatesShowNoError<R>(updates: seq<seq<R>>)
    ensures Errors(UpdateViews(updates)) == []
    ensures Lists(UpdateViews(updates)) == updates
    decreases |updates|
  {
    if updates != [] {
      assert UpdateViews(updates)[1..] == UpdateViews(updates[1..]);
      UpdatesShowNoError(updates[1..]);
    }
  }

  lemma {:induction false} UpdatesAreLists<R>(updates: seq<seq<R>>)
    ensures forall v :: v in UpdateViews(updates) ==> v.ViewList?
    decreases |updates|
  {
    if updates != [] {
      UpdatesAreLists(updates[1..]);
    }
  }

  lemma SessionShowsNoError<R>(s: Session<R>)
    ensures Errors(SessionViews(s)) == []
    ensures Lists(SessionViews(s)) == [s.initial] + s.updates
  {
    ErrorsAppend([ViewList(s.initial)], UpdateViews(s.updates));
    ListsAppend([ViewList(s.initial)], UpdateViews(s.updates));
    UpdatesShowNoError(s.updates);
  }

  /** `Loading` is shown once, first: later attempts pass straight from an error to the next state. */
  lemma {:induction false} LoadingOnlyFirst<R>(attempts: seq<Attempt<R>>)
    ensures Views(attempts)[0] == ViewLoading
    ensures forall i :: 0 < i < |Views(attempts)| ==> !Views(attempts)[i].ViewLoading?
  {
    NoLoadingAfterStart(attempts);
  }

  lemma {:induction false} NoLoadingAfterStart<R>(attempts: seq<Attempt<R>>)
    ensures forall v :: v in AttemptsViews(attempts) ==> !v.ViewLoading?
    decreases |attempts|
  {
    if attempts != [] {
      NoLoadingAfterStart(attempts[1..]);
      if attempts[0].Built? {
        UpdatesAreLists(attempts[0].session.updates);
      }
    }
  }

  /**
   * The error states shown are the failed builds, watch errors and closed
   * streams ("Stream closed") of the attempts, in the order they happened.
   */
  lemma {:induction false} ErrorsAreFailures<R>(attempts: seq<Attempt<R>>)
    ensures Errors(Views(attempts)) == Failures(attempts)
  {
    ErrorsAppend([ViewLoading], AttemptsViews(attempts));
    AttemptErrors(attempts);
  }

  lemma {:induction false} AttemptErrors<R>(attempts: seq<Attempt<R>>)
    ensures Errors(AttemptsViews(attempts)) == Failures(attempts)
    decreases |attempts|
  {
    if attempts != [] {
      AttemptErrors(attempts[1..]);
      HeadErrors(attempts[0], AttemptsViews(attempts[1..]));
    }
  }

  /** An error state adds its cause to the errors shown and nothing to the lists. */
  lemma ErrorThen<R>(cause: string, later: seq<View<R>>)
    ensures Errors([ViewError(cause)] + later) == [cause] + Errors(later)
    ensures Lists([ViewError(cause)] + later) == Lists(later)
  {
    assert ([ViewError(cause)] + later)[1..] == later;
  }

  /** The errors one attempt contributes, before those of the attempts after it. */
  lemma HeadErrors<R>(a: Attempt<R>, later: seq<View<R>>)
    ensures var shown := (if a.Built? then SessionViews(a.session) else []) +
      (if Continues(a) then [ViewError(FailureOf(a))] + later else []);
      Errors(shown) == (if Continues(a) then [FailureOf(a)] + Errors(later) else [])
  {
    var first: seq<View<R>> := if a.Built? then SessionViews(a.session) else [];
    var after: seq<View<R>> := if Continues(a) then [ViewError(FailureOf(a))] + later else [];
    ErrorsAppend(first, after);
    if a.Built? {
      SessionShowsNoError(a.session);
    }
    if Continues(a) {
      ErrorThen(FailureOf(a), later);
    }
  }

  /** The lists one attempt contributes, before those of the attempts after it. */
  lemma HeadLists<R>(a: Attempt<R>, later: seq<View<R>>)
    ensures var shown := (if a.Built? then SessionViews(a.session) else []) +
      (if Continues(a) then [ViewError(FailureOf(a))] + later else []);
      Lists(shown) == (if a.Built? then [a.session.initial] + a.session.updates else []) +
        (if Continues(a) then Lists(later) else [])
  {
    var first: seq<View<R>> := if a.Built? then SessionViews(a.session) else [];
    var after: seq<View<R>> := if Continues(a) then [ViewError(FailureOf(a))] + later else [];
    ListsAppend(first, after);
    if a.Built? {
      SessionShowsNoError(a.session);
    }
    if Continues(a) {
      ErrorThen(FailureOf(a), later);
    }
  }

  /** The list states shown are the store contents of the built reflectors, in order. */
  lemma {:induction false} ListsAreStores<R>(attempts: seq<Attempt<R>>)
    ensures Lists(Views(attempts)) == Stores(attempts)
  {
    ListsAppend([ViewLoading], AttemptsViews(attempts));
    AttemptLists(attempts);
  }

  lemma {:induction false} AttemptLists<R>(attempts: seq<Attempt<R>>)
    ensures Lists(AttemptsViews(attempts)) == Stores(attempts)
    decreases |attempts|
  {
    if attempts != [] {
      AttemptLists(attempts[1..]);
      HeadLists(attempts[0], AttemptsViews(attempts[1..]));
    }
  }

  /** A stream that closes shows "Stream closed" before the next attempt; a failed build shows its cause. */
  lemma ClosedThenFailed<R>(items: seq<R>, cause: string)
    ensures Views([Built(Session(items, [], Some(Closed))), BuildFailed(cause)]) ==
      [ViewLoading, ViewList(items), ViewError(StreamClosed), ViewError(cause)]
  {
    var attempts := [Built(Session(items, [], Some(Closed))), BuildFailed(cause)];
    assert UpdateViews<R>([]) == [];
    assert attempts[1..][1..] == [];
    assert AttemptsViews(attempts[1..]) == [ViewError(cause)];
    assert AttemptsViews(attempts) == [ViewList(items)] + ([ViewError(StreamClosed)] + [ViewError(cause)]);
  }

  lemma LastOfAppend<T>(a: seq<T>, b: seq<T>)
    requires b != []
    ensures (a + b)[|a + b| - 1] == b[|b| - 1]
  {
  }

  lemma Regroup<T>(a: seq<T>, b: seq<T>, c: seq<T>)
    ensures (a + b) + c == a + (b + c)
  {
  }
}
