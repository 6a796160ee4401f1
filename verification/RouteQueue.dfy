/**
 The route controller's work queue: no Route is forgotten, however syncs, watch events, timers, edits,
 moves of the ACME server and restarts interleave.
 */
module RouteQueue {
  import opened Api
  import opened Orders
  import OrderRuns

  /**
   `dirty` means that the key is queued, `delayed` that it waits for a delayed or rate-limited add (the
   queue keeps only the earliest of them), and `log` holds the versions of the Route whose watch events
   have not been handled yet. `last` is the world and the answers of the latest sync.
   */
  datatype State = State(
    world: World,
    dirty: bool,
    delayed: bool,
    log: seq<Route>,
    last: Option<(World, Answers)>)

  /** A nudge is an event of an exposer object or a Secret of the Route, or the informer's resync. */
  datatype Event =
    | Work(answers: Answers)
    | Deliver
    | Expire
    | Nudge
    | Around(event: OrderRuns.Event)
    | Restart

  predicate Managed(cfg: Config, r: Route)
  {
    IsManaged(r.annotations, r.labels, cfg.annotation)
  }

  predicate Legal(st: State, e: Event)
  {
    match e
    case Work(a) => st.dirty && OrderRuns.LegalAnswers(st.world, a)
    case Deliver => st.log != []
    case Expire => st.delayed
    case Nudge => true
    case Around(e) => !e.Sync? && OrderRuns.Legal(st.world, e)
    case Restart => true
  }

  ghost function Worked(cfg: Config, st: State, a: Answers): (st': State)
  {
    var act := Decide(cfg, st.world, a);
    var w' := After(st.world, act, a);
    State(w', false, st.delayed || Fails(st.world, act, a) || Delays(act) != [],
          if w'.route == st.world.route then st.log else st.log + [w'.route], Some((st.world, a)))
  }

  ghost function Step(cfg: Config, st: State, e: Event): (st': State)
    requires Legal(st, e)
  {
    match e
    case Work(a) => Worked(cfg, st, a)
    case Deliver => st.(dirty := st.dirty || Managed(cfg, st.log[0]), log := st.log[1..])
    case Expire => st.(dirty := true, delayed := false)
    case Nudge => st.(dirty := st.dirty || Managed(cfg, st.world.route))
    case Around(e) =>
      st.(world := OrderRuns.Step(cfg, st.world, e), log := if e.UserEdits? then st.log + [e.route] else st.log)
    case Restart => st.(dirty := false, delayed := false, log := [st.world.route])
  }

  ghost predicate Run(cfg: Config, st: State, es: seq<Event>, st': State)
    decreases |es|
  {
    if es == [] then st' == st else Legal(st, es[0]) && Run(cfg, Step(cfg, st, es[0]), es[1..], st')
  }

  predicate Start(st: State)
  {
    OrderRuns.Initial(st.world) && st == State(st.world, false, false, [st.world.route], None)
  }

  /** Something that will make a worker look at the Route again by itself. */
  predicate Outstanding(st: State)
  {
    st.dirty || st.delayed || st.log != []
  }

  /** A Route that every sync leaves alone. */
  ghost predicate LeftAlone(cfg: Config, r: Route)
  {
    r.deleting || !Managed(cfg, r) || !Admitted(r.ingress)
  }

  /** The latest sync saw the Route as it is now and took one of the two silent exits. */
  ghost predicate Stalled(cfg: Config, st: State)
  {
    && st.last.Some?
    && var (w, a) := st.last.value;
       && w.route == st.world.route && OrderRuns.Inv(w)
       && OrderRuns.NothingToWaitFor(cfg, w, a)
  }

  ghost predicate Inv(cfg: Config, st: State)
  {
    && OrderRuns.Inv(st.world)
    && (st.log != [] ==> st.log[|st.log| - 1] == st.world.route)
    && (Outstanding(st) || LeftAlone(cfg, st.world.route) || Stalled(cfg, st))
  }

  lemma WorkKeepsInv(cfg: Config, st: State, a: Answers)
    requires Inv(cfg, st) && OrderRuns.LegalAnswers(st.world, a)
    ensures Inv(cfg, Worked(cfg, st, a))
  {
    OrderRuns.SyncKeepsInv(cfg, st.world, a);
    WorkIsFollowedUp(cfg, st.world, a);
  }

  /** What the silent syncs are, put the other way round. */
  lemma WorkIsFollowedUp(cfg: Config, w: World, a: Answers)
    requires OrderRuns.Inv(w) && OrderRuns.LegalAnswers(w, a)
    ensures var act := Decide(cfg, w, a);
            || Fails(w, act, a) || Delays(act) != [] || After(w, act, a).route != w.route
            || LeftAlone(cfg, w.route) || OrderRuns.NothingToWaitFor(cfg, w, a)
  {
    SkippedIffLeftAlone(cfg, w, a);
    if !LeftAlone(cfg, w.route) {
      OrderRuns.SilentIffNothingToWaitFor(cfg, w, a);
    }
  }

  /** Exactly the Routes that are left alone are skipped, whatever is answered. */
  lemma SkippedIffLeftAlone(cfg: Config, w: World, a: Answers)
    ensures Decide(cfg, w, a).Skip? <==> LeftAlone(cfg, w.route)
    ensures LeftAlone(cfg, w.route) <==> !OrderRuns.Entitled(cfg, w.route)
  {
    OrderRuns.SkipIff(cfg, w, a);
  }

  lemma StepKeepsInv(cfg: Config, st: State, e: Event)
    requires Inv(cfg, st) && Legal(st, e)
    ensures Inv(cfg, Step(cfg, st, e))
  {
    if e.Work? {
      WorkKeepsInv(cfg, st, e.answers);
    } else if e.Around? {
      OrderRuns.EnvironmentKeepsInv(cfg, st.world, e.event);
    }
  }

  lemma {:induction false} RunKeepsInv(cfg: Config, st: State, es: seq<Event>, st': State)
    requires Inv(cfg, st) && Run(cfg, st, es, st')
    ensures Inv(cfg, st')
    decreases |es|
  {
    if es != [] {
      StepKeepsInv(cfg, st, es[0]);
      RunKeepsInv(cfg, Step(cfg, st, es[0]), es[1..], st');
    }
  }

  /** At every moment of every run, a worker will look at the Route again by itself, or every sync would
      leave it alone, or the latest sync saw it as it is and took one of the two silent exits. */
  lemma RouteIsNeverForgotten(cfg: Config, st: State, es: seq<Event>, st': State)
    requires Start(st) && Run(cfg, st, es, st')
    ensures Outstanding(st') || LeftAlone(cfg, st'.world.route) || Stalled(cfg, st')
  {
    OrderRuns.InitialInv(st.world);
    RunKeepsInv(cfg, st, es, st');
  }

  /** A sync does not keep the queue busy either: with nothing else outstanding, it leaves something
      outstanding exactly if the Route is not to be left alone and has something to wait for. */
  lemma WorkLeavesSomethingIff(cfg: Config, st: State, a: Answers)
    requires OrderRuns.Inv(st.world) && OrderRuns.LegalAnswers(st.world, a) && !st.delayed && st.log == []
    ensures Outstanding(Worked(cfg, st, a)) <==>
            !LeftAlone(cfg, st.world.route) && !OrderRuns.NothingToWaitFor(cfg, st.world, a)
  {
    SkippedIffLeftAlone(cfg, st.world, a);
    OrderRuns.SkipIff(cfg, st.world, a);
    if !LeftAlone(cfg, st.world.route) {
      OrderRuns.SilentIffNothingToWaitFor(cfg, st.world, a);
    }
  }

  /** A Route that is not managed, and is never edited to be, is never even queued. */
  ghost predicate Unmanaged(cfg: Config, st: State)
  {
    && !st.dirty && !st.delayed && !Managed(cfg, st.world.route)
    && forall i :: 0 <= i < |st.log| ==> !Managed(cfg, st.log[i])
  }

  lemma {:induction false} UnmanagedIsNeverQueued(cfg: Config, st: State, es: seq<Event>, st': State)
    requires Unmanaged(cfg, st) && Run(cfg, st, es, st')
    requires forall i :: 0 <= i < |es| && es[i].Around? && es[i].event.UserEdits? ==> !Managed(cfg, es[i].event.route)
    ensures Unmanaged(cfg, st') && st'.world.history == st.world.history
    decreases |es|
  {
    if es != [] {
      var st1 := Step(cfg, st, es[0]);
      assert Unmanaged(cfg, st1) && st1.world.history == st.world.history;
      assert forall i :: 0 <= i < |es| - 1 ==> es[1..][i] == es[i + 1];
      UnmanagedIsNeverQueued(cfg, st1, es[1..], st');
    }
  }

  /** Once nothing is outstanding, what happens at the ACME server goes unnoticed: however far it takes
      the order, and however long, only an edit, a nudge or a restart can bring the Route back. */
  lemma {:induction false} ServerMovesGoUnnoticed(cfg: Config, st: State, es: seq<Event>, st': State)
    requires !Outstanding(st) && Run(cfg, st, es, st')
    requires forall i :: 0 <= i < |es| ==>
                           !es[i].Nudge? && !es[i].Restart? && !(es[i].Around? && es[i].event.UserEdits?)
    ensures !Outstanding(st') && st'.world.route == st.world.route
    decreases |es|
  {
    if es != [] {
      var st1 := Step(cfg, st, es[0]);
      assert !Outstanding(st1) && st1.world.route == st.world.route;
      assert forall i :: 0 <= i < |es| - 1 ==> es[1..][i] == es[i + 1];
      ServerMovesGoUnnoticed(cfg, st1, es[1..], st');
    }
  }
}
