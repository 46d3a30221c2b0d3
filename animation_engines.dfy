/**
 * The node and tree animation engines and their handles.
 *
 * popmotion's driver is outside the model. It is represented by a `Timers`
 * object holding, for every animation ever started, the state of the promise
 * its handle exposes. A handle is an immutable value naming its timer, as the
 * source's `AnimationRef` only holds a promise and a stopper. The driver's
 * `onComplete` and `onStop` callbacks are `Timers.Complete` and `Timers.Stop`,
 * and a frame it would draw is a call of `AnimateFrame`.
 */
module AnimationEngines {
  import opened Geometry
  import opened Projection
  import opened Results

  datatype AnimationResult = Completed | Stopped

  /** A handle's promise: pending, or resolved once and for all. */
  datatype HandleState = Pending | Settled(result: AnimationResult)

  /**
   * What `stop()` does to a running animation: popmotion calls `onStop`,
   * which resolves a pending promise to `Stopped`; an already resolved
   * promise keeps its value.
   */
  function StopState(s: HandleState): (r: HandleState)
    ensures r.Settled?
    ensures s.Settled? ==> r == s
    ensures s.Pending? ==> r.result == Stopped
  {
    if s.Pending? then Settled(Stopped) else s
  }

  /** The states after stopping the timers in `stopped`; every other timer is left alone. */
  function StopTimers(states: seq<HandleState>, stopped: set<nat>): (r: seq<HandleState>)
    ensures |r| == |states|
    ensures forall t :: 0 <= t < |states| ==> r[t] == if t in stopped then StopState(states[t]) else states[t]
  {
    seq(|states|, t requires 0 <= t < |states| => if t in stopped then StopState(states[t]) else states[t])
  }

  /** Stopping in two rounds is stopping the union once. */
  lemma StopTimersTwice(states: seq<HandleState>, first: set<nat>, second: set<nat>)
    ensures StopTimers(StopTimers(states, first), second) == StopTimers(states, first + second)
  {
    var once, twice := StopTimers(states, first + second), StopTimers(StopTimers(states, first), second);
    forall t | 0 <= t < |states| ensures twice[t] == once[t] {
      if t in first && t in second {
        assert twice[t] == StopState(StopState(states[t]));
      }
    }
  }

  /** Stopping commutes with taking a prefix of the timers. */
  lemma StopTimersPrefix(states: seq<HandleState>, stopped: set<nat>, count: nat)
    requires count <= |states|
    ensures StopTimers(states, stopped)[..count] == StopTimers(states[..count], stopped)
  {
    var left, right := StopTimers(states, stopped)[..count], StopTimers(states[..count], stopped);
    assert forall t :: 0 <= t < count ==> left[t] == right[t];
  }

  /** Stopping timers that do not exist changes nothing. */
  lemma StopTimersBeyond(states: seq<HandleState>, stopped: set<nat>)
    requires forall t :: t in stopped ==> t >= |states|
    ensures StopTimers(states, stopped) == states
  {
  }

  /** An easing curve, handed to the timer untouched. */
  type Easing = real -> real

  datatype ProjectionNodeAnimationRoute = ProjectionNodeAnimationRoute(
    boundingBoxFrom: BoundingBox,
    boundingBoxTo: BoundingBox,
    borderRadiusesFrom: BorderRadiusConfig,
    borderRadiusesTo: BorderRadiusConfig)

  datatype ProjectionNodeAnimationConfig = ProjectionNodeAnimationConfig(
    duration: real,
    easing: Easing,
    route: ProjectionNodeAnimationRoute)

  /** The interpolated box: exactly the route's endpoints at progress 0 and 1. */
  function CalculateBoundingBox(route: ProjectionNodeAnimationRoute, progress: real): (b: BoundingBox)
    ensures progress == 0.0 ==> b == route.boundingBoxFrom
    ensures progress == 1.0 ==> b == route.boundingBoxTo
    ensures route.boundingBoxFrom == route.boundingBoxTo ==> b == route.boundingBoxFrom
  {
    var from, to := route.boundingBoxFrom, route.boundingBoxTo;
    BoundingBox(
      Mix(from.top, to.top, progress),
      Mix(from.left, to.left, progress),
      Mix(from.right, to.right, progress),
      Mix(from.bottom, to.bottom, progress))
  }

  /**
   * Every coordinate of the interpolated box moves strictly towards its
   * target as progress grows, and stays put when its endpoints agree.
   */
  lemma CalculateBoundingBoxMonotone(route: ProjectionNodeAnimationRoute, t1: real, t2: real)
    requires t1 < t2
    ensures var from, to, b1, b2 := route.boundingBoxFrom, route.boundingBoxTo,
                                    CalculateBoundingBox(route, t1), CalculateBoundingBox(route, t2);
      && (from.top < to.top ==> b1.top < b2.top) && (to.top < from.top ==> b2.top < b1.top)
      && (from.left < to.left ==> b1.left < b2.left) && (to.left < from.left ==> b2.left < b1.left)
      && (from.right < to.right ==> b1.right < b2.right) && (to.right < from.right ==> b2.right < b1.right)
      && (from.bottom < to.bottom ==> b1.bottom < b2.bottom) && (to.bottom < from.bottom ==> b2.bottom < b1.bottom)
      && (from.top == to.top ==> b1.top == b2.top) && (from.left == to.left ==> b1.left == b2.left)
      && (from.right == to.right ==> b1.right == b2.right) && (from.bottom == to.bottom ==> b1.bottom == b2.bottom)
  {
    var from, to := route.boundingBoxFrom, route.boundingBoxTo;
    MixMonotone(from.top, to.top, t1, t2);
    MixMonotone(from.left, to.left, t1, t2);
    MixMonotone(from.right, to.right, t1, t2);
    MixMonotone(from.bottom, to.bottom, t1, t2);
  }

  /** The interpolated corner radii: exactly the route's endpoints at progress 0 and 1. */
  function CalculateBorderRadiuses(route: ProjectionNodeAnimationRoute, progress: real): (r: BorderRadiusConfig)
    ensures progress == 0.0 ==> r == route.borderRadiusesFrom
    ensures progress == 1.0 ==> r == route.borderRadiusesTo
  {
    MixRadiuses(route.borderRadiusesFrom, route.borderRadiusesTo, progress)
  }

  /** `results.every(r => r === Completed) ? Completed : Stopped`. */
  function AggregateResult(results: seq<AnimationResult>): (r: AnimationResult)
    ensures r == Completed <==> forall i :: 0 <= i < |results| ==> results[i] == Completed
  {
    if |results| == 0 then Completed
    else if results[0] == Stopped then Stopped
    else AggregateResult(results[1..])
  }

  /** The values the constituents' promises resolved to, once all have. */
  function SettledResults(states: seq<HandleState>): (results: seq<AnimationResult>)
    requires forall i :: 0 <= i < |states| ==> states[i].Settled?
    ensures |results| == |states|
    ensures forall i :: 0 <= i < |states| ==> states[i] == Settled(results[i])
  {
    if |states| == 0 then [] else [states[0].result] + SettledResults(states[1..])
  }

  /**
   * `Promise.all(refs).then(every ...)`: pending while any constituent is,
   * then `Completed` iff every constituent completed.
   */
  function AggregateState(states: seq<HandleState>): (s: HandleState)
    ensures s.Pending? <==> exists i :: 0 <= i < |states| && states[i].Pending?
    ensures s.Settled? ==> (s.result == Completed <==> forall i :: 0 <= i < |states| ==> states[i] == Settled(Completed))
  {
    if forall i :: 0 <= i < |states| ==> states[i].Settled? then
      Settled(AggregateResult(SettledResults(states)))
    else
      Pending
  }

  /**
   * Once `stop` has reached every constituent, the aggregate is resolved, and
   * it reports `Completed` only if every constituent had already completed.
   */
  lemma {:induction false} StoppedAggregateSettles(before: seq<HandleState>, after: seq<HandleState>)
    requires |after| == |before|
    requires forall i :: 0 <= i < |before| ==> after[i] == StopState(before[i])
    ensures AggregateState(after).Settled?
    ensures AggregateState(after).result == Completed <==> forall i :: 0 <= i < |before| ==> before[i] == Settled(Completed)
  {
    forall i | 0 <= i < |before|
      ensures after[i] == Settled(Completed) <==> before[i] == Settled(Completed)
    {
      assert after[i] == StopState(before[i]);
    }
  }

  /** popmotion's driver: the promise state of every animation started so far, by timer number. */
  class Timers {
    var states: seq<HandleState>

    constructor()
      ensures states == []
    {
      states := [];
    }

    /** Starts a new timer; its promise is pending. */
    method Start() returns (timer: nat)
      modifies this
      ensures timer == |old(states)| && states == old(states) + [Pending]
    {
      timer := |states|;
      states := states + [Pending];
    }

    /** The stopper: stops one timer and nothing else. */
    method Stop(timer: nat)
      modifies this
      ensures states == StopTimers(old(states), {timer})
    {
      if timer < |states| {
        states := states[timer := StopState(states[timer])];
      }
    }

    /** The timer's `onComplete`: resolves a pending promise to `Completed`. */
    method Complete(timer: nat)
      requires timer < |states|
      modifies this
      ensures |states| == |old(states)|
      ensures old(states)[timer].Pending? ==> states[timer] == Settled(Completed)
      ensures old(states)[timer].Settled? ==> states[timer] == old(states)[timer]
      ensures forall t :: 0 <= t < |states| && t != timer ==> states[t] == old(states)[t]
    {
      if states[timer].Pending? {
        states := states[timer := Settled(Completed)];
      }
    }
  }

  /** The handle of one node's animation: its node, its timer, and the timer's parameters. */
  datatype ProjectionNodeAnimationRef = ProjectionNodeAnimationRef(
    node: ProjectionNode,
    timer: nat,
    duration: real,
    easing: Easing,
    route: ProjectionNodeAnimationRoute)

  function TimerIds(refs: seq<ProjectionNodeAnimationRef>): set<nat>
  {
    set i | 0 <= i < |refs| :: refs[i].timer
  }

  /** The aggregate handle of a tree animation, recorded against its root. */
  datatype ProjectionTreeAnimationRef = ProjectionTreeAnimationRef(root: ProjectionNode, refs: seq<ProjectionNodeAnimationRef>) {

    /** Every constituent's timer has been started. */
    predicate StartedIn(states: seq<HandleState>)
    {
      forall i :: 0 <= i < |refs| ==> refs[i].timer < |states|
    }

    function ConstituentStates(states: seq<HandleState>): (r: seq<HandleState>)
      requires StartedIn(states)
      ensures |r| == |refs| && forall i :: 0 <= i < |refs| ==> r[i] == states[refs[i].timer]
    {
      seq(|refs|, i requires 0 <= i < |refs| => states[refs[i].timer])
    }

    /** The aggregate promise's state, derived from its constituents'. */
    function State(states: seq<HandleState>): (s: HandleState)
      requires StartedIn(states)
      ensures s.Pending? <==> exists i :: 0 <= i < |refs| && states[refs[i].timer].Pending?
      ensures s.Settled? ==> (s.result == Completed <==> forall i :: 0 <= i < |refs| ==> states[refs[i].timer] == Settled(Completed))
    {
      var constituents := ConstituentStates(states);
      assert forall i :: 0 <= i < |refs| ==> constituents[i] == states[refs[i].timer];
      AggregateState(constituents)
    }

    /** `stop()` fans out to every constituent, in order. */
    method Stop(timers: Timers)
      modifies timers
      ensures timers.states == StopTimers(old(timers.states), TimerIds(refs))
    {
      var i := 0;
      while i < |refs|
        invariant 0 <= i <= |refs|
        invariant timers.states == StopTimers(old(timers.states), TimerIds(refs[..i]))
      {
        StopTimersTwice(old(timers.states), TimerIds(refs[..i]), {refs[i].timer});
        assert TimerIds(refs[..i + 1]) == TimerIds(refs[..i]) + {refs[i].timer} by {
          assert forall j :: 0 <= j < i ==> refs[..i + 1][j] == refs[..i][j];
        }
        timers.Stop(refs[i].timer);
        i := i + 1;
      }
      assert refs[..i] == refs;
    }
  }

  /**
   * After the aggregate's `stop`, its promise is resolved, to `Completed`
   * only if every constituent had completed before.
   */
  lemma StoppedTreeRefSettles(ref: ProjectionTreeAnimationRef, states: seq<HandleState>)
    requires ref.StartedIn(states)
    ensures ref.StartedIn(StopTimers(states, TimerIds(ref.refs)))
    ensures ref.State(StopTimers(states, TimerIds(ref.refs))).Settled?
    ensures ref.State(StopTimers(states, TimerIds(ref.refs))).result == Completed
        <==> forall i :: 0 <= i < |ref.refs| ==> states[ref.refs[i].timer] == Settled(Completed)
  {
    var after := StopTimers(states, TimerIds(ref.refs));
    forall i | 0 <= i < |ref.refs| ensures ref.refs[i].timer in TimerIds(ref.refs) { }
    StoppedAggregateSettles(ref.ConstituentStates(states), ref.ConstituentStates(after));
  }

  /** No two records share a timer: each record's timer was started for it. */
  ghost predicate DistinctTimers(records: map<ProjectionNode, ProjectionNodeAnimationRef>)
  {
    forall n, m :: n in records && m in records && records[n].timer == records[m].timer ==> n == m
  }

  class ProjectionNodeAnimationEngine {
    const timers: Timers
    /** The handle most recently started for each node. */
    var records: map<ProjectionNode, ProjectionNodeAnimationRef>

    ghost predicate Valid()
      reads this, timers
    {
      && (forall n :: n in records ==> records[n].node == n && records[n].timer < |timers.states|)
      && DistinctTimers(records)
    }

    constructor(timers: Timers)
      ensures Valid() && this.timers == timers && records == map[]
    {
      this.timers := timers;
      records := map[];
    }

    /**
     * Starts animating `node` along `config.route`. The node's previous
     * animation is stopped first, the progress-0 frame is drawn before this
     * returns, and the new handle replaces the node's record.
     */
    method Animate(node: ProjectionNode, config: ProjectionNodeAnimationConfig) returns (ref: ProjectionNodeAnimationRef)
      requires Valid()
      modifies this, node, timers
      ensures Valid()
      ensures ref.node == node && ref.timer == |old(timers.states)|
      ensures ref.duration == config.duration && ref.easing == config.easing && ref.route == config.route
      ensures records == old(records)[node := ref]
      ensures timers.states == (if node in old(records) then StopTimers(old(timers.states), {old(records)[node].timer})
                                else old(timers.states)) + [Pending]
      ensures node.borderRadiuses == config.route.borderRadiusesFrom
      ensures node.projectedBox == config.route.boundingBoxFrom
    {
      if node in records {
        timers.Stop(records[node].timer);
      }
      AnimateFrame(node, config.route, 0.0);
      var timer := timers.Start();
      ref := ProjectionNodeAnimationRef(node, timer, config.duration, config.easing, config.route);
      records := records[node := ref];
    }

    /** One frame: writes the interpolated radii onto the node and projects it onto the interpolated box. */
    method AnimateFrame(node: ProjectionNode, route: ProjectionNodeAnimationRoute, progress: real)
      modifies node
      ensures node.borderRadiuses == CalculateBorderRadiuses(route, progress)
      ensures node.projectedBox == CalculateBoundingBox(route, progress)
    {
      var boundingBox := CalculateBoundingBox(route, progress);
      var borderRadiuses := CalculateBorderRadiuses(route, progress);
      node.borderRadiuses := borderRadiuses;
      node.Project(boundingBox);
    }
  }

  /**
   * The number of nodes, in visiting order, whose route is found before the
   * first node whose id is missing from `routes`; all of them when none is.
   */
  function RoutedPrefix(nodes: seq<ProjectionNode>, routes: map<NodeId, ProjectionNodeAnimationRoute>): (k: nat)
    ensures k <= |nodes|
    ensures forall j :: 0 <= j < k ==> nodes[j].id in routes
    ensures k < |nodes| ==> nodes[k].id !in routes
  {
    if |nodes| == 0 || nodes[0].id !in routes then 0 else 1 + RoutedPrefix(nodes[1..], routes)
  }

  /** The set of the first `count` nodes. */
  function Visited(nodes: seq<ProjectionNode>, count: nat): (r: set<ProjectionNode>)
    requires count <= |nodes|
    ensures forall j :: 0 <= j < count ==> nodes[j] in r
  {
    if count == 0 then {} else Visited(nodes, count - 1) + {nodes[count - 1]}
  }

  lemma {:induction false} VisitedIsPrefix(nodes: seq<ProjectionNode>, count: nat, n: ProjectionNode)
    requires count <= |nodes|
    ensures n in Visited(nodes, count) <==> n in nodes[..count]
  {
    if count > 0 {
      VisitedIsPrefix(nodes, count - 1, n);
      assert nodes[..count] == nodes[..count - 1] + [nodes[count - 1]];
    }
  }

  /** The nodes a tree animation hands to the node engine: the pre-order walk up to the first unknown node. */
  function Reached(root: Tree, routes: map<NodeId, ProjectionNodeAnimationRoute>): (r: set<ProjectionNode>)
    ensures forall n :: n in r ==> n.id in routes
  {
    var nodes := Traverse(root);
    VisitedRouted(nodes, RoutedPrefix(nodes, routes), routes);
    Visited(nodes, RoutedPrefix(nodes, routes))
  }

  lemma {:induction false} VisitedRouted(nodes: seq<ProjectionNode>, count: nat, routes: map<NodeId, ProjectionNodeAnimationRoute>)
    requires count <= |nodes|
    requires forall j :: 0 <= j < count ==> nodes[j].id in routes
    ensures forall n :: n in Visited(nodes, count) ==> n.id in routes
  {
    if count > 0 {
      VisitedRouted(nodes, count - 1, routes);
    }
  }

  /** The timers recorded, in `records`, for the nodes in `nodes`. */
  function RecordTimers(records: map<ProjectionNode, ProjectionNodeAnimationRef>, nodes: set<ProjectionNode>): set<nat>
  {
    set n | n in records && n in nodes :: records[n].timer
  }

  lemma RecordTimersAdd(records: map<ProjectionNode, ProjectionNodeAnimationRef>, nodes: set<ProjectionNode>, n: ProjectionNode)
    ensures RecordTimers(records, nodes + {n})
         == RecordTimers(records, nodes) + if n in records then {records[n].timer} else {}
  {
  }

  /**
   * A walk of the tree animation's callback over `nodes`: the tree's timing
   * and routes, and the node engine's records and the driver's states when
   * the walk began.
   */
  datatype Walk = Walk(
    nodes: seq<ProjectionNode>,
    duration: real,
    easing: Easing,
    routes: map<NodeId, ProjectionNodeAnimationRoute>,
    before: map<ProjectionNode, ProjectionNodeAnimationRef>,
    initial: seq<HandleState>)
  {
    /** The handle the callback starts for the `i`-th node. */
    function Handle(i: nat): ProjectionNodeAnimationRef
      requires i < |nodes| && nodes[i].id in routes
    {
      ProjectionNodeAnimationRef(nodes[i], |initial| + i, duration, easing, routes[nodes[i].id])
    }

    /** The records the walk started from point at timers that already existed. */
    predicate Started()
    {
      forall n :: n in before ==> before[n].timer < |initial|
    }
  }

  /** The handles started so far are the walk's, on consecutive new timers, in visiting order. */
  ghost predicate StartedHandles(w: Walk, animations: seq<ProjectionNodeAnimationRef>)
  {
    && |animations| <= |w.nodes|
    && (forall j :: 0 <= j < |animations| ==> w.nodes[j].id in w.routes)
    && (forall j :: 0 <= j < |animations| ==> animations[j] == w.Handle(j))
  }

  /** Of the timers older than the walk, exactly those recorded for the visited nodes are stopped. */
  ghost predicate OldTimersStopped(w: Walk, i: nat, states: seq<HandleState>)
    requires i <= |w.nodes|
  {
    && |w.initial| <= |states|
    && states[..|w.initial|] == StopTimers(w.initial, RecordTimers(w.before, Visited(w.nodes, i)))
  }

  /** A timer started by the walk runs iff its handle is still its node's record. */
  ghost predicate NewTimersRunning(w: Walk, animations: seq<ProjectionNodeAnimationRef>,
                                   records: map<ProjectionNode, ProjectionNodeAnimationRef>, states: seq<HandleState>)
  {
    && |animations| <= |w.nodes|
    && |states| == |w.initial| + |animations|
    && (forall j :: 0 <= j < |animations| ==> w.nodes[j] in records)
    && forall j :: 0 <= j < |animations| ==>
         states[|w.initial| + j] == if records[w.nodes[j]] == animations[j] then Pending else Settled(Stopped)
  }

  /** Every visited node's record is a running handle on a new timer with the node's route. */
  ghost predicate VisitedRecords(w: Walk, i: nat,
                                 records: map<ProjectionNode, ProjectionNodeAnimationRef>, states: seq<HandleState>)
    requires i <= |w.nodes|
  {
    forall n :: n in Visited(w.nodes, i) ==>
      && n.id in w.routes && n in records
      && records[n] == ProjectionNodeAnimationRef(n, records[n].timer, w.duration, w.easing, w.routes[n.id])
      && |w.initial| <= records[n].timer < |states|
      && states[records[n].timer] == Pending
  }

  /** The records are the old ones, plus the visited nodes'. */
  ghost predicate OtherRecordsKept(w: Walk, i: nat, records: map<ProjectionNode, ProjectionNodeAnimationRef>)
    requires i <= |w.nodes|
  {
    && records.Keys == w.before.Keys + Visited(w.nodes, i)
    && forall n :: n in w.before && n !in Visited(w.nodes, i) ==> records[n] == w.before[n]
  }

  /** What the callback has done after animating the first `|animations|` nodes of the walk. */
  ghost predicate Progress(w: Walk, animations: seq<ProjectionNodeAnimationRef>,
                           records: map<ProjectionNode, ProjectionNodeAnimationRef>, states: seq<HandleState>)
  {
    && StartedHandles(w, animations)
    && OldTimersStopped(w, |animations|, states)
    && NewTimersRunning(w, animations, records, states)
    && VisitedRecords(w, |animations|, records, states)
    && OtherRecordsKept(w, |animations|, records)
  }

  /**
   * One run of the callback, as the node engine's `Animate` describes it: the
   * next node's previous record is stopped, a new handle is started and
   * recorded for it.
   */
  ghost predicate Step(w: Walk, animations: seq<ProjectionNodeAnimationRef>,
                       records: map<ProjectionNode, ProjectionNodeAnimationRef>, states: seq<HandleState>,
                       a: ProjectionNodeAnimationRef,
                       records': map<ProjectionNode, ProjectionNodeAnimationRef>, states': seq<HandleState>)
  {
    && |animations| < |w.nodes| && w.nodes[|animations|].id in w.routes
    && |states| == |w.initial| + |animations|
    && a == w.Handle(|animations|)
    && records' == records[a.node := a]
    && states' == (if a.node in records then StopTimers(states, {records[a.node].timer}) else states) + [Pending]
  }

  /** The node engine's record invariant, on values. */
  ghost predicate RecordsFit(records: map<ProjectionNode, ProjectionNodeAnimationRef>)
  {
    && (forall n :: n in records ==> records[n].node == n)
    && DistinctTimers(records)
  }

  /** One run of the callback keeps `Progress`. */
  lemma ProgressStep(w: Walk, animations: seq<ProjectionNodeAnimationRef>,
                     records: map<ProjectionNode, ProjectionNodeAnimationRef>, states: seq<HandleState>,
                     a: ProjectionNodeAnimationRef,
                     records': map<ProjectionNode, ProjectionNodeAnimationRef>, states': seq<HandleState>)
    requires w.Started() && RecordsFit(records)
    requires Progress(w, animations, records, states)
    requires Step(w, animations, records, states, a, records', states')
    ensures Progress(w, animations + [a], records', states')
  {
    StartedHandlesStep(w, animations, records, states, a, records', states');
    OldTimersStep(w, animations, records, states, a, records', states');
    NewTimersStep(w, animations, records, states, a, records', states');
    VisitedRecordsStep(w, animations, records, states, a, records', states');
    OtherRecordsStep(w, animations, records, states, a, records', states');
  }

  lemma StartedHandlesStep(w: Walk, animations: seq<ProjectionNodeAnimationRef>,
                           records: map<ProjectionNode, ProjectionNodeAnimationRef>, states: seq<HandleState>,
                           a: ProjectionNodeAnimationRef,
                           records': map<ProjectionNode, ProjectionNodeAnimationRef>, states': seq<HandleState>)
    requires StartedHandles(w, animations)
    requires Step(w, animations, records, states, a, records', states')
    ensures StartedHandles(w, animations + [a])
  {
  }

  lemma OldTimersStep(w: Walk, animations: seq<ProjectionNodeAnimationRef>,
                      records: map<ProjectionNode, ProjectionNodeAnimationRef>, states: seq<HandleState>,
                      a: ProjectionNodeAnimationRef,
                      records': map<ProjectionNode, ProjectionNodeAnimationRef>, states': seq<HandleState>)
    requires |animations| <= |w.nodes|
    requires OldTimersStopped(w, |animations|, states)
    requires VisitedRecords(w, |animations|, records, states)
    requires OtherRecordsKept(w, |animations|, records)
    requires Step(w, animations, records, states, a, records', states')
    ensures OldTimersStopped(w, |animations + [a]|, states')
  {
    var i, node := |animations|, a.node;
    var visited := Visited(w.nodes, i);
    var previous := if node in records then {records[node].timer} else {};
    assert Visited(w.nodes, i + 1) == visited + {node};
    RecordTimersAdd(w.before, visited, node);
    if node !in records {
      StopTimersBeyond(states, previous);
    }
    if node in visited {
      OlderTimersUntouched(w.initial, RecordTimers(w.before, visited), states, previous, states');
    } else {
      OlderTimersStopped(w.initial, RecordTimers(w.before, visited), states, previous, states');
    }
  }

  /** Stopping only timers the walk started leaves the older ones as they were. */
  lemma OlderTimersUntouched(initial: seq<HandleState>, stopped: set<nat>, states: seq<HandleState>,
                             previous: set<nat>, states': seq<HandleState>)
    requires |initial| <= |states| && states[..|initial|] == StopTimers(initial, stopped)
    requires forall t :: t in previous ==> t >= |initial|
    requires states' == StopTimers(states, previous) + [Pending]
    ensures |initial| <= |states'| && states'[..|initial|] == StopTimers(initial, stopped)
  {
    assert states'[..|initial|] == StopTimers(states, previous)[..|initial|];
    StopTimersPrefix(states, previous, |initial|);
    StopTimersBeyond(states[..|initial|], previous);
  }

  /** Stopping more of the older timers adds them to those stopped so far. */
  lemma OlderTimersStopped(initial: seq<HandleState>, stopped: set<nat>, states: seq<HandleState>,
                           previous: set<nat>, states': seq<HandleState>)
    requires |initial| <= |states| && states[..|initial|] == StopTimers(initial, stopped)
    requires states' == StopTimers(states, previous) + [Pending]
    ensures |initial| <= |states'| && states'[..|initial|] == StopTimers(initial, stopped + previous)
  {
    assert states'[..|initial|] == StopTimers(states, previous)[..|initial|];
    StopTimersPrefix(states, previous, |initial|);
    StopTimersTwice(initial, stopped, previous);
  }

  lemma NewTimersStep(w: Walk, animations: seq<ProjectionNodeAnimationRef>,
                      records: map<ProjectionNode, ProjectionNodeAnimationRef>, states: seq<HandleState>,
                      a: ProjectionNodeAnimationRef,
                      records': map<ProjectionNode, ProjectionNodeAnimationRef>, states': seq<HandleState>)
    requires RecordsFit(records)
    requires StartedHandles(w, animations)
    requires NewTimersRunning(w, animations, records, states)
    requires Step(w, animations, records, states, a, records', states')
    ensures NewTimersRunning(w, animations + [a], records', states')
  {
    var i, t0, node, animations' := |animations|, |w.initial|, a.node, animations + [a];
    forall j | 0 <= j < i + 1
      ensures states'[t0 + j] == if records'[w.nodes[j]] == animations'[j] then Pending else Settled(Stopped)
    {
      if j < i && w.nodes[j] != node && node in records && records[node].timer == t0 + j {
        assert records[w.nodes[j]] != animations[j];
      }
    }
  }

  lemma VisitedRecordsStep(w: Walk, animations: seq<ProjectionNodeAnimationRef>,
                           records: map<ProjectionNode, ProjectionNodeAnimationRef>, states: seq<HandleState>,
                           a: ProjectionNodeAnimationRef,
                           records': map<ProjectionNode, ProjectionNodeAnimationRef>, states': seq<HandleState>)
    requires DistinctTimers(records)
    requires |animations| <= |w.nodes|
    requires VisitedRecords(w, |animations|, records, states)
    requires Step(w, animations, records, states, a, records', states')
    ensures VisitedRecords(w, |animations + [a]|, records', states')
  {
    var i, node := |animations|, a.node;
    assert Visited(w.nodes, i + 1) == Visited(w.nodes, i) + {node};
    forall n | n in Visited(w.nodes, i + 1)
      ensures && n.id in w.routes && n in records'
              && records'[n] == ProjectionNodeAnimationRef(n, records'[n].timer, w.duration, w.easing, w.routes[n.id])
              && |w.initial| <= records'[n].timer < |states'|
              && states'[records'[n].timer] == Pending
    {
      if n != node {
        assert records'[n] == records[n];
        KeptRecordRunning(records, states, node, n, states');
      }
    }
  }

  /** Stopping another node's record leaves this node's running timer running. */
  lemma KeptRecordRunning(records: map<ProjectionNode, ProjectionNodeAnimationRef>, states: seq<HandleState>,
                          node: ProjectionNode, n: ProjectionNode, states': seq<HandleState>)
    requires DistinctTimers(records)
    requires n in records && n != node
    requires records[n].timer < |states| && states[records[n].timer] == Pending
    requires states' == (if node in records then StopTimers(states, {records[node].timer}) else states) + [Pending]
    ensures states'[records[n].timer] == Pending
  {
    var t := records[n].timer;
    assert node in records ==> records[node].timer != t;
  }

  lemma OtherRecordsStep(w: Walk, animations: seq<ProjectionNodeAnimationRef>,
                         records: map<ProjectionNode, ProjectionNodeAnimationRef>, states: seq<HandleState>,
                         a: ProjectionNodeAnimationRef,
                         records': map<ProjectionNode, ProjectionNodeAnimationRef>, states': seq<HandleState>)
    requires |animations| <= |w.nodes|
    requires OtherRecordsKept(w, |animations|, records)
    requires Step(w, animations, records, states, a, records', states')
    ensures OtherRecordsKept(w, |animations + [a]|, records')
  {
    assert Visited(w.nodes, |animations| + 1) == Visited(w.nodes, |animations|) + {a.node};
  }

  /** Before the first node, nothing has been done. */
  lemma ProgressStart(w: Walk, records: map<ProjectionNode, ProjectionNodeAnimationRef>, states: seq<HandleState>)
    requires records == w.before && states == w.initial
    ensures Progress(w, [], records, states)
  {
    assert RecordTimers(w.before, Visited(w.nodes, 0)) == {};
    StopTimersBeyond(w.initial, {});
  }

  /** `Progress`, spelt out handle by handle and record by record. */
  lemma ProgressOutcome(w: Walk, animations: seq<ProjectionNodeAnimationRef>,
                        records: map<ProjectionNode, ProjectionNodeAnimationRef>, states: seq<HandleState>)
    requires Progress(w, animations, records, states)
    ensures |animations| <= |w.nodes| && |states| == |w.initial| + |animations|
    ensures forall j :: 0 <= j < |animations| ==> w.nodes[j].id in w.routes && w.nodes[j] in records
    ensures forall j :: 0 <= j < |animations| ==>
      animations[j] == ProjectionNodeAnimationRef(w.nodes[j], |w.initial| + j, w.duration, w.easing, w.routes[w.nodes[j].id])
    ensures forall j :: 0 <= j < |animations| ==>
      states[|w.initial| + j] == if records[w.nodes[j]] == animations[j] then Pending else Settled(Stopped)
    ensures states[..|w.initial|] == StopTimers(w.initial, RecordTimers(w.before, Visited(w.nodes, |animations|)))
    ensures records.Keys == w.before.Keys + Visited(w.nodes, |animations|)
    ensures forall n :: n in Visited(w.nodes, |animations|) ==>
      && n.id in w.routes
      && records[n].timer >= |w.initial|
      && states[records[n].timer] == Pending
      && records[n].route == w.routes[n.id]
      && records[n].duration == w.duration && records[n].easing == w.easing
    ensures forall n :: n in w.before && n !in Visited(w.nodes, |animations|) ==> records[n] == w.before[n]
    ensures |animations| == |w.nodes| ==> RunningIffRecorded(w.nodes, animations, |w.initial|, records, states)
  {
  }

  /**
   * The `j`-th handle, on timer `t0 + j`, is running iff it is still its
   * node's record; a handle replaced by a later visit of its node was stopped.
   */
  ghost predicate RunningIffRecorded(nodes: seq<ProjectionNode>, refs: seq<ProjectionNodeAnimationRef>, t0: nat,
                                     records: map<ProjectionNode, ProjectionNodeAnimationRef>, states: seq<HandleState>)
  {
    && |refs| == |nodes| && t0 + |refs| <= |states|
    && forall j :: 0 <= j < |nodes| ==>
         nodes[j] in records && states[t0 + j] == if records[nodes[j]] == refs[j] then Pending else Settled(Stopped)
  }

  class ProjectionTreeAnimationEngine {
    const engine: ProjectionNodeAnimationEngine
    /** The aggregate handle most recently started for each root. */
    var records: map<ProjectionNode, ProjectionTreeAnimationRef>

    ghost predicate Valid()
      reads this, engine, engine.timers
    {
      && engine.Valid()
      && forall n :: n in records ==> records[n].root == n
    }

    constructor(engine: ProjectionNodeAnimationEngine)
      requires engine.Valid()
      ensures Valid() && this.engine == engine && records == map[]
    {
      this.engine := engine;
      records := map[];
    }

    /** The timers of the aggregate recorded for `root`, if any. */
    function PreviousTimers(root: ProjectionNode): set<nat>
      reads this
    {
      if root in records then TimerIds(records[root].refs) else {}
    }

    /**
     * The traversal callback run over `nodes` in order: each node's route is
     * looked up and the node engine starts its animation. The walk ends at the
     * first node without a route, so exactly the first
     * `RoutedPrefix(nodes, routes)` nodes are animated; their handles are
     * returned in visiting order, on consecutive new timers. A node met twice
     * keeps the later animation in its record and the earlier one is stopped.
     */
    method AnimateNodes(nodes: seq<ProjectionNode>, duration: real, easing: Easing,
                        routes: map<NodeId, ProjectionNodeAnimationRoute>)
      returns (animations: seq<ProjectionNodeAnimationRef>)
      requires engine.Valid()
      modifies engine, engine.timers, Visited(nodes, RoutedPrefix(nodes, routes))
      ensures engine.Valid()
      ensures |animations| == RoutedPrefix(nodes, routes)
      ensures Progress(Walk(nodes, duration, easing, routes, old(engine.records), old(engine.timers.states)),
                       animations, engine.records, engine.timers.states)
      ensures forall j :: 0 <= j < |animations| ==>
        nodes[j].borderRadiuses == routes[nodes[j].id].borderRadiusesFrom
        && nodes[j].projectedBox == routes[nodes[j].id].boundingBoxFrom
    {
      ghost var k := RoutedPrefix(nodes, routes);
      ghost var w := Walk(nodes, duration, easing, routes, engine.records, engine.timers.states);
      ProgressStart(w, engine.records, engine.timers.states);
      animations := [];
      var i := 0;
      while i < |nodes|
        invariant 0 <= i <= k && |animations| == i
        invariant engine.Valid()
        invariant Progress(w, animations, engine.records, engine.timers.states)
        invariant forall j :: 0 <= j < i ==>
          nodes[j].borderRadiuses == routes[nodes[j].id].borderRadiusesFrom
          && nodes[j].projectedBox == routes[nodes[j].id].boundingBoxFrom
      {
        if nodes[i].id !in routes {
          break;
        }
        assert i < k;
        var animation := AnimateVisit(nodes, duration, easing, routes, w.before, w.initial, animations);
        assert Visited(nodes, i + 1) == Visited(nodes, i) + {nodes[i]};
        animations := animations + [animation];
        i := i + 1;
      }
    }

    /**
     * The callback's work for the next node, `nodes[|animations|]`, whose
     * route is known: the node engine animates it with the tree's timing.
     */
    method AnimateVisit(nodes: seq<ProjectionNode>, duration: real, easing: Easing,
                        routes: map<NodeId, ProjectionNodeAnimationRoute>,
                        ghost before: map<ProjectionNode, ProjectionNodeAnimationRef>, ghost initial: seq<HandleState>,
                        animations: seq<ProjectionNodeAnimationRef>)
      returns (animation: ProjectionNodeAnimationRef)
      requires engine.Valid() && Walk(nodes, duration, easing, routes, before, initial).Started()
      requires |animations| < |nodes| && nodes[|animations|].id in routes
      requires Progress(Walk(nodes, duration, easing, routes, before, initial), animations, engine.records, engine.timers.states)
      modifies engine, engine.timers, nodes[|animations|]
      ensures engine.Valid()
      ensures Progress(Walk(nodes, duration, easing, routes, before, initial), animations + [animation],
                       engine.records, engine.timers.states)
      ensures var node := nodes[|animations|];
        node.borderRadiuses == routes[node.id].borderRadiusesFrom && node.projectedBox == routes[node.id].boundingBoxFrom
    {
      var node := nodes[|animations|];
      ghost var states := engine.timers.states;
      ghost var records := engine.records;
      animation := engine.Animate(node, ProjectionNodeAnimationConfig(duration, easing, routes[node.id]));
      ProgressStep(Walk(nodes, duration, easing, routes, before, initial), animations, records, states,
                   animation, engine.records, engine.timers.states);
    }

    /** Stops the aggregate recorded for `root`, if there is one. */
    method StopPrevious(root: ProjectionNode)
      modifies engine.timers
      ensures engine.timers.states == StopTimers(old(engine.timers.states), PreviousTimers(root))
    {
      if root in records {
        records[root].Stop(engine.timers);
      } else {
        assert StopTimers(engine.timers.states, {}) == engine.timers.states;
      }
    }

    /**
     * Animates every node of the tree, root included, in pre-order, each with
     * the route stored under its id, and records the aggregate handle against
     * the root. The aggregate previously recorded for the root is stopped
     * first. A node without a route fails the call with "Unknown node"; the
     * nodes visited before it stay animated.
     */
    method Animate(root: Tree, duration: real, easing: Easing, routes: map<NodeId, ProjectionNodeAnimationRoute>)
      returns (result: Result<ProjectionTreeAnimationRef>)
      requires Valid()
      modifies this, engine, engine.timers, Reached(root, routes)
      ensures Valid()
      ensures result.Err? <==> RoutedPrefix(Traverse(root), routes) < |Traverse(root)|
      ensures result.Err? ==> result.message == "Unknown node"
      ensures records == if result.Ok? then old(records)[root.node := result.value] else old(records)
      // exactly the previous aggregate's timers and the reached nodes' previous timers are stopped
      ensures var t0 := |old(engine.timers.states)|;
        && |engine.timers.states| == t0 + RoutedPrefix(Traverse(root), routes)
        && engine.timers.states[..t0]
           == StopTimers(old(engine.timers.states),
                         old(PreviousTimers(root.node)) + RecordTimers(old(engine.records), Reached(root, routes)))
      ensures engine.records.Keys == old(engine.records).Keys + Reached(root, routes)
      ensures forall n :: n in Reached(root, routes) ==>
        && engine.records[n].timer >= |old(engine.timers.states)|
        && engine.timers.states[engine.records[n].timer] == Pending
        && engine.records[n].route == routes[n.id]
        && engine.records[n].duration == duration && engine.records[n].easing == easing
      // every node reached shows the first frame of its route
      ensures forall j :: 0 <= j < RoutedPrefix(Traverse(root), routes) ==>
        var n := Traverse(root)[j];
        n.borderRadiuses == routes[n.id].borderRadiusesFrom && n.projectedBox == routes[n.id].boundingBoxFrom
      ensures forall n :: n in old(engine.records) && n !in Reached(root, routes) ==>
        engine.records[n] == old(engine.records)[n]
      ensures result.Ok? ==> var nodes, refs, t0 := Traverse(root), result.value.refs, |old(engine.timers.states)|;
        && result.value.root == root.node
        && |refs| == |nodes|
        && (forall j :: 0 <= j < |nodes| ==>
              refs[j] == ProjectionNodeAnimationRef(nodes[j], t0 + j, duration, easing, routes[nodes[j].id]))
        && RunningIffRecorded(nodes, refs, t0, engine.records, engine.timers.states)
    {
      ghost var initial := engine.timers.states;
      ghost var previous := PreviousTimers(root.node);
      StopPrevious(root.node);
      ghost var afterStop := engine.timers.states;
      var nodes := Traverse(root);
      var animations := AnimateNodes(nodes, duration, easing, routes);
      ProgressOutcome(Walk(nodes, duration, easing, routes, old(engine.records), afterStop),
                      animations, engine.records, engine.timers.states);
      StopTimersTwice(initial, previous, RecordTimers(old(engine.records), Reached(root, routes)));
      if |animations| < |nodes| {
        return Err("Unknown node");
      }
      var ref := ProjectionTreeAnimationRef(root.node, animations);
      records := records[root.node := ref];
      result := Ok(ref);
    }
  }
}
