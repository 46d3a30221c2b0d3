# layout-projection: animation engines and border-radius component, in Dafny

layout-projection animates elements between two layouts by projection. Each
rendered element has a *projection node*. A node carries a stable id, its
current corner radii and the box it is projected onto. When the layout
changes, an animation moves every node of a subtree from where it was to
where it now is.

This project models two parts of that library:

- **The animation engines.** The *node engine* starts one node's animation.
  It stops the node's previous animation, draws the progress-0 frame at
  once, starts a timer and records the new handle against the node. The
  *tree engine* stops the previous aggregate animation of a root. It then
  walks the subtree in pre-order, root first, and hands every node and its
  route to the node engine. It records an aggregate handle against the
  root. A node without a route aborts the walk with "Unknown node". Handles
  expose a promise. A node handle's promise resolves to `Completed` or
  `Stopped`. An aggregate resolves once all its constituents have resolved:
  to `Completed` only if every one completed, else to `Stopped`. Stopping an
  aggregate stops every constituent.
- **The border-radius component.** It reads a node's four corner radii from
  the computed style, resolving percentages against the node's box. It
  writes corner styles that cancel the projection's scale. It plans a
  radius animation from the snapshot's radii to the current ones, and draws
  each frame by linear interpolation.

Modules:

- `Results` (results.dfy): `Option`, and `Result` with an error message. A
  thrown `Error` becomes `Err(message)`.
- `Geometry` (geometry.dfy): popmotion's `mix` as `Mix`, boxes, corner
  radii, and the corner-by-corner interpolation.
- `Projection` (projection.dfy): the node as a class with mutable fields,
  and the node tree with its pre-order walk.
- `AnimationEngines` (animation_engines.dfy):
  - handle and promise states;
  - the timer driver `Timers`;
  - the node and tree engines, as classes whose record maps their methods
    update.
- `BorderRadius` (border_radius.dfy): style parsing, measuring, distortion
  cancelling, planning and frame drawing.

### How time is modelled

popmotion's timer is represented by a `Timers` object. It holds the promise
state of every animation ever started, indexed by timer number:

- `Timers.Start` starts an animation.
- `Timers.Stop` is the handle's stopper, which makes popmotion call `onStop`.
- `Timers.Complete` is the timer's `onComplete`.

A handle is an immutable value naming its node, its timer, and the timing and
route it was started with. The engines' `WeakMap` records are `map` fields,
keyed by node reference.

Everything the tree animation does to the timers is stated against the
driver's states before the call:

- the previous aggregate's timers and the reached nodes' previous timers are
  stopped;
- every other older timer is left alone;
- one new timer is started per reached node.

A reached node that appears twice in the traversal keeps the later handle.
The earlier handle is stopped.

## Model

| member | source | states |
|---|---|---|
| Geometry.Mix | packages/core/src/animation-engines.ts:63-66 | the interpolated value is `from` at progress 0, `to` at progress 1, and constant when both endpoints agree |
| Geometry.MixMonotone | packages/core/src/animation-engines.ts:63-66 | as progress grows, the interpolated value moves strictly towards `to` whenever the endpoints differ |
| Geometry.MixWithin | packages/core/src/animation-engines.ts:63-66 | for a progress in [0, 1], the interpolated value lies between the two endpoints |
| Geometry.MixCorner | packages/core/src/animation-engines.ts:77-84 | a corner mixed axis by axis meets its endpoints at progress 0 and 1 and stays put when both agree |
| Geometry.MixRadiuses | packages/core/src/animation-engines.ts:86-91 | all four corners mixed together meet the `from` and `to` radii at progress 0 and 1 |
| Geometry.MixRadiusesIsLocal | packages/core/src/animation-engines.ts:86-91 | each output coordinate depends only on the same coordinate of `from` and `to` |
| Projection.ProjectionNode.Project | packages/core/src/animation-engines.ts:53 | projecting sets the node's projected box and changes no other field |
| Projection.Traverse | packages/core/src/animation-engines.ts:108-121 | the walk includes the root, and the root comes first |
| Projection.TraverseVisitsTree | packages/core/src/animation-engines.ts:108-121 | a node is visited iff it belongs to the subtree (the reference definition does not depend on order) |
| AnimationEngines.StopState | packages/core/src/animation-engines.ts:35-36 | stopping resolves a pending promise to `Stopped`; a resolved promise keeps its value |
| AnimationEngines.StopTimers | packages/core/src/animation-engines.ts:185 | stopping a set of timers stops exactly those and leaves every other timer's state unchanged |
| AnimationEngines.StopTimersTwice | packages/core/src/animation-engines.ts:185 | stopping two sets in turn is the same as stopping their union once |
| AnimationEngines.CalculateBoundingBox | packages/core/src/animation-engines.ts:56-68 | the interpolated box is the route's `from` box at progress 0 and its `to` box at progress 1, and fixed when they agree |
| AnimationEngines.CalculateBoundingBoxMonotone | packages/core/src/animation-engines.ts:62-67 | as progress grows, each coordinate of the interpolated box moves strictly towards its target, and stays put where the two boxes agree |
| AnimationEngines.CalculateBorderRadiuses | packages/core/src/animation-engines.ts:70-92 | the interpolated radii are the route's `from` radii at progress 0 and its `to` radii at progress 1 |
| AnimationEngines.AggregateResult | packages/core/src/animation-engines.ts:180-184 | the combined result is `Completed` iff every result is `Completed` |
| AnimationEngines.AggregateState | packages/core/src/animation-engines.ts:180-184 | the aggregate is pending iff some constituent is pending; once resolved it is `Completed` iff every constituent completed |
| AnimationEngines.StoppedAggregateSettles | packages/core/src/animation-engines.ts:185 | once every constituent has been stopped, the aggregate is resolved, and it is `Completed` iff every constituent had already completed |
| AnimationEngines.Timers.constructor | packages/core/src/animation-engines.ts:29-37 | a fresh driver has no timers |
| AnimationEngines.Timers.Start | packages/core/src/animation-engines.ts:21-37 | starting adds one timer at the next number, with its promise pending, and leaves the others as they were |
| AnimationEngines.Timers.Stop | packages/core/src/animation-engines.ts:36 | the stopper stops its own timer only |
| AnimationEngines.Timers.Complete | packages/core/src/animation-engines.ts:35 | completion resolves a pending promise to `Completed`; a resolved promise and every other timer are unchanged |
| AnimationEngines.ProjectionTreeAnimationRef.State | packages/core/src/animation-engines.ts:178-188 | the aggregate handle is pending iff a constituent is; once resolved it is `Completed` iff all constituents completed |
| AnimationEngines.ProjectionTreeAnimationRef.Stop | packages/core/src/animation-engines.ts:185 | stopping the aggregate stops exactly its constituents' timers |
| AnimationEngines.StoppedTreeRefSettles | packages/core/src/animation-engines.ts:178-188 | after the aggregate's `stop`, its promise is resolved, to `Completed` iff every constituent had completed before |
| AnimationEngines.ProjectionNodeAnimationEngine.constructor | packages/core/src/animation-engines.ts:11 | a new node engine has no records and meets its invariant |
| AnimationEngines.ProjectionNodeAnimationEngine.Animate | packages/core/src/animation-engines.ts:13-43 | the node's previous animation is stopped, one new pending timer is started for the node with the config's timing and route, the record is replaced, and the node shows the route's first frame; records stay one per node on distinct started timers |
| AnimationEngines.ProjectionNodeAnimationEngine.AnimateFrame | packages/core/src/animation-engines.ts:45-54 | a frame writes the interpolated radii onto the node and projects it onto the interpolated box |
| AnimationEngines.RoutedPrefix | packages/core/src/animation-engines.ts:109-111 | the walk animates exactly the nodes before the first node that has no route |
| AnimationEngines.Reached | packages/core/src/animation-engines.ts:108-121 | every node handed to the node engine has a route |
| AnimationEngines.ProgressStep | packages/core/src/animation-engines.ts:109-118 | one run of the traversal callback keeps the walk's account of handles, timers and records true |
| AnimationEngines.ProjectionTreeAnimationEngine.constructor | packages/core/src/animation-engines.ts:96-98 | a new tree engine wraps its node engine and has no records |
| AnimationEngines.ProjectionTreeAnimationEngine.StopPrevious | packages/core/src/animation-engines.ts:104 | the aggregate recorded for the root, if any, is stopped, and nothing else |
| AnimationEngines.ProjectionTreeAnimationEngine.AnimateVisit | packages/core/src/animation-engines.ts:109-118 | one run of the traversal callback for a node with a route: the node engine animates it with the tree's duration and easing and the node's route, and the walk's account of handles, timers, records and drawn first frames stays true |
| AnimationEngines.ProjectionTreeAnimationEngine.AnimateNodes | packages/core/src/animation-engines.ts:107-121 | the callback walk animates the routed prefix in order: the handles sit on consecutive new timers; a new timer runs iff it is still its node's record; the old timers of visited nodes are stopped; the visited nodes show their first frame |
| AnimationEngines.ProjectionTreeAnimationEngine.Animate | packages/core/src/animation-engines.ts:100-126 | fails with "Unknown node" iff some node of the subtree has no route. On success the aggregate holds one handle per node, in pre-order, on consecutive new timers, and is recorded against the root; each of its handles is running iff it is still its node's record, and stopped when a later visit of the same node replaced it. In both cases exactly the previous aggregate's timers and the reached nodes' previous timers are stopped, and reached nodes get running records and show their first frame |
| BorderRadius.Parse | packages/core/src/components/border-radius.ts:114-132 | a pixel pair is taken as is; a percentage is that share of the width and height; a pixel length applies to both axes; anything else fails with "Unsupported radius: " and the style |
| BorderRadius.PxIsEqualPair | packages/core/src/components/border-radius.ts:119-130 | a single pixel length parses like the pair that repeats it |
| BorderRadius.PercentOfBox | packages/core/src/components/border-radius.ts:123-126 | "100%" is the whole box, "0%" is nothing, and percentages add linearly |
| BorderRadius.Measure | packages/core/src/components/border-radius.ts:95-110 | succeeds iff all four corners parse; each corner is its own style parsed against the box's size; otherwise the first unsupported corner's error, in the order top-left, top-right, bottom-left, bottom-right |
| BorderRadius.MeasureUsesBoxSizeOnly | packages/core/src/components/border-radius.ts:101-102 | measuring depends on the box only through its width and height |
| BorderRadius.MeasurePixelsIgnoresBox | packages/core/src/components/border-radius.ts:101-102 | pixel-only radii measure the same whatever the box |
| BorderRadius.RadiusStyle | packages/core/src/components/border-radius.ts:41-42 | the written pixel pair, scaled back by the projection's scale, is the corner's radius |
| BorderRadius.CancelDistortion | packages/core/src/components/border-radius.ts:36-47 | each of the four corner styles is written for its own corner |
| BorderRadius.UprightPairsReadable | packages/core/src/components/border-radius.ts:41-42 | with a positive vertical scale and non-negative vertical radii, every written pair has a non-negative second length, which the pair pattern at line 119 accepts |
| BorderRadius.CancelDistortionRoundTrip | packages/core/src/components/border-radius.ts:36-47 | when every written pair has a non-negative second length, the written styles measure successfully against any box, and once scaled by the projection they give back exactly the node's radii |
| BorderRadius.BuildPlan | packages/core/src/components/border-radius.ts:53-62 | the route ends at the node's current radii and starts at the snapshot's radii, or at the node's own when there is no snapshot value |
| BorderRadius.PlanWithoutSnapshotIsStill | packages/core/src/components/border-radius.ts:56-60 | without a snapshot, every frame of the plan shows the node's current radii |
| BorderRadius.PlanFromSnapshotEndpoints | packages/core/src/components/border-radius.ts:53-62 | with a snapshot, the first frame shows the snapshot's radii and the last frame the node's current ones |
| BorderRadius.HandleFrame | packages/core/src/components/border-radius.ts:64-89 | a frame sets the node's radii to the route mixed at the progress, which is `from` at 0 and `to` at 1, and leaves the projected box alone |

## Left out

- popmotion's frame scheduling, its easing evaluation and the passage of time are not modelled. The driver is the `Timers` object, the easing curve is handed through untouched, and which frames are drawn between the first and the last is left to the caller of `AnimateFrame`.
- Promise timing is not modelled. A promise is a state that resolves once. When callbacks run relative to other work is outside the model.
- The engines' `WeakMap`s are modelled as maps keyed by node reference. Garbage collection of entries is not modelled.
- The DOM is not modelled. `getComputedStyle`, the element's style writes and `BoundingBox.from(element)` become explicit values: the `RadiusStyles` read and the `RadiusStyles` returned by `CancelDistortion`.
- The parser's text handling is not modelled: the pixel-pair regular expression, `split`, `parseFloat` and the `style-value-types` tests. A computed style is modelled by the form it is accepted in (`CssRadius`), so a malformed number or `NaN` is not represented. The three tests accept disjoint strings (only the pair contains a space, and the two single-value tests differ in unit), so their order is not observable.
- IEEE floating-point arithmetic is modelled by exact reals. Rounding in `mix` and the percentage and scale divisions is not captured.
- projection.ts is not part of this model. `ProjectionNode` keeps only the fields the core reads and writes: id, radii and projected box. `ProjectionDistortion` keeps only `scaleX` and `scaleY`, which `cancelDistortion` reads. `traverse` is modelled as a pre-order walk of a tree value.
- `measureProperties` (border-radius.ts:27-34) only packs `measure`'s result under the `borderRadiuses` key. The model uses `Measure` directly.
- The planning context and the `AnimationHandler`/`AnimationPlan` interfaces that border-radius.ts imports are not present in this version of animation-engines.ts. `BuildPlan` and `HandleFrame` therefore use a local `{from, to}` route of radii.
- The Angular bindings, directives and the demo site are not modelled.
- BorderRadius.RadiusStyle: every written style is modelled as a pixel pair. The source writes the text `<x>px <y>px`, and the pair pattern at border-radius.ts:119 needs a digit right after "px ". A negative second length, which a negative vertical scale (a flipped box) or a negative radius produces, therefore makes the parser fail with "Unsupported radius: " and the written text. The model does not represent that text. `PairReadable` names the condition, and `CancelDistortionRoundTrip` promises the round trip only under it.
- BorderRadius.CancelDistortion, BorderRadius.RadiusStyle: both require non-zero scales. The source divides by the scale, and in JavaScript a zero scale yields `Infinity` or `NaN` pixels, which the real-valued model cannot represent.
- AnimationEngines.Timers.Stop: a timer number that was never started is ignored, which keeps the stopper total. Every handle the engines create names a started timer.
- A failed tree animation is not atomic, and the model follows the code in this. The previous aggregate has already been stopped. The nodes visited before the unknown one have already been animated, their records replaced and their first frames drawn. The tree engine's records are left as they were. A description of the system that promises no partial start does not match this code.
- Missing snapshots and missing routes are not errors in the code. `buildPlan` falls back to the node's own radii, and the node engine starts whatever route it is given, so the model has no such error cases.
