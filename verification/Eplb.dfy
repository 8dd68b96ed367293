/**
 Expert-parallel load balancing. Every rank runs its own `step` calls and blocks inside each
 collective until all ranks have entered it, so two ranks that enter different collectives hang.
 Each rank is a small machine that takes local actions at its own speed; a collective fires when all
 ranks wait in it; a worker per rank offers finished layers at any time.
 */
module Eplb {
  import opened Arithmetic
  import opened Common

  type Loads = seq<seq<real>>
  type Placement = seq<seq<int>>

  /** A call of `step` as all ranks make it; the dummy flag is each rank's own. */
  datatype Call = Profile | Step(logStats: bool)

  /** What the ranks share: sizes, flags, the calls, and the functions they apply to reduced data. */
  datatype Config = Config(
    calls: seq<Call>, interval: int, logInterval: nat, isAsync: bool, layers: seq<nat>, recordOnly: bool,
    rebalance: (Loads, Placement) -> Placement,
    skip: (Loads, Placement, Placement) -> bool,
    reduce: seq<(Loads, Placement)> -> Loads)

  /** Where a rank is. Log, Ready, Reduce and Transfer are collectives it waits in. */
  datatype Control =
    | Fetch
    | Log
    | Record
    | Async(model: nat)
    | Ready(model: nat)
    | Due
    | Reduce(isProfile: bool)
    | Plan(isProfile: bool, model: nat)
    | Transfer(isProfile: bool, model: nat)
    | Raised

  /** What a rank has done that others depend on. */
  datatype Entry =
    | Entered(collective: Control)
    | Started
    | Committed(model: nat, layer: nat)

  /** A finished layer handed over by the async worker, with its new row of the placement; the metadata
      layer is there when it is buffered. */
  datatype Outcome = Outcome(layer: nat, row: seq<int>, metadataLayer: Option<nat>, buffersMatch: bool)

  /** The state of a rank, with three pieces of history: what it entered, what the load reductions gave, and what the
      readiness questions were answered. */
  datatype Rank = Rank(
    control: Control, called: nat, step: int, maps: seq<Placement>, rebalanced: seq<bool>,
    plans: seq<Placement>, done: seq<nat>, reduced: seq<Loads>, trace: seq<Entry>,
    reductions: seq<seq<Loads>>, answers: seq<bool>, windows: seq<Loads>, pending: seq<Option<Outcome>>,
    contribution: bool)

  ghost predicate ConfigOk(c: Config) {
    && c.logInterval > 0
    && forall loads, map' :: |c.rebalance(loads, map')| == |map'|
  }

  predicate Sized(c: Config, r: Rank) {
    && |r.maps| == |r.rebalanced| == |r.plans| == |r.done| == |r.reduced| == |c.layers|
    && |r.windows| == |r.pending| == |c.layers|
    && (r.control.Async? || r.control.Plan? ==> r.control.model <= |c.layers|)
    && (r.control.Ready? || r.control.Transfer? ==> r.control.model < |c.layers|)
  }

  // ---------------------------------------------------------------- one rank

  predicate Waiting(k: Control) {
    k.Log? || k.Ready? || k.Reduce? || k.Transfer?
  }

  predicate Finished(c: Config, r: Rank) {
    r.control.Raised? || (r.control.Fetch? && r.called >= |c.calls|)
  }

  predicate Stuck(c: Config, r: Rank) { Waiting(r.control) || Finished(c, r) }

  function Note(r: Rank, e: Entry): Rank { r.(trace := r.trace + [e]) }

  function Enter(r: Rank, k: Control): Rank { Note(r, Entered(k)).(control := k) }

  function Return(r: Rank): Rank { r.(control := Fetch, called := r.called + 1) }

  predicate AnyRebalanced(r: Rank) {
    exists m :: 0 <= m < |r.rebalanced| && r.rebalanced[m]
  }

  /** The start of `step` up to the first collective. */
  function Dispatch(c: Config, r: Rank): Rank
    requires ConfigOk(c) && r.called < |c.calls|
  {
    match c.calls[r.called]
    case Profile => Enter(r, Reduce(true))
    case Step(logStats) => if logStats && r.step % c.logInterval == 0 then Enter(r, Log) else r.(control := Record)
  }

  /** The load window and the step counter: a dummy step records no load but still counts. */
  function RecordStep(c: Config, r: Rank, isDummy: bool, windows: seq<Loads>): Rank {
    var recorded := if !isDummy && |windows| == |c.layers| then r.(windows := windows) else r;
    recorded.(step := r.step + 1, control := if c.isAsync then Async(0) else Due)
  }

  /** The async check of model `m`: ask the group whether the pending layer is there on every rank. */
  function CheckModel(c: Config, r: Rank, m: nat): Rank
    requires Sized(c, r) && m <= |c.layers|
  {
    if m == |c.layers| then r.(control := Due)
    else if r.rebalanced[m] then Enter(r, Ready(m)).(contribution := r.pending[m].Some?)
    else r.(control := Async(m + 1))
  }

  /** The end of `step`: start a rearrangement when it is due and none is under way. */
  function EndStep(c: Config, r: Rank): Rank {
    if r.step < c.interval || (c.isAsync && AnyRebalanced(r)) then Return(r)
    else
      var begun := if c.isAsync then Note(r, Started) else r;
      Enter(begun.(step := 0), Reduce(false))
  }

  /** One model of the rearrangement loop, up to the weight transfer. */
  function PlanModel(c: Config, r: Rank, isProfile: bool, m: nat): Rank
    requires Sized(c, r) && m < |c.layers|
  {
    var map' := c.rebalance(r.reduced[m], r.maps[m]);
    if c.isAsync && !isProfile then
      r.(rebalanced := r.rebalanced[m := true], plans := r.plans[m := map'], done := r.done[m := 0],
         control := Plan(isProfile, m + 1))
    else if (!isProfile && c.skip(r.reduced[m], r.maps[m], map')) || c.recordOnly then
      r.(control := Plan(isProfile, m + 1))
    else Enter(r, Transfer(isProfile, m))
  }

  /** A local action; a rank that waits or has finished stays as it is. `isDummy` and `windows` are
      this rank's own. */
  function Act(c: Config, r: Rank, isDummy: bool, windows: seq<Loads>): (r': Rank)
    requires ConfigOk(c) && Sized(c, r)
    ensures Sized(c, r')
  {
    if Stuck(c, r) then r
    else match r.control
      case Fetch => Dispatch(c, r)
      case Record => RecordStep(c, r, isDummy, windows)
      case Async(m) => CheckModel(c, r, m)
      case Due => EndStep(c, r)
      case Plan(isProfile, m) => if m == |c.layers| then Return(r) else PlanModel(c, r, isProfile, m)
  }

  /** _move_to_workspace: commit the pending layer; the last one ends the rearrangement. */
  function CommitLayer(c: Config, r: Rank, m: nat): Rank
    requires Sized(c, r) && m < |c.layers| && r.pending[m].Some?
  {
    var result := r.pending[m].value;
    if (result.metadataLayer.Some? && result.metadataLayer.value != result.layer) || !result.buffersMatch
       || result.layer >= |r.maps[m]| then
      r.(control := Raised)
    else
      Note(r, Committed(m, result.layer)).(
        maps := r.maps[m := r.maps[m][result.layer := result.row]],
        rebalanced := if result.layer + 1 == c.layers[m] then r.rebalanced[m := false] else r.rebalanced,
        done := r.done[m := r.done[m] + 1],
        pending := r.pending[m := None],
        control := Async(m + 1))
  }

  /** What a collective gives every rank that waits in it. */
  datatype Answer = Answer(ready: bool, reduced: seq<Loads>)

  /** Leave the collective. */
  function Resume(c: Config, r: Rank, a: Answer): Rank
    requires Sized(c, r) && Waiting(r.control) && |a.reduced| == |c.layers|
    requires r.control.Ready? && a.ready ==> r.pending[r.control.model].Some?
  {
    match r.control
    case Log => r.(control := Record)
    case Ready(m) =>
      var r' := r.(answers := r.answers + [a.ready]);
      if a.ready then CommitLayer(c, r', m) else r'.(control := Async(m + 1))
    case Reduce(isProfile) =>
      r.(reduced := a.reduced, reductions := r.reductions + [a.reduced], control := Plan(isProfile, 0))
    case Transfer(isProfile, m) =>
      var map' := c.rebalance(r.reduced[m], r.maps[m]);
      r.(maps := if isProfile then r.maps else r.maps[m := map'], control := Plan(isProfile, m + 1))
  }

  /** What is assumed of the worker of a rank: while a rearrangement is under way and the previous layer
      has been consumed, it hands over the next layer, with the row of the plan made from the snapshot, in
      buffers that match and, when buffered, with metadata of that layer. */
  predicate CanOffer(c: Config, r: Rank, m: nat, o: Outcome)
    requires Sized(c, r)
  {
    && m < |c.layers| && r.rebalanced[m] && r.pending[m].None?
    && o.layer == r.done[m] < c.layers[m] && o.layer < |r.plans[m]| && o.row == r.plans[m][o.layer]
    && o.buffersMatch && (o.metadataLayer.Some? ==> o.metadataLayer.value == o.layer)
  }

  function Offer(c: Config, r: Rank, m: nat, o: Outcome): Rank
    requires Sized(c, r) && CanOffer(c, r, m, o)
  {
    r.(pending := r.pending[m := Some(o)])
  }

  // ---------------------------------------------------------------- the group

  type World = seq<Rank>

  datatype Event =
    | Local(rank: nat, isDummy: bool, windows: seq<Loads>)
    | Worker(rank: nat, model: nat, outcome: Outcome)
    | Fire

  predicate AllSized(c: Config, w: World) {
    forall i :: 0 <= i < |w| ==> Sized(c, w[i])
  }

  /** All ranks wait in one and the same collective: only then does it complete. */
  predicate CanFire(w: World) {
    |w| > 0 && Waiting(w[0].control) && forall i :: 0 <= i < |w| ==> w[i].control == w[0].control
  }

  /** The AND of the ranks' contributions, and the reduction of all their windows. */
  function Collect(c: Config, w: World): Answer
    requires AllSized(c, w)
  {
    Answer(forall i :: 0 <= i < |w| ==> w[i].contribution,
           seq(|c.layers|, m requires 0 <= m < |c.layers| => c.reduce(Inputs(c, w, m))))
  }

  function Inputs(c: Config, w: World, m: nat): seq<(Loads, Placement)>
    requires AllSized(c, w) && m < |c.layers|
  {
    seq(|w|, i requires 0 <= i < |w| => assert Sized(c, w[i]); (w[i].windows[m], w[i].maps[m]))
  }

  /** A contributed readiness stands: only the rank itself takes the result away. */
  predicate Stands(c: Config, r: Rank)
    requires Sized(c, r)
  {
    r.control.Ready? && r.contribution ==> r.pending[r.control.model].Some?
  }

  predicate AllStand(c: Config, w: World)
    requires AllSized(c, w)
  {
    forall i :: 0 <= i < |w| ==> Stands(c, w[i])
  }

  function FireAll(c: Config, w: World): World
    requires AllSized(c, w) && AllStand(c, w) && CanFire(w)
  {
    var a := Collect(c, w);
    seq(|w|, i requires 0 <= i < |w| => assert Sized(c, w[i]) && Stands(c, w[i]); Resume(c, w[i], a))
  }

  /** One event of the group; None when it cannot happen now. */
  function Next(c: Config, w: World, e: Event): Option<World>
    requires ConfigOk(c) && AllSized(c, w) && AllStand(c, w)
  {
    match e
    case Local(i, isDummy, windows) =>
      if i < |w| then Some(w[i := Act(c, w[i], isDummy, windows)]) else None
    case Worker(i, m, o) =>
      if i < |w| && CanOffer(c, w[i], m, o) then Some(w[i := Offer(c, w[i], m, o)]) else None
    case Fire => if CanFire(w) then Some(FireAll(c, w)) else None
  }

  // ---------------------------------------------------------------- what a rank keeps

  /** The layers of model `m` committed since the last start. */
  function CommitsSince(trace: seq<Entry>, m: nat): seq<nat> {
    if trace == [] || trace[|trace| - 1].Started? then []
    else
      var rest := CommitsSince(trace[..|trace| - 1], m);
      var e := trace[|trace| - 1];
      if e.Committed? && e.model == m then rest + [e.layer] else rest
  }

  function Upto(n: nat): seq<nat> { seq(n, i => i) }

  predicate HasStarted(trace: seq<Entry>) {
    exists k :: 0 <= k < |trace| && trace[k].Started?
  }

  /** No rearrangement starts before every layer of the previous one is committed, in order. */
  predicate Orderly(c: Config, trace: seq<Entry>) {
    forall k :: 0 <= k < |trace| && trace[k].Started? && HasStarted(trace[..k]) ==>
      AllCommitted(c, trace[..k])
  }

  predicate AllCommitted(c: Config, trace: seq<Entry>) {
    forall m :: 0 <= m < |c.layers| ==> CommitsSince(trace, m) == Upto(c.layers[m])
  }

  /** The rearrangement has been announced but model `m` has not joined it yet. */
  predicate Starting(c: Config, r: Rank, m: nat) {
    c.isAsync && (r.control == Reduce(false) || (r.control.Plan? && !r.control.isProfile && r.control.model <= m))
  }

  predicate RankOk(c: Config, r: Rank) {
    && Sized(c, r)
    && !r.control.Raised?
    && Stands(c, r)
    && Orderly(c, r.trace)
    && (HasStarted(r.trace) ==> c.isAsync)
    && (r.control.Async? || r.control.Ready? ==> c.isAsync)
    && (r.control.Ready? ==> r.rebalanced[r.control.model])
    && (r.control == Reduce(false) && c.isAsync ==> HasStarted(r.trace))
    && (r.control.Plan? && !r.control.isProfile && c.isAsync ==> HasStarted(r.trace))
    && (r.control.Transfer? && !r.control.isProfile ==> !c.isAsync)
    && forall m :: 0 <= m < |c.layers| ==> ModelOk(c, r, m)
  }

  predicate ModelOk(c: Config, r: Rank, m: nat)
    requires Sized(c, r) && m < |c.layers|
  {
    && |r.maps[m]| == c.layers[m]
    && (r.rebalanced[m] ==>
         && c.isAsync && HasStarted(r.trace) && !Starting(c, r, m)
         && r.done[m] <= c.layers[m] && (r.done[m] == c.layers[m] ==> c.layers[m] == 0)
         && |r.plans[m]| == c.layers[m]
         && r.maps[m][..r.done[m]] == r.plans[m][..r.done[m]])
    && (r.pending[m].Some? ==> r.rebalanced[m] && GoodOutcome(c, r, m))
    && (HasStarted(r.trace) ==> CommitsSince(r.trace, m) == Upto(Expected(c, r, m)))
    && (HasStarted(r.trace) && !r.rebalanced[m] && !Starting(c, r, m) ==> r.maps[m] == r.plans[m])
  }

  predicate GoodOutcome(c: Config, r: Rank, m: nat)
    requires Sized(c, r) && m < |c.layers| && r.pending[m].Some?
  {
    var o := r.pending[m].value;
    && o.layer == r.done[m] < c.layers[m] && o.layer < |r.plans[m]| && o.row == r.plans[m][o.layer]
    && o.buffersMatch && (o.metadataLayer.Some? ==> o.metadataLayer.value == o.layer)
  }

  /** How many layers of model `m` are committed since the last start. */
  function Expected(c: Config, r: Rank, m: nat): nat
    requires Sized(c, r) && m < |c.layers|
  {
    if Starting(c, r, m) then 0 else if r.rebalanced[m] then r.done[m] else c.layers[m]
  }

  // ---------------------------------------------------------------- traces

  lemma StartedNoted(trace: seq<Entry>, e: Entry)
    ensures HasStarted(trace + [e]) == (e.Started? || HasStarted(trace))
  {
    var trace' := trace + [e];
    if e.Started? {
      assert trace'[|trace|].Started?;
    } else if HasStarted(trace) {
      var k :| 0 <= k < |trace| && trace[k].Started?;
      assert trace'[k].Started?;
    }
  }

  lemma CommitsNoted(trace: seq<Entry>, e: Entry, m: nat)
    ensures e.Started? ==> CommitsSince(trace + [e], m) == []
    ensures e.Entered? ==> CommitsSince(trace + [e], m) == CommitsSince(trace, m)
    ensures e.Committed? ==>
              CommitsSince(trace + [e], m) == CommitsSince(trace, m) + if e.model == m then [e.layer] else []
  {
    assert (trace + [e])[..|trace + [e]| - 1] == trace;
  }

  lemma OrderlyNoted(c: Config, trace: seq<Entry>, e: Entry)
    requires Orderly(c, trace)
    requires e.Started? && HasStarted(trace) ==> AllCommitted(c, trace)
    ensures Orderly(c, trace + [e])
  {
    var trace' := trace + [e];
    forall k | 0 <= k < |trace'| && trace'[k].Started? && HasStarted(trace'[..k]) ensures AllCommitted(c, trace'[..k]) {
      if k < |trace| {
        assert trace'[..k] == trace[..k] && trace[k].Started?;
      } else {
        assert trace'[..k] == trace;
      }
    }
  }

  // ---------------------------------------------------------------- one rank keeps its invariant

  /** Model `m` looks the same in both ranks. */
  predicate SameModel(c: Config, r: Rank, r': Rank, m: nat)
    requires Sized(c, r) && Sized(c, r') && m < |c.layers|
  {
    && r'.maps[m] == r.maps[m] && r'.rebalanced[m] == r.rebalanced[m] && r'.plans[m] == r.plans[m]
    && r'.done[m] == r.done[m] && r'.pending[m] == r.pending[m]
  }

  lemma ModelKept(c: Config, r: Rank, r': Rank, m: nat)
    requires Sized(c, r) && Sized(c, r') && m < |c.layers| && ModelOk(c, r, m) && SameModel(c, r, r', m)
    requires Starting(c, r, m) == Starting(c, r', m)
    requires HasStarted(r'.trace) == HasStarted(r.trace) && CommitsSince(r'.trace, m) == CommitsSince(r.trace, m)
    ensures ModelOk(c, r', m)
  {
  }

  /** An action that only moves the control, and possibly enters a collective. */
  lemma MoveKeeps(c: Config, r: Rank, r': Rank)
    requires RankOk(c, r) && Sized(c, r') && Stands(c, r')
    requires r'.maps == r.maps && r'.rebalanced == r.rebalanced && r'.plans == r.plans && r'.done == r.done
    requires r'.pending == r.pending
    requires r'.trace == r.trace || r'.trace == r.trace + [Entered(r'.control)]
    requires forall m :: 0 <= m < |c.layers| ==> Starting(c, r, m) == Starting(c, r', m)
    requires !r'.control.Raised?
    requires r'.control.Async? || r'.control.Ready? ==> c.isAsync
    requires r'.control.Ready? ==> r.rebalanced[r'.control.model]
    requires r'.control == Reduce(false) && c.isAsync ==> HasStarted(r.trace)
    requires r'.control.Plan? && !r'.control.isProfile && c.isAsync ==> HasStarted(r.trace)
    requires r'.control.Transfer? && !r'.control.isProfile ==> !c.isAsync
    ensures RankOk(c, r')
  {
    if r'.trace != r.trace {
      var k := r'.control;
      StartedNoted(r.trace, Entered(k));
      OrderlyNoted(c, r.trace, Entered(k));
      forall m | 0 <= m < |c.layers| ensures ModelOk(c, r', m) {
        CommitsNoted(r.trace, Entered(k), m);
        assert ModelOk(c, r, m) && SameModel(c, r, r', m);
        ModelKept(c, r, r', m);
      }
    } else {
      forall m | 0 <= m < |c.layers| ensures ModelOk(c, r', m) {
        assert ModelOk(c, r, m) && SameModel(c, r, r', m);
        ModelKept(c, r, r', m);
      }
    }
  }

  lemma StartTrace(c: Config, r: Rank)
    requires RankOk(c, r) && r.control.Due? && !AnyRebalanced(r)
    ensures var trace := r.trace + [Started] + [Entered(Reduce(false))];
            Orderly(c, trace) && HasStarted(trace) && forall m :: 0 <= m < |c.layers| ==> CommitsSince(trace, m) == []
  {
    var middle := r.trace + [Started];
    StartedNoted(r.trace, Started);
    StartedNoted(middle, Entered(Reduce(false)));
    forall m | 0 <= m < |c.layers|
      ensures HasStarted(r.trace) ==> CommitsSince(r.trace, m) == Upto(c.layers[m])
    {
      assert ModelOk(c, r, m);
    }
    OrderlyNoted(c, r.trace, Started);
    OrderlyNoted(c, middle, Entered(Reduce(false)));
    forall m | 0 <= m < |c.layers| ensures CommitsSince(middle + [Entered(Reduce(false))], m) == [] {
      CommitsNoted(r.trace, Started, m);
      CommitsNoted(middle, Entered(Reduce(false)), m);
    }
  }

  lemma EndStepKeeps(c: Config, r: Rank)
    requires RankOk(c, r) && r.control.Due?
    ensures RankOk(c, EndStep(c, r))
  {
    var r' := EndStep(c, r);
    if r'.control.Fetch? || !c.isAsync {
      MoveKeeps(c, r, r');
    } else {
      StartTrace(c, r);
      assert r'.trace == r.trace + [Started] + [Entered(Reduce(false))];
      forall m | 0 <= m < |c.layers| ensures ModelOk(c, r', m) {
        assert ModelOk(c, r, m) && SameModel(c, r, r', m);
        assert CommitsSince(r'.trace, m) == Upto(0);
      }
    }
  }

  lemma PlanKeeps(c: Config, r: Rank, m: nat, isProfile: bool)
    requires ConfigOk(c) && RankOk(c, r) && m < |c.layers| && r.control == Plan(isProfile, m)
    ensures RankOk(c, PlanModel(c, r, isProfile, m))
  {
    var r' := PlanModel(c, r, isProfile, m);
    assert ModelOk(c, r, m);
    if c.isAsync && !isProfile {
      forall j | 0 <= j < |c.layers| ensures ModelOk(c, r', j) {
        assert ModelOk(c, r, j);
        if j != m { ModelKept(c, r, r', j); }
      }
    } else {
      MoveKeeps(c, r, r');
    }
  }

  lemma DispatchKeeps(c: Config, r: Rank)
    requires ConfigOk(c) && RankOk(c, r) && r.control.Fetch? && r.called < |c.calls|
    ensures RankOk(c, Dispatch(c, r))
  {
    MoveKeeps(c, r, Dispatch(c, r));
  }

  lemma CheckKeeps(c: Config, r: Rank, m: nat)
    requires ConfigOk(c) && RankOk(c, r) && r.control == Async(m)
    ensures RankOk(c, CheckModel(c, r, m))
  {
    MoveKeeps(c, r, CheckModel(c, r, m));
  }

  lemma ActKeeps(c: Config, r: Rank, isDummy: bool, windows: seq<Loads>)
    requires ConfigOk(c) && RankOk(c, r)
    ensures RankOk(c, Act(c, r, isDummy, windows))
  {
    var r' := Act(c, r, isDummy, windows);
    if Stuck(c, r) {
    } else {
      match r.control
      case Due => EndStepKeeps(c, r);
      case Plan(isProfile, m) => if m < |c.layers| { PlanKeeps(c, r, m, isProfile); } else { MoveKeeps(c, r, r'); }
      case Fetch => DispatchKeeps(c, r);
      case Async(m) => CheckKeeps(c, r, m);
      case Record => MoveKeeps(c, r, r');
    }
  }

  lemma CommitKeeps(c: Config, r: Rank, m: nat)
    requires RankOk(c, r) && r.control == Ready(m) && r.pending[m].Some?
    ensures RankOk(c, CommitLayer(c, r, m))
  {
    var r' := CommitLayer(c, r, m);
    assert ModelOk(c, r, m);
    var e := Committed(m, r.done[m]);
    assert r'.trace == r.trace + [e];
    StartedNoted(r.trace, e);
    OrderlyNoted(c, r.trace, e);
    forall j | 0 <= j < |c.layers| ensures ModelOk(c, r', j) {
      assert ModelOk(c, r, j);
      CommitsNoted(r.trace, e, j);
      if j != m { ModelKept(c, r, r', j); } else { CommitModel(c, r, m); }
    }
  }

  lemma CommitModel(c: Config, r: Rank, m: nat)
    requires RankOk(c, r) && r.control == Ready(m) && r.pending[m].Some?
    ensures Sized(c, CommitLayer(c, r, m)) && ModelOk(c, CommitLayer(c, r, m), m)
  {
    var r' := CommitLayer(c, r, m);
    assert ModelOk(c, r, m);
    var n := r.done[m];
    var e := Committed(m, n);
    assert r'.trace == r.trace + [e];
    StartedNoted(r.trace, e);
    CommitsNoted(r.trace, e, m);
    assert Upto(n) + [n] == Upto(n + 1);
    assert r'.maps[m][..n] == r.maps[m][..n];
    assert r'.maps[m][..n + 1] == r'.maps[m][..n] + [r.plans[m][n]] == r.plans[m][..n + 1];
    if n + 1 == c.layers[m] {
      assert r'.maps[m] == r'.maps[m][..n + 1] && r.plans[m] == r.plans[m][..n + 1];
    }
  }

  lemma ResumeKeeps(c: Config, r: Rank, a: Answer)
    requires ConfigOk(c) && RankOk(c, r) && Waiting(r.control) && |a.reduced| == |c.layers|
    requires r.control.Ready? && a.ready ==> r.pending[r.control.model].Some?
    ensures RankOk(c, Resume(c, r, a))
  {
    var r' := Resume(c, r, a);
    match r.control
    case Log => MoveKeeps(c, r, r');
    case Ready(m) =>
      var q := r.(answers := r.answers + [a.ready]);
      MoveKeeps(c, r, q);
      if a.ready { CommitKeeps(c, q, m); } else { MoveKeeps(c, r, r'); }
    case Reduce(isProfile) => MoveKeeps(c, r, r');
    case Transfer(isProfile, m) =>
      assert ModelOk(c, r, m);
      if isProfile { MoveKeeps(c, r, r'); } else {
        forall j | 0 <= j < |c.layers| ensures ModelOk(c, r', j) {
          assert ModelOk(c, r, j);
        }
      }
  }

  lemma OfferKeeps(c: Config, r: Rank, m: nat, o: Outcome)
    requires RankOk(c, r) && CanOffer(c, r, m, o)
    ensures RankOk(c, Offer(c, r, m, o))
  {
    var r' := Offer(c, r, m, o);
    forall j | 0 <= j < |c.layers| ensures ModelOk(c, r', j) {
      assert ModelOk(c, r, j);
    }
  }

  // ---------------------------------------------------------------- ranks agree

  /** A rank without what is its own: its load windows and what its worker has offered. */
  function Decisions(r: Rank): Rank { r.(windows := [], pending := [], contribution := false) }

  /** `n` local actions. */
  function Iterate(c: Config, r: Rank, n: nat): (r': Rank)
    requires ConfigOk(c) && Sized(c, r)
    ensures Sized(c, r')
    decreases n
  {
    if n == 0 then r else Iterate(c, Act(c, r, true, []), n - 1)
  }

  /** Two ranks that local actions alone bring to the same decisions. */
  ghost predicate Aligned(c: Config, r: Rank, q: Rank)
    requires ConfigOk(c) && Sized(c, r) && Sized(c, q)
  {
    exists a: nat, b: nat :: Decisions(Iterate(c, r, a)) == Decisions(Iterate(c, q, b))
  }

  lemma PlanRespects(c: Config, r: Rank, q: Rank, isProfile: bool, m: nat)
    requires Sized(c, r) && Sized(c, q) && Decisions(r) == Decisions(q) && m < |c.layers|
    ensures Decisions(PlanModel(c, r, isProfile, m)) == Decisions(PlanModel(c, q, isProfile, m))
  {
    assert r.maps == q.maps && r.reduced == q.reduced && r.trace == q.trace;
  }

  lemma CheckRespects(c: Config, r: Rank, q: Rank, m: nat)
    requires Sized(c, r) && Sized(c, q) && Decisions(r) == Decisions(q) && m <= |c.layers|
    ensures Decisions(CheckModel(c, r, m)) == Decisions(CheckModel(c, q, m))
  {
    assert r.rebalanced == q.rebalanced && r.trace == q.trace;
  }

  lemma EndStepRespects(c: Config, r: Rank, q: Rank)
    requires Decisions(r) == Decisions(q)
    ensures Decisions(EndStep(c, r)) == Decisions(EndStep(c, q))
  {
    assert r.rebalanced == q.rebalanced && r.step == q.step && r.trace == q.trace;
  }

  lemma DispatchRespects(c: Config, r: Rank, q: Rank)
    requires ConfigOk(c) && Decisions(r) == Decisions(q) && r.called < |c.calls|
    ensures q.called == r.called && Decisions(Dispatch(c, r)) == Decisions(Dispatch(c, q))
  {
    assert r.called == q.called && r.step == q.step && r.trace == q.trace;
  }

  /** What a rank decides depends neither on its dummy flag nor on its loads. */
  lemma ActRespects(c: Config, r: Rank, q: Rank, d: bool, e: bool, ws: seq<Loads>, vs: seq<Loads>)
    requires ConfigOk(c) && Sized(c, r) && Sized(c, q) && Decisions(r) == Decisions(q)
    ensures Decisions(Act(c, r, d, ws)) == Decisions(Act(c, q, e, vs))
  {
    assert r.control == q.control && r.called == q.called;
    if !Stuck(c, r) {
      match r.control
      case Fetch => DispatchRespects(c, r, q);
      case Record =>
      case Async(m) => CheckRespects(c, r, q, m);
      case Due => EndStepRespects(c, r, q);
      case Plan(isProfile, m) => if m < |c.layers| { PlanRespects(c, r, q, isProfile, m); }
    }
  }

  lemma {:induction false} IterateRespects(c: Config, r: Rank, q: Rank, n: nat)
    requires ConfigOk(c) && Sized(c, r) && Sized(c, q) && Decisions(r) == Decisions(q)
    ensures Decisions(Iterate(c, r, n)) == Decisions(Iterate(c, q, n))
    decreases n
  {
    if n > 0 {
      ActRespects(c, r, q, true, true, [], []);
      IterateRespects(c, Act(c, r, true, []), Act(c, q, true, []), n - 1);
    }
  }

  lemma {:induction false} IterateNext(c: Config, r: Rank, n: nat)
    requires ConfigOk(c) && Sized(c, r)
    ensures Iterate(c, r, n + 1) == Act(c, Iterate(c, r, n), true, [])
    decreases n
  {
    if n > 0 { IterateNext(c, Act(c, r, true, []), n - 1); }
  }

  lemma {:induction false} IterateStuck(c: Config, r: Rank, n: nat)
    requires ConfigOk(c) && Sized(c, r) && Stuck(c, r)
    ensures Iterate(c, r, n) == r
  {
    if n > 0 { IterateStuck(c, r, n - 1); }
  }

  lemma AlignedSymmetric(c: Config, r: Rank, q: Rank)
    requires ConfigOk(c) && Sized(c, r) && Sized(c, q) && Aligned(c, r, q)
    ensures Aligned(c, q, r)
  {
    var a: nat, b: nat :| Decisions(Iterate(c, r, a)) == Decisions(Iterate(c, q, b));
    assert Decisions(Iterate(c, q, b)) == Decisions(Iterate(c, r, a));
  }

  lemma EqualAreAligned(c: Config, r: Rank, q: Rank)
    requires ConfigOk(c) && Sized(c, r) && Sized(c, q) && Decisions(r) == Decisions(q)
    ensures Aligned(c, r, q)
  {
    assert Iterate(c, r, 0) == r && Iterate(c, q, 0) == q;
  }

  /** Changing what is a rank's own keeps it aligned. */
  lemma OwnIsFree(c: Config, r: Rank, r': Rank, q: Rank)
    requires ConfigOk(c) && Sized(c, r) && Sized(c, r') && Sized(c, q) && Aligned(c, r, q)
    requires Decisions(r) == Decisions(r')
    ensures Aligned(c, r', q)
  {
    var a: nat, b: nat :| Decisions(Iterate(c, r, a)) == Decisions(Iterate(c, q, b));
    IterateRespects(c, r, r', a);
    assert Decisions(Iterate(c, r', a)) == Decisions(Iterate(c, q, b));
  }

  lemma ActAligned(c: Config, r: Rank, q: Rank, isDummy: bool, windows: seq<Loads>)
    requires ConfigOk(c) && Sized(c, r) && Sized(c, q) && Aligned(c, r, q)
    ensures Aligned(c, Act(c, r, isDummy, windows), q)
  {
    var a: nat, b: nat :| Decisions(Iterate(c, r, a)) == Decisions(Iterate(c, q, b));
    var plain := Act(c, r, true, []);
    if a == 0 {
      IterateNext(c, q, b);
      ActRespects(c, r, Iterate(c, q, b), true, true, [], []);
      assert Decisions(Iterate(c, plain, 0)) == Decisions(Iterate(c, q, b + 1));
    } else {
      assert Decisions(Iterate(c, plain, a - 1)) == Decisions(Iterate(c, q, b));
    }
    ActRespects(c, r, r, true, isDummy, [], windows);
    OwnIsFree(c, plain, Act(c, r, isDummy, windows), q);
  }

  /** Two ranks that cannot act have decided the same. */
  lemma StuckAgree(c: Config, r: Rank, q: Rank)
    requires ConfigOk(c) && Sized(c, r) && Sized(c, q) && Aligned(c, r, q) && Stuck(c, r) && Stuck(c, q)
    ensures Decisions(r) == Decisions(q)
  {
    var a: nat, b: nat :| Decisions(Iterate(c, r, a)) == Decisions(Iterate(c, q, b));
    IterateStuck(c, r, a);
    IterateStuck(c, q, b);
  }

  lemma ResumeRespects(c: Config, r: Rank, q: Rank, a: Answer)
    requires RankOk(c, r) && RankOk(c, q) && Decisions(r) == Decisions(q)
    requires Waiting(r.control) && |a.reduced| == |c.layers|
    requires r.control.Ready? && a.ready ==> r.pending[r.control.model].Some? && q.pending[q.control.model].Some?
    ensures Decisions(Resume(c, r, a)) == Decisions(Resume(c, q, a))
  {
    if r.control.Ready? && a.ready {
      var m := r.control.model;
      assert ModelOk(c, r, m) && ModelOk(c, q, m);
      assert r.maps == q.maps && r.plans == q.plans && r.done == q.done && r.rebalanced == q.rebalanced
          && r.trace == q.trace;
    }
  }

  // ---------------------------------------------------------------- the group keeps its invariant

  ghost predicate WorldOk(c: Config, w: World)
    requires ConfigOk(c)
  {
    && (forall i :: 0 <= i < |w| ==> RankOk(c, w[i]))
    && forall i, j :: 0 <= i < |w| && 0 <= j < |w| ==> Aligned(c, w[i], w[j])
  }

  /** One rank changes and stays aligned with the others. */
  lemma ReplaceKeeps(c: Config, w: World, i: nat, r': Rank)
    requires ConfigOk(c) && WorldOk(c, w) && i < |w| && RankOk(c, r')
    requires forall j :: 0 <= j < |w| ==> Aligned(c, r', w[j])
    ensures WorldOk(c, w[i := r'])
  {
    var w' := w[i := r'];
    forall j, k | 0 <= j < |w| && 0 <= k < |w| ensures Aligned(c, w'[j], w'[k]) {
      assert Aligned(c, r', w[j]) && Aligned(c, r', w[k]);
      if j != i && k == i {
        AlignedSymmetric(c, r', w[j]);
      } else if j == i && k == i {
        EqualAreAligned(c, r', r');
      }
    }
  }

  lemma FireKeeps(c: Config, w: World)
    requires ConfigOk(c) && WorldOk(c, w) && CanFire(w)
    ensures AllSized(c, w) && AllStand(c, w) && WorldOk(c, FireAll(c, w))
  {
    var w' := FireAll(c, w);
    var a := Collect(c, w);
    forall i | 0 <= i < |w| ensures RankOk(c, w'[i]) {
      assert RankOk(c, w[i]) && (a.ready ==> w[i].contribution);
      ResumeKeeps(c, w[i], a);
    }
    forall i, j | 0 <= i < |w| && 0 <= j < |w| ensures Aligned(c, w'[i], w'[j]) {
      assert RankOk(c, w[i]) && RankOk(c, w[j]) && Aligned(c, w[i], w[j]);
      assert a.ready ==> w[i].contribution && w[j].contribution;
      StuckAgree(c, w[i], w[j]);
      ResumeRespects(c, w[i], w[j], a);
      assert RankOk(c, w'[i]) && RankOk(c, w'[j]);
      EqualAreAligned(c, w'[i], w'[j]);
    }
  }

  lemma NextKeeps(c: Config, w: World, e: Event)
    requires ConfigOk(c) && WorldOk(c, w)
    ensures AllSized(c, w) && AllStand(c, w)
    ensures var next := Next(c, w, e); next.Some? ==> WorldOk(c, next.value) && |next.value| == |w|
  {
    match e
    case Local(i, isDummy, windows) =>
      if i < |w| {
        var r' := Act(c, w[i], isDummy, windows);
        ActKeeps(c, w[i], isDummy, windows);
        forall j | 0 <= j < |w| ensures Aligned(c, r', w[j]) {
          ActAligned(c, w[i], w[j], isDummy, windows);
        }
        ReplaceKeeps(c, w, i, r');
      }
    case Worker(i, m, o) =>
      if i < |w| && CanOffer(c, w[i], m, o) {
        var r' := Offer(c, w[i], m, o);
        OfferKeeps(c, w[i], m, o);
        forall j | 0 <= j < |w| ensures Aligned(c, r', w[j]) {
          OwnIsFree(c, w[i], r', w[j]);
        }
        ReplaceKeeps(c, w, i, r');
      }
    case Fire => if CanFire(w) { FireKeeps(c, w); }
  }

  // ---------------------------------------------------------------- work left

  /** How far control is from the end of its call. */
  function Distance(c: Config, k: Control): int {
    var n := |c.layers|;
    match k
    case Fetch => 4 * n + 7
    case Log => 4 * n + 6
    case Record => 4 * n + 5
    case Async(m) => 4 * n + 4 - 2 * m
    case Ready(m) => 4 * n + 3 - 2 * m
    case Due => 2 * n + 3
    case Reduce(_) => 2 * n + 2
    case Plan(_, m) => 2 * n + 1 - 2 * m
    case Transfer(_, m) => 2 * n - 2 * m
    case Raised => 0
  }

  function Calls(c: Config, n: int): int { n * (4 * |c.layers| + 8) }

  /** The actions a rank has left. */
  function Left(c: Config, r: Rank): int {
    Calls(c, |c.calls| - r.called) + Distance(c, r.control) - Distance(c, Fetch)
  }

  predicate InCalls(c: Config, r: Rank) {
    r.called <= |c.calls| && (!r.control.Fetch? ==> r.called < |c.calls|)
  }

  lemma OneCallLess(c: Config, n: int)
    ensures Calls(c, n) == Calls(c, n - 1) + 4 * |c.layers| + 8
  {
  }

  lemma CallsNonNegative(c: Config, n: nat)
    ensures Calls(c, n) >= 0
  {
  }

  lemma LeftIsNat(c: Config, r: Rank)
    requires Sized(c, r) && InCalls(c, r)
    ensures Left(c, r) >= 0
  {
    var n := |c.calls| - r.called;
    if n > 0 {
      OneCallLess(c, n);
      CallsNonNegative(c, n - 1);
    } else {
      assert n == 0 && Calls(c, n) == 0;
    }
  }

  /** Going on inside a call. */
  lemma MoveShrinks(c: Config, r: Rank, r': Rank)
    requires InCalls(c, r) && r'.called == r.called < |c.calls| && Distance(c, r'.control) < Distance(c, r.control)
    ensures InCalls(c, r') && Left(c, r') < Left(c, r)
  {}

  /** Returning from a call. */
  lemma ReturnShrinks(c: Config, r: Rank)
    requires InCalls(c, r) && r.called < |c.calls| && Distance(c, r.control) >= 0
    ensures InCalls(c, Return(r)) && Left(c, Return(r)) < Left(c, r)
  {
    OneCallLess(c, |c.calls| - r.called);
  }

  lemma ActShrinks(c: Config, r: Rank, isDummy: bool, windows: seq<Loads>)
    requires ConfigOk(c) && Sized(c, r) && InCalls(c, r) && !Stuck(c, r)
    ensures var r' := Act(c, r, isDummy, windows); InCalls(c, r') && Left(c, r') < Left(c, r)
  {
    match r.control
    case Fetch => MoveShrinks(c, r, Dispatch(c, r));
    case Record => MoveShrinks(c, r, RecordStep(c, r, isDummy, windows));
    case Async(m) => CheckShrinks(c, r, m);
    case Due => EndStepShrinks(c, r);
    case Plan(isProfile, m) => if m == |c.layers| { ReturnShrinks(c, r); } else { PlanShrinks(c, r, isProfile, m); }
  }

  lemma CheckShrinks(c: Config, r: Rank, m: nat)
    requires Sized(c, r) && InCalls(c, r) && r.control == Async(m)
    ensures InCalls(c, CheckModel(c, r, m)) && Left(c, CheckModel(c, r, m)) < Left(c, r)
  {
    MoveShrinks(c, r, CheckModel(c, r, m));
  }

  lemma EndStepShrinks(c: Config, r: Rank)
    requires InCalls(c, r) && r.control.Due?
    ensures InCalls(c, EndStep(c, r)) && Left(c, EndStep(c, r)) < Left(c, r)
  {
    if EndStep(c, r).control.Fetch? { ReturnShrinks(c, r); } else { MoveShrinks(c, r, EndStep(c, r)); }
  }

  lemma PlanShrinks(c: Config, r: Rank, isProfile: bool, m: nat)
    requires Sized(c, r) && InCalls(c, r) && r.control == Plan(isProfile, m) && m < |c.layers|
    ensures var r' := PlanModel(c, r, isProfile, m); InCalls(c, r') && Left(c, r') < Left(c, r)
  {
    MoveShrinks(c, r, PlanModel(c, r, isProfile, m));
  }

  lemma ResumeShrinks(c: Config, r: Rank, a: Answer)
    requires Sized(c, r) && InCalls(c, r) && Waiting(r.control) && |a.reduced| == |c.layers|
    requires r.control.Ready? && a.ready ==> r.pending[r.control.model].Some?
    ensures var r' := Resume(c, r, a); InCalls(c, r') && Left(c, r') < Left(c, r)
  {
  }

  predicate AllInCalls(c: Config, w: World) {
    forall i :: 0 <= i < |w| ==> InCalls(c, w[i])
  }

  function Total(c: Config, w: World): int {
    if w == [] then 0 else Left(c, w[0]) + Total(c, w[1..])
  }

  lemma {:induction false} TotalReplaced(c: Config, w: World, i: nat, r: Rank)
    requires i < |w|
    ensures Total(c, w[i := r]) == Total(c, w) - Left(c, w[i]) + Left(c, r)
    decreases w
  {
    if i == 0 {
      assert w[i := r][1..] == w[1..];
    } else {
      assert w[i := r][1..] == w[1..][i - 1 := r];
      TotalReplaced(c, w[1..], i - 1, r);
    }
  }

  lemma {:induction false} TotalShrinks(c: Config, w: World, v: World)
    requires |w| == |v| > 0
    requires forall i :: 0 <= i < |w| ==> Left(c, v[i]) < Left(c, w[i])
    ensures Total(c, v) < Total(c, w)
    decreases w
  {
    if |w| > 1 {
      assert forall i :: 0 <= i < |w| - 1 ==> v[1..][i] == v[i + 1] && w[1..][i] == w[i + 1];
      TotalShrinks(c, w[1..], v[1..]);
    } else {
      assert w[1..] == [] && v[1..] == [];
    }
  }

  lemma {:induction false} TotalIsNat(c: Config, w: World)
    requires AllSized(c, w) && AllInCalls(c, w)
    ensures Total(c, w) >= 0
    decreases w
  {
    if w != [] {
      LeftIsNat(c, w[0]);
      TotalIsNat(c, w[1..]);
    }
  }

  /** Whether the event moves a rank on; the others hand over layers or repeat a rank that cannot act. */
  predicate Works(c: Config, w: World, e: Event) {
    e.Fire? || (e.Local? && e.rank < |w| && !Stuck(c, w[e.rank]))
  }

  lemma LocalShrinks(c: Config, w: World, i: nat, isDummy: bool, windows: seq<Loads>)
    requires ConfigOk(c) && AllSized(c, w) && AllInCalls(c, w) && i < |w|
    ensures var v := w[i := Act(c, w[i], isDummy, windows)];
            AllInCalls(c, v) && Total(c, v) <= Total(c, w) - if Stuck(c, w[i]) then 0 else 1
  {
    var r' := Act(c, w[i], isDummy, windows);
    if !Stuck(c, w[i]) { ActShrinks(c, w[i], isDummy, windows); }
    TotalReplaced(c, w, i, r');
  }

  lemma WorkerShrinks(c: Config, w: World, i: nat, r': Rank)
    requires AllInCalls(c, w) && i < |w| && r'.called == w[i].called && r'.control == w[i].control
    ensures AllInCalls(c, w[i := r']) && Total(c, w[i := r']) == Total(c, w)
  {
    TotalReplaced(c, w, i, r');
  }

  lemma FireShrinks(c: Config, w: World)
    requires ConfigOk(c) && AllSized(c, w) && AllStand(c, w) && AllInCalls(c, w) && CanFire(w)
    ensures AllInCalls(c, FireAll(c, w)) && Total(c, FireAll(c, w)) < Total(c, w)
  {
    var a := Collect(c, w);
    var v := FireAll(c, w);
    forall i | 0 <= i < |w| ensures InCalls(c, v[i]) && Left(c, v[i]) < Left(c, w[i]) {
      assert Sized(c, w[i]) && Stands(c, w[i]) && InCalls(c, w[i]) && (a.ready ==> w[i].contribution);
      ResumeShrinks(c, w[i], a);
    }
    TotalShrinks(c, w, v);
  }

  lemma NextShrinks(c: Config, w: World, e: Event)
    requires ConfigOk(c) && AllSized(c, w) && AllStand(c, w) && AllInCalls(c, w)
    ensures Next(c, w, e).Some? ==>
              && AllInCalls(c, Next(c, w, e).value)
              && Total(c, Next(c, w, e).value) <= Total(c, w) - if Works(c, w, e) then 1 else 0
  {
    if Next(c, w, e).Some? {
      match e
      case Local(i, isDummy, windows) => LocalShrinks(c, w, i, isDummy, windows);
      case Worker(i, m, o) => WorkerShrinks(c, w, i, Offer(c, w[i], m, o));
      case Fire => FireShrinks(c, w);
    }
  }

  // ---------------------------------------------------------------- whole runs

  /** The ranks start alike; their load windows may differ. */
  predicate Initial(c: Config, w: World) {
    && (forall i :: 0 <= i < |w| ==> Beginning(c, w[i]))
    && forall i, j :: 0 <= i < |w| && 0 <= j < |w| ==> Decisions(w[i]) == Decisions(w[j])
  }

  predicate Beginning(c: Config, r: Rank) {
    && Sized(c, r) && r.control == Fetch && r.called == 0 && r.trace == [] && r.reductions == [] && r.answers == []
    && forall m :: 0 <= m < |c.layers| ==> !r.rebalanced[m] && r.pending[m].None? && |r.maps[m]| == c.layers[m]
  }

  lemma InitialOk(c: Config, w: World)
    requires ConfigOk(c) && Initial(c, w)
    ensures WorldOk(c, w) && AllInCalls(c, w)
  {
    forall i | 0 <= i < |w| ensures RankOk(c, w[i]) && InCalls(c, w[i]) {
      assert Beginning(c, w[i]);
    }
    forall i, j | 0 <= i < |w| && 0 <= j < |w| ensures Aligned(c, w[i], w[j]) {
      assert RankOk(c, w[i]) && RankOk(c, w[j]);
      EqualAreAligned(c, w[i], w[j]);
    }
  }

  /** The group reaches `v` from `w` by the events `es`. */
  ghost predicate Reaches(c: Config, w: World, es: seq<Event>, v: World)
    requires ConfigOk(c)
    decreases |es|
  {
    if es == [] then v == w
    else
      AllSized(c, w) && AllStand(c, w) && var next := Next(c, w, es[0]);
      next.Some? && Reaches(c, next.value, es[1..], v)
  }

  /** How many of the events moved a rank on. */
  ghost function Worked(c: Config, w: World, es: seq<Event>): nat
    requires ConfigOk(c)
    decreases |es|
  {
    if es == [] || !AllSized(c, w) || !AllStand(c, w) || Next(c, w, es[0]).None? then 0
    else (if Works(c, w, es[0]) then 1 else 0) + Worked(c, Next(c, w, es[0]).value, es[1..])
  }

  lemma {:induction false} RunKeeps(c: Config, w: World, es: seq<Event>, v: World)
    requires ConfigOk(c) && WorldOk(c, w) && AllInCalls(c, w) && Reaches(c, w, es, v)
    ensures WorldOk(c, v) && AllInCalls(c, v) && |v| == |w|
    ensures Worked(c, w, es) <= Total(c, w) - Total(c, v)
    decreases |es|
  {
    if es != [] {
      NextKeeps(c, w, es[0]);
      NextShrinks(c, w, es[0]);
      RunKeeps(c, Next(c, w, es[0]).value, es[1..], v);
    }
  }

  /** In every run, ranks that wait in a collective, or have ended, agree on everything they decide:
      the collective, the step counter, the flags, the maps and all collectives entered so far. */
  lemma RanksAgree(c: Config, w: World, es: seq<Event>, v: World, i: nat, j: nat)
    requires ConfigOk(c) && Initial(c, w) && Reaches(c, w, es, v) && i < |v| && j < |v|
    requires Stuck(c, v[i]) && Stuck(c, v[j])
    ensures Decisions(v[i]) == Decisions(v[j])
    ensures v[i].control == v[j].control && v[i].step == v[j].step
    ensures v[i].rebalanced == v[j].rebalanced && v[i].maps == v[j].maps && v[i].trace == v[j].trace
  {
    InitialOk(c, w);
    RunKeeps(c, w, es, v);
    StuckAgree(c, v[i], v[j]);
    assert Decisions(v[i]).step == Decisions(v[j]).step && Decisions(v[i]).maps == Decisions(v[j]).maps;
  }

  lemma {:induction false} IterateExtends(c: Config, r: Rank, n: nat)
    requires ConfigOk(c) && Sized(c, r)
    ensures r.trace <= Iterate(c, r, n).trace
    decreases n
  {
    if n > 0 {
      assert r.trace <= Act(c, r, true, []).trace;
      IterateExtends(c, Act(c, r, true, []), n - 1);
    }
  }

  /** At any moment the collectives entered by one rank are a prefix of those entered by the other. */
  lemma TracesCompare(c: Config, w: World, es: seq<Event>, v: World, i: nat, j: nat)
    requires ConfigOk(c) && Initial(c, w) && Reaches(c, w, es, v) && i < |v| && j < |v|
    ensures v[i].trace <= v[j].trace || v[j].trace <= v[i].trace
  {
    InitialOk(c, w);
    RunKeeps(c, w, es, v);
    var r, q := v[i], v[j];
    assert Aligned(c, r, q);
    var a: nat, b: nat :| Decisions(Iterate(c, r, a)) == Decisions(Iterate(c, q, b));
    IterateExtends(c, r, a);
    IterateExtends(c, q, b);
    var r', q' := Iterate(c, r, a), Iterate(c, q, b);
    assert Decisions(r').trace == Decisions(q').trace;
    PrefixesCompare(r.trace, q.trace, r'.trace);
  }

  lemma PrefixesCompare(a: seq<Entry>, b: seq<Entry>, all: seq<Entry>)
    requires a <= all && b <= all
    ensures a <= b || b <= a
  {
  }

  predicate Ended(c: Config, w: World) {
    forall i :: 0 <= i < |w| ==> w[i].control == Fetch && w[i].called == |c.calls|
  }

  lemma StuckTogether(c: Config, v: World, i: nat, j: nat)
    requires ConfigOk(c) && WorldOk(c, v) && i < |v| && j < |v| && Stuck(c, v[i]) && Stuck(c, v[j])
    ensures v[i].control == v[j].control && v[i].called == v[j].called
  {
    StuckAgree(c, v[i], v[j]);
    assert Decisions(v[i]).control == Decisions(v[j]).control && Decisions(v[i]).called == Decisions(v[j]).called;
  }

  /** The group never hangs: some rank can act, or the collective all ranks wait in completes,
      or all calls have returned on every rank. No rank has raised. */
  lemma NeverHangs(c: Config, w: World, es: seq<Event>, v: World)
    requires ConfigOk(c) && Initial(c, w) && Reaches(c, w, es, v)
    ensures forall i :: 0 <= i < |v| ==> !v[i].control.Raised?
    ensures (exists i :: 0 <= i < |v| && !Stuck(c, v[i])) || CanFire(v) || Ended(c, v)
  {
    InitialOk(c, w);
    RunKeeps(c, w, es, v);
    forall i | 0 <= i < |v| ensures !v[i].control.Raised? {
      assert RankOk(c, v[i]);
    }
    if (forall i :: 0 <= i < |v| ==> Stuck(c, v[i])) && |v| > 0 {
      forall i | 0 <= i < |v| ensures v[i].control == v[0].control && v[i].called == v[0].called {
        StuckTogether(c, v, i, 0);
      }
      assert InCalls(c, v[0]);
    }
  }

  /** Every schedule ends: the events that move a rank on are bounded by the calls. With NeverHangs,
      a schedule that keeps moving ranks while it can returns from every call on every rank. */
  lemma SchedulesEnd(c: Config, w: World, es: seq<Event>, v: World)
    requires ConfigOk(c) && Initial(c, w) && Reaches(c, w, es, v)
    ensures Worked(c, w, es) <= |w| * Calls(c, |c.calls|)
  {
    InitialOk(c, w);
    RunKeeps(c, w, es, v);
    assert AllSized(c, v);
    TotalIsNat(c, v);
    TotalAtStart(c, w);
  }

  lemma {:induction false} TotalAtStart(c: Config, w: World)
    requires forall i :: 0 <= i < |w| ==> w[i].control == Fetch && w[i].called == 0
    ensures Total(c, w) == |w| * Calls(c, |c.calls|)
    decreases w
  {
    if w != [] {
      TotalAtStart(c, w[1..]);
      assert Left(c, w[0]) == Calls(c, |c.calls|);
      assert |w[1..]| == |w| - 1;
    }
  }

  /** On every rank, a new rearrangement starts only after every layer of every model was committed
      once and in order since the previous start. */
  lemma RearrangementsInOrder(c: Config, w: World, es: seq<Event>, v: World, i: nat, k: nat, m: nat)
    requires ConfigOk(c) && Initial(c, w) && Reaches(c, w, es, v) && i < |v|
    requires k < |v[i].trace| && v[i].trace[k].Started? && HasStarted(v[i].trace[..k]) && m < |c.layers|
    ensures CommitsSince(v[i].trace[..k], m) == Upto(c.layers[m])
  {
    InitialOk(c, w);
    RunKeeps(c, w, es, v);
    assert Orderly(c, v[i].trace);
    assert AllCommitted(c, v[i].trace[..k]);
  }

  /** Layer by layer, the async mode installs exactly the placement the policy chose. */
  lemma AsyncInstallsPlan(c: Config, w: World, es: seq<Event>, v: World, i: nat, m: nat)
    requires ConfigOk(c) && Initial(c, w) && Reaches(c, w, es, v) && i < |v| && m < |c.layers|
    requires AllSized(c, v) && HasStarted(v[i].trace) && v[i].control == Fetch
    ensures forall l :: v[i].rebalanced[m] && 0 <= l < v[i].done[m] ==>
              l < |v[i].maps[m]| == |v[i].plans[m]| && v[i].maps[m][l] == v[i].plans[m][l]
    ensures !v[i].rebalanced[m] ==> v[i].maps[m] == v[i].plans[m] && CommitsSince(v[i].trace, m) == Upto(c.layers[m])
  {
    InitialOk(c, w);
    RunKeeps(c, w, es, v);
    assert RankOk(c, v[i]);
    assert ModelOk(c, v[i], m);
    var r := v[i];
    forall l | r.rebalanced[m] && 0 <= l < r.done[m]
      ensures l < |r.maps[m]| == |r.plans[m]| && r.maps[m][l] == r.plans[m][l]
    {
      assert r.maps[m][..r.done[m]][l] == r.plans[m][..r.done[m]][l];
    }
  }

  // ---------------------------------------------------------------- when rearrangements start

  /** The calls of `step` among the first `n` calls, dummy ones included and profile runs not. */
  function Steps(c: Config, n: nat): nat
    requires n <= |c.calls|
  {
    if n == 0 then 0 else Steps(c, n - 1) + if c.calls[n - 1].Step? then 1 else 0
  }

  /** The rearrangements entered so far, profile runs not counted. */
  function Rearranged(trace: seq<Entry>): nat {
    if trace == [] then 0
    else Rearranged(trace[..|trace| - 1]) + if trace[|trace| - 1] == Entered(Reduce(false)) then 1 else 0
  }

  lemma RearrangedNoted(trace: seq<Entry>, e: Entry)
    ensures Rearranged(trace + [e]) == Rearranged(trace) + if e == Entered(Reduce(false)) then 1 else 0
  {
    assert (trace + [e])[..|trace + [e]| - 1] == trace;
  }

  function Accounted(c: Config, r: Rank): int { Rearranged(r.trace) * c.interval }

  predicate InStep(c: Config, r: Rank) { r.called < |c.calls| && c.calls[r.called].Step? }

  predicate InProfile(c: Config, r: Rank) { r.called < |c.calls| && c.calls[r.called].Profile? }

  /** In sync mode the counter and the rearrangements account for every step. */
  predicate SyncCount(c: Config, r: Rank)
    requires r.called <= |c.calls|
  {
    var level := 0 <= r.step < c.interval && r.step + Accounted(c, r) == Steps(c, r.called);
    match r.control
    case Fetch => level
    case Log => InStep(c, r) && level
    case Record => InStep(c, r) && level
    case Due => InStep(c, r) && 0 < r.step <= c.interval && r.step + Accounted(c, r) == Steps(c, r.called) + 1
    case Reduce(p) => if p then InProfile(c, r) && level else Emptied(c, r)
    case Plan(p, _) => if p then InProfile(c, r) && level else Emptied(c, r)
    case Transfer(p, _) => if p then InProfile(c, r) && level else Emptied(c, r)
    case _ => false
  }

  predicate Emptied(c: Config, r: Rank)
    requires r.called <= |c.calls|
  {
    InStep(c, r) && r.step == 0 && Accounted(c, r) == Steps(c, r.called) + 1
  }

  lemma AccountedMore(c: Config, k: int)
    ensures (k + 1) * c.interval == k * c.interval + c.interval
  {
  }

  /** Entering anything but a rearrangement leaves the account as it is. */
  lemma AccountKept(c: Config, r: Rank, k: Control)
    requires k != Reduce(false)
    ensures Accounted(c, Enter(r, k)) == Accounted(c, r)
  {
    RearrangedNoted(r.trace, Entered(k));
  }

  lemma EndStepCounts(c: Config, r: Rank)
    requires !c.isAsync && c.interval > 0 && InCalls(c, r) && SyncCount(c, r) && r.control.Due?
    ensures InCalls(c, EndStep(c, r)) && SyncCount(c, EndStep(c, r))
  {
    RearrangedNoted(r.trace, Entered(Reduce(false)));
    AccountedMore(c, Rearranged(r.trace));
  }

  lemma ActCounts(c: Config, r: Rank, isDummy: bool, windows: seq<Loads>)
    requires ConfigOk(c) && Sized(c, r) && !c.isAsync && c.interval > 0 && InCalls(c, r) && SyncCount(c, r)
    ensures var r' := Act(c, r, isDummy, windows); InCalls(c, r') && SyncCount(c, r')
  {
    if !Stuck(c, r) {
      match r.control
      case Fetch =>
        AccountKept(c, r, Log);
        AccountKept(c, r, Reduce(true));
      case Record =>
      case Due => EndStepCounts(c, r);
      case Plan(isProfile, m) => if m < |c.layers| { AccountKept(c, r, Transfer(isProfile, m)); }
    }
  }

  lemma ResumeCounts(c: Config, r: Rank, a: Answer)
    requires Sized(c, r) && !c.isAsync && InCalls(c, r) && SyncCount(c, r) && Waiting(r.control)
    requires |a.reduced| == |c.layers|
    ensures !r.control.Ready? && InCalls(c, Resume(c, r, a)) && SyncCount(c, Resume(c, r, a))
  {
  }

  predicate AllCounted(c: Config, w: World) {
    forall i :: 0 <= i < |w| ==> InCalls(c, w[i]) && SyncCount(c, w[i])
  }

  lemma {:induction false} RunCounts(c: Config, w: World, es: seq<Event>, v: World)
    requires ConfigOk(c) && !c.isAsync && c.interval > 0 && AllCounted(c, w) && Reaches(c, w, es, v)
    ensures AllCounted(c, v)
    decreases |es|
  {
    if es != [] {
      NextCounts(c, w, es[0]);
      RunCounts(c, Next(c, w, es[0]).value, es[1..], v);
    }
  }

  lemma NextCounts(c: Config, w: World, e: Event)
    requires ConfigOk(c) && !c.isAsync && c.interval > 0 && AllCounted(c, w)
    requires AllSized(c, w) && AllStand(c, w) && Next(c, w, e).Some?
    ensures AllCounted(c, Next(c, w, e).value)
  {
    match e
    case Local(i, isDummy, windows) => ActCounts(c, w[i], isDummy, windows);
    case Worker(i, m, o) =>
    case Fire =>
      var a := Collect(c, w);
      forall i | 0 <= i < |w| ensures InCalls(c, FireAll(c, w)[i]) && SyncCount(c, FireAll(c, w)[i]) {
        assert Sized(c, w[i]) && InCalls(c, w[i]) && SyncCount(c, w[i]);
        ResumeCounts(c, w[i], a);
      }
  }

  /** In sync mode, on every rank and between any two calls, whatever steps were dummies: the number of
      rearrangements is the number of steps divided by the interval, and the counter is the rest. */
  lemma RearrangesEveryInterval(c: Config, w: World, es: seq<Event>, v: World, i: nat)
    requires ConfigOk(c) && !c.isAsync && c.interval > 0 && Initial(c, w) && Reaches(c, w, es, v)
    requires forall j :: 0 <= j < |w| ==> w[j].step == 0
    requires i < |v| && v[i].control == Fetch
    ensures v[i].called <= |c.calls|
    ensures Rearranged(v[i].trace) == Steps(c, v[i].called) / c.interval
    ensures v[i].step == Steps(c, v[i].called) % c.interval
  {
    forall j | 0 <= j < |w| ensures InCalls(c, w[j]) && SyncCount(c, w[j]) {
      assert Beginning(c, w[j]);
    }
    RunCounts(c, w, es, v);
    DivModUnique(Steps(c, v[i].called), Rearranged(v[i].trace), v[i].step, c.interval);
  }

  /** A due rearrangement is postponed only while one is under way. */
  predicate Prompt(c: Config, r: Rank) {
    match r.control
    case Fetch => NotDue(c, r)
    case Log => NotDue(c, r)
    case Reduce(p) => if p then NotDue(c, r) else r.step == 0
    case Plan(p, _) => if p then NotDue(c, r) else r.step == 0
    case Transfer(p, _) => if p then NotDue(c, r) else r.step == 0
    case _ => true
  }

  predicate NotDue(c: Config, r: Rank) { r.step < c.interval || (c.isAsync && AnyRebalanced(r)) }

  lemma ActPrompt(c: Config, r: Rank, isDummy: bool, windows: seq<Loads>)
    requires ConfigOk(c) && Sized(c, r) && c.interval > 0 && Prompt(c, r)
    ensures Prompt(c, Act(c, r, isDummy, windows))
  {
    if !Stuck(c, r) {
      match r.control
      case Fetch =>
      case Record =>
      case Async(m) =>
      case Due =>
      case Plan(isProfile, m) =>
    }
  }

  lemma ResumePrompt(c: Config, r: Rank, a: Answer)
    requires Sized(c, r) && Prompt(c, r) && Waiting(r.control) && |a.reduced| == |c.layers|
    requires r.control.Ready? && a.ready ==> r.pending[r.control.model].Some?
    ensures Prompt(c, Resume(c, r, a))
  {
  }

  predicate AllPrompt(c: Config, w: World) {
    forall i :: 0 <= i < |w| ==> Prompt(c, w[i])
  }

  lemma NextPrompt(c: Config, w: World, e: Event)
    requires ConfigOk(c) && c.interval > 0 && AllPrompt(c, w)
    requires AllSized(c, w) && AllStand(c, w) && Next(c, w, e).Some?
    ensures AllPrompt(c, Next(c, w, e).value)
  {
    match e
    case Local(i, isDummy, windows) => ActPrompt(c, w[i], isDummy, windows);
    case Worker(i, m, o) => assert Prompt(c, w[i]);
    case Fire =>
      var a := Collect(c, w);
      forall i | 0 <= i < |w| ensures Prompt(c, FireAll(c, w)[i]) {
        assert Sized(c, w[i]) && Stands(c, w[i]) && Prompt(c, w[i]) && (a.ready ==> w[i].contribution);
        ResumePrompt(c, w[i], a);
      }
  }

  lemma {:induction false} RunPrompt(c: Config, w: World, es: seq<Event>, v: World)
    requires ConfigOk(c) && c.interval > 0 && AllPrompt(c, w) && Reaches(c, w, es, v)
    ensures AllPrompt(c, v)
    decreases |es|
  {
    if es != [] {
      NextPrompt(c, w, es[0]);
      RunPrompt(c, Next(c, w, es[0]).value, es[1..], v);
    }
  }

  /** In either mode and between any two calls, a rank's counter reaches the interval only while a
      rearrangement is under way: no other cause postpones the next one. */
  lemma RearrangesPromptly(c: Config, w: World, es: seq<Event>, v: World, i: nat)
    requires ConfigOk(c) && c.interval > 0 && Initial(c, w) && Reaches(c, w, es, v)
    requires forall j :: 0 <= j < |w| ==> w[j].step < c.interval
    requires i < |v| && v[i].control == Fetch && v[i].step >= c.interval
    ensures c.isAsync && AnyRebalanced(v[i])
  {
    forall j | 0 <= j < |w| ensures Prompt(c, w[j]) {
      assert Beginning(c, w[j]);
    }
    RunPrompt(c, w, es, v);
    assert Prompt(c, v[i]);
  }

  // ---------------------------------------------------------------- sync mode, call by call

  /** What a rank has done after some calls, read call by call: its counter, its maps, the collectives entered and
      the reductions used. */
  datatype Sync = Sync(step: int, maps: seq<Placement>, trace: seq<Entry>, used: nat)

  function LoadsOf(reduction: seq<Loads>, m: nat): Loads { if m < |reduction| then reduction[m] else [] }

  /** A rearrangement replaces the map of a model unless the gain is too small or loads are only recorded. */
  predicate Replaces(c: Config, loads: Loads, map': Placement) {
    !c.skip(loads, map', c.rebalance(loads, map')) && !c.recordOnly
  }

  function NewMaps(c: Config, reduction: seq<Loads>, maps: seq<Placement>, n: nat): seq<Placement> {
    seq(|maps|, m requires 0 <= m < |maps| => NewMap(c, LoadsOf(reduction, m), maps[m], m < n))
  }

  function NewMap(c: Config, loads: Loads, map': Placement, reached: bool): Placement {
    if reached && Replaces(c, loads, map') then c.rebalance(loads, map') else map'
  }

  /** The weight transfers of the first `n` models: those whose map is replaced, and in a profile run all. */
  function Transfers(c: Config, isProfile: bool, reduction: seq<Loads>, maps: seq<Placement>, n: nat): seq<Entry>
    requires n <= |maps|
  {
    if n == 0 then []
    else Transfers(c, isProfile, reduction, maps, n - 1)
         + if Moves(c, isProfile, LoadsOf(reduction, n - 1), maps[n - 1]) then [Entered(Transfer(isProfile, n - 1))]
           else []
  }

  predicate Moves(c: Config, isProfile: bool, loads: Loads, map': Placement) {
    if isProfile then !c.recordOnly else Replaces(c, loads, map')
  }

  function LogPart(c: Config, step: int, call: Call): seq<Entry>
    requires c.logInterval > 0
  {
    if call.Step? && call.logStats && step % c.logInterval == 0 then [Entered(Log)] else []
  }

  function SyncCall(c: Config, s: Sync, call: Call, reduction: seq<Loads>): Sync
    requires c.logInterval > 0
  {
    var trace := s.trace + LogPart(c, s.step, call);
    match call
    case Profile =>
      s.(trace := trace + [Entered(Reduce(true))] + Transfers(c, true, reduction, s.maps, |s.maps|), used := s.used + 1)
    case Step(_) =>
      if s.step + 1 < c.interval then s.(step := s.step + 1, trace := trace)
      else Sync(0, NewMaps(c, reduction, s.maps, |s.maps|),
                trace + [Entered(Reduce(false))] + Transfers(c, false, reduction, s.maps, |s.maps|), s.used + 1)
  }

  /** The first `n` calls, given what the reductions gave. */
  function SyncRun(c: Config, start: Sync, reductions: seq<seq<Loads>>, n: nat): Sync
    requires c.logInterval > 0 && n <= |c.calls|
  {
    if n == 0 then start
    else
      var s := SyncRun(c, start, reductions, n - 1);
      SyncCall(c, s, c.calls[n - 1], if s.used < |reductions| then reductions[s.used] else [])
  }

  lemma {:induction false} SyncRunPrefix(c: Config, start: Sync, reductions: seq<seq<Loads>>, more: seq<Loads>, n: nat)
    requires c.logInterval > 0 && n <= |c.calls| && SyncRun(c, start, reductions, n).used <= |reductions|
    ensures SyncRun(c, start, reductions + [more], n) == SyncRun(c, start, reductions, n)
  {
    if n > 0 {
      var s := SyncRun(c, start, reductions, n - 1);
      SyncRunPrefix(c, start, reductions, more, n - 1);
      if s.used < |reductions| { assert (reductions + [more])[s.used] == reductions[s.used]; }
    }
  }

  /** Where a rank in sync mode is within its call, measured against the calls before. */
  predicate SyncOk(c: Config, start: Sync, r: Rank)
    requires c.logInterval > 0 && InCalls(c, r)
  {
    SyncAt(c, SyncRun(c, start, r.reductions, r.called), r)
  }

  predicate SyncAt(c: Config, s: Sync, r: Rank)
    requires c.logInterval > 0 && InCalls(c, r)
  {
    && |s.maps| == |r.maps| == |r.reduced| == |c.layers|
    && match r.control
       case Fetch => Level(r, s)
       case Log => InStep(c, r) && r.maps == s.maps && r.step == s.step && |r.reductions| == s.used
                   && LogPart(c, s.step, c.calls[r.called]) == [Entered(Log)] && r.trace == s.trace + [Entered(Log)]
       case Record => InStep(c, r) && r.maps == s.maps && r.step == s.step && |r.reductions| == s.used
                      && r.trace == s.trace + LogPart(c, s.step, c.calls[r.called])
       case Due => InStep(c, r) && r.maps == s.maps && r.step == s.step + 1 && |r.reductions| == s.used
                   && r.trace == s.trace + LogPart(c, s.step, c.calls[r.called])
       case Reduce(p) =>
         AtReduce(c, s, r, p) && |r.reductions| == s.used && r.maps == s.maps && r.trace == Reduced(c, s, r, p)
       case Plan(p, m) => AtReduce(c, s, r, p) && m <= |c.layers| && AtPlan(c, s, r, p, m)
                          && r.trace == Reduced(c, s, r, p) + Transfers(c, p, r.reduced, s.maps, m)
       case Transfer(p, m) => AtReduce(c, s, r, p) && m < |c.layers| && AtPlan(c, s, r, p, m)
                              && Moves(c, p, r.reduced[m], s.maps[m])
                              && r.trace == Reduced(c, s, r, p) + Transfers(c, p, r.reduced, s.maps, m + 1)
       case _ => false
  }

  /** Between two calls. */
  predicate Level(r: Rank, s: Sync) {
    r.step == s.step && r.maps == s.maps && r.trace == s.trace && |r.reductions| == s.used
  }

  predicate AtReduce(c: Config, s: Sync, r: Rank, isProfile: bool)
    requires InCalls(c, r)
  {
    if isProfile then InProfile(c, r) && r.step == s.step else InStep(c, r) && r.step == 0 && s.step + 1 >= c.interval
  }

  function Reduced(c: Config, s: Sync, r: Rank, isProfile: bool): seq<Entry>
    requires c.logInterval > 0 && r.called < |c.calls|
  {
    s.trace + LogPart(c, s.step, c.calls[r.called]) + [Entered(Reduce(isProfile))]
  }

  predicate AtPlan(c: Config, s: Sync, r: Rank, isProfile: bool, m: nat) {
    && |r.reductions| == s.used + 1 && r.reductions[s.used] == r.reduced
    && r.maps == if isProfile then s.maps else NewMaps(c, r.reduced, s.maps, m)
  }

  lemma NewMapsNone(c: Config, reduction: seq<Loads>, maps: seq<Placement>)
    ensures NewMaps(c, reduction, maps, 0) == maps
  {}

  /** One more model. */
  lemma NewMapsNext(c: Config, reduction: seq<Loads>, maps: seq<Placement>, m: nat)
    requires m < |maps| == |reduction|
    ensures var map' := c.rebalance(reduction[m], maps[m]);
            && NewMaps(c, reduction, maps, m)[m] == maps[m]
            && NewMaps(c, reduction, maps, m + 1) ==
               if Replaces(c, reduction[m], maps[m]) then NewMaps(c, reduction, maps, m)[m := map']
               else NewMaps(c, reduction, maps, m)
  {
    var map' := c.rebalance(reduction[m], maps[m]);
    var before, after := NewMaps(c, reduction, maps, m), NewMaps(c, reduction, maps, m + 1);
    var expected := if Replaces(c, reduction[m], maps[m]) then before[m := map'] else before;
    forall k | 0 <= k < |maps| ensures after[k] == expected[k] {
      assert before[k] == NewMap(c, LoadsOf(reduction, k), maps[k], k < m);
      assert after[k] == NewMap(c, LoadsOf(reduction, k), maps[k], k < m + 1);
    }
    assert after == expected;
  }

  lemma SyncDispatch(c: Config, start: Sync, r: Rank)
    requires ConfigOk(c) && InCalls(c, r) && SyncOk(c, start, r) && r.control.Fetch? && r.called < |c.calls|
    ensures InCalls(c, Dispatch(c, r)) && SyncOk(c, start, Dispatch(c, r))
  {
    var s := SyncRun(c, start, r.reductions, r.called);
    assert s.trace + [] == s.trace;
  }

  lemma SyncEndStep(c: Config, start: Sync, r: Rank)
    requires ConfigOk(c) && !c.isAsync && InCalls(c, r) && SyncOk(c, start, r) && r.control.Due?
    ensures InCalls(c, EndStep(c, r)) && SyncOk(c, start, EndStep(c, r))
  {
    var s := SyncRun(c, start, r.reductions, r.called);
    if r.step < c.interval {
      var s' := SyncRun(c, start, r.reductions, r.called + 1);
      assert s' == s.(step := s.step + 1, trace := s.trace + LogPart(c, s.step, c.calls[r.called]));
    }
  }

  lemma TransfersNext(c: Config, isProfile: bool, reduction: seq<Loads>, maps: seq<Placement>, m: nat)
    requires m < |maps| == |reduction|
    ensures Transfers(c, isProfile, reduction, maps, m + 1) ==
            Transfers(c, isProfile, reduction, maps, m)
            + if Moves(c, isProfile, reduction[m], maps[m]) then [Entered(Transfer(isProfile, m))] else []
  {}

  lemma SyncPlan(c: Config, s: Sync, r: Rank, isProfile: bool, m: nat)
    requires ConfigOk(c) && !c.isAsync && Sized(c, r) && InCalls(c, r) && SyncAt(c, s, r)
    requires r.control == Plan(isProfile, m) && m < |c.layers|
    ensures var r' := PlanModel(c, r, isProfile, m); InCalls(c, r') && SyncAt(c, s, r')
    ensures var r' := PlanModel(c, r, isProfile, m); r'.reductions == r.reductions && r'.called == r.called
  {
    NewMapsNext(c, r.reduced, s.maps, m);
    TransfersNext(c, isProfile, r.reduced, s.maps, m);
    assert r.maps[m] == s.maps[m];
    var before, sofar := Reduced(c, s, r, isProfile), Transfers(c, isProfile, r.reduced, s.maps, m);
    if Moves(c, isProfile, r.reduced[m], s.maps[m]) {
      SyncMoves(c, s, r, isProfile, m);
    } else {
      assert sofar + [] == sofar;
    }
  }

  lemma SyncMoves(c: Config, s: Sync, r: Rank, isProfile: bool, m: nat)
    requires ConfigOk(c) && !c.isAsync && Sized(c, r) && InCalls(c, r) && SyncAt(c, s, r)
    requires r.control == Plan(isProfile, m) && m < |c.layers| && r.maps[m] == s.maps[m]
    requires Moves(c, isProfile, r.reduced[m], s.maps[m])
    requires Transfers(c, isProfile, r.reduced, s.maps, m + 1) ==
             Transfers(c, isProfile, r.reduced, s.maps, m) + [Entered(Transfer(isProfile, m))]
    ensures var r' := PlanModel(c, r, isProfile, m); r' == Enter(r, Transfer(isProfile, m)) && SyncAt(c, s, r')
  {
    var before, sofar := Reduced(c, s, r, isProfile), Transfers(c, isProfile, r.reduced, s.maps, m);
    var last := [Entered(Transfer(isProfile, m))];
    assert before + sofar + last == before + (sofar + last);
  }

  lemma SyncReturn(c: Config, start: Sync, r: Rank, isProfile: bool)
    requires ConfigOk(c) && !c.isAsync && InCalls(c, r) && SyncOk(c, start, r)
    requires r.control == Plan(isProfile, |c.layers|)
    ensures InCalls(c, Return(r)) && SyncOk(c, start, Return(r))
  {
    var s := SyncRun(c, start, r.reductions, r.called);
    assert SyncRun(c, start, r.reductions, r.called + 1) == SyncCall(c, s, c.calls[r.called], r.reduced);
  }

  lemma SyncAct(c: Config, start: Sync, r: Rank, isDummy: bool, windows: seq<Loads>)
    requires ConfigOk(c) && !c.isAsync && Sized(c, r) && InCalls(c, r) && SyncOk(c, start, r)
    ensures var r' := Act(c, r, isDummy, windows); InCalls(c, r') && SyncOk(c, start, r')
  {
    if !Stuck(c, r) {
      match r.control
      case Fetch => SyncDispatch(c, start, r);
      case Record =>
      case Due => SyncEndStep(c, start, r);
      case Plan(isProfile, m) =>
        if m < |c.layers| {
          SyncPlan(c, SyncRun(c, start, r.reductions, r.called), r, isProfile, m);
        } else {
          SyncReturn(c, start, r, isProfile);
        }
    }
  }

  lemma SyncResume(c: Config, start: Sync, r: Rank, a: Answer)
    requires ConfigOk(c) && !c.isAsync && Sized(c, r) && InCalls(c, r) && SyncOk(c, start, r) && Waiting(r.control)
    requires |a.reduced| == |c.layers|
    ensures !r.control.Ready? && InCalls(c, Resume(c, r, a)) && SyncOk(c, start, Resume(c, r, a))
  {
    var s := SyncRun(c, start, r.reductions, r.called);
    match r.control
    case Log =>
    case Reduce(isProfile) =>
      SyncRunPrefix(c, start, r.reductions, a.reduced, r.called);
      SyncReduced(c, s, r, isProfile, a);
    case Transfer(isProfile, m) => SyncTransferred(c, s, r, isProfile, m, a);
  }

  lemma SyncReduced(c: Config, s: Sync, r: Rank, isProfile: bool, a: Answer)
    requires ConfigOk(c) && Sized(c, r) && InCalls(c, r) && SyncAt(c, s, r) && r.control == Reduce(isProfile)
    requires |a.reduced| == |c.layers|
    ensures InCalls(c, Resume(c, r, a)) && SyncAt(c, s, Resume(c, r, a))
  {
    NewMapsNone(c, a.reduced, s.maps);
    assert Transfers(c, isProfile, a.reduced, s.maps, 0) == [];
    var before := Reduced(c, s, r, isProfile);
    assert before + [] == before;
  }

  lemma SyncTransferred(c: Config, s: Sync, r: Rank, isProfile: bool, m: nat, a: Answer)
    requires ConfigOk(c) && Sized(c, r) && InCalls(c, r) && SyncAt(c, s, r) && r.control == Transfer(isProfile, m)
    requires |a.reduced| == |c.layers|
    ensures InCalls(c, Resume(c, r, a)) && SyncAt(c, s, Resume(c, r, a))
  {
    NewMapsNext(c, r.reduced, s.maps, m);
  }

  predicate AllSync(c: Config, start: Sync, w: World) {
    c.logInterval > 0 && forall i :: 0 <= i < |w| ==> InCalls(c, w[i]) && SyncOk(c, start, w[i])
  }

  lemma NextSync(c: Config, start: Sync, w: World, e: Event)
    requires ConfigOk(c) && !c.isAsync && AllSync(c, start, w)
    requires AllSized(c, w) && AllStand(c, w) && Next(c, w, e).Some?
    ensures AllSync(c, start, Next(c, w, e).value)
  {
    match e
    case Local(i, isDummy, windows) => SyncAct(c, start, w[i], isDummy, windows);
    case Worker(i, m, o) => SyncOffered(c, start, w[i], m, o);
    case Fire =>
      var a := Collect(c, w);
      forall i | 0 <= i < |w| ensures InCalls(c, FireAll(c, w)[i]) && SyncOk(c, start, FireAll(c, w)[i]) {
        assert Sized(c, w[i]) && InCalls(c, w[i]) && SyncOk(c, start, w[i]);
        SyncResume(c, start, w[i], a);
      }
  }

  lemma SyncOffered(c: Config, start: Sync, r: Rank, m: nat, o: Outcome)
    requires ConfigOk(c) && Sized(c, r) && InCalls(c, r) && SyncOk(c, start, r) && CanOffer(c, r, m, o)
    ensures InCalls(c, Offer(c, r, m, o)) && SyncOk(c, start, Offer(c, r, m, o))
  {
    var r' := Offer(c, r, m, o);
    assert r'.reductions == r.reductions && r'.called == r.called && r'.control == r.control && r'.trace == r.trace;
  }

  lemma {:induction false} RunSync(c: Config, start: Sync, w: World, es: seq<Event>, v: World)
    requires ConfigOk(c) && !c.isAsync && AllSync(c, start, w) && Reaches(c, w, es, v)
    ensures AllSync(c, start, v) && |v| == |w|
    decreases |es|
  {
    if es != [] {
      NextSync(c, start, w, es[0]);
      RunSync(c, start, Next(c, w, es[0]).value, es[1..], v);
    }
  }

  /** In sync mode every interleaving gives, between two calls, what the calls give one by one: the counter, the
      collectives entered, and the maps. Each rearrangement replaces the map of a model by the policy's answer to
      that reduction exactly when the gain test and the recording mode allow it, a transfer is entered
      exactly for these, and a profile run transfers but replaces nothing. */
  lemma SyncModeFollowsCalls(c: Config, w: World, es: seq<Event>, v: World, i: nat)
    requires ConfigOk(c) && !c.isAsync && Initial(c, w) && Reaches(c, w, es, v) && i < |w| == |v|
    requires v[i].control == Fetch
    ensures v[i].called <= |c.calls|
    ensures Level(v[i], SyncRun(c, Sync(w[i].step, w[i].maps, [], 0), v[i].reductions, v[i].called))
  {
    var start := Sync(w[i].step, w[i].maps, [], 0);
    forall j | 0 <= j < |w| ensures InCalls(c, w[j]) && SyncOk(c, start, w[j]) {
      assert Beginning(c, w[j]) && Beginning(c, w[i]) && Decisions(w[j]) == Decisions(w[i]);
      assert w[j].maps == Decisions(w[j]).maps == Decisions(w[i]).maps && w[j].step == Decisions(w[j]).step;
    }
    RunSync(c, start, w, es, v);
  }

  /** A load reduction combines the windows and maps of all ranks, in rank order, and every rank gets and keeps it. */
  lemma ReductionSeesAll(c: Config, w: World, i: nat, m: nat)
    requires AllSized(c, w) && AllStand(c, w) && CanFire(w) && w[0].control.Reduce? && i < |w| && m < |c.layers|
    ensures var r := FireAll(c, w)[i];
            && |r.reductions| == |w[i].reductions| + 1 && |r.reduced| == |c.layers|
            && r.reductions[|w[i].reductions|] == r.reduced
            && exists inputs :: |inputs| == |w| && r.reduced[m] == c.reduce(inputs)
                 && forall k :: 0 <= k < |w| ==> Sized(c, w[k]) && inputs[k] == (w[k].windows[m], w[k].maps[m])
  {
    var inputs := Inputs(c, w, m);
    assert Sized(c, w[i]) && Stands(c, w[i]);
    forall k | 0 <= k < |w| ensures Sized(c, w[k]) && inputs[k] == (w[k].windows[m], w[k].maps[m]) {
      assert Sized(c, w[k]);
    }
  }

  /** A rank whose steps are all dummies records no load. */
  lemma {:induction false} DummiesRecordNothing(c: Config, w: World, es: seq<Event>, v: World, i: nat)
    requires ConfigOk(c) && Reaches(c, w, es, v) && i < |w| && i < |v|
    requires forall k :: 0 <= k < |es| && es[k].Local? && es[k].rank == i ==> es[k].isDummy
    ensures v[i].windows == w[i].windows
    decreases |es|
  {
    if es != [] {
      var u := Next(c, w, es[0]).value;
      assert i < |u| && u[i].windows == w[i].windows;
      forall k | 0 <= k < |es| - 1 && es[1..][k].Local? && es[1..][k].rank == i ensures es[1..][k].isDummy {
        assert es[1..][k] == es[k + 1];
      }
      DummiesRecordNothing(c, u, es[1..], v, i);
    }
  }

  /** Any other step records the windows it is given. */
  lemma StepsRecord(c: Config, r: Rank, windows: seq<Loads>)
    requires ConfigOk(c) && Sized(c, r) && r.control.Record? && |windows| == |c.layers|
    ensures Act(c, r, false, windows).windows == windows && Act(c, r, true, windows).windows == r.windows
    ensures Act(c, r, false, windows).step == Act(c, r, true, windows).step == r.step + 1
  {}

  // ---------------------------------------------------------------- one rank in place

  /** Marking one model is one local action. */
  lemma StartOne(c: Config, before: Rank, r: Rank, m: nat)
    requires ConfigOk(c) && Sized(c, before) && r == Iterate(c, before, m)
    requires c.isAsync && r.control == Plan(false, m) && m < |c.layers|
    ensures Iterate(c, before, m + 1) ==
            r.(plans := r.plans[m := c.rebalance(r.reduced[m], r.maps[m])], done := r.done[m := 0],
               rebalanced := r.rebalanced[m := true], control := Plan(false, m + 1))
  {
    IterateNext(c, before, m);
  }

  /** The state object of one rank, updated in place between two collectives. */
  class EplbState {
    var control: Control
    var called: nat
    var step: int
    var maps: seq<Placement>
    var rebalanced: seq<bool>
    var plans: seq<Placement>
    var done: seq<nat>
    var reduced: seq<Loads>
    var windows: seq<Loads>
    var pending: seq<Option<Outcome>>
    var contribution: bool
    ghost var trace: seq<Entry>
    ghost var reductions: seq<seq<Loads>>
    ghost var answers: seq<bool>

    ghost function Value(): Rank
      reads this
    {
      Rank(control, called, step, maps, rebalanced, plans, done, reduced, trace,
           reductions, answers, windows, pending, contribution)
    }

    constructor (r: Rank)
      ensures Value() == r
    {
      control, called, step, maps, rebalanced, plans := r.control, r.called, r.step, r.maps, r.rebalanced, r.plans;
      done, reduced, windows, pending, contribution := r.done, r.reduced, r.windows, r.pending, r.contribution;
      trace, reductions, answers := r.trace, r.reductions, r.answers;
    }

    /** The flag is cleared before ownership of the result is given up. */
    method MoveToWorkspace(c: Config, m: nat)
      requires Sized(c, Value()) && m < |c.layers| && pending[m].Some?
      modifies this
      ensures Value() == CommitLayer(c, old(Value()), m)
    {
      var result := pending[m].value;
      if result.metadataLayer.Some? && result.metadataLayer.value != result.layer {
        control := Raised;
        return;
      }
      if !result.buffersMatch || result.layer >= |maps[m]| {
        control := Raised;
        return;
      }
      Commit(c, m, result);
    }

    /** Install the row, clear the flag after the last layer, then give up the result. */
    method Commit(c: Config, m: nat, result: Outcome)
      requires Sized(c, Value()) && m < |c.layers| && result.layer < |maps[m]|
      modifies this`maps, this`trace, this`rebalanced, this`pending, this`done, this`control
      ensures maps == old(maps)[m := old(maps)[m][result.layer := result.row]]
      ensures trace == old(trace) + [Committed(m, result.layer)]
      ensures rebalanced ==
              if result.layer + 1 == c.layers[m] then old(rebalanced)[m := false] else old(rebalanced)
      ensures pending == old(pending)[m := None] && done == old(done)[m := old(done)[m] + 1]
      ensures control == Async(m + 1)
    {
      maps := maps[m := maps[m][result.layer := result.row]];
      trace := trace + [Committed(m, result.layer)];
      if result.layer + 1 == c.layers[m] {
        rebalanced := rebalanced[m := false];
      }
      pending := pending[m := None];
      done := done[m := done[m] + 1];
      control := Async(m + 1);
    }

    method StartModel(c: Config, m: nat)
      requires Sized(c, Value()) && m < |c.layers|
      modifies this
      ensures Value() ==
              old(Value()).(plans := old(plans)[m := c.rebalance(old(reduced[m]), old(maps[m]))],
                            done := old(done)[m := 0], rebalanced := old(rebalanced)[m := true],
                            control := Plan(false, m + 1))
    {
      plans := plans[m := c.rebalance(reduced[m], maps[m])];
      done := done[m := 0];
      rebalanced := rebalanced[m := true];
      control := Plan(false, m + 1);
    }

    /** The rearrangement loop in async mode snapshots the loads and marks every model: one pass over
        the models is that many local actions. */
    method StartModels(c: Config)
      requires ConfigOk(c) && Sized(c, Value()) && c.isAsync && control == Plan(false, 0)
      modifies this
      ensures Value() == Iterate(c, old(Value()), |c.layers|) && control == Plan(false, |c.layers|)
      ensures forall m :: 0 <= m < |c.layers| ==> m < |rebalanced| && rebalanced[m]
    {
      ghost var before := Value();
      for m := 0 to |c.layers|
        invariant Sized(c, before) && Sized(c, Value()) && control == Plan(false, m)
        invariant Value() == Iterate(c, before, m)
        invariant forall k :: 0 <= k < m ==> rebalanced[k]
      {
        StartOne(c, before, Value(), m);
        StartModel(c, m);
      }
    }
  }
}
