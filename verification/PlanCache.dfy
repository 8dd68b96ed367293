/**
 The Step5 FP8 plan cache: any number of host threads call the dense GEMM, which looks a
 plan up under the cache mutex, initializes and warms a missing plan while still holding that
 mutex, and enqueues a matmul under the mutex of the plan.

 Every critical section is cut into the steps between which another thread may run. A
 hipBLASLt or HIP call is a step whose outcome `ok` is chosen by the environment.
 */
module PlanCache {
  import opened Common

  datatype Key = Key(device: int, m: int, n: int, k: int, algorithm: int)

  datatype Tensor = Tensor(device: int, rows: int, cols: int, data: int)

  datatype Call = Call(
    id: nat, x: Tensor, xs: Tensor, w: Tensor, ws: Tensor,
    algorithm: int, allowInitialize: bool, out: int, stream: int)

  const INT_MAX := 0x7fff_ffff

  predicate ValidCall(c: Call) {
    && c.x.device == c.xs.device == c.w.device == c.ws.device
    && c.x.rows > 0 && c.x.cols > 0 && c.w.rows > 0 && c.x.cols == c.w.cols
    && c.xs.rows == c.x.rows && c.xs.cols == 1
    && c.ws.rows == c.w.rows && c.ws.cols == 1
    && c.x.rows <= INT_MAX && c.x.cols <= INT_MAX && c.w.rows <= INT_MAX
    && c.algorithm >= 0
  }

  function KeyOf(c: Call): Key {
    Key(c.x.device, c.x.rows, c.w.rows, c.x.cols, c.algorithm)
  }

  /** A column-major matrix layout: rows, columns, leading dimension. */
  datatype Layout = Layout(rows: int, cols: int, ld: int)

  type PlanId = nat

  datatype Plan = Plan(
    handle: Option<int>, aScale: Option<int>, bScale: Option<int>,
    a: Option<Layout>, b: Option<Layout>, d: Option<Layout>,
    algorithm: Option<int>, owner: Option<nat>)

  const BLANK_PLAN := Plan(None, None, None, None, None, None, None, None)

  /** Everything of a plan that is fixed by its key. */
  predicate InitializedFor(p: Plan, key: Key) {
    && p.handle == Some(key.device)
    && p.a == Some(Layout(key.k, key.n, key.k))
    && p.b == Some(Layout(key.k, key.m, key.k))
    && p.d == Some(Layout(key.n, key.m, key.n))
    && p.algorithm == Some(key.algorithm)
  }

  /** Where a thread is inside step5_fp8_dense_gemm. */
  datatype Pc =
    | Idle
    | WantCache(call: Call)
    | Lookup(call: Call)
    | Init(call: Call, plan: PlanId, stage: nat)
    | WantPlan(call: Call, plan: PlanId, cold: bool)
    | Enqueue(call: Call, plan: PlanId, cold: bool, stage: nat)
    | Leave(call: Call, plan: PlanId, cold: bool, ok: bool)
    | Publish(call: Call, plan: PlanId)
    | Abort(call: Call, made: Option<PlanId>)

  /** What the device and the callers get to see, in the order it happens. */
  datatype Event =
    | Initialized(plan: PlanId, key: Key)
    | Matmul(call: Call, plan: PlanId, used: Plan)
    | Published(call: Call, plan: PlanId)
    | Returned(call: Call, ok: bool)

  datatype State = State(
    cacheOwner: Option<nat>, plans: map<Key, PlanId>, objs: map<PlanId, Plan>,
    threads: seq<Pc>, nextPlan: nat, nextCall: nat, log: seq<Event>)

  function Start(threads: nat): State {
    State(None, map[], map[], seq(threads, _ => Idle), 0, 0, [])
  }

  /** A thread either begins a call or executes its next step; `ok` is the outcome of the
      foreign call in that step, when there is one. */
  datatype Action = Begin(call: Call) | Go(ok: bool)

  function At(s: State, t: nat, pc: Pc): State
    requires t < |s.threads|
  {
    s.(threads := s.threads[t := pc])
  }

  function Finish(s: State, t: nat, c: Call, ok: bool): State
    requires t < |s.threads|
  {
    At(s, t, Idle).(log := s.log + [Returned(c, ok)])
  }

  function BeginCall(s: State, t: nat, call: Call): State
    requires t < |s.threads|
  {
    var c := call.(id := s.nextCall);
    var s1 := s.(nextCall := s.nextCall + 1);
    if ValidCall(c) then At(s1, t, WantCache(c)) else Finish(s1, t, c, false)
  }

  function LookupStep(s: State, t: nat, c: Call, ok: bool): State
    requires t < |s.threads|
  {
    var key := KeyOf(c);
    if key in s.plans then
      At(s.(cacheOwner := None), t, WantPlan(c, s.plans[key], false))
    else if !c.allowInitialize || !ok then
      At(s, t, Abort(c, None))
    else
      At(s.(objs := s.objs[s.nextPlan := BLANK_PLAN], nextPlan := s.nextPlan + 1), t, Init(c, s.nextPlan, 0))
  }

  /** Plan::initialize: handle, the two scale pointers, the three layouts, the algorithm. */
  function InitPlan(plan: Plan, c: Call, stage: nat): Plan {
    var key := KeyOf(c);
    if stage == 0 then plan.(handle := Some(key.device))
    else if stage == 1 then plan.(aScale := Some(c.ws.data))
    else if stage == 2 then plan.(bScale := Some(c.xs.data))
    else if stage == 3 then
      plan.(a := Some(Layout(key.k, key.n, key.k)),
            b := Some(Layout(key.k, key.m, key.k)),
            d := Some(Layout(key.n, key.m, key.n)))
    else plan.(algorithm := Some(key.algorithm))
  }

  const LAST_INIT_STAGE := 4

  function InitStep(s: State, t: nat, c: Call, p: PlanId, stage: nat, ok: bool): State
    requires t < |s.threads| && p in s.objs
  {
    if !ok then At(s, t, Abort(c, Some(p)))
    else
      var s1 := s.(objs := s.objs[p := InitPlan(s.objs[p], c, stage)]);
      if stage < LAST_INIT_STAGE then At(s1, t, Init(c, p, stage + 1))
      else At(s1, t, WantPlan(c, p, true)).(log := s.log + [Initialized(p, KeyOf(c))])
  }

  /** Plan::enqueue under the plan mutex: the two scale pointers, then the matmul. */
  function EnqueueStep(s: State, t: nat, c: Call, p: PlanId, cold: bool, stage: nat, ok: bool): State
    requires t < |s.threads| && p in s.objs
  {
    if !ok then At(s, t, Leave(c, p, cold, false))
    else if stage == 0 then
      At(s.(objs := s.objs[p := s.objs[p].(aScale := Some(c.ws.data))]), t, Enqueue(c, p, cold, 1))
    else if stage == 1 then
      At(s.(objs := s.objs[p := s.objs[p].(bScale := Some(c.xs.data))]), t, Enqueue(c, p, cold, 2))
    else
      At(s, t, Leave(c, p, cold, true)).(log := s.log + [Matmul(c, p, s.objs[p])])
  }

  function LeaveStep(s: State, t: nat, c: Call, p: PlanId, cold: bool, ok: bool): State
    requires t < |s.threads| && p in s.objs
  {
    var s1 := s.(objs := s.objs[p := s.objs[p].(owner := None)]);
    if !cold then Finish(s1, t, c, ok)
    else if ok then At(s1, t, Publish(c, p))
    else At(s1, t, Abort(c, Some(p)))
  }

  function PublishStep(s: State, t: nat, c: Call, p: PlanId): State
    requires t < |s.threads|
  {
    At(s.(plans := s.plans[KeyOf(c) := p], cacheOwner := None), t, Idle)
      .(log := s.log + [Published(c, p), Returned(c, true)])
  }

  /** Stack unwinding: the unpublished plan is destroyed and the cache mutex released. */
  function AbortStep(s: State, t: nat, c: Call, made: Option<PlanId>): State
    requires t < |s.threads|
  {
    var objs := if made.Some? then s.objs - {made.value} else s.objs;
    Finish(s.(objs := objs, cacheOwner := None), t, c, false)
  }

  /** One step of thread `t`; None when the step is blocked. */
  function Next(s: State, t: nat, a: Action): Option<State> {
    if t >= |s.threads| then None
    else if a.Begin? then
      if s.threads[t].Idle? then Some(BeginCall(s, t, a.call)) else None
    else
      match s.threads[t]
      case Idle => None
      case WantCache(c) =>
        if s.cacheOwner.None? then Some(At(s.(cacheOwner := Some(t)), t, Lookup(c))) else None
      case Lookup(c) => Some(LookupStep(s, t, c, a.ok))
      case Init(c, p, stage) =>
        if p in s.objs then Some(InitStep(s, t, c, p, stage, a.ok)) else None
      case WantPlan(c, p, cold) =>
        if p in s.objs && s.objs[p].owner.None? then
          Some(At(s.(objs := s.objs[p := s.objs[p].(owner := Some(t))]), t, Enqueue(c, p, cold, 0)))
        else None
      case Enqueue(c, p, cold, stage) =>
        if p in s.objs then Some(EnqueueStep(s, t, c, p, cold, stage, a.ok)) else None
      case Leave(c, p, cold, ok) =>
        if p in s.objs then Some(LeaveStep(s, t, c, p, cold, ok)) else None
      case Publish(c, p) => Some(PublishStep(s, t, c, p))
      case Abort(c, made) => Some(AbortStep(s, t, c, made))
  }

  /** An interleaving: which thread moves, and with which action. None when a step blocks. */
  function Run(s: State, schedule: seq<(nat, Action)>): Option<State>
    decreases |schedule|
  {
    if schedule == [] then Some(s)
    else
      var n := Next(s, schedule[0].0, schedule[0].1);
      if n.None? then None else Run(n.value, schedule[1..])
  }

  // ---------------------------------------------------------------- invariant

  ghost predicate HoldsCache(pc: Pc) {
    match pc
    case Idle => false
    case WantCache(_) => false
    case WantPlan(_, _, cold) => cold
    case Enqueue(_, _, cold, _) => cold
    case Leave(_, _, cold, _) => cold
    case _ => true
  }

  ghost predicate LocksPlan(pc: Pc, p: PlanId) {
    (pc.Enqueue? || pc.Leave?) && pc.plan == p
  }

  /** The plan a thread is building and nobody else has seen yet. */
  ghost function Fresh(pc: Pc): Option<PlanId> {
    match pc
    case Init(_, p, _) => Some(p)
    case WantPlan(_, p, cold) => if cold then Some(p) else None
    case Enqueue(_, p, cold, _) => if cold then Some(p) else None
    case Leave(_, p, cold, _) => if cold then Some(p) else None
    case Publish(_, p) => Some(p)
    case Abort(_, made) => made
    case _ => None
  }

  ghost predicate CacheLockAgrees(s: State) {
    && (forall t :: 0 <= t < |s.threads| ==> (HoldsCache(s.threads[t]) <==> s.cacheOwner == Some(t)))
    && (s.cacheOwner.Some? ==> s.cacheOwner.value < |s.threads|)
  }

  ghost predicate PlanLocksAgree(s: State) {
    && (forall t :: 0 <= t < |s.threads| && (s.threads[t].Enqueue? || s.threads[t].Leave?) ==>
          s.threads[t].plan in s.objs && s.objs[s.threads[t].plan].owner == Some(t))
    && (forall p :: p in s.objs && s.objs[p].owner.Some? ==>
          s.objs[p].owner.value < |s.threads| && LocksPlan(s.threads[s.objs[p].owner.value], p))
  }

  ghost predicate PublishedInitialized(s: State) {
    && (forall k :: k in s.plans ==>
          s.plans[k] in s.objs && s.plans[k] < s.nextPlan && InitializedFor(s.objs[s.plans[k]], k))
    && (forall p :: p in s.objs ==> p < s.nextPlan)
  }

  /** The first `stage` assignments of Plan::initialize have been made. */
  ghost predicate InitDone(plan: Plan, key: Key, stage: nat) {
    && (stage > 0 ==> plan.handle == Some(key.device))
    && (stage > 3 ==> plan.a == Some(Layout(key.k, key.n, key.k))
                      && plan.b == Some(Layout(key.k, key.m, key.k))
                      && plan.d == Some(Layout(key.n, key.m, key.n)))
  }

  ghost predicate ThreadOk(s: State, pc: Pc) {
    && (pc != Idle ==> ValidCall(pc.call) && pc.call.id < s.nextCall)
    && (Fresh(pc).Some? ==>
          Fresh(pc).value in s.objs && Fresh(pc).value !in s.plans.Values && KeyOf(pc.call) !in s.plans)
    && (pc.Init? ==> s.objs[pc.plan].owner.None? && pc.stage <= LAST_INIT_STAGE
                     && InitDone(s.objs[pc.plan], KeyOf(pc.call), pc.stage))
    && (pc.WantPlan? || pc.Enqueue? || pc.Leave? || pc.Publish? ==>
          && (!pc.Publish? && !pc.cold ==> KeyOf(pc.call) in s.plans && s.plans[KeyOf(pc.call)] == pc.plan)
          && pc.plan in s.objs && InitializedFor(s.objs[pc.plan], KeyOf(pc.call)))
    && (pc.WantPlan? && pc.cold ==> s.objs[pc.plan].owner.None?)
    && (pc.Publish? ==> s.objs[pc.plan].owner.None?)
    && (pc.Abort? && pc.made.Some? ==> s.objs[pc.made.value].owner.None?)
    && (pc.Enqueue? ==>
          && (pc.stage > 0 ==> s.objs[pc.plan].aScale == Some(pc.call.ws.data))
          && (pc.stage > 1 ==> s.objs[pc.plan].bScale == Some(pc.call.xs.data)))
  }

  ghost predicate ThreadsOk(s: State) {
    forall t :: 0 <= t < |s.threads| ==> ThreadOk(s, s.threads[t])
  }

  ghost predicate CallsDistinct(s: State) {
    forall t, u :: 0 <= t < u < |s.threads| && s.threads[t] != Idle && s.threads[u] != Idle ==>
      s.threads[t].call.id != s.threads[u].call.id
  }

  ghost predicate StructureOk(s: State) {
    CacheLockAgrees(s) && PlanLocksAgree(s) && PublishedInitialized(s) && ThreadsOk(s) && CallsDistinct(s)
  }

  /** The plan object a step of a thread at `pc` may write to. */
  ghost function Touched(pc: Pc): Option<PlanId> {
    match pc
    case Init(_, p, _) => Some(p)
    case WantPlan(_, p, _) => Some(p)
    case Enqueue(_, p, _, _) => Some(p)
    case Leave(_, p, _, _) => Some(p)
    case Abort(_, made) => made
    case _ => None
  }

  /** What a step of `t` may change: one program counter, one plan object, one cache entry;
      on a plan that outlives the step, only the scale pointers and the owner. */
  ghost predicate Framed(s: State, t: nat, s': State)
    requires t < |s.threads|
  {
    var pc := s.threads[t];
    && |s'.threads| == |s.threads|
    && (forall u :: 0 <= u < |s.threads| && u != t ==> s'.threads[u] == s.threads[u])
    && (forall p :: p in s.objs && Touched(pc) != Some(p) ==> p in s'.objs && s'.objs[p] == s.objs[p])
    && (forall p :: p in s'.objs ==>
        p in s.objs || (p == s.nextPlan && s'.nextPlan == p + 1 && s'.objs[p] == BLANK_PLAN))
    && s.nextPlan <= s'.nextPlan && s.nextCall <= s'.nextCall
    && s'.plans == (if pc.Publish? then s.plans[KeyOf(pc.call) := pc.plan] else s.plans)
    && (pc.WantPlan? || pc.Enqueue? || pc.Leave? ==>
          && pc.plan in s.objs && pc.plan in s'.objs
          && s'.objs[pc.plan] == s.objs[pc.plan].(aScale := s'.objs[pc.plan].aScale,
                                                  bScale := s'.objs[pc.plan].bScale,
                                                  owner := s'.objs[pc.plan].owner)
          && (pc.WantPlan? ==> s.objs[pc.plan].owner.None?))
  }

  lemma StepFrame(s: State, t: nat, a: Action)
    requires Next(s, t, a).Some? && t < |s.threads|
    requires s.nextPlan !in s.objs
    ensures Framed(s, t, Next(s, t, a).value)
  {
    FrameThreads(s, t, a);
    FrameObjects(s, t, a);
    FrameSharedPlan(s, t, a);
    FramePlans(s, t, a);
  }

  lemma FramePlans(s: State, t: nat, a: Action)
    requires Next(s, t, a).Some? && t < |s.threads|
    ensures var pc, s' := s.threads[t], Next(s, t, a).value;
            && s.nextPlan <= s'.nextPlan && s.nextCall <= s'.nextCall
            && s'.plans == (if pc.Publish? then s.plans[KeyOf(pc.call) := pc.plan] else s.plans)
  {}

  lemma FrameSharedPlan(s: State, t: nat, a: Action)
    requires Next(s, t, a).Some? && t < |s.threads|
    ensures var pc, s' := s.threads[t], Next(s, t, a).value;
            pc.WantPlan? || pc.Enqueue? || pc.Leave? ==>
              && pc.plan in s.objs && pc.plan in s'.objs
              && s'.objs[pc.plan] == s.objs[pc.plan].(aScale := s'.objs[pc.plan].aScale,
                                                      bScale := s'.objs[pc.plan].bScale,
                                                      owner := s'.objs[pc.plan].owner)
              && (pc.WantPlan? ==> s.objs[pc.plan].owner.None?)
  {}

  lemma FrameThreads(s: State, t: nat, a: Action)
    requires Next(s, t, a).Some? && t < |s.threads|
    ensures var s' := Next(s, t, a).value;
            && |s'.threads| == |s.threads|
            && forall u :: 0 <= u < |s.threads| && u != t ==> s'.threads[u] == s.threads[u]
  {}

  lemma FrameObjects(s: State, t: nat, a: Action)
    requires Next(s, t, a).Some? && t < |s.threads|
    requires s.nextPlan !in s.objs
    ensures var s' := Next(s, t, a).value;
            && (forall p :: p in s.objs && Touched(s.threads[t]) != Some(p) ==> p in s'.objs && s'.objs[p] == s.objs[p])
            && (forall p :: p in s'.objs ==>
                  p in s.objs || (p == s.nextPlan && s'.nextPlan == p + 1 && s'.objs[p] == BLANK_PLAN))
  {}

  lemma CacheLockKept(s: State, t: nat, a: Action)
    requires CacheLockAgrees(s) && Next(s, t, a).Some?
    ensures CacheLockAgrees(Next(s, t, a).value)
  {
    FrameThreads(s, t, a);
    MoverHoldsCache(s, t, a);
    CacheLockFramed(s, t, Next(s, t, a).value);
  }

  /** After a step of `t`, it owns the cache mutex exactly when it holds it, and nobody else's ownership
      has changed. */
  lemma MoverHoldsCache(s: State, t: nat, a: Action)
    requires Next(s, t, a).Some? && t < |s.threads| && (HoldsCache(s.threads[t]) <==> s.cacheOwner == Some(t))
    ensures var s' := Next(s, t, a).value;
            && t < |s'.threads|
            && (HoldsCache(s'.threads[t]) <==> s'.cacheOwner == Some(t))
            && (s'.cacheOwner != s.cacheOwner ==>
                  (s.cacheOwner == None || s.cacheOwner == Some(t))
                      && (s'.cacheOwner == None || s'.cacheOwner == Some(t)))
  {
    if a.Go? {
      match s.threads[t]
      case Idle =>
      case WantCache(c) =>
      case Lookup(c) =>
      case Init(c, p, stage) =>
      case WantPlan(c, p, cold) =>
      case Enqueue(c, p, cold, stage) =>
      case Leave(c, p, cold, ok) =>
      case Publish(c, p) =>
      case Abort(c, made) =>
    }
  }

  lemma CacheLockFramed(s: State, t: nat, s': State)
    requires CacheLockAgrees(s) && t < |s.threads| == |s'.threads|
    requires forall u :: 0 <= u < |s.threads| && u != t ==> s'.threads[u] == s.threads[u]
    requires HoldsCache(s'.threads[t]) <==> s'.cacheOwner == Some(t)
    requires s'.cacheOwner != s.cacheOwner ==>
               (s.cacheOwner == None || s.cacheOwner == Some(t)) && (s'.cacheOwner == None || s'.cacheOwner == Some(t))
    ensures CacheLockAgrees(s')
  {}

  lemma PlanLocksKept(s: State, t: nat, a: Action)
    requires PlanLocksAgree(s) && Next(s, t, a).Some?
    requires s.nextPlan !in s.objs && t < |s.threads| && ThreadOk(s, s.threads[t])
    ensures PlanLocksAgree(Next(s, t, a).value)
  {
    var s' := Next(s, t, a).value;
    StepFrame(s, t, a);
    forall u | 0 <= u < |s.threads| && (s'.threads[u].Enqueue? || s'.threads[u].Leave?)
      ensures s'.threads[u].plan in s'.objs && s'.objs[s'.threads[u].plan].owner == Some(u)
    {
      if u == t { MoverLocks(s, t, a); } else { OtherLocks(s, t, s', u); }
    }
    forall p | p in s'.objs && s'.objs[p].owner.Some?
      ensures s'.objs[p].owner.value < |s'.threads| && LocksPlan(s'.threads[s'.objs[p].owner.value], p)
    {
      if Touched(s.threads[t]) == Some(p) { MoverOwns(s, t, a, p); }
    }
  }

  lemma MoverLocks(s: State, t: nat, a: Action)
    requires Next(s, t, a).Some? && t < |s.threads|
    requires LockOk(s, t)
    ensures LockOk(Next(s, t, a).value, t)
  {}

  ghost predicate LockOk(s: State, u: nat)
    requires u < |s.threads|
  {
    s.threads[u].Enqueue? || s.threads[u].Leave? ==>
      s.threads[u].plan in s.objs && s.objs[s.threads[u].plan].owner == Some(u)
  }

  lemma OtherLocks(s: State, t: nat, s': State, u: nat)
    requires t < |s.threads| && u < |s.threads| && u != t
    requires Framed(s, t, s') && ThreadOk(s, s.threads[t]) && LockOk(s, t) && LockOk(s, u)
    ensures LockOk(s', u)
  {}

  lemma MoverOwns(s: State, t: nat, a: Action, p: PlanId)
    requires Next(s, t, a).Some? && t < |s.threads| && ThreadOk(s, s.threads[t]) && LockOk(s, t)
    requires Touched(s.threads[t]) == Some(p) && p in Next(s, t, a).value.objs
    ensures var s' := Next(s, t, a).value;
            s'.objs[p].owner.Some? ==> s'.objs[p].owner.value == t && LocksPlan(s'.threads[t], p)
  {}

  lemma PublishedKept(s: State, t: nat, s': State)
    requires PublishedInitialized(s) && t < |s.threads| && Framed(s, t, s') && ThreadOk(s, s.threads[t])
    ensures PublishedInitialized(s')
  {
    forall k | k in s'.plans
      ensures s'.plans[k] in s'.objs && s'.plans[k] < s'.nextPlan && InitializedFor(s'.objs[s'.plans[k]], k)
    {}
  }

  /** A step of `t` leaves what is known about any other thread in place. */
  lemma OthersKept(s: State, t: nat, s': State, u: nat)
    requires t < |s.threads| && u < |s.threads| && u != t
    requires Framed(s, t, s') && LockOk(s, t) && LockOk(s, u)
    requires ThreadOk(s, s.threads[t]) && ThreadOk(s, s.threads[u])
    requires !(HoldsCache(s.threads[t]) && HoldsCache(s.threads[u]))
    ensures ThreadOk(s', s.threads[u])
  {}

  lemma MoverKept(s: State, t: nat, a: Action)
    requires PublishedInitialized(s) && Next(s, t, a).Some?
    requires t < |s.threads| && ThreadOk(s, s.threads[t])
    ensures ThreadOk(Next(s, t, a).value, Next(s, t, a).value.threads[t])
  {
    match s.threads[t]
    case Lookup(c) => LookupKept(s, t, c, a);
    case Init(c, p, stage) => InitKept(s, t, c, p, stage, a);
    case Enqueue(c, p, cold, stage) => EnqueueKept(s, t, c, p, cold, stage, a);
    case Leave(c, p, cold, ok) => LeaveKept(s, t, c, p, cold, ok, a);
    case _ =>
  }

  lemma LookupKept(s: State, t: nat, c: Call, a: Action)
    requires PublishedInitialized(s) && Next(s, t, a).Some?
    requires t < |s.threads| && s.threads[t] == Lookup(c) && ThreadOk(s, s.threads[t])
    ensures ThreadOk(Next(s, t, a).value, Next(s, t, a).value.threads[t])
  {}

  lemma InitKept(s: State, t: nat, c: Call, p: PlanId, stage: nat, a: Action)
    requires Next(s, t, a).Some?
    requires t < |s.threads| && s.threads[t] == Init(c, p, stage) && ThreadOk(s, s.threads[t])
    ensures ThreadOk(Next(s, t, a).value, Next(s, t, a).value.threads[t])
  {}

  lemma EnqueueKept(s: State, t: nat, c: Call, p: PlanId, cold: bool, stage: nat, a: Action)
    requires Next(s, t, a).Some?
    requires t < |s.threads| && s.threads[t] == Enqueue(c, p, cold, stage) && ThreadOk(s, s.threads[t])
    ensures ThreadOk(Next(s, t, a).value, Next(s, t, a).value.threads[t])
  {}

  lemma LeaveKept(s: State, t: nat, c: Call, p: PlanId, cold: bool, ok: bool, a: Action)
    requires Next(s, t, a).Some?
    requires t < |s.threads| && s.threads[t] == Leave(c, p, cold, ok) && ThreadOk(s, s.threads[t])
    ensures ThreadOk(Next(s, t, a).value, Next(s, t, a).value.threads[t])
  {}

  lemma CallsKept(s: State, t: nat, a: Action)
    requires CallsDistinct(s) && Next(s, t, a).Some?
    requires forall u :: 0 <= u < |s.threads| && s.threads[u] != Idle ==> s.threads[u].call.id < s.nextCall
    ensures CallsDistinct(Next(s, t, a).value)
  {
    FrameThreads(s, t, a);
    SameCall(s, t, a);
  }

  lemma SameCall(s: State, t: nat, a: Action)
    requires Next(s, t, a).Some? && t < |s.threads| == |Next(s, t, a).value.threads|
    ensures var pc' := Next(s, t, a).value.threads[t];
            pc' != Idle ==> pc'.call.id == if s.threads[t] == Idle then s.nextCall else s.threads[t].call.id
  {}

  lemma StructureKept(s: State, t: nat, a: Action)
    requires StructureOk(s) && Next(s, t, a).Some?
    ensures StructureOk(Next(s, t, a).value)
  {
    var s' := Next(s, t, a).value;
    assert ThreadOk(s, s.threads[t]);
    CacheLockKept(s, t, a);
    PlanLocksKept(s, t, a);
    StepFrame(s, t, a);
    PublishedKept(s, t, s');
    CallsKept(s, t, a);
    forall u | 0 <= u < |s'.threads|
      ensures ThreadOk(s', s'.threads[u])
    {
      assert LockOk(s, t) && LockOk(s, u);
      if u == t { MoverKept(s, t, a); } else { OthersKept(s, t, s', u); }
    }
  }

  // ---------------------------------------------------------------- history

  /** A kind of event to look for in the log. */
  datatype Query =
    | InitOf(plan: PlanId, key: Key)
    | MatmulOn(plan: PlanId)
    | MatmulFor(id: nat)
    | PublishOf(key: Key)
    | PublishedBy(id: nat)
    | PublishOn(plan: PlanId)
    | ReturnOf(id: nat)

  ghost predicate Hits(e: Event, q: Query) {
    match q
    case InitOf(p, k) => e == Initialized(p, k)
    case MatmulOn(p) => e.Matmul? && e.plan == p
    case MatmulFor(id) => e.Matmul? && e.call.id == id
    case PublishOf(k) => e.Published? && KeyOf(e.call) == k
    case PublishedBy(id) => e.Published? && e.call.id == id
    case PublishOn(p) => e.Published? && e.plan == p
    case ReturnOf(id) => e.Returned? && e.call.id == id
  }

  ghost function Count(log: seq<Event>, q: Query): nat {
    if log == [] then 0
    else Count(log[..|log| - 1], q) + (if Hits(log[|log| - 1], q) then 1 else 0)
  }

  lemma CountAppend(log: seq<Event>, e: Event, q: Query)
    ensures Count(log + [e], q) == Count(log, q) + (if Hits(e, q) then 1 else 0)
  {
    assert (log + [e])[..|log|] == log;
  }

  /** The events a step adds to the log. */
  ghost function Emitted(s: State, t: nat, a: Action): seq<Event>
    requires t < |s.threads|
  {
    match s.threads[t]
    case Idle =>
      if a.Begin? && !ValidCall(a.call.(id := s.nextCall)) then [Returned(a.call.(id := s.nextCall), false)] else []
    case Init(c, p, stage) => if a.Go? && a.ok && stage >= LAST_INIT_STAGE then [Initialized(p, KeyOf(c))] else []
    case Enqueue(c, p, _, stage) =>
      if a.Go? && a.ok && stage > 1 && p in s.objs then [Matmul(c, p, s.objs[p])] else []
    case Leave(c, _, cold, ok) => if cold then [] else [Returned(c, ok)]
    case Publish(c, p) => [Published(c, p), Returned(c, true)]
    case Abort(c, _) => [Returned(c, false)]
    case _ => []
  }

  lemma LogGrows(s: State, t: nat, a: Action)
    requires Next(s, t, a).Some? && t < |s.threads|
    ensures Next(s, t, a).value.log == s.log + Emitted(s, t, a)
  {}

  ghost function HitsIn(es: seq<Event>, q: Query): nat
    requires |es| <= 2
  {
    (if |es| > 0 && Hits(es[0], q) then 1 else 0) + (if |es| > 1 && Hits(es[1], q) then 1 else 0)
  }

  lemma CountGrows(log: seq<Event>, es: seq<Event>, q: Query)
    requires |es| <= 2
    ensures Count(log + es, q) == Count(log, q) + HitsIn(es, q)
  {
    if |es| == 0 {
      assert log + es == log;
    } else if |es| == 1 {
      assert es == [es[0]];
      CountAppend(log, es[0], q);
    } else {
      assert log + es == (log + [es[0]]) + [es[1]];
      CountAppend(log, es[0], q);
      CountAppend(log + [es[0]], es[1], q);
    }
  }

  ghost predicate Active(s: State, id: nat) {
    exists t :: 0 <= t < |s.threads| && s.threads[t] != Idle && s.threads[t].call.id == id
  }

  /** Every logged matmul used the scale pointers of its own call and a plan made for its key. */
  ghost predicate MatmulsOwn(log: seq<Event>) {
    forall i :: 0 <= i < |log| && log[i].Matmul? ==>
      && log[i].used.aScale == Some(log[i].call.ws.data)
      && log[i].used.bScale == Some(log[i].call.xs.data)
      && InitializedFor(log[i].used, KeyOf(log[i].call))
  }

  /** When a plan is published it has been initialized once, for its key, and enqueued once. */
  ghost predicate WarmWhenPublished(log: seq<Event>) {
    forall i :: 0 <= i < |log| && log[i].Published? ==>
      && Count(log[..i], InitOf(log[i].plan, KeyOf(log[i].call))) == 1
      && Count(log[..i], MatmulOn(log[i].plan)) == 1
  }

  ghost function B(b: bool): nat { if b then 1 else 0 }

  ghost predicate PlansCounted(s: State) {
    && (forall k :: Count(s.log, PublishOf(k)) == B(k in s.plans))
    && (forall p: nat :: Count(s.log, PublishOn(p)) == B(p in s.plans.Values))
    && (forall p, k :: p >= s.nextPlan ==> Count(s.log, InitOf(p, k)) == 0)
    && (forall p :: p >= s.nextPlan ==> Count(s.log, MatmulOn(p)) == 0)
  }

  /** The matmul of the call is in the log. */
  ghost function Done(pc: Pc): nat { B(pc.Publish? || (pc.Leave? && pc.ok)) }

  /** How often the plan a thread is building has been initialized and enqueued so far. */
  ghost predicate FreshCounted(log: seq<Event>, pc: Pc) {
    Fresh(pc).Some? && !pc.Abort? ==>
      && Count(log, InitOf(Fresh(pc).value, KeyOf(pc.call))) == B(!pc.Init?)
      && Count(log, MatmulOn(Fresh(pc).value)) == Done(pc)
  }

  ghost predicate CallCounted(log: seq<Event>, pc: Pc) {
    pc != Idle ==>
      && Count(log, MatmulFor(pc.call.id)) == Done(pc)
      && Count(log, PublishedBy(pc.call.id)) == 0
  }

  ghost predicate ReturnsCounted(s: State) {
    && (forall id: nat :: Count(s.log, ReturnOf(id)) == B(id < s.nextCall && !Active(s, id)))
    && (forall id: nat :: id >= s.nextCall ==> Count(s.log, MatmulFor(id)) == 0 && Count(s.log, PublishedBy(id)) == 0)
    && (forall i :: 0 <= i < |s.log| && s.log[i].Returned? ==>
          && Count(s.log, MatmulFor(s.log[i].call.id)) == B(s.log[i].ok)
          && (!s.log[i].ok ==> Count(s.log, PublishedBy(s.log[i].call.id)) == 0))
  }

  ghost predicate HistoryOk(s: State) {
    && MatmulsOwn(s.log) && WarmWhenPublished(s.log) && PlansCounted(s) && ReturnsCounted(s)
    && (forall t :: 0 <= t < |s.threads| ==> FreshCounted(s.log, s.threads[t]) && CallCounted(s.log, s.threads[t]))
  }

  lemma MatmulsOwnKept(s: State, t: nat, a: Action)
    requires t < |s.threads| && ThreadOk(s, s.threads[t])
    requires MatmulsOwn(s.log)
    ensures MatmulsOwn(s.log + Emitted(s, t, a))
  {}

  lemma WarmKept(log: seq<Event>, es: seq<Event>)
    requires WarmWhenPublished(log) && |es| <= 2
    requires |es| > 0 && es[0].Published? ==>
               Count(log, InitOf(es[0].plan, KeyOf(es[0].call))) == 1 && Count(log, MatmulOn(es[0].plan)) == 1
    requires |es| > 1 ==> !es[1].Published?
    ensures WarmWhenPublished(log + es)
  {
    var log' := log + es;
    forall i | 0 <= i < |log'| && log'[i].Published?
      ensures Count(log'[..i], InitOf(log'[i].plan, KeyOf(log'[i].call))) == 1
      ensures Count(log'[..i], MatmulOn(log'[i].plan)) == 1
    {
      if i < |log| {
        assert log'[..i] == log[..i];
      } else {
        assert log'[..|log|] == log;
      }
    }
  }

  lemma PlansCountedKept(s: State, t: nat, a: Action, s': State)
    requires t < |s.threads| && ThreadOk(s, s.threads[t]) && Framed(s, t, s')
    requires s'.log == s.log + Emitted(s, t, a)
    requires PlansCounted(s) && PublishedInitialized(s)
    ensures PlansCounted(s')
  {
    forall k ensures Count(s'.log, PublishOf(k)) == B(k in s'.plans) {
      KeyCounted(s, t, a, s', k);
    }
    forall p: nat ensures Count(s'.log, PublishOn(p)) == B(p in s'.plans.Values) {
      PlanValues(s, t, s', p);
      PlanCounted(s, t, a, s', p);
    }
    forall p, k | p >= s'.nextPlan ensures Count(s'.log, InitOf(p, k)) == 0 {
      UnmadePlan(s, t, a, p, InitOf(p, k));
    }
    forall p | p >= s'.nextPlan ensures Count(s'.log, MatmulOn(p)) == 0 {
      UnmadePlan(s, t, a, p, MatmulOn(p));
    }
  }

  /** A step publishes a key exactly when it is the publication of a call with that key. */
  lemma PublishesKey(s: State, t: nat, a: Action, k: Key)
    requires t < |s.threads|
    ensures var pc := s.threads[t]; HitsIn(Emitted(s, t, a), PublishOf(k)) == B(pc.Publish? && KeyOf(pc.call) == k)
  {}

  lemma KeyCounted(s: State, t: nat, a: Action, s': State, k: Key)
    requires t < |s.threads|
    requires var pc := s.threads[t];
             && (k in s'.plans <==> k in s.plans || (pc.Publish? && KeyOf(pc.call) == k))
             && (pc.Publish? ==> KeyOf(pc.call) !in s.plans)
    requires Count(s.log, PublishOf(k)) == B(k in s.plans)
    ensures Count(s.log + Emitted(s, t, a), PublishOf(k)) == B(k in s'.plans)
  {
    var es := Emitted(s, t, a);
    CountGrows(s.log, es, PublishOf(k));
    PublishesKey(s, t, a, k);
    assert Count(s.log + es, PublishOf(k)) == B(k in s.plans) + HitsIn(es, PublishOf(k));
  }

  lemma PublishesPlan(s: State, t: nat, a: Action, p: PlanId)
    requires t < |s.threads|
    ensures var pc := s.threads[t]; HitsIn(Emitted(s, t, a), PublishOn(p)) == B(pc.Publish? && pc.plan == p)
  {}

  lemma PlanCounted(s: State, t: nat, a: Action, s': State, p: PlanId)
    requires t < |s.threads|
    requires var pc := s.threads[t];
             && (p in s'.plans.Values <==> p in s.plans.Values || (pc.Publish? && pc.plan == p))
             && (pc.Publish? ==> pc.plan !in s.plans.Values)
    requires Count(s.log, PublishOn(p)) == B(p in s.plans.Values)
    ensures Count(s.log + Emitted(s, t, a), PublishOn(p)) == B(p in s'.plans.Values)
  {
    var es := Emitted(s, t, a);
    CountGrows(s.log, es, PublishOn(p));
    PublishesPlan(s, t, a, p);
    assert Count(s.log + es, PublishOn(p)) == B(p in s.plans.Values) + HitsIn(es, PublishOn(p));
  }

  lemma UnmadePlan(s: State, t: nat, a: Action, p: PlanId, q: Query)
    requires t < |s.threads| && ThreadOk(s, s.threads[t]) && p !in s.objs
    requires q == MatmulOn(p) || (q.InitOf? && q.plan == p)
    requires Count(s.log, q) == 0
    ensures Count(s.log + Emitted(s, t, a), q) == 0
  {
    CountGrows(s.log, Emitted(s, t, a), q);
  }

  lemma PlanValues(s: State, t: nat, s': State, p: PlanId)
    requires t < |s.threads| && ThreadOk(s, s.threads[t]) && Framed(s, t, s')
    ensures p in s'.plans.Values <==>
              p in s.plans.Values || (s.threads[t].Publish? && s.threads[t].plan == p)
  {
    if s.threads[t].Publish? {
      var key := KeyOf(s.threads[t].call);
      assert key in s'.plans && s'.plans[key] == s.threads[t].plan;
      if p in s.plans.Values {
        var k :| k in s.plans && s.plans[k] == p;
        assert k in s'.plans && s'.plans[k] == p;
      }
    }
  }

  /** A step adds to the log what its change of program counter says. */
  lemma MoverHits(s: State, t: nat, a: Action)
    requires Next(s, t, a).Some? && t < |s.threads| == |Next(s, t, a).value.threads|
    ensures var pc, pc', es := s.threads[t], Next(s, t, a).value.threads[t], Emitted(s, t, a);
            && (pc' != Idle ==>
                  && pc'.call.id == (if pc == Idle then s.nextCall else pc.call.id)
                  && Done(pc') == Done(pc) + HitsIn(es, MatmulFor(pc'.call.id))
                  && HitsIn(es, PublishedBy(pc'.call.id)) == 0)
  {}

  lemma MoverFreshHits(s: State, t: nat, a: Action)
    requires Next(s, t, a).Some? && t < |s.threads| == |Next(s, t, a).value.threads|
    requires ThreadOk(s, s.threads[t])
    ensures var pc, pc', es := s.threads[t], Next(s, t, a).value.threads[t], Emitted(s, t, a);
            Fresh(pc').Some? && !pc'.Abort? ==>
              && (if pc.Lookup? then Fresh(pc').value == s.nextPlan
                  else Fresh(pc) == Fresh(pc') && !pc.Abort? && pc.call == pc'.call)
              && B(!pc'.Init?) == B(!pc.Init? && !pc.Lookup?) + HitsIn(es, InitOf(Fresh(pc').value, KeyOf(pc'.call)))
              && Done(pc') == Done(pc) + HitsIn(es, MatmulOn(Fresh(pc').value))
  {}

  lemma MoverCounted(s: State, t: nat, pc': Pc, es: seq<Event>)
    requires t < |s.threads| && |es| <= 2
    requires PlansCounted(s) && ReturnsCounted(s)
    requires FreshCounted(s.log, s.threads[t]) && CallCounted(s.log, s.threads[t])
    requires var pc := s.threads[t];
             pc' != Idle ==>
                && pc'.call.id == (if pc == Idle then s.nextCall else pc.call.id)
                && Done(pc') == Done(pc) + HitsIn(es, MatmulFor(pc'.call.id))
                && HitsIn(es, PublishedBy(pc'.call.id)) == 0
    requires var pc := s.threads[t];
             Fresh(pc').Some? && !pc'.Abort? ==>
               && (if pc.Lookup? then Fresh(pc').value == s.nextPlan
                   else Fresh(pc) == Fresh(pc') && !pc.Abort? && pc.call == pc'.call)
               && B(!pc'.Init?) == B(!pc.Init? && !pc.Lookup?) + HitsIn(es, InitOf(Fresh(pc').value, KeyOf(pc'.call)))
               && Done(pc') == Done(pc) + HitsIn(es, MatmulOn(Fresh(pc').value))
    ensures FreshCounted(s.log + es, pc') && CallCounted(s.log + es, pc')
  {
    if pc' != Idle {
      CountGrows(s.log, es, MatmulFor(pc'.call.id));
      CountGrows(s.log, es, PublishedBy(pc'.call.id));
    }
    if Fresh(pc').Some? && !pc'.Abort? {
      CountGrows(s.log, es, InitOf(Fresh(pc').value, KeyOf(pc'.call)));
      CountGrows(s.log, es, MatmulOn(Fresh(pc').value));
    }
  }

  /** Nothing a step logs concerns the call or the unpublished plan of another thread. */
  lemma OtherHits(s: State, t: nat, a: Action, u: nat)
    requires t < |s.threads| && u < |s.threads| && u != t
    requires ThreadOk(s, s.threads[t]) && ThreadOk(s, s.threads[u]) && CallsDistinct(s)
    requires !(HoldsCache(s.threads[t]) && HoldsCache(s.threads[u]))
    ensures var pc, es := s.threads[u], Emitted(s, t, a);
            && (pc != Idle ==> HitsIn(es, MatmulFor(pc.call.id)) == 0 && HitsIn(es, PublishedBy(pc.call.id)) == 0)
            && (Fresh(pc).Some? ==> HitsIn(es, MatmulOn(Fresh(pc).value)) == 0
                                    && HitsIn(es, InitOf(Fresh(pc).value, KeyOf(pc.call))) == 0)
  {}

  lemma OtherCounted(log: seq<Event>, es: seq<Event>, pc: Pc)
    requires |es| <= 2 && FreshCounted(log, pc) && CallCounted(log, pc)
    requires pc != Idle ==> HitsIn(es, MatmulFor(pc.call.id)) == 0 && HitsIn(es, PublishedBy(pc.call.id)) == 0
    requires Fresh(pc).Some? ==> HitsIn(es, MatmulOn(Fresh(pc).value)) == 0
                                 && HitsIn(es, InitOf(Fresh(pc).value, KeyOf(pc.call))) == 0
    ensures FreshCounted(log + es, pc) && CallCounted(log + es, pc)
  {
    if Fresh(pc).Some? && !pc.Abort? {
      CountGrows(log, es, InitOf(Fresh(pc).value, KeyOf(pc.call)));
      CountGrows(log, es, MatmulOn(Fresh(pc).value));
    }
    if pc != Idle {
      CountGrows(log, es, MatmulFor(pc.call.id));
      CountGrows(log, es, PublishedBy(pc.call.id));
    }
  }

  /** A step begins a call, goes on with it, or ends it; only the last logs a return. */
  ghost predicate CallProgress(s: State, t: nat, s': State, es: seq<Event>)
    requires t < |s.threads| == |s'.threads| && |es| <= 2
  {
    var pc, pc' := s.threads[t], s'.threads[t];
    var id := if pc == Idle then s.nextCall else pc.call.id;
    && s'.nextCall == s.nextCall + B(pc == Idle)
    && (pc' != Idle ==> pc'.call.id == id)
    && (forall other: nat :: HitsIn(es, ReturnOf(other)) == B(other == id && pc' == Idle))
  }

  lemma StepProgresses(s: State, t: nat, a: Action)
    requires Next(s, t, a).Some? && t < |s.threads| == |Next(s, t, a).value.threads|
    ensures CallProgress(s, t, Next(s, t, a).value, Emitted(s, t, a))
  {}

  lemma ActiveChanges(s: State, t: nat, s': State, es: seq<Event>, id: nat)
    requires t < |s.threads| && CallsDistinct(s) && |es| <= 2
    requires Framed(s, t, s') && CallProgress(s, t, s', es)
    requires forall u :: 0 <= u < |s.threads| && s.threads[u] != Idle ==> s.threads[u].call.id < s.nextCall
    ensures B(id < s'.nextCall && !Active(s', id))
            == B(id < s.nextCall && !Active(s, id)) + HitsIn(es, ReturnOf(id))
  {
    var mine := if s.threads[t] == Idle then s.nextCall else s.threads[t].call.id;
    if id == mine {
      assert Active(s, id) <==> s.threads[t] != Idle;
      if s'.threads[t] != Idle { assert Active(s', id); }
      assert Active(s', id) <==> s'.threads[t] != Idle;
    } else {
      if Active(s, id) {
        var u :| 0 <= u < |s.threads| && s.threads[u] != Idle && s.threads[u].call.id == id;
        assert s'.threads[u] == s.threads[u];
      }
      if Active(s', id) {
        var u :| 0 <= u < |s'.threads| && s'.threads[u] != Idle && s'.threads[u].call.id == id;
        assert u != t;
      }
    }
  }

  lemma ReturnsKept(s: State, t: nat, a: Action, s': State)
    requires t < |s.threads| && CallsDistinct(s) && ReturnsCounted(s)
    requires Framed(s, t, s') && CallProgress(s, t, s', Emitted(s, t, a)) && s'.log == s.log + Emitted(s, t, a)
    requires forall u :: 0 <= u < |s.threads| && s.threads[u] != Idle ==> s.threads[u].call.id < s.nextCall
    requires CallCounted(s.log, s.threads[t])
    ensures ReturnsCounted(s')
  {
    var es := Emitted(s, t, a);
    forall id: nat ensures Count(s'.log, ReturnOf(id)) == B(id < s'.nextCall && !Active(s', id)) {
      ReturnCounted(s, t, s', es, id);
    }
    forall id: nat | id >= s'.nextCall
      ensures Count(s'.log, MatmulFor(id)) == 0 && Count(s'.log, PublishedBy(id)) == 0
    {
      LaterUncounted(s, t, a, id);
    }
    forall i | 0 <= i < |s'.log| && s'.log[i].Returned?
      ensures Count(s'.log, MatmulFor(s'.log[i].call.id)) == B(s'.log[i].ok)
      ensures !s'.log[i].ok ==> Count(s'.log, PublishedBy(s'.log[i].call.id)) == 0
    {
      assert s.threads[t] != Idle ==> Active(s, s.threads[t].call.id);
      ReturnedCounted(s, t, a, i);
    }
  }

  lemma ReturnCounted(s: State, t: nat, s': State, es: seq<Event>, id: nat)
    requires t < |s.threads| && CallsDistinct(s) && |es| <= 2 && s'.log == s.log + es
    requires Framed(s, t, s') && CallProgress(s, t, s', es)
    requires forall u :: 0 <= u < |s.threads| && s.threads[u] != Idle ==> s.threads[u].call.id < s.nextCall
    requires Count(s.log, ReturnOf(id)) == B(id < s.nextCall && !Active(s, id))
    ensures Count(s'.log, ReturnOf(id)) == B(id < s'.nextCall && !Active(s', id))
  {
    CountGrows(s.log, es, ReturnOf(id));
    ActiveChanges(s, t, s', es, id);
  }

  /** A call that has not begun appears in no event. */
  lemma LaterUncounted(s: State, t: nat, a: Action, id: nat)
    requires t < |s.threads| && id >= s.nextCall && (s.threads[t] != Idle ==> s.threads[t].call.id < s.nextCall)
    requires Count(s.log, MatmulFor(id)) == 0 && Count(s.log, PublishedBy(id)) == 0
    ensures var log := s.log + Emitted(s, t, a); Count(log, MatmulFor(id)) == 0 && Count(log, PublishedBy(id)) == 0
  {
    CountGrows(s.log, Emitted(s, t, a), MatmulFor(id));
    CountGrows(s.log, Emitted(s, t, a), PublishedBy(id));
  }

  lemma ReturnedCounted(s: State, t: nat, a: Action, i: nat)
    requires t < |s.threads| && ReturnsCounted(s) && CallCounted(s.log, s.threads[t])
    requires s.threads[t] != Idle ==> s.threads[t].call.id < s.nextCall && Active(s, s.threads[t].call.id)
    requires i < |s.log + Emitted(s, t, a)| && (s.log + Emitted(s, t, a))[i].Returned?
    ensures var log := s.log + Emitted(s, t, a);
            && Count(log, MatmulFor(log[i].call.id)) == B(log[i].ok)
            && (!log[i].ok ==> Count(log, PublishedBy(log[i].call.id)) == 0)
  {
    var es := Emitted(s, t, a);
    var e := (s.log + es)[i];
    CountGrows(s.log, es, MatmulFor(e.call.id));
    CountGrows(s.log, es, PublishedBy(e.call.id));
    if i < |s.log| {
      HitCounted(s.log, i, ReturnOf(e.call.id));
      assert !Active(s, e.call.id);
    } else {
      assert e == es[i - |s.log|];
    }
  }

  lemma HitCounted(log: seq<Event>, i: nat, q: Query)
    requires i < |log| && Hits(log[i], q)
    ensures Count(log, q) >= 1
  {}

  lemma HistoryKept(s: State, t: nat, a: Action)
    requires StructureOk(s) && HistoryOk(s) && Next(s, t, a).Some?
    ensures HistoryOk(Next(s, t, a).value)
  {
    var s' := Next(s, t, a).value;
    assert ThreadOk(s, s.threads[t]);
    LogGrows(s, t, a);
    StepFrame(s, t, a);
    StepProgresses(s, t, a);
    MatmulsOwnKept(s, t, a);
    WarmKept(s.log, Emitted(s, t, a));
    PlansCountedKept(s, t, a, s');
    forall u | 0 <= u < |s.threads| && s.threads[u] != Idle ensures s.threads[u].call.id < s.nextCall {
      assert ThreadOk(s, s.threads[u]);
    }
    ReturnsKept(s, t, a, s');
    forall u | 0 <= u < |s'.threads|
      ensures FreshCounted(s'.log, s'.threads[u]) && CallCounted(s'.log, s'.threads[u])
    {
      ThreadCounted(s, t, a, s', u);
    }
  }

  lemma ThreadCounted(s: State, t: nat, a: Action, s': State, u: nat)
    requires StructureOk(s) && HistoryOk(s) && Next(s, t, a).Some? && s' == Next(s, t, a).value
    requires s'.log == s.log + Emitted(s, t, a) && u < |s.threads| == |s'.threads|
    requires u != t ==> s'.threads[u] == s.threads[u]
    ensures FreshCounted(s'.log, s'.threads[u]) && CallCounted(s'.log, s'.threads[u])
  {
    assert ThreadOk(s, s.threads[t]) && ThreadOk(s, s.threads[u]);
    if u == t {
      MoverHits(s, t, a);
      MoverFreshHits(s, t, a);
      MoverCounted(s, t, s'.threads[t], Emitted(s, t, a));
    } else {
      OtherHits(s, t, a, u);
      OtherCounted(s.log, Emitted(s, t, a), s.threads[u]);
    }
  }

  // ---------------------------------------------------------------- theorems

  lemma {:induction false} RunKeeps(s: State, schedule: seq<(nat, Action)>)
    requires StructureOk(s) && HistoryOk(s) && Run(s, schedule).Some?
    ensures StructureOk(Run(s, schedule).value) && HistoryOk(Run(s, schedule).value)
    decreases |schedule|
  {
    if schedule != [] {
      StructureKept(s, schedule[0].0, schedule[0].1);
      HistoryKept(s, schedule[0].0, schedule[0].1);
      RunKeeps(Next(s, schedule[0].0, schedule[0].1).value, schedule[1..]);
    }
  }

  lemma StartOk(threads: nat)
    ensures StructureOk(Start(threads)) && HistoryOk(Start(threads))
  {}

  /** Safety of every interleaving of any number of threads. */
  lemma CacheIsSafe(threads: nat, schedule: seq<(nat, Action)>)
    requires Run(Start(threads), schedule).Some?
    ensures var s := Run(Start(threads), schedule).value;
      // a published plan is the one its key asks for, and was warmed exactly once before publication
      && (forall k :: k in s.plans ==> s.plans[k] in s.objs && InitializedFor(s.objs[s.plans[k]], k))
      && WarmWhenPublished(s.log)
      // at most one publication per key and per plan, over the whole run
      && (forall k :: Count(s.log, PublishOf(k)) <= 1)
      && (forall p: nat :: Count(s.log, PublishOn(p)) <= 1)
      // every matmul ran with its own call's scales, on a plan for its own call's key
      && MatmulsOwn(s.log)
  {
    StartOk(threads);
    RunKeeps(Start(threads), schedule);
  }

  /** Every call that has begun is still running or has returned once; it enqueued one matmul
      when it succeeded and none when it failed, and a failed call published nothing. */
  lemma CallsAreAccounted(threads: nat, schedule: seq<(nat, Action)>, id: nat)
    requires Run(Start(threads), schedule).Some?
    ensures var s := Run(Start(threads), schedule).value;
      && Count(s.log, ReturnOf(id)) == (if id < s.nextCall && !Active(s, id) then 1 else 0)
      && (forall i :: 0 <= i < |s.log| && s.log[i].Returned? && s.log[i].call.id == id ==>
            && Count(s.log, MatmulFor(id)) == (if s.log[i].ok then 1 else 0)
            && (!s.log[i].ok ==> Count(s.log, PublishedBy(id)) == 0))
  {
    StartOk(threads);
    RunKeeps(Start(threads), schedule);
  }

  /** A thread that holds a mutex can always move: it never waits for another thread. */
  lemma HoldersNeverWait(threads: nat, schedule: seq<(nat, Action)>, t: nat, ok: bool)
    requires Run(Start(threads), schedule).Some?
    requires t < |Run(Start(threads), schedule).value.threads|
    requires var pc := Run(Start(threads), schedule).value.threads[t];
             HoldsCache(pc) || pc.Enqueue? || pc.Leave?
    ensures Next(Run(Start(threads), schedule).value, t, Go(ok)).Some?
  {
    StartOk(threads);
    RunKeeps(Start(threads), schedule);
    var s := Run(Start(threads), schedule).value;
    assert ThreadOk(s, s.threads[t]);
  }

  /** No deadlock: while some call is unfinished, some unfinished call can move. */
  lemma NoDeadlock(threads: nat, schedule: seq<(nat, Action)>, ok: bool)
    requires Run(Start(threads), schedule).Some?
    requires var s := Run(Start(threads), schedule).value;
             exists t :: 0 <= t < |s.threads| && s.threads[t] != Idle
    ensures var s := Run(Start(threads), schedule).value;
            exists t :: 0 <= t < |s.threads| && s.threads[t] != Idle && Next(s, t, Go(ok)).Some?
  {
    StartOk(threads);
    RunKeeps(Start(threads), schedule);
    var s := Run(Start(threads), schedule).value;
    var t :| 0 <= t < |s.threads| && s.threads[t] != Idle;
    if Next(s, t, Go(ok)).None? {
      var holder := WaitsForHolder(s, t, ok);
      HoldersNeverWait(threads, schedule, holder, ok);
    }
  }

  /** A blocked thread waits for a thread that holds the mutex. */
  lemma WaitsForHolder(s: State, t: nat, ok: bool) returns (holder: nat)
    requires StructureOk(s) && t < |s.threads| && s.threads[t] != Idle && Next(s, t, Go(ok)).None?
    ensures holder < |s.threads| && s.threads[holder] != Idle
    ensures HoldsCache(s.threads[holder]) || s.threads[holder].Enqueue? || s.threads[holder].Leave?
  {
    assert ThreadOk(s, s.threads[t]);
    holder := if s.threads[t].WantCache? then s.cacheOwner.value else s.objs[s.threads[t].plan].owner.value;
  }

  // ---------------------------------------------------------------- what a call gets

  /** Every matmul is for a valid call and on a plan of one key; a plan that is still there keeps that key; only a
      call that may initialize builds or publishes. */
  ghost predicate Keyed(s: State) {
    && (forall i :: 0 <= i < |s.log| && s.log[i].Matmul? ==> MatmulKeyed(s, s.log[i]))
    && (forall i, j :: 0 <= i < j < |s.log| && s.log[i].Matmul? && s.log[j].Matmul?
                       && s.log[i].plan == s.log[j].plan ==>
          KeyOf(s.log[i].call) == KeyOf(s.log[j].call))
    && (forall i :: 0 <= i < |s.log| && s.log[i].Published? ==> s.log[i].call.allowInitialize)
    && (forall t :: 0 <= t < |s.threads| && Fresh(s.threads[t]).Some? ==> s.threads[t].call.allowInitialize)
  }

  ghost predicate MatmulKeyed(s: State, e: Event)
    requires e.Matmul?
  {
    && ValidCall(e.call) && e.plan < s.nextPlan
    && (e.plan in s.objs ==> InitializedFor(s.objs[e.plan], KeyOf(e.call)))
  }

  lemma OldMatmulKeyed(s: State, t: nat, a: Action, s': State, i: nat)
    requires StructureOk(s) && HistoryOk(s) && Keyed(s) && t < |s.threads| && Framed(s, t, s')
    requires Next(s, t, a) == Some(s') && i < |s.log| && s.log[i].Matmul?
    ensures MatmulKeyed(s', s.log[i])
  {
    var e, pc := s.log[i], s.threads[t];
    assert MatmulKeyed(s, e) && ThreadOk(s, pc) && FreshCounted(s.log, pc);
    if e.plan in s'.objs && Touched(pc) == Some(e.plan) {
      HitCounted(s.log, i, MatmulOn(e.plan));
      TouchedKept(s, t, a, s');
    }
  }

  /** The plan a step writes to keeps its layouts, unless it is being built or destroyed. */
  lemma TouchedKept(s: State, t: nat, a: Action, s': State)
    requires Next(s, t, a) == Some(s') && t < |s.threads| && Framed(s, t, s')
    ensures var pc := s.threads[t];
            && (pc.Abort? && pc.made.Some? ==> pc.made.value !in s'.objs)
            && (pc.WantPlan? || pc.Enqueue? || pc.Leave? ==>
                  forall k :: InitializedFor(s.objs[pc.plan], k) ==> InitializedFor(s'.objs[pc.plan], k))
  {}

  lemma NewEventKeyed(s: State, t: nat, a: Action, s': State, e: Event)
    requires StructureOk(s) && Keyed(s) && t < |s.threads| && Framed(s, t, s')
    requires Next(s, t, a) == Some(s') && e in Emitted(s, t, a)
    ensures e.Matmul? ==> MatmulKeyed(s', e) && e.plan in s.objs && InitializedFor(s.objs[e.plan], KeyOf(e.call))
    ensures e.Published? ==> e.call.allowInitialize
  {
    assert ThreadOk(s, s.threads[t]);
    if e.Matmul? { TouchedKept(s, t, a, s'); }
  }

  lemma MoverAllowed(s: State, t: nat, a: Action)
    requires Next(s, t, a).Some? && t < |s.threads|
    requires Fresh(s.threads[t]).Some? ==> s.threads[t].call.allowInitialize
    ensures var pc := Next(s, t, a).value.threads[t]; Fresh(pc).Some? ==> pc.call.allowInitialize
  {}

  lemma SameKeyGrows(s: State, es: seq<Event>)
    requires Keyed(s) && |es| <= 2
    requires forall e :: e in es && e.Matmul? ==>
               es == [e] && e.plan in s.objs && InitializedFor(s.objs[e.plan], KeyOf(e.call))
    ensures var log := s.log + es;
            forall i, j :: 0 <= i < j < |log| && log[i].Matmul? && log[j].Matmul? && log[i].plan == log[j].plan ==>
              KeyOf(log[i].call) == KeyOf(log[j].call)
  {
    var log := s.log + es;
    forall i, j | 0 <= i < j < |log| && log[i].Matmul? && log[j].Matmul? && log[i].plan == log[j].plan
      ensures KeyOf(log[i].call) == KeyOf(log[j].call)
    {
      if j >= |s.log| {
        assert log[j] in es;
        assert MatmulKeyed(s, s.log[i]);
      }
    }
  }

  lemma KeyedKept(s: State, t: nat, a: Action)
    requires StructureOk(s) && HistoryOk(s) && Keyed(s) && Next(s, t, a).Some?
    ensures Keyed(Next(s, t, a).value)
  {
    var s', es := Next(s, t, a).value, Emitted(s, t, a);
    LogGrows(s, t, a);
    StepFrame(s, t, a);
    MoverAllowed(s, t, a);
    NewEventsKeyed(s, t, a, s');
    SameKeyGrows(s, es);
    forall i | 0 <= i < |s'.log| && s'.log[i].Matmul? ensures MatmulKeyed(s', s'.log[i]) {
      if i < |s.log| { OldMatmulKeyed(s, t, a, s', i); } else { assert s'.log[i] in es; }
    }
    forall i | 0 <= i < |s'.log| && s'.log[i].Published? ensures s'.log[i].call.allowInitialize {
      if i >= |s.log| { assert s'.log[i] in es; }
    }
  }

  lemma NewEventsKeyed(s: State, t: nat, a: Action, s': State)
    requires StructureOk(s) && Keyed(s) && t < |s.threads| && Framed(s, t, s') && Next(s, t, a) == Some(s')
    ensures forall e :: e in Emitted(s, t, a) && e.Matmul? ==>
              && MatmulKeyed(s', e) && Emitted(s, t, a) == [e]
              && e.plan in s.objs && InitializedFor(s.objs[e.plan], KeyOf(e.call))
    ensures forall e :: e in Emitted(s, t, a) && e.Published? ==> e.call.allowInitialize
  {
    var es := Emitted(s, t, a);
    forall e | e in es
      ensures e.Matmul? ==> MatmulKeyed(s', e) && e.plan in s.objs && InitializedFor(s.objs[e.plan], KeyOf(e.call))
      ensures e.Published? ==> e.call.allowInitialize
    {
      NewEventKeyed(s, t, a, s', e);
    }
  }

  lemma {:induction false} RunKeyed(s: State, schedule: seq<(nat, Action)>)
    requires StructureOk(s) && HistoryOk(s) && Keyed(s) && Run(s, schedule).Some?
    ensures Keyed(Run(s, schedule).value)
    decreases |schedule|
  {
    if schedule != [] {
      StructureKept(s, schedule[0].0, schedule[0].1);
      HistoryKept(s, schedule[0].0, schedule[0].1);
      KeyedKept(s, schedule[0].0, schedule[0].1);
      RunKeyed(Next(s, schedule[0].0, schedule[0].1).value, schedule[1..]);
    }
  }

  /** In every interleaving, a matmul is enqueued on the device of its own input with the layouts of its own
      tensors: the weight as a K x N, the input as a K x M and the output as an N x M column-major matrix,
      for tensors that fit together. */
  lemma MatmulsFitTensors(threads: nat, schedule: seq<(nat, Action)>, i: nat)
    requires Run(Start(threads), schedule).Some?
    requires i < |Run(Start(threads), schedule).value.log| && Run(Start(threads), schedule).value.log[i].Matmul?
    ensures var e := Run(Start(threads), schedule).value.log[i];
            var x, w := e.call.x, e.call.w;
            && e.used.handle == Some(x.device) && e.used.algorithm == Some(e.call.algorithm) && e.call.algorithm >= 0
            && e.used.a == Some(Layout(x.cols, w.rows, x.cols))
            && e.used.b == Some(Layout(x.cols, x.rows, x.cols))
            && e.used.d == Some(Layout(w.rows, x.rows, w.rows))
            && e.used.aScale == Some(e.call.ws.data) && e.used.bScale == Some(e.call.xs.data)
    ensures var c := Run(Start(threads), schedule).value.log[i].call;
            && c.x.device == c.xs.device == c.w.device == c.ws.device
            && 0 < c.x.rows <= 0x7fff_ffff && 0 < c.x.cols == c.w.cols <= 0x7fff_ffff && 0 < c.w.rows <= 0x7fff_ffff
            && c.xs.rows == c.x.rows && c.ws.rows == c.w.rows && c.xs.cols == c.ws.cols == 1
  {
    StartOk(threads);
    RunKeeps(Start(threads), schedule);
    RunKeyed(Start(threads), schedule);
    var s := Run(Start(threads), schedule).value;
    assert MatmulKeyed(s, s.log[i]);
  }

  /** Two calls share a plan only if their devices, shapes and algorithms agree; and only a call that may initialize
      publishes one. */
  lemma SharedPlansFit(threads: nat, schedule: seq<(nat, Action)>, i: nat, j: nat)
    requires Run(Start(threads), schedule).Some?
    requires var log := Run(Start(threads), schedule).value.log;
             i < |log| && j < |log| && log[i].Matmul? && log[j].Matmul? && log[i].plan == log[j].plan
    ensures var log := Run(Start(threads), schedule).value.log;
            var c, d := log[i].call, log[j].call;
            && c.x.device == d.x.device && c.x.rows == d.x.rows && c.w.rows == d.w.rows && c.x.cols == d.x.cols
            && c.algorithm == d.algorithm
    ensures var log := Run(Start(threads), schedule).value.log;
            forall k :: 0 <= k < |log| && log[k].Published? ==> log[k].call.allowInitialize
  {
    StartOk(threads);
    RunKeyed(Start(threads), schedule);
    var log := Run(Start(threads), schedule).value.log;
    if i < j {
      assert KeyOf(log[i].call) == KeyOf(log[j].call);
    } else if j < i {
      assert KeyOf(log[j].call) == KeyOf(log[i].call);
    }
  }

  /** `n` steps of thread 0 in which every foreign call succeeds. */
  function Alone(s: State, n: nat): Option<State>
    decreases n
  {
    if n == 0 then Some(s)
    else
      var next := Next(s, 0, Go(true));
      if next.None? then None else Alone(next.value, n - 1)
  }

  /** The call proper: lock, look up, create. */
  lemma ColdStarts(s: State)
    requires |s.threads| == 1 && s.threads[0].WantCache? && s.cacheOwner.None? && s.plans == map[] && s.objs == map[]
    requires s.threads[0].call.allowInitialize
    ensures var c := s.threads[0].call;
            Alone(s, 2) == Some(s.(cacheOwner := Some(0), objs := map[s.nextPlan := BLANK_PLAN],
                                   nextPlan := s.nextPlan + 1, threads := [Init(c, s.nextPlan, 0)]))
  {
    var c := s.threads[0].call;
    var s1 := s.(cacheOwner := Some(0), threads := [Lookup(c)]);
    assert s.threads[0 := Lookup(c)] == [Lookup(c)];
    assert Next(s, 0, Go(true)) == Some(s1);
    assert s1.threads[0 := Init(c, s.nextPlan, 0)] == [Init(c, s.nextPlan, 0)];
    assert Alone(s, 2) == Alone(s1, 1);
  }

  /** A lone call that may initialize, with tensors that fit and no foreign failure, succeeds from an empty cache:
      in fourteen steps it has initialized, run and published its plan, and returned. */
  lemma ColdCallSucceeds(call: Call)
    requires call.x.device == call.xs.device == call.w.device == call.ws.device && call.algorithm >= 0
    requires 0 < call.x.rows <= 0x7fff_ffff && 0 < call.x.cols == call.w.cols <= 0x7fff_ffff
    requires 0 < call.w.rows <= 0x7fff_ffff && call.xs.rows == call.x.rows && call.ws.rows == call.w.rows
    requires call.xs.cols == call.ws.cols == 1 && call.allowInitialize
    ensures Next(Start(1), 0, Begin(call)).Some?
    ensures var end := Alone(Next(Start(1), 0, Begin(call)).value, 13);
            end.Some? && |end.value.log| == 4 && end.value.log[0].Initialized? && end.value.log[1].Matmul?
            && end.value.log[2].Published? && end.value.log[3].Returned? && end.value.log[3].ok
  {
    var s := Next(Start(1), 0, Begin(call)).value;
    var c := call.(id := 0);
    assert s.threads == [WantCache(c)];
    ColdStarts(s);
    var s2 := Alone(s, 2).value;
    var s7 := ColdInit(s2, c);
    var end := ColdRuns(s7, c);
    AloneAdds(s, 2, 5);
    AloneAdds(s, 7, 6);
  }

  lemma {:induction false} AloneAdds(s: State, m: nat, n: nat)
    requires Alone(s, m).Some?
    ensures Alone(s, m + n) == Alone(Alone(s, m).value, n)
    decreases m
  {
    if m > 0 { AloneAdds(Next(s, 0, Go(true)).value, m - 1, n); }
  }

  /** A state in which the only thread builds or uses the only plan. */
  predicate LoneState(s: State, pc: Pc, events: nat) {
    && s.threads == [pc] && s.cacheOwner == Some(0) && s.plans == map[] && 0 in s.objs && s.objs[0].owner.None?
    && |s.log| == events
  }

  lemma ColdInit(s: State, c: Call) returns (s': State)
    requires LoneState(s, Init(c, 0, 0), 0)
    ensures Alone(s, 5) == Some(s') && LoneState(s', WantPlan(c, 0, true), 1) && s'.log[0].Initialized?
  {
    var s1 := Next(s, 0, Go(true)).value;
    assert LoneState(s1, Init(c, 0, 1), 0);
    var s2 := Next(s1, 0, Go(true)).value;
    assert LoneState(s2, Init(c, 0, 2), 0);
    var s3 := Next(s2, 0, Go(true)).value;
    assert LoneState(s3, Init(c, 0, 3), 0);
    var s4 := Next(s3, 0, Go(true)).value;
    assert LoneState(s4, Init(c, 0, 4), 0);
    s' := Next(s4, 0, Go(true)).value;
    assert Alone(s4, 1) == Some(s');
    assert Alone(s3, 2) == Some(s');
    assert Alone(s2, 3) == Some(s');
    assert Alone(s1, 4) == Some(s');
  }

  /** The thread holds the plan. */
  predicate HoldingState(s: State, pc: Pc, events: nat) {
    && s.threads == [pc] && s.cacheOwner == Some(0) && s.plans == map[] && 0 in s.objs && |s.log| == events
  }

  lemma ColdRuns(s: State, c: Call) returns (s': State)
    requires LoneState(s, WantPlan(c, 0, true), 1) && s.log[0].Initialized?
    ensures Alone(s, 6) == Some(s') && |s'.log| == 4 && s'.log[0].Initialized? && s'.log[1].Matmul?
    ensures s'.log[2].Published? && s'.log[3] == Returned(c, true)
  {
    var s1 := Next(s, 0, Go(true)).value;
    assert HoldingState(s1, Enqueue(c, 0, true, 0), 1);
    var s2 := Next(s1, 0, Go(true)).value;
    assert HoldingState(s2, Enqueue(c, 0, true, 1), 1);
    var s3 := Next(s2, 0, Go(true)).value;
    assert HoldingState(s3, Enqueue(c, 0, true, 2), 1);
    var s4 := Next(s3, 0, Go(true)).value;
    assert HoldingState(s4, Leave(c, 0, true, true), 2) && s4.log[0].Initialized? && s4.log[1].Matmul?;
    var s5 := Next(s4, 0, Go(true)).value;
    assert HoldingState(s5, Publish(c, 0), 2);
    s' := Next(s5, 0, Go(true)).value;
    assert Alone(s5, 1) == Some(s');
    assert Alone(s4, 2) == Some(s');
    assert Alone(s3, 3) == Some(s');
    assert Alone(s2, 4) == Some(s');
    assert Alone(s1, 5) == Some(s');
  }

  /** Steps a thread at `pc` still has to take before its call returns. */
  function Left(pc: Pc): nat {
    match pc
    case Idle => 0
    case WantCache(_) => 13
    case Lookup(_) => 12
    case Init(_, _, stage) => if stage <= LAST_INIT_STAGE then 11 - stage else 7
    case WantPlan(_, _, _) => 6
    case Enqueue(_, _, _, stage) => if stage <= 2 then 5 - stage else 3
    case Leave(_, _, _, _) => 2
    case Publish(_, _) => 1
    case Abort(_, _) => 1
  }

  function TotalLeft(pcs: seq<Pc>): nat {
    if pcs == [] then 0 else Left(pcs[0]) + TotalLeft(pcs[1..])
  }

  lemma {:induction false} TotalLeftUpdate(pcs: seq<Pc>, t: nat, pc: Pc)
    requires t < |pcs|
    ensures TotalLeft(pcs[t := pc]) == TotalLeft(pcs) - Left(pcs[t]) + Left(pc)
  {
    if t == 0 {
      assert pcs[t := pc][1..] == pcs[1..];
    } else {
      assert pcs[t := pc][1..] == pcs[1..][t - 1 := pc];
      TotalLeftUpdate(pcs[1..], t - 1, pc);
    }
  }

  lemma OwnStep(s: State, t: nat, ok: bool)
    requires Next(s, t, Go(ok)).Some?
    ensures t < |s.threads| && |Next(s, t, Go(ok)).value.threads| == |s.threads|
    ensures Next(s, t, Go(ok)).value.threads == s.threads[t := Next(s, t, Go(ok)).value.threads[t]]
    ensures Left(Next(s, t, Go(ok)).value.threads[t]) < Left(s.threads[t])
  {}

  /** No livelock: without new calls, every schedule is bounded by the work left, whatever
      the threads do and however the foreign calls turn out. */
  lemma {:induction false} CallsFinish(s: State, schedule: seq<(nat, Action)>)
    requires Run(s, schedule).Some?
    requires forall i :: 0 <= i < |schedule| ==> schedule[i].1.Go?
    ensures |schedule| + TotalLeft(Run(s, schedule).value.threads) <= TotalLeft(s.threads)
    decreases |schedule|
  {
    if schedule != [] {
      var t, a := schedule[0].0, schedule[0].1;
      var s' := Next(s, t, a).value;
      OwnStep(s, t, a.ok);
      TotalLeftUpdate(s.threads, t, s'.threads[t]);
      CallsFinish(s', schedule[1..]);
    }
  }

  // ---------------------------------------------------------------- algorithm choice

  /** One entry of the hipBLASLt heuristic answer. */
  datatype Candidate = Candidate(success: bool, index: int, workspace: int)

  predicate Matches(c: Candidate, algorithm: int) {
    c.success && c.index == algorithm
  }

  /** The candidate loop at the end of Plan::initialize: it succeeds exactly when one candidate
      matches and that one needs no workspace, and then returns that candidate. */
  method SelectAlgorithm(results: seq<Candidate>, algorithm: int) returns (r: Option<Candidate>)
    ensures r.Some? <==> exists i :: 0 <= i < |results| && Matches(results[i], algorithm) && results[i].workspace == 0
                           && forall j :: 0 <= j < |results| && Matches(results[j], algorithm) ==> j == i
    ensures r.Some? ==> r.value in results && Matches(r.value, algorithm) && r.value.workspace == 0
  {
    var matches := 0;
    var found := Candidate(false, 0, 0);
    ghost var at := 0;
    for i := 0 to |results|
      invariant matches == 0 ==> forall j :: 0 <= j < i ==> !Matches(results[j], algorithm)
      invariant matches > 0 ==>
                at < i && Matches(results[at], algorithm) && found == results[at] && found.workspace == 0
      invariant matches == 1 ==> forall j :: 0 <= j < i && Matches(results[j], algorithm) ==> j == at
      invariant matches > 1 ==>
                exists j, k :: 0 <= j < k < i && Matches(results[j], algorithm) && Matches(results[k], algorithm)
      invariant matches >= 0 && at >= 0
    {
      if Matches(results[i], algorithm) {
        if results[i].workspace != 0 {
          return None;
        }
        ghost var previous := at;
        found := results[i];
        at := i;
        matches := matches + 1;
        assert matches > 1 ==> 0 <= previous < i && Matches(results[previous], algorithm);
      }
    }
    if matches != 1 {
      return None;
    }
    return Some(found);
  }
}
