/**
 Expert-parallel load balancing in async mode, call by call. The group is the one of `Eplb`; here every
 interleaving of its ranks and workers is compared with a reading of the calls one by one.
 */
module EplbAsync {
  import opened Common
  import opened Eplb

  // ---------------------------------------------------------------- the reference

  /** What a rank has done after some calls: its counter, the state of every model, the entries made, and how many
      readiness answers and load reductions were used. */
  datatype Flow = Flow(
    step: int, maps: seq<Placement>, rebalanced: seq<bool>, plans: seq<Placement>, done: seq<nat>,
    trace: seq<Entry>, asked: nat, used: nat)

  predicate Shaped(c: Config, s: Flow) {
    |s.maps| == |s.rebalanced| == |s.plans| == |s.done| == |c.layers|
  }

  /** The next layer of a model takes its row of the plan; the last one ends the rearrangement of that model. */
  function CommitNext(c: Config, s: Flow, m: nat): (s': Flow)
    requires Shaped(c, s) && m < |c.layers|
    ensures Shaped(c, s') && s'.asked == s.asked && s'.used == s.used && s'.step == s.step
  {
    var n := s.done[m];
    if n >= |s.plans[m]| || n >= |s.maps[m]| then s
    else
      s.(maps := s.maps[m := s.maps[m][n := s.plans[m][n]]], done := s.done[m := n + 1],
         rebalanced := s.rebalanced[m := n + 1 != c.layers[m]], trace := s.trace + [Committed(m, n)])
  }

  /** A model with a rearrangement under way is asked for once, and commits a layer when the answer is yes. */
  function CheckOne(c: Config, s: Flow, answers: seq<bool>, m: nat): (s': Flow)
    requires Shaped(c, s) && m < |c.layers|
    ensures Shaped(c, s') && s.asked <= s'.asked && s'.used == s.used && s'.step == s.step
  {
    if !s.rebalanced[m] then s
    else
      var u := Asked(s, m);
      if s.asked < |answers| && answers[s.asked] then CommitNext(c, u, m) else u
  }

  function Asked(s: Flow, m: nat): Flow {
    s.(trace := s.trace + [Entered(Ready(m))], asked := s.asked + 1)
  }

  /** The first `m` models, in order. */
  function Checked(c: Config, s: Flow, answers: seq<bool>, m: nat): (s': Flow)
    requires Shaped(c, s) && m <= |c.layers|
    ensures Shaped(c, s') && s.asked <= s'.asked && s'.used == s.used && s'.step == s.step
  {
    if m == 0 then s else CheckOne(c, Checked(c, s, answers, m - 1), answers, m - 1)
  }

  predicate Busy(s: Flow) {
    exists m :: 0 <= m < |s.rebalanced| && s.rebalanced[m]
  }

  function Begun(c: Config, s: Flow, call: Call): Flow
    requires c.logInterval > 0
  {
    s.(step := s.step + 1, trace := s.trace + LogPart(c, s.step, call))
  }

  /** A rearrangement starts and the first `m` models have joined it: each plans for its map and that reduction. */
  function Planned(c: Config, u: Flow, reduction: seq<Loads>, m: nat): (s': Flow)
    requires Shaped(c, u)
    ensures Shaped(c, s')
  {
    Flow(0, u.maps, seq(|c.layers|, k requires 0 <= k < |c.layers| => k < m || u.rebalanced[k]),
         seq(|c.layers|, k requires 0 <= k < |c.layers| =>
           if k < m then c.rebalance(LoadsOf(reduction, k), u.maps[k]) else u.plans[k]),
         seq(|c.layers|, k requires 0 <= k < |c.layers| => if k < m then 0 else u.done[k]),
         u.trace + [Started, Entered(Reduce(false))], u.asked, u.used + 1)
  }

  function Profiled(c: Config, s: Flow, m: nat): Flow
    requires m <= |s.maps|
  {
    s.(trace := s.trace + [Entered(Reduce(true))] + Transfers(c, true, [], s.maps, m), used := s.used + 1)
  }

  function FlowCall(c: Config, s: Flow, call: Call, answers: seq<bool>, reduction: seq<Loads>): (s': Flow)
    requires c.logInterval > 0 && Shaped(c, s)
    ensures Shaped(c, s') && s.asked <= s'.asked && s.used <= s'.used
  {
    match call
    case Profile => Profiled(c, s, |c.layers|)
    case Step(_) =>
      var u := Checked(c, Begun(c, s, call), answers, |c.layers|);
      if u.step < c.interval || Busy(u) then u else Planned(c, u, reduction, |c.layers|)
  }

  /** The first `n` calls, given what the questions and the reductions gave. */
  function FlowRun(c: Config, start: Flow, answers: seq<bool>, reductions: seq<seq<Loads>>, n: nat): (s': Flow)
    requires c.logInterval > 0 && n <= |c.calls| && Shaped(c, start)
    ensures Shaped(c, s')
  {
    if n == 0 then start
    else
      var s := FlowRun(c, start, answers, reductions, n - 1);
      FlowCall(c, s, c.calls[n - 1], answers, ReductionAt(reductions, s.used))
  }

  function ReductionAt(reductions: seq<seq<Loads>>, k: nat): seq<Loads> {
    if k < |reductions| then reductions[k] else []
  }

  // ---------------------------------------------------------------- later answers change nothing before

  lemma {:induction false} CheckedPrefix(c: Config, s: Flow, answers: seq<bool>, more: bool, m: nat)
    requires Shaped(c, s) && m <= |c.layers| && Checked(c, s, answers, m).asked <= |answers|
    ensures Checked(c, s, answers + [more], m) == Checked(c, s, answers, m)
  {
    if m > 0 {
      var u := Checked(c, s, answers, m - 1);
      CheckedPrefix(c, s, answers, more, m - 1);
      if u.asked < |answers| { assert (answers + [more])[u.asked] == answers[u.asked]; }
    }
  }

  lemma {:induction false} MoreAnswers(c: Config, start: Flow, answers: seq<bool>, more: bool,
                                       reductions: seq<seq<Loads>>, n: nat)
    requires c.logInterval > 0 && n <= |c.calls| && Shaped(c, start)
    requires FlowRun(c, start, answers, reductions, n).asked <= |answers|
    ensures FlowRun(c, start, answers + [more], reductions, n) == FlowRun(c, start, answers, reductions, n)
  {
    if n > 0 {
      MoreAnswers(c, start, answers, more, reductions, n - 1);
      var s, call := FlowRun(c, start, answers, reductions, n - 1), c.calls[n - 1];
      if call.Step? { CheckedPrefix(c, Begun(c, s, call), answers, more, |c.layers|); }
    }
  }

  /** Only a call that reduces loads depends on a reduction. */
  lemma CallWithout(c: Config, s: Flow, call: Call, answers: seq<bool>, reduction: seq<Loads>, other: seq<Loads>)
    requires c.logInterval > 0 && Shaped(c, s) && FlowCall(c, s, call, answers, reduction).used <= s.used
    ensures FlowCall(c, s, call, answers, other) == FlowCall(c, s, call, answers, reduction)
  {}

  lemma {:induction false} MoreReductions(c: Config, start: Flow, answers: seq<bool>, reductions: seq<seq<Loads>>,
                                          more: seq<Loads>, n: nat)
    requires c.logInterval > 0 && n <= |c.calls| && Shaped(c, start)
    requires FlowRun(c, start, answers, reductions, n).used <= |reductions|
    ensures FlowRun(c, start, answers, reductions + [more], n) == FlowRun(c, start, answers, reductions, n)
  {
    if n > 0 {
      var s := FlowRun(c, start, answers, reductions, n - 1);
      MoreReductions(c, start, answers, reductions, more, n - 1);
      if s.used < |reductions| {
        assert ReductionAt(reductions + [more], s.used) == ReductionAt(reductions, s.used);
      } else {
        CallWithout(c, s, c.calls[n - 1], answers, ReductionAt(reductions, s.used),
                    ReductionAt(reductions + [more], s.used));
      }
    }
  }

  // ---------------------------------------------------------------- where a rank is

  predicate Carries(r: Rank, s: Flow) {
    && r.step == s.step && r.maps == s.maps && r.rebalanced == s.rebalanced && r.plans == s.plans
    && r.done == s.done && r.trace == s.trace && |r.answers| == s.asked && |r.reductions| == s.used
  }

  /** Where a rank is within its call, measured against the calls before. */
  predicate FlowOk(c: Config, start: Flow, r: Rank)
    requires c.logInterval > 0 && Shaped(c, start) && InCalls(c, r)
  {
    FlowAt(c, FlowRun(c, start, r.answers, r.reductions, r.called), r)
  }

  predicate FlowAt(c: Config, s: Flow, r: Rank)
    requires c.logInterval > 0 && Shaped(c, s) && InCalls(c, r)
  {
    match r.control
    case Fetch => Carries(r, s)
    case Log => InStep(c, r) && LogPart(c, s.step, c.calls[r.called]) == [Entered(Log)]
                && Carries(r, s.(trace := s.trace + [Entered(Log)]))
    case Record => InStep(c, r) && Carries(r, s.(trace := s.trace + LogPart(c, s.step, c.calls[r.called])))
    case Async(m) => InStep(c, r) && m <= |c.layers| && Carries(r, Sofar(c, s, r, m))
    case Ready(m) => InStep(c, r) && m < |c.layers| && Asking(c, s, r, m)
    case Due => InStep(c, r) && Carries(r, Sofar(c, s, r, |c.layers|))
    case Reduce(isProfile) => if isProfile then InProfile(c, r) && Carries(r, Profiled(c, s, 0).(used := s.used))
                              else InStep(c, r) && Restarting(c, s, r)
    case Plan(isProfile, m) => m <= |c.layers| && if isProfile then InProfile(c, r) && Carries(r, Profiled(c, s, m))
                                                  else InStep(c, r) && Planning(c, s, r, m)
    case Transfer(isProfile, m) => isProfile && InProfile(c, r) && m < |c.layers| && Carries(r, Profiled(c, s, m + 1))
    case Raised => false
  }

  /** The models checked so far in this call. */
  function Sofar(c: Config, s: Flow, r: Rank, m: nat): (s': Flow)
    requires c.logInterval > 0 && Shaped(c, s) && r.called < |c.calls| && m <= |c.layers|
    ensures Shaped(c, s') && s.asked <= s'.asked && s'.used == s.used
  {
    Checked(c, Begun(c, s, c.calls[r.called]), r.answers, m)
  }

  predicate Asking(c: Config, s: Flow, r: Rank, m: nat)
    requires c.logInterval > 0 && Shaped(c, s) && r.called < |c.calls| && m < |c.layers|
  {
    var u := Sofar(c, s, r, m);
    u.rebalanced[m] && Carries(r, u.(trace := u.trace + [Entered(Ready(m))]))
  }

  predicate Idle(c: Config, u: Flow) { u.step >= c.interval && !Busy(u) }

  predicate Restarting(c: Config, s: Flow, r: Rank)
    requires c.logInterval > 0 && Shaped(c, s) && r.called < |c.calls|
  {
    var u := Sofar(c, s, r, |c.layers|);
    Idle(c, u) && Carries(r, u.(step := 0, trace := u.trace + [Started, Entered(Reduce(false))]))
  }

  predicate Planning(c: Config, s: Flow, r: Rank, m: nat)
    requires c.logInterval > 0 && Shaped(c, s) && r.called < |c.calls|
  {
    var u := Sofar(c, s, r, |c.layers|);
    && Idle(c, u) && u.used < |r.reductions| && r.reductions[u.used] == r.reduced
    && Carries(r, Planned(c, u, r.reduced, m))
  }

  // ---------------------------------------------------------------- local actions

  /** What an action within a call may not change. */
  predicate SameCall(r: Rank, r': Rank) {
    r'.called == r.called && r'.answers == r.answers && r'.reductions == r.reductions
  }

  lemma FlowDispatch(c: Config, s: Flow, r: Rank)
    requires ConfigOk(c) && Shaped(c, s) && InCalls(c, r) && FlowAt(c, s, r) && r.control.Fetch? && r.called < |c.calls|
    ensures var r' := Dispatch(c, r); InCalls(c, r') && FlowAt(c, s, r') && SameCall(r, r')
  {
    assert s.trace + [] == s.trace;
    if c.calls[r.called].Profile? {
      var entered := s.trace + [Entered(Reduce(true))];
      assert entered + Transfers(c, true, [], s.maps, 0) == entered;
    }
  }

  lemma FlowRecord(c: Config, s: Flow, r: Rank, isDummy: bool, windows: seq<Loads>)
    requires ConfigOk(c) && c.isAsync && Shaped(c, s) && InCalls(c, r) && FlowAt(c, s, r) && r.control.Record?
    ensures var r' := RecordStep(c, r, isDummy, windows); InCalls(c, r') && FlowAt(c, s, r') && SameCall(r, r')
  {
    assert Sofar(c, s, r, 0) == Begun(c, s, c.calls[r.called]);
  }

  lemma FlowCheck(c: Config, s: Flow, r: Rank, m: nat)
    requires ConfigOk(c) && Sized(c, r) && Shaped(c, s) && InCalls(c, r) && FlowAt(c, s, r) && r.control == Async(m)
    ensures var r' := CheckModel(c, r, m); InCalls(c, r') && FlowAt(c, s, r') && SameCall(r, r')
  {
    var r' := CheckModel(c, r, m);
    if m < |c.layers| {
      assert Sofar(c, s, r', m) == Sofar(c, s, r, m);
      if !r.rebalanced[m] { assert Sofar(c, s, r', m + 1) == Sofar(c, s, r, m); }
    } else {
      assert Sofar(c, s, r', |c.layers|) == Sofar(c, s, r, m);
    }
  }

  lemma FlowBegin(c: Config, s: Flow, r: Rank)
    requires ConfigOk(c) && c.isAsync && Sized(c, r) && Shaped(c, s) && InCalls(c, r) && FlowAt(c, s, r)
    requires r.control.Due? && r.step >= c.interval && !AnyRebalanced(r)
    ensures var r' := EndStep(c, r); InCalls(c, r') && FlowAt(c, s, r') && SameCall(r, r')
  {
    var r', u := EndStep(c, r), Sofar(c, s, r, |c.layers|);
    assert Sofar(c, s, r', |c.layers|) == u;
    assert u.trace + [Started] + [Entered(Reduce(false))] == u.trace + [Started, Entered(Reduce(false))];
  }

  lemma PlannedNext(c: Config, u: Flow, reduction: seq<Loads>, m: nat)
    requires Shaped(c, u) && m < |c.layers| == |reduction|
    ensures var p := Planned(c, u, reduction, m);
            Planned(c, u, reduction, m + 1) ==
            p.(rebalanced := p.rebalanced[m := true], plans := p.plans[m := c.rebalance(reduction[m], u.maps[m])],
               done := p.done[m := 0])
  {
    var p, p' := Planned(c, u, reduction, m), Planned(c, u, reduction, m + 1);
    assert p'.rebalanced == p.rebalanced[m := true];
    assert LoadsOf(reduction, m) == reduction[m];
    forall k | 0 <= k < |c.layers| ensures p'.plans[k] == p.plans[m := c.rebalance(reduction[m], u.maps[m])][k] {}
    assert p'.done == p.done[m := 0];
  }

  lemma FlowPlan(c: Config, s: Flow, r: Rank, isProfile: bool, m: nat)
    requires ConfigOk(c) && c.isAsync && Sized(c, r) && Shaped(c, s) && InCalls(c, r) && FlowAt(c, s, r)
    requires r.control == Plan(isProfile, m) && m < |c.layers|
    ensures var r' := PlanModel(c, r, isProfile, m); InCalls(c, r') && FlowAt(c, s, r') && SameCall(r, r')
  {
    var r' := PlanModel(c, r, isProfile, m);
    if isProfile {
      var before, sofar := s.trace + [Entered(Reduce(true))], Transfers(c, true, [], s.maps, m);
      var last := if c.recordOnly then [] else [Entered(Transfer(true, m))];
      assert Transfers(c, true, [], s.maps, m + 1) == sofar + last;
      assert before + sofar + last == before + (sofar + last);
    } else {
      var u := Sofar(c, s, r, |c.layers|);
      assert Sofar(c, s, r', |c.layers|) == u;
      PlannedNext(c, u, r.reduced, m);
    }
  }

  // ---------------------------------------------------------------- returning

  /** A step that starts nothing. */
  lemma StepReturns(c: Config, s: Flow, r: Rank, reduction: seq<Loads>)
    requires ConfigOk(c) && c.isAsync && Shaped(c, s) && InCalls(c, r) && FlowAt(c, s, r)
    requires r.control.Due? && (r.step < c.interval || AnyRebalanced(r))
    ensures Carries(r, FlowCall(c, s, c.calls[r.called], r.answers, reduction))
  {
    var u := Sofar(c, s, r, |c.layers|);
    if AnyRebalanced(r) {
      var m :| 0 <= m < |r.rebalanced| && r.rebalanced[m];
      assert u.rebalanced[m];
    }
  }

  lemma PlanReturns(c: Config, s: Flow, r: Rank)
    requires ConfigOk(c) && c.isAsync && Shaped(c, s) && InCalls(c, r) && FlowAt(c, s, r)
    requires r.control.Plan? && r.control.model == |c.layers|
    ensures Carries(r, FlowCall(c, s, c.calls[r.called], r.answers, ReductionAt(r.reductions, s.used)))
  {
    if !r.control.isProfile {
      var u := Sofar(c, s, r, |c.layers|);
      assert u.used == s.used;
    }
  }

  lemma FlowReturn(c: Config, start: Flow, r: Rank)
    requires ConfigOk(c) && c.isAsync && Sized(c, r) && Shaped(c, start) && InCalls(c, r) && FlowOk(c, start, r)
    requires (r.control.Due? && (r.step < c.interval || AnyRebalanced(r)))
             || (r.control.Plan? && r.control.model == |c.layers|)
    ensures InCalls(c, Return(r)) && FlowOk(c, start, Return(r))
  {
    var s := FlowRun(c, start, r.answers, r.reductions, r.called);
    if r.control.Due? {
      StepReturns(c, s, r, ReductionAt(r.reductions, s.used));
    } else {
      PlanReturns(c, s, r);
    }
    NextCall(c, start, r);
  }

  lemma NextCall(c: Config, start: Flow, r: Rank)
    requires ConfigOk(c) && Shaped(c, start) && r.called < |c.calls|
    ensures var s := FlowRun(c, start, r.answers, r.reductions, r.called);
            FlowRun(c, start, r.answers, r.reductions, r.called + 1) ==
            FlowCall(c, s, c.calls[r.called], r.answers, ReductionAt(r.reductions, s.used))
  {}

  lemma FlowAct(c: Config, start: Flow, r: Rank, isDummy: bool, windows: seq<Loads>)
    requires ConfigOk(c) && c.isAsync && Sized(c, r) && Shaped(c, start) && InCalls(c, r) && FlowOk(c, start, r)
    ensures var r' := Act(c, r, isDummy, windows); InCalls(c, r') && FlowOk(c, start, r')
  {
    if !Stuck(c, r) {
      var s := FlowRun(c, start, r.answers, r.reductions, r.called);
      match r.control
      case Fetch => FlowDispatch(c, s, r);
      case Record => FlowRecord(c, s, r, isDummy, windows);
      case Async(m) => FlowCheck(c, s, r, m);
      case Due => if r.step < c.interval || AnyRebalanced(r) { FlowReturn(c, start, r); } else { FlowBegin(c, s, r); }
      case Plan(isProfile, m) =>
        if m < |c.layers| { FlowPlan(c, s, r, isProfile, m); } else { FlowReturn(c, start, r); }
    }
  }

  // ---------------------------------------------------------------- collectives

  /** The commit of the pending layer is the commit of the next layer. */
  lemma CommitsNext(c: Config, r: Rank, s: Flow, m: nat)
    requires RankOk(c, r) && r.control == Ready(m) && r.pending[m].Some? && Shaped(c, s) && Carries(r, s)
    ensures Carries(CommitLayer(c, r, m), CommitNext(c, s, m)) && CommitLayer(c, r, m).control == Async(m + 1)
  {
    assert ModelOk(c, r, m);
    var n := r.done[m];
    if n + 1 != c.layers[m] { assert r.rebalanced == r.rebalanced[m := true]; }
  }

  /** The answer is the next one that the reading of the calls uses. */
  lemma Answered(c: Config, s: Flow, r: Rank, m: nat, a: Answer)
    requires ConfigOk(c) && RankOk(c, r) && Shaped(c, s) && r.called < |c.calls|
    requires m < |c.layers| && Asking(c, s, r, m) && r.control == Ready(m) && |a.reduced| == |c.layers|
    requires a.ready ==> r.pending[m].Some?
    ensures var r' := Resume(c, r, a);
            && r'.control == Async(m + 1) && r'.called == r.called && r'.reductions == r.reductions
            && r'.answers == r.answers + [a.ready] && Carries(r', Sofar(c, s, r', m + 1))
  {
    var u, begun := Sofar(c, s, r, m), Begun(c, s, c.calls[r.called]);
    var q := r.(answers := r.answers + [a.ready]);
    CheckedPrefix(c, begun, r.answers, a.ready, m);
    assert q.answers[u.asked] == a.ready;
    assert Carries(q, Asked(u, m));
    assert Checked(c, begun, q.answers, m + 1) == CheckOne(c, u, q.answers, m);
    if a.ready {
      MoveKeeps(c, r, q);
      CommitsNext(c, q, Asked(u, m), m);
    }
  }

  lemma FlowAnswered(c: Config, start: Flow, r: Rank, m: nat, a: Answer)
    requires ConfigOk(c) && RankOk(c, r) && Shaped(c, start) && InCalls(c, r) && FlowOk(c, start, r)
    requires r.control == Ready(m) && |a.reduced| == |c.layers| && (a.ready ==> r.pending[m].Some?)
    ensures InCalls(c, Resume(c, r, a)) && FlowOk(c, start, Resume(c, r, a))
  {
    var s := FlowRun(c, start, r.answers, r.reductions, r.called);
    assert FlowAt(c, s, r);
    Answered(c, s, r, m, a);
    var r' := Resume(c, r, a);
    assert FlowAt(c, s, r');
    assert FlowRun(c, start, r'.answers, r'.reductions, r'.called) == s by {
      MoreAnswers(c, start, r.answers, a.ready, r.reductions, r.called);
    }
  }

  lemma PlannedNone(c: Config, u: Flow, reduction: seq<Loads>)
    requires Shaped(c, u)
    ensures Planned(c, u, reduction, 0) ==
            u.(step := 0, trace := u.trace + [Started, Entered(Reduce(false))], used := u.used + 1)
  {}

  lemma FlowReduced(c: Config, start: Flow, r: Rank, isProfile: bool, a: Answer)
    requires ConfigOk(c) && Sized(c, r) && Shaped(c, start) && InCalls(c, r) && FlowOk(c, start, r)
    requires r.control == Reduce(isProfile) && |a.reduced| == |c.layers|
    ensures InCalls(c, Resume(c, r, a)) && FlowOk(c, start, Resume(c, r, a))
  {
    var s, r' := FlowRun(c, start, r.answers, r.reductions, r.called), Resume(c, r, a);
    MoreReductions(c, start, r.answers, r.reductions, a.reduced, r.called);
    if !isProfile {
      var u := Sofar(c, s, r, |c.layers|);
      assert Sofar(c, s, r', |c.layers|) == u;
      PlannedNone(c, u, a.reduced);
    }
  }

  lemma FlowResume(c: Config, start: Flow, r: Rank, a: Answer)
    requires ConfigOk(c) && c.isAsync && RankOk(c, r) && Shaped(c, start) && InCalls(c, r) && FlowOk(c, start, r)
    requires Waiting(r.control) && |a.reduced| == |c.layers|
    requires r.control.Ready? && a.ready ==> r.pending[r.control.model].Some?
    ensures InCalls(c, Resume(c, r, a)) && FlowOk(c, start, Resume(c, r, a))
  {
    match r.control
    case Log =>
    case Ready(m) => FlowAnswered(c, start, r, m, a);
    case Reduce(isProfile) => FlowReduced(c, start, r, isProfile, a);
    case Transfer(_, _) =>
  }

  // ---------------------------------------------------------------- whole runs

  predicate AllFlow(c: Config, start: Flow, w: World) {
    && c.logInterval > 0 && Shaped(c, start)
    && forall i :: 0 <= i < |w| ==> InCalls(c, w[i]) && FlowOk(c, start, w[i])
  }

  lemma FlowOffered(c: Config, start: Flow, r: Rank, m: nat, o: Outcome)
    requires ConfigOk(c) && Sized(c, r) && Shaped(c, start) && InCalls(c, r) && FlowOk(c, start, r)
    requires CanOffer(c, r, m, o)
    ensures InCalls(c, Offer(c, r, m, o)) && FlowOk(c, start, Offer(c, r, m, o))
  {
    var s, r' := FlowRun(c, start, r.answers, r.reductions, r.called), Offer(c, r, m, o);
    assert SameCall(r, r') && r'.control == r.control && forall u :: Carries(r, u) == Carries(r', u);
  }

  lemma NextFlow(c: Config, start: Flow, w: World, e: Event)
    requires ConfigOk(c) && c.isAsync && AllFlow(c, start, w) && WorldOk(c, w)
    requires AllSized(c, w) && AllStand(c, w) && Next(c, w, e).Some?
    ensures AllFlow(c, start, Next(c, w, e).value)
  {
    match e
    case Local(i, isDummy, windows) => FlowAct(c, start, w[i], isDummy, windows);
    case Worker(i, m, o) => FlowOffered(c, start, w[i], m, o);
    case Fire => FireFlow(c, start, w);
  }

  lemma FireFlow(c: Config, start: Flow, w: World)
    requires ConfigOk(c) && c.isAsync && AllFlow(c, start, w) && WorldOk(c, w)
    requires AllSized(c, w) && AllStand(c, w) && CanFire(w)
    ensures AllFlow(c, start, FireAll(c, w))
  {
    var a, w' := Collect(c, w), FireAll(c, w);
    forall i | 0 <= i < |w'| ensures InCalls(c, w'[i]) && FlowOk(c, start, w'[i]) {
      var r := w[i];
      assert RankOk(c, r) && Stands(c, r) && FlowOk(c, start, r) && (a.ready ==> r.contribution);
      FlowResume(c, start, r, a);
      assert w'[i] == Resume(c, r, a);
    }
  }

  lemma {:induction false} RunFlow(c: Config, start: Flow, w: World, es: seq<Event>, v: World)
    requires ConfigOk(c) && c.isAsync && WorldOk(c, w) && AllFlow(c, start, w) && Reaches(c, w, es, v)
    ensures AllFlow(c, start, v) && |v| == |w|
    decreases |es|
  {
    if es != [] {
      NextKeeps(c, w, es[0]);
      NextFlow(c, start, w, es[0]);
      RunFlow(c, start, Next(c, w, es[0]).value, es[1..], v);
    }
  }

  function StartOf(r: Rank): Flow { Flow(r.step, r.maps, r.rebalanced, r.plans, r.done, [], 0, 0) }

  /** In async mode every interleaving gives, between two calls, what the calls give one by one from the answers and
      the reductions: each step asks once for every model whose rearrangement is under way, in order, and commits its
      next layer, with its row of the plan, exactly when the answer is yes; then, with the counter at the interval and
      no model left under way, the policy's answer to the next reduction becomes the plan of every model. */
  lemma AsyncModeFollowsAnswers(c: Config, w: World, es: seq<Event>, v: World, i: nat)
    requires ConfigOk(c) && c.isAsync && Initial(c, w) && Reaches(c, w, es, v) && i < |w| == |v|
    requires v[i].control == Fetch
    ensures v[i].called <= |c.calls| && Beginning(c, w[i])
    ensures Carries(v[i], FlowRun(c, StartOf(w[i]), v[i].answers, v[i].reductions, v[i].called))
  {
    assert Beginning(c, w[i]);
    var start := StartOf(w[i]);
    InitialOk(c, w);
    forall j | 0 <= j < |w| ensures InCalls(c, w[j]) && FlowOk(c, start, w[j]) {
      assert Beginning(c, w[j]) && Decisions(w[j]) == Decisions(w[i]);
      var a, b := Decisions(w[j]), Decisions(w[i]);
      assert a.step == b.step && a.maps == b.maps && a.rebalanced == b.rebalanced && a.plans == b.plans;
      assert a.done == b.done;
    }
    RunFlow(c, start, w, es, v);
  }

  /** A readiness question is answered yes, on every rank alike, exactly when every rank said yes; and a rank that
      said yes still holds the layer it said it for. */
  lemma AnswerIsUnanimous(c: Config, w: World, i: nat, m: nat)
    requires ConfigOk(c) && WorldOk(c, w) && CanFire(w) && w[0].control == Ready(m) && i < |w|
    ensures AllSized(c, w) && AllStand(c, w)
    ensures var all := forall k :: 0 <= k < |w| ==> w[k].contribution;
            && FireAll(c, w)[i].answers == w[i].answers + [all]
            && (all ==> m < |c.layers| && forall k :: 0 <= k < |w| ==> Sized(c, w[k]) && w[k].pending[m].Some?)
  {
    forall k | 0 <= k < |w| ensures Sized(c, w[k]) && Stands(c, w[k]) && w[k].control == Ready(m) {
      assert RankOk(c, w[k]);
    }
    var a := Collect(c, w);
    assert RankOk(c, w[i]) && (a.ready ==> w[i].contribution);
    AnswerIsKept(c, w[i], m, a);
  }

  lemma AnswerIsKept(c: Config, r: Rank, m: nat, a: Answer)
    requires Sized(c, r) && r.control == Ready(m) && |a.reduced| == |c.layers| && (a.ready ==> r.pending[m].Some?)
    ensures Resume(c, r, a).answers == r.answers + [a.ready]
  {}

  /** A rank says yes exactly when its worker has handed over a layer of that model. */
  lemma YesWhenPending(c: Config, r: Rank, isDummy: bool, windows: seq<Loads>)
    requires ConfigOk(c) && RankOk(c, r) && !Waiting(r.control)
    ensures var r' := Act(c, r, isDummy, windows);
            r'.control.Ready? ==> Sized(c, r') && (r'.contribution <==> r.pending[r'.control.model].Some?)
  {}
}
