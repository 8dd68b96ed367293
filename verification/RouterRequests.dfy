/**
 Matching of request reports. A request is reported by its prefill and by its decode instance, in
 either order; the second report queues it and the dispatcher takes it from the queue. The queue
 and the table share one record per request, so the queue holds request ids.
 */
module RouterRequests {
  import opened Common
  import opened RouterRegistry

  type RequestId = string

  datatype Request = Request(pHttp: Addr, pDp: int, dHttp: Addr, dDp: int)

  const NO_REQUEST := Request("", -1, "", -1)

  datatype Event =
    | Report(id: RequestId, kind: Kind, http: Addr, dp: int)
    | Dispatch

  datatype Dispatched = Dispatched(id: RequestId, request: Request)

  /** `failed` when the listener's assertion has failed. */
  datatype State = State(running: map<RequestId, Request>, queue: seq<RequestId>, dispatched: seq<Dispatched>,
      failed: bool)

  const START := State(map[], [], [], false)

  function Fill(q: Request, kind: Kind, http: Addr, dp: int): Request {
    if kind.P? then q.(pHttp := http, pDp := dp) else q.(dHttp := http, dDp := dp)
  }

  function Next(s: State, e: Event): State {
    match e
    case Report(id, kind, http, dp) =>
      if s.failed then s
      else if id in s.running then
        var q := Fill(s.running[id], kind, http, dp);
        var s' := s.(running := s.running[id := q]);
        if q.pDp >= 0 && q.dDp >= 0 then s'.(queue := s.queue + [id]) else s'.(failed := true)
      else s.(running := s.running[id := Fill(NO_REQUEST, kind, http, dp)])
    case Dispatch =>
      if s.queue == [] then s
      else
        var id := s.queue[|s.queue| - 1];
        s.(queue := s.queue[..|s.queue| - 1],
           dispatched := s.dispatched + if id in s.running then [Dispatched(id, s.running[id])] else [])
  }

  function After(es: seq<Event>, k: nat): State
    requires k <= |es|
  {
    if k == 0 then START else Next(After(es, k - 1), es[k - 1])
  }

  // ---------------------------------------------------------------- what was reported

  predicate Reports(e: Event, id: RequestId, kind: Kind) { e.Report? && e.id == id && e.kind == kind }

  /** The last report about the request from one side among the first `k` events. */
  function LastReport(es: seq<Event>, k: nat, id: RequestId, kind: Kind): Option<(Addr, int)>
    requires k <= |es|
  {
    if k == 0 then None
    else if Reports(es[k - 1], id, kind) then Some((es[k - 1].http, es[k - 1].dp))
    else LastReport(es, k - 1, id, kind)
  }

  function ReportCount(es: seq<Event>, k: nat, id: RequestId): nat
    requires k <= |es|
  {
    if k == 0 then 0 else ReportCount(es, k - 1, id) + if es[k - 1].Report? && es[k - 1].id == id then 1 else 0
  }

  /** The record of a request: what each side said last. */
  function Known(es: seq<Event>, k: nat, id: RequestId): Request
    requires k <= |es|
  {
    var p, d := LastReport(es, k, id, P), LastReport(es, k, id, D);
    var q := if p.Some? then Fill(NO_REQUEST, P, p.value.0, p.value.1) else NO_REQUEST;
    if d.Some? then Fill(q, D, d.value.0, d.value.1) else q
  }

  predicate BothReported(es: seq<Event>, k: nat, id: RequestId)
    requires k <= |es|
  {
    LastReport(es, k, id, P).Some? && LastReport(es, k, id, D).Some?
  }

  /** Both sides have reported, and what each said last names a replica. */
  predicate Settled(es: seq<Event>, k: nat, id: RequestId)
    requires k <= |es|
  {
    var p, d := LastReport(es, k, id, P), LastReport(es, k, id, D);
    p.Some? && p.value.1 >= 0 && d.Some? && d.value.1 >= 0
  }

  lemma {:induction false} ReportIsCounted(es: seq<Event>, k: nat, id: RequestId, kind: Kind)
    requires k <= |es|
    ensures LastReport(es, k, id, kind).Some? ==> ReportCount(es, k, id) > 0
  {
    if k > 0 { ReportIsCounted(es, k - 1, id, kind); }
  }

  // ---------------------------------------------------------------- the invariant

  /** How often the request is queued or was dispatched. */
  function Copies(s: State, id: RequestId): nat { InQueue(s.queue, id) + InDispatched(s.dispatched, id) }

  function InQueue(queue: seq<RequestId>, id: RequestId): nat {
    if queue == [] then 0
    else InQueue(queue[..|queue| - 1], id) + if queue[|queue| - 1] == id then 1 else 0
  }

  function InDispatched(l: seq<Dispatched>, id: RequestId): nat {
    if l == [] then 0
    else InDispatched(l[..|l| - 1], id) + if l[|l| - 1].id == id then 1 else 0
  }

  ghost predicate RequestOk(es: seq<Event>, k: nat, s: State, id: RequestId)
    requires k <= |es|
  {
    && (id in s.running <==> ReportCount(es, k, id) > 0)
    && (id in s.running ==> s.running[id] == Known(es, k, id))
    && (ReportCount(es, k, id) >= 2 ==> Settled(es, k, id))
    && Copies(s, id) == if ReportCount(es, k, id) > 1 then ReportCount(es, k, id) - 1 else 0
  }

  lemma KnownNext(es: seq<Event>, k: nat, id: RequestId)
    requires k < |es|
    ensures var e := es[k];
            Known(es, k + 1, id) == if e.Report? && e.id == id
                then Fill(Known(es, k, id), e.kind, e.http, e.dp) else Known(es, k, id)
  {
  }

  lemma KnownComplete(es: seq<Event>, k: nat, id: RequestId)
    requires k <= |es|
    ensures Known(es, k, id).pDp >= 0 && Known(es, k, id).dDp >= 0 <==> Settled(es, k, id)
  {
  }

  lemma QueueGrows(queue: seq<RequestId>, x: RequestId, id: RequestId)
    ensures InQueue(queue + [x], id) == InQueue(queue, id) + if x == id then 1 else 0
  {
    assert (queue + [x])[..|queue + [x]| - 1] == queue;
  }

  lemma DispatchedGrows(l: seq<Dispatched>, x: Dispatched, id: RequestId)
    ensures InDispatched(l + [x], id) == InDispatched(l, id) + if x.id == id then 1 else 0
  {
    assert (l + [x])[..|l + [x]| - 1] == l;
  }

  lemma {:induction false} QueuedIsRunning(queue: seq<RequestId>, id: RequestId)
    requires id in queue
    ensures InQueue(queue, id) > 0
  {
    var n := |queue| - 1;
    assert queue == queue[..n] + [queue[n]];
    if queue[n] != id { QueuedIsRunning(queue[..n], id); }
  }

  lemma ReportKeeps(es: seq<Event>, k: nat, s: State, id: RequestId)
    requires k < |es| && es[k].Report? && !s.failed && !Next(s, es[k]).failed
    requires RequestOk(es, k, s, id) && RequestOk(es, k, s, es[k].id)
    ensures RequestOk(es, k + 1, Next(s, es[k]), id)
  {
    var e := es[k];
    KnownNext(es, k, e.id);
    KnownNext(es, k, id);
    QueueGrows(s.queue, e.id, id);
    if e.id == id {
      KnownComplete(es, k + 1, id);
      ReportIsCounted(es, k, id, P);
      ReportIsCounted(es, k, id, D);
    }
  }

  lemma DispatchKeeps(es: seq<Event>, k: nat, s: State, id: RequestId)
    requires k < |es| && es[k].Dispatch?
    requires RequestOk(es, k, s, id)
    requires s.queue != [] ==> s.queue[|s.queue| - 1] in s.running
    ensures RequestOk(es, k + 1, Next(s, es[k]), id)
  {
    if s.queue != [] {
      var last := s.queue[|s.queue| - 1];
      assert s.queue == s.queue[..|s.queue| - 1] + [last];
      QueueGrows(s.queue[..|s.queue| - 1], last, id);
      DispatchedGrows(s.dispatched, Dispatched(last, s.running[last]), id);
    }
  }

  ghost predicate AllOk(es: seq<Event>, k: nat, s: State)
    requires k <= |es|
  {
    forall id :: RequestOk(es, k, s, id)
  }

  lemma StepKeeps(es: seq<Event>, k: nat, s: State)
    requires k < |es| && !s.failed && !Next(s, es[k]).failed && AllOk(es, k, s)
    ensures AllOk(es, k + 1, Next(s, es[k]))
  {
    var n, s' := k + 1, Next(s, es[k]);
    forall id ensures RequestOk(es, n, s', id) {
      assert RequestOk(es, k, s, id);
      if es[k].Report? {
        assert RequestOk(es, k, s, es[k].id);
        ReportKeeps(es, k, s, id);
      } else {
        if s.queue != [] {
          var last := s.queue[|s.queue| - 1];
          assert RequestOk(es, k, s, last);
          QueuedIsRunning(s.queue, last);
        }
        DispatchKeeps(es, k, s, id);
      }
    }
  }

  lemma {:induction false} RunKeeps(es: seq<Event>, k: nat)
    requires k <= |es| && !After(es, k).failed
    ensures AllOk(es, k, After(es, k))
  {
    if k > 0 {
      RunKeeps(es, k - 1);
      StepKeeps(es, k - 1, After(es, k - 1));
    }
  }

  /** For every run in which the listener has not failed: a request is queued once for each report
      after its first, and its record holds what each side said last. */
  lemma RequestsCounted(es: seq<Event>, k: nat, id: RequestId)
    requires k <= |es| && !After(es, k).failed
    ensures RequestOk(es, k, After(es, k), id)
  {
    RunKeeps(es, k);
  }

  /** A report after the first about a request leaves both sides reported, with replicas named. */
  predicate Matched(es: seq<Event>, i: nat)
    requires i < |es|
  {
    es[i].Report? && ReportCount(es, i, es[i].id) > 0 ==> Settled(es, i + 1, es[i].id)
  }

  lemma FailsNext(es: seq<Event>, k: nat, s: State)
    requires k < |es| && !s.failed && (es[k].Report? ==> RequestOk(es, k, s, es[k].id))
    ensures !Next(s, es[k]).failed <==> Matched(es, k)
  {
    if es[k].Report? {
      KnownNext(es, k, es[k].id);
      KnownComplete(es, k + 1, es[k].id);
    }
  }

  /** The listener's assertion holds in a run exactly when every report after the first about a request
      leaves both sides reported with dp ranks that are not negative. */
  lemma {:induction false} FailsIff(es: seq<Event>, k: nat)
    requires k <= |es|
    ensures !After(es, k).failed <==> forall i :: 0 <= i < k ==> Matched(es, i)
  {
    if k > 0 {
      FailsIff(es, k - 1);
      var s := After(es, k - 1);
      if !s.failed {
        if es[k - 1].Report? { RequestsCounted(es, k - 1, es[k - 1].id); }
        FailsNext(es, k - 1, s);
      } else {
        assert Next(s, es[k - 1]).failed;
      }
    }
  }

  /** Both ways to fail are real: one side twice, and a negative dp rank. */
  lemma FailingRuns()
    ensures After([Report("r", P, "p", 0), Report("r", P, "p", 0)], 2).failed
    ensures var es := [Report("r", P, "p", -1), Report("r", D, "d", 0)]; BothReported(es, 2, "r") && After(es, 2).failed
  {
    var once := [Report("r", P, "p", 0), Report("r", P, "p", 0)];
    assert After(once, 1) == Next(After(once, 0), once[0]);
    assert After(once, 2) == Next(After(once, 1), once[1]);
    var negative := [Report("r", P, "p", -1), Report("r", D, "d", 0)];
    assert After(negative, 1) == Next(After(negative, 0), negative[0]);
    assert After(negative, 2) == Next(After(negative, 1), negative[1]);
    assert LastReport(negative, 1, "r", P).Some?;
  }

  // ---------------------------------------------------------------- one report from each side

  /** Each side reports a request at most once. */
  predicate OnceEach(es: seq<Event>) {
    forall i, j :: 0 <= i < j < |es| && es[i].Report? && es[j].Report? ==>
        es[i].id != es[j].id || es[i].kind != es[j].kind
  }

  function Side(es: seq<Event>, k: nat, id: RequestId, kind: Kind): nat
    requires k <= |es|
  {
    if LastReport(es, k, id, kind).Some? then 1 else 0
  }

  lemma {:induction false} FoundReport(es: seq<Event>, k: nat, id: RequestId, kind: Kind)
    requires k <= |es|
    ensures LastReport(es, k, id, kind).Some? <==> exists i :: 0 <= i < k && Reports(es[i], id, kind)
  {
    if k > 0 { FoundReport(es, k - 1, id, kind); }
  }

  lemma {:induction false} CountIsSides(es: seq<Event>, k: nat, id: RequestId)
    requires OnceEach(es) && k <= |es|
    ensures ReportCount(es, k, id) == Side(es, k, id, P) + Side(es, k, id, D)
  {
    if k > 0 {
      CountIsSides(es, k - 1, id);
      if es[k - 1].Report? && es[k - 1].id == id {
        FoundReport(es, k - 1, id, es[k - 1].kind);
        assert LastReport(es, k - 1, id, es[k - 1].kind).None?;
      }
    }
  }

  /** Once reported by a side, what it said stands. */
  lemma {:induction false} ReportStands(es: seq<Event>, k: nat, id: RequestId, kind: Kind)
    requires OnceEach(es) && k < |es| && LastReport(es, k, id, kind).Some?
    ensures LastReport(es, k + 1, id, kind) == LastReport(es, k, id, kind)
  {
    FoundReport(es, k, id, kind);
  }

  lemma {:induction false} ReportStandsTo(es: seq<Event>, i: nat, k: nat, id: RequestId, kind: Kind)
    requires OnceEach(es) && i <= k <= |es| && LastReport(es, i, id, kind).Some?
    ensures LastReport(es, k, id, kind) == LastReport(es, i, id, kind)
    decreases k - i
  {
    if i < k {
      ReportStandsTo(es, i, k - 1, id, kind);
      ReportStands(es, k - 1, id, kind);
    }
  }

  /** With at most one report per side, the assertion holds exactly when no completed request has a
      negative dp rank. */
  lemma OnceFailsIff(es: seq<Event>, k: nat)
    requires OnceEach(es) && k <= |es|
    ensures !After(es, k).failed <==> forall id :: BothReported(es, k, id) ==> Settled(es, k, id)
  {
    FailsIff(es, k);
    if !After(es, k).failed {
      forall id | BothReported(es, k, id) ensures Settled(es, k, id) {
        RequestsCounted(es, k, id);
        CountIsSides(es, k, id);
      }
    }
    if forall id :: BothReported(es, k, id) ==> Settled(es, k, id) {
      forall i | 0 <= i < k ensures Matched(es, i) {
        if es[i].Report? && ReportCount(es, i, es[i].id) > 0 {
          CountIsSides(es, i + 1, es[i].id);
          ReportStandsTo(es, i + 1, k, es[i].id, P);
          ReportStandsTo(es, i + 1, k, es[i].id, D);
          assert BothReported(es, k, es[i].id);
        }
      }
    }
  }

  /** What the next event dispatches has both sides' data. */
  lemma DispatchedNext(es: seq<Event>, k: nat, s: State, i: nat)
    requires k < |es| && AllOk(es, k, s) && |s.dispatched| <= i < |Next(s, es[k]).dispatched|
    ensures var x := Next(s, es[k]).dispatched[i]; BothReported(es, k, x.id) && x.request == Known(es, k, x.id)
  {
    var last := s.queue[|s.queue| - 1];
    assert RequestOk(es, k, s, last);
    QueuedIsRunning(s.queue, last);
  }

  lemma {:induction false} DispatchedComplete(es: seq<Event>, k: nat, i: nat)
    requires OnceEach(es) && k <= |es| && !After(es, k).failed && i < |After(es, k).dispatched|
    ensures var x := After(es, k).dispatched[i]; BothReported(es, k, x.id) && x.request == Known(es, k, x.id)
  {
    if k > 0 {
      var s := After(es, k - 1);
      var id := After(es, k).dispatched[i].id;
      if i < |s.dispatched| {
        DispatchedComplete(es, k - 1, i);
      } else {
        RunKeeps(es, k - 1);
        DispatchedNext(es, k - 1, s, i);
      }
      ReportStands(es, k - 1, id, P);
      ReportStands(es, k - 1, id, D);
    }
  }

  /** For every arrival order with at most one report per side, and any moments of dispatch: the listener
      fails only over a negative dp rank; until then a request is queued or dispatched, once, exactly
      when both sides have reported; what is dispatched carries both sides' data; and an empty queue
      means it was dispatched. */
  lemma RequestsDispatchedOnce(es: seq<Event>, k: nat, id: RequestId)
    requires OnceEach(es) && k <= |es|
    ensures !After(es, k).failed <==> forall x :: BothReported(es, k, x) ==> Settled(es, k, x)
    ensures var s := After(es, k);
            !s.failed ==>
              && Copies(s, id) == (if BothReported(es, k, id) then 1 else 0)
              && (s.queue == [] ==> InDispatched(s.dispatched, id) == if BothReported(es, k, id) then 1 else 0)
              && forall i :: 0 <= i < |s.dispatched| && s.dispatched[i].id == id ==>
                   BothReported(es, k, id) && s.dispatched[i].request == Known(es, k, id)
  {
    OnceFailsIff(es, k);
    if !After(es, k).failed {
      RequestsCounted(es, k, id);
      CountIsSides(es, k, id);
      forall i | 0 <= i < |After(es, k).dispatched| && After(es, k).dispatched[i].id == id
        ensures BothReported(es, k, id) && After(es, k).dispatched[i].request == Known(es, k, id)
      {
        DispatchedComplete(es, k, i);
      }
    }
  }

  /** What is dispatched carries, side by side, what each side itself reported. */
  lemma DispatchedAsReported(es: seq<Event>, k: nat, i: nat, a: nat)
    requires OnceEach(es) && k <= |es| && !After(es, k).failed && i < |After(es, k).dispatched|
    requires a < k && es[a].Report? && es[a].id == After(es, k).dispatched[i].id
    ensures var q := After(es, k).dispatched[i].request;
            if es[a].kind.P? then q.pHttp == es[a].http && q.pDp == es[a].dp
            else q.dHttp == es[a].http && q.dDp == es[a].dp
  {
    var id := es[a].id;
    DispatchedComplete(es, k, i);
    ReportStandsTo(es, a + 1, k, id, es[a].kind);
    assert LastReport(es, a + 1, id, es[a].kind) == Some((es[a].http, es[a].dp));
  }

  // ---------------------------------------------------------------- the newest request first

  /** The position after the last report about the request. */
  function LastHeard(es: seq<Event>, k: nat, id: RequestId): nat
    requires k <= |es|
  {
    if k == 0 then 0 else if es[k - 1].Report? && es[k - 1].id == id then k else LastHeard(es, k - 1, id)
  }

  predicate QueuedInOrder(es: seq<Event>, k: nat, queue: seq<RequestId>)
    requires k <= |es|
  {
    && (forall i :: 0 <= i < |queue| ==> LastHeard(es, k, queue[i]) <= k)
    && (forall i, j :: 0 <= i < j < |queue| ==> LastHeard(es, k, queue[i]) < LastHeard(es, k, queue[j]))
  }

  lemma {:induction false} LastHeardBelow(es: seq<Event>, k: nat, id: RequestId)
    requires k <= |es|
    ensures LastHeard(es, k, id) <= k
  {
    if k > 0 { LastHeardBelow(es, k - 1, id); }
  }

  /** The queue is in the order in which its requests were completed. */
  lemma {:induction false} QueueInOrder(es: seq<Event>, k: nat)
    requires OnceEach(es) && k <= |es| && !After(es, k).failed
    ensures QueuedInOrder(es, k, After(es, k).queue)
  {
    if k > 0 {
      QueueInOrder(es, k - 1);
      RunKeeps(es, k - 1);
      OrderNext(es, k - 1, After(es, k - 1));
    }
  }

  lemma OrderNext(es: seq<Event>, k: nat, s: State)
    requires OnceEach(es) && k < |es| && AllOk(es, k, s) && !s.failed && QueuedInOrder(es, k, s.queue)
    ensures QueuedInOrder(es, k + 1, Next(s, es[k]).queue)
  {
    var e, queue := es[k], Next(s, es[k]).queue;
    forall i | 0 <= i < |s.queue| && e.Report? ensures s.queue[i] != e.id {
      if s.queue[i] == e.id { NotReportedAgain(es, k, s, i); }
    }
    forall i | 0 <= i < |queue| ensures LastHeard(es, k + 1, queue[i]) <= k + 1 {
      LastHeardBelow(es, k + 1, queue[i]);
    }
  }

  /** A queued request has both reports, so no further one comes. */
  lemma NotReportedAgain(es: seq<Event>, k: nat, s: State, i: nat)
    requires OnceEach(es) && k < |es| && es[k].Report? && AllOk(es, k, s) && i < |s.queue|
    ensures s.queue[i] != es[k].id
  {
    var id := s.queue[i];
    assert RequestOk(es, k, s, id);
    QueuedIsRunning(s.queue, id);
    assert Settled(es, k, id);
    assert es[k].kind == P || es[k].kind == D;
    assert LastReport(es, k, id, es[k].kind).Some?;
    FoundReport(es, k, id, es[k].kind);
    var j :| 0 <= j < k && Reports(es[j], id, es[k].kind);
  }

  /** The dispatcher takes, of all queued requests, the one that was completed last. */
  lemma NewestFirst(es: seq<Event>, k: nat, other: RequestId)
    requires OnceEach(es) && k < |es| && es[k].Dispatch? && !After(es, k).failed && other in After(es, k).queue
    ensures var s, s' := After(es, k), After(es, k + 1);
            && |s'.dispatched| == |s.dispatched| + 1
            && (s'.dispatched[|s.dispatched|].id == other
                || LastHeard(es, k, other) < LastHeard(es, k, s'.dispatched[|s.dispatched|].id))
  {
    var s := After(es, k);
    QueueInOrder(es, k);
    RunKeeps(es, k);
    var last := s.queue[|s.queue| - 1];
    assert RequestOk(es, k, s, last);
    QueuedIsRunning(s.queue, last);
    var i :| 0 <= i < |s.queue| && s.queue[i] == other;
  }

  // ---------------------------------------------------------------- the table in place

  /** The request table, shared by the listener and the dispatcher. */
  class RequestTable {
    var running: map<RequestId, Request>
    var queue: seq<RequestId>
    var dispatched: seq<Dispatched>
    var failed: bool

    ghost function Value(): State
      reads this
    {
      State(running, queue, dispatched, failed)
    }

    constructor ()
      ensures Value() == START
    {
      running, queue, dispatched, failed := map[], [], [], false;
    }

    /** The listener's Req branch. */
    method Hear(id: RequestId, kind: Kind, http: Addr, dp: int)
      modifies this
      ensures Value() == Next(old(Value()), Report(id, kind, http, dp))
    {
      if failed { return; }
      if id in running {
        running := running[id := Fill(running[id], kind, http, dp)];
        if running[id].pDp >= 0 && running[id].dDp >= 0 {
          queue := queue + [id];
        } else {
          failed := true;
        }
      } else {
        running := running[id := Fill(NO_REQUEST, kind, http, dp)];
      }
    }

    /** The dispatcher takes the newest entry of the queue, if there is one. */
    method Take()
      modifies this
      ensures Value() == Next(old(Value()), Dispatch)
    {
      if queue == [] { return; }
      var id := queue[|queue| - 1];
      queue := queue[..|queue| - 1];
      if id in running {
        dispatched := dispatched + [Dispatched(id, running[id])];
      }
    }
  }
}
