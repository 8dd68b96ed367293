/**
 The router as a whole: registration and pairing, request reports, and the dispatcher that takes the
 newest matched request, finds its mapping and sends the commands. The listener hears registrations
 and reports, so a failed assertion silences both; a failed lookup ends the dispatcher.
 */
module RouterService {
  import opened Common
  import opened RouterLayout
  import opened RouterRegistry
  import opened RouterPairing
  import opened RouterRequests
  import opened RouterDispatch

  /** `alive` while the dispatcher thread runs. */
  datatype Service = Service(router: Router, requests: State, commands: seq<Command>, alive: bool)

  const IDLE := Service(RouterPairing.START, RouterRequests.START, [], true)

  datatype Step =
    | Arrived(message: Message)
    | Paired
    | Reported(id: RequestId, kind: Kind, http: Addr, dp: int)
    | Served(sent: seq<Command>)

  ghost predicate CanStep(c: Config, s: Service, e: Step, s': Service) {
    match e
    case Arrived(m) =>
      !s.requests.failed && Conforms(c, m) && s' == s.(router := RouterPairing.Hear(s.router, m))
    case Paired => CanDrain(s.router) && s' == s.(router := Drain(s.router))
    case Reported(id, kind, http, dp) =>
      s' == s.(requests := RouterRequests.Next(s.requests, Report(id, kind, http, dp)))
    case Served(sent) => s.alive && s.requests.queue != [] && CanServe(s, sent, s')
  }

  /** The request that is taken next. */
  function Newest(s: State): RequestId
    requires s.queue != []
  {
    s.queue[|s.queue| - 1]
  }

  function PairOf(q: Request): Pair { Pair(q.pHttp, q.dHttp) }

  /** The dispatcher takes the newest request and sends its commands, in some order; it ends when the mapping
      is not found or an address is missing. */
  ghost predicate CanServe(s: Service, sent: seq<Command>, s': Service)
    requires s.requests.queue != []
  {
    var id := Newest(s.requests);
    && id in s.requests.running
    && var q := s.requests.running[id];
    var x := PairOf(q);
    var k := CacheFor(s.router, x, q.dDp);
    && s'.requests == RouterRequests.Next(s.requests, Dispatch)
    && s'.router == RouterPairing.Next(s.router, RouterPairing.Dispatched(x, q.dDp))
    && s'.commands == s.commands + sent
    && (if k.None? then sent == [] && !s'.alive
        else Shaped(k.value) && CanSend(s.router.prefill[x.p], q.pDp, k.value, id, x, sent, s'.alive))
  }

  ghost predicate CanSend(i: Instance, pdp: int, k: Cache, id: RequestId, x: Pair, sent: seq<Command>, alive: bool)
    requires Shaped(k)
  {
    Sound(i, pdp, k, id, x, sent) && alive == AllListed(i, pdp, k) && (alive ==> Serves(i, pdp, k, id, x, sent))
  }

  ghost predicate IsRun(c: Config, ws: seq<Service>, es: seq<Step>) {
    && |ws| == |es| + 1 && ws[0] == IDLE
    && forall i :: 0 <= i < |es| ==> CanStep(c, ws[i], es[i], ws[i + 1])
  }

  // ---------------------------------------------------------------- what a request has been sent

  /** The commands of one request. */
  function CommandsOf(commands: seq<Command>, id: RequestId): seq<Command> {
    if commands == [] then []
    else
      var rest, last := CommandsOf(commands[..|commands| - 1], id), commands[|commands| - 1];
      if last.request == id then rest + [last] else rest
  }

  lemma {:induction false} CommandsAppend(commands: seq<Command>, sent: seq<Command>, id: RequestId)
    ensures CommandsOf(commands + sent, id) == CommandsOf(commands, id) + CommandsOf(sent, id)
    decreases |sent|
  {
    if sent == [] {
      assert commands + sent == commands;
    } else {
      CommandsAppend(commands, sent[..|sent| - 1], id);
      assert (commands + sent)[..|commands + sent| - 1] == commands + sent[..|sent| - 1];
    }
  }

  lemma {:induction false} CommandsOfOne(sent: seq<Command>, id: RequestId, other: RequestId)
    requires forall n :: 0 <= n < |sent| ==> sent[n].request == id
    ensures CommandsOf(sent, other) == if other == id then sent else []
    decreases |sent|
  {
    if sent != [] {
      CommandsOfOne(sent[..|sent| - 1], id, other);
      assert sent == sent[..|sent| - 1] + [sent[|sent| - 1]];
    }
  }

  /** The (pp, tp) ranks of the prefill instance. */
  predicate InLayout(c: Config, x: Pair, s: (int, int)) {
    var z := c.sizes(P, x.p);
    0 <= s.0 < z.pp && (s.1 in Active(z.tp, Range(c.sizes(D, x.d).tp)) || 0 <= s.1 < z.tp)
  }

  /** A command of the request: to an address of its rank of the dp group, and a transfer exactly for an active tp
      rank, to the destinations of its residue with ranks counted from `base`. */
  predicate CommandOk(c: Config, x: Pair, id: RequestId, pdp: int, ddp: int, k: Command, base: int) {
    var m, n := c.sizes(P, x.p).tp, Range(c.sizes(D, x.d).tp);
    && InLayout(c, x, Place(k)) && k.coord.dp == pdp && k.request == id && c.owns(P, x.p, k.coord, k.to)
    && (k.Transfer? <==> k.coord.tp in Active(m, n))
    && (k.Transfer? ==>
          && k.pair == x && k.dstNum == |k.addresses|
          && ListFrom(c, x.d, ddp, Picks(n, m, k.coord.tp), k.addresses, k.ranks, base))
  }

  /** Each (pp, tp) rank of the dp group has exactly one command, and it is as it should be. */
  ghost predicate ServedBy(c: Config, x: Pair, id: RequestId, pdp: int, ddp: int, ks: seq<Command>, base: int) {
    && (forall n :: 0 <= n < |ks| ==> CommandOk(c, x, id, pdp, ddp, ks[n], base))
    && (forall s :: InLayout(c, x, s) ==> HasPlace(ks, s))
    && forall a, b :: 0 <= a < b < |ks| ==> Place(ks[a]) != Place(ks[b])
  }

  predicate HasPlace(ks: seq<Command>, s: (int, int)) {
    exists n :: 0 <= n < |ks| && Place(ks[n]) == s
  }

  /** A batch served while the decode instance was last paired with some prefill instance. */
  ghost predicate Batch(c: Config, pairs: map<Pair, nat>, id: RequestId, q: Request, ks: seq<Command>) {
    var x := PairOf(q);
    c.sizes(D, x.d).tp > 0 ==>
      exists p :: Pair(p, x.d) in pairs && ServedBy(c, x, id, q.pDp, q.dDp, ks, Count(c, P, p))
  }

  lemma CommandIsOk(c: Config, i: Instance, k: Cache, id: RequestId, x: Pair, pdp: int, ddp: int, base: int, e: Command)
    requires InstanceOk(c, P, x.p, i) && i.sizes == c.sizes(P, x.p) && CacheFrom(c, x, ddp, k, base)
    requires IsRight(i, pdp, k, id, x, e)
    ensures CommandOk(c, x, id, pdp, ddp, e, base)
  {
  }

  lemma BatchServed(c: Config, r: Router, id: RequestId, q: Request, k: Cache, sent: seq<Command>)
    requires RouterOk(c, r) && CacheFor(r, PairOf(q), q.dDp) == Some(k) && Shaped(k)
    requires var x := PairOf(q);
             Sound(r.prefill[x.p], q.pDp, k, id, x, sent) && Serves(r.prefill[x.p], q.pDp, k, id, x, sent)
    ensures Batch(c, r.pairs, id, q, sent)
  {
    var x := PairOf(q);
    if c.sizes(D, x.d).tp > 0 {
      CacheForOk(c, r, x, q.dDp);
      var p := PartnerFor(r, x, q.dDp).value;
      var i, base := r.prefill[x.p], Count(c, P, p);
      forall n | 0 <= n < |sent| ensures CommandOk(c, x, id, q.pDp, q.dDp, sent[n], base) {
        CommandIsOk(c, i, k, id, x, q.pDp, q.dDp, base, sent[n]);
      }
      forall s | InLayout(c, x, s) ensures HasPlace(sent, s) {
        assert InGroup(i, k, s);
        var e := CommandFor(i, q.pDp, k, id, x, s);
        assert e in sent;
        var n :| 0 <= n < |sent| && sent[n] == e;
        assert Place(sent[n]) == s;
      }
      assert ServedBy(c, x, id, q.pDp, q.dDp, sent, base);
    }
  }

  lemma BatchKept(c: Config, pairs: map<Pair, nat>, pairs': map<Pair, nat>, id: RequestId, q: Request, ks: seq<Command>)
    requires Batch(c, pairs, id, q, ks) && forall x :: x in pairs ==> x in pairs'
    ensures Batch(c, pairs', id, q, ks)
  {
    var x := PairOf(q);
    if c.sizes(D, x.d).tp > 0 {
      var p :| Pair(p, x.d) in pairs && ServedBy(c, x, id, q.pDp, q.dDp, ks, Count(c, P, p));
      assert Pair(p, x.d) in pairs';
    }
  }

  // ---------------------------------------------------------------- the invariant

  /** While the dispatcher runs: a request not dispatched has no commands, and one dispatched once has the
      commands of its record. */
  ghost predicate RequestServedOk(c: Config, s: Service, id: RequestId) {
    var ks, l := CommandsOf(s.commands, id), s.requests.dispatched;
    && (InDispatched(l, id) == 0 ==> ks == [])
    && (InDispatched(l, id) == 1 ==>
          forall n :: 0 <= n < |l| && l[n].id == id ==> Batch(c, s.router.pairs, id, l[n].request, ks))
  }

  ghost predicate AllServedOk(c: Config, s: Service) {
    s.alive ==> forall id :: RequestServedOk(c, s, id)
  }

  predicate QueueKnown(s: State) {
    forall id :: id in s.queue ==> id in s.running
  }

  ghost predicate ServiceOk(c: Config, s: Service) {
    RouterOk(c, s.router) && QueueKnown(s.requests) && AllServedOk(c, s)
  }

  /** More pairs, the same commands and dispatches. */
  lemma PairsGrow(c: Config, s: Service, s': Service)
    requires AllServedOk(c, s) && s'.alive == s.alive && s'.commands == s.commands
    requires s'.requests.dispatched == s.requests.dispatched
    requires forall x :: x in s.router.pairs ==> x in s'.router.pairs
    ensures AllServedOk(c, s')
  {
    if s.alive {
      forall id ensures RequestServedOk(c, s', id) {
        assert RequestServedOk(c, s, id);
        var ks, l := CommandsOf(s.commands, id), s.requests.dispatched;
        forall n | InDispatched(l, id) == 1 && 0 <= n < |l| && l[n].id == id
          ensures Batch(c, s'.router.pairs, id, l[n].request, ks)
        {
          BatchKept(c, s.router.pairs, s'.router.pairs, id, l[n].request, ks);
        }
      }
    }
  }

  lemma {:induction false} CountedOnce(l: seq<RouterRequests.Dispatched>, id: RequestId)
    ensures InDispatched(l, id) == 0 <==> forall n :: 0 <= n < |l| ==> l[n].id != id
    decreases |l|
  {
    if l != [] {
      var m := |l| - 1;
      CountedOnce(l[..m], id);
      assert forall n :: 0 <= n < m ==> l[..m][n] == l[n];
    }
  }

  lemma SentToOne(i: Instance, pdp: int, k: Cache, id: RequestId, x: Pair, sent: seq<Command>)
    requires Shaped(k) && Sound(i, pdp, k, id, x, sent)
    ensures forall n :: 0 <= n < |sent| ==> sent[n].request == id
  {
    forall n | 0 <= n < |sent| ensures sent[n].request == id {
      assert IsRight(i, pdp, k, id, x, sent[n]);
    }
  }

  /** One more dispatch, with its batch. */
  lemma DispatchGrows(c: Config, s: Service, s': Service, id: RequestId, q: Request, sent: seq<Command>,
                      other: RequestId)
    requires RequestServedOk(c, s, other) && (forall n :: 0 <= n < |sent| ==> sent[n].request == id)
    requires s'.router.pairs == s.router.pairs && s'.commands == s.commands + sent
    requires s'.requests.dispatched == s.requests.dispatched + [RouterRequests.Dispatched(id, q)]
    requires Batch(c, s.router.pairs, id, q, sent)
    ensures RequestServedOk(c, s', other)
  {
    var l := s.requests.dispatched;
    DispatchedGrows(l, RouterRequests.Dispatched(id, q), other);
    CommandsAppend(s.commands, sent, other);
    CommandsOfOne(sent, id, other);
    var ks, ks' := CommandsOf(s.commands, other), CommandsOf(s'.commands, other);
    if other == id {
      if InDispatched(l, id) == 0 {
        assert ks' == [] + sent == sent;
        OnlyLast(l, RouterRequests.Dispatched(id, q));
      }
    } else {
      assert ks' == ks;
      LastIsOther(l, RouterRequests.Dispatched(id, q), other);
    }
  }

  lemma OnlyLast(l: seq<RouterRequests.Dispatched>, x: RouterRequests.Dispatched)
    requires InDispatched(l, x.id) == 0
    ensures forall n :: 0 <= n < |l + [x]| && (l + [x])[n].id == x.id ==> (l + [x])[n] == x
  {
    CountedOnce(l, x.id);
  }

  lemma LastIsOther(l: seq<RouterRequests.Dispatched>, x: RouterRequests.Dispatched, other: RequestId)
    requires other != x.id
    ensures forall n :: 0 <= n < |l + [x]| && (l + [x])[n].id == other ==> n < |l| && (l + [x])[n] == l[n]
  {}

  lemma ServeKeeps(c: Config, s: Service, sent: seq<Command>, s': Service)
    requires ServiceOk(c, s) && s.alive && s.requests.queue != [] && CanServe(s, sent, s')
    ensures ServiceOk(c, s')
  {
    var id := Newest(s.requests);
    var q := s.requests.running[id];
    var x := PairOf(q);
    RouterPairing.DispatchKeeps(c, s.router, x, q.dDp);
    if s'.alive {
      var k := CacheFor(s.router, x, q.dDp).value;
      BatchServed(c, s.router, id, q, k, sent);
      SentToOne(s.router.prefill[x.p], q.pDp, k, id, x, sent);
      forall other ensures RequestServedOk(c, s', other) {
        DispatchGrows(c, s, s', id, q, sent, other);
      }
    }
  }

  lemma DrainGrows(c: Config, r: Router, x: Pair)
    requires RouterOk(c, r) && x in r.pairs
    ensures CanDrain(r) && x in Drain(r).pairs
  {
    DrainKeeps(c, r);
  }

  lemma StepKeeps(c: Config, s: Service, e: Step, s': Service)
    requires ServiceOk(c, s) && CanStep(c, s, e, s')
    ensures ServiceOk(c, s')
  {
    match e
    case Arrived(m) =>
      HearKeeps(c, s.router, m);
      PairsGrow(c, s, s');
    case Paired =>
      DrainKeeps(c, s.router);
      forall x | x in s.router.pairs ensures x in s'.router.pairs { DrainGrows(c, s.router, x); }
      PairsGrow(c, s, s');
    case Reported(id, kind, http, dp) => PairsGrow(c, s, s');
    case Served(sent) => ServeKeeps(c, s, sent, s');
  }

  lemma {:induction false} ServiceRunKeeps(c: Config, ws: seq<Service>, es: seq<Step>, n: nat)
    requires IsRun(c, ws, es) && n <= |es|
    ensures ServiceOk(c, ws[n])
  {
    if n == 0 {
      StartOk(c);
      forall id ensures RequestServedOk(c, IDLE, id) {
      }
    } else {
      ServiceRunKeeps(c, ws, es, n - 1);
      StepKeeps(c, ws[n - 1], es[n - 1], ws[n]);
    }
  }

  // ---------------------------------------------------------------- the dispatcher is never stuck

  function Group(i: Instance, k: Cache): set<(int, int)> {
    (set pp, tp | 0 <= pp < i.sizes.pp && 0 <= tp < i.sizes.tp :: (pp, tp))
    + (set pp, tp | 0 <= pp < i.sizes.pp && tp in k.active :: (pp, tp))
  }

  lemma {:induction false} SomeOrder(i: Instance, pdp: int, k: Cache, id: RequestId, x: Pair, todo: set<(int, int)>)
      returns (sent: seq<Command>)
    requires Shaped(k) && forall s :: s in todo ==> InGroup(i, k, s) && Listed(i, pdp, s)
    ensures OneEach(i, pdp, k, id, x, sent, todo)
    decreases |todo|
  {
    if s :| s in todo {
      sent := SomeOrder(i, pdp, k, id, x, todo - {s});
      OneMore(i, pdp, k, id, x, sent, todo - {s}, s);
      sent := sent + [CommandFor(i, pdp, k, id, x, s)];
      assert todo - {s} + {s} == todo;
    } else {
      sent := [];
    }
  }

  lemma SendingIsPossible(i: Instance, pdp: int, k: Cache, id: RequestId, x: Pair) returns (sent: seq<Command>)
    requires Shaped(k)
    ensures CanSend(i, pdp, k, id, x, sent, AllListed(i, pdp, k))
  {
    sent := [];
    if AllListed(i, pdp, k) {
      sent := SomeOrder(i, pdp, k, id, x, Group(i, k));
      forall s | InGroup(i, k, s) ensures s in Group(i, k) {
        assert s == (s.0, s.1);
      }
    }
  }

  /** While the dispatcher runs and a request is queued, it can be served. */
  lemma ServingIsPossible(c: Config, s: Service) returns (sent: seq<Command>, s': Service)
    requires ServiceOk(c, s) && s.alive && s.requests.queue != []
    ensures CanStep(c, s, Served(sent), s')
  {
    var id := Newest(s.requests);
    var q := s.requests.running[id];
    var x := PairOf(q);
    var k := CacheFor(s.router, x, q.dDp);
    var requests := RouterRequests.Next(s.requests, Dispatch);
    var router := RouterPairing.Next(s.router, RouterPairing.Dispatched(x, q.dDp));
    sent := [];
    var alive := false;
    if k.Some? {
      CacheForOk(c, s.router, x, q.dDp);
      sent := SendingIsPossible(s.router.prefill[x.p], q.pDp, k.value, id, x);
      alive := AllListed(s.router.prefill[x.p], q.pDp, k.value);
    }
    s' := Service(router, requests, s.commands + sent, alive);
  }

  // ---------------------------------------------------------------- the requests of a run

  /** The reports and dispatches among the first `n` steps. */
  function RequestEvents(es: seq<Step>, n: nat): seq<RouterRequests.Event>
    requires n <= |es|
  {
    if n == 0 then [] else Extended(RequestEvents(es, n - 1), es[n - 1])
  }

  function Extended(rs: seq<RouterRequests.Event>, e: Step): seq<RouterRequests.Event> {
    match e
    case Reported(id, kind, http, dp) => rs + [Report(id, kind, http, dp)]
    case Served(_) => rs + [Dispatch]
    case _ => rs
  }

  lemma {:induction false} AfterPrefix(a: seq<RouterRequests.Event>, b: seq<RouterRequests.Event>, k: nat)
    requires k <= |a|
    ensures RouterRequests.After(a + b, k) == RouterRequests.After(a, k)
  {
    if k > 0 { AfterPrefix(a, b, k - 1); }
  }

  lemma AfterNext(rs: seq<RouterRequests.Event>, e: RouterRequests.Event)
    ensures RouterRequests.After(rs + [e], |rs| + 1) == RouterRequests.Next(RouterRequests.After(rs, |rs|), e)
  {
    AfterPrefix(rs, [e], |rs|);
  }

  /** What a step does to the requests. */
  predicate RequestsMove(s: State, e: Step, s': State) {
    match e
    case Reported(id, kind, http, dp) => s' == RouterRequests.Next(s, Report(id, kind, http, dp))
    case Served(_) => s' == RouterRequests.Next(s, Dispatch)
    case _ => s' == s
  }

  lemma StepMovesRequests(c: Config, s: Service, e: Step, s': Service)
    requires CanStep(c, s, e, s')
    ensures RequestsMove(s.requests, e, s'.requests)
  {
  }

  lemma {:induction false} RequestsFollow(ss: seq<State>, es: seq<Step>, n: nat)
    requires |ss| == |es| + 1 && ss[0] == RouterRequests.START && n <= |es|
    requires forall i :: 0 <= i < |es| ==> RequestsMove(ss[i], es[i], ss[i + 1])
    ensures var rs := RequestEvents(es, n); ss[n] == RouterRequests.After(rs, |rs|)
  {
    if n > 0 {
      RequestsFollow(ss, es, n - 1);
      FollowsOne(RequestEvents(es, n - 1), es[n - 1], ss[n]);
    }
  }

  lemma FollowsOne(rs: seq<RouterRequests.Event>, e: Step, s: State)
    requires RequestsMove(RouterRequests.After(rs, |rs|), e, s)
    ensures s == RouterRequests.After(Extended(rs, e), |Extended(rs, e)|)
  {
    match e
    case Reported(id, kind, http, dp) => AfterNext(rs, Report(id, kind, http, dp));
    case Served(_) => AfterNext(rs, Dispatch);
    case _ =>
  }

  lemma RunRequests(c: Config, ws: seq<Service>, es: seq<Step>, n: nat)
    requires IsRun(c, ws, es) && n <= |es|
    ensures var rs := RequestEvents(es, n); ws[n].requests == RouterRequests.After(rs, |rs|)
  {
    var ss := seq(|ws|, i requires 0 <= i < |ws| => ws[i].requests);
    forall i | 0 <= i < |es| ensures RequestsMove(ss[i], es[i], ss[i + 1]) {
      StepMovesRequests(c, ws[i], es[i], ws[i + 1]);
    }
    RequestsFollow(ss, es, n);
  }

  // ---------------------------------------------------------------- whole runs

  /** What both sides reported about the request. */
  function KnownOf(es: seq<Step>, n: nat, id: RequestId): Request
    requires n <= |es|
  {
    Known(RequestEvents(es, n), |RequestEvents(es, n)|, id)
  }

  lemma BatchOfRequest(c: Config, ws: seq<Service>, es: seq<Step>, n: nat, id: RequestId)
    requires IsRun(c, ws, es) && n <= |es| && OnceEach(RequestEvents(es, n))
    requires ws[n].alive && !ws[n].requests.failed && ws[n].requests.queue == []
    requires BothReported(RequestEvents(es, n), |RequestEvents(es, n)|, id)
    ensures Batch(c, ws[n].router.pairs, id, KnownOf(es, n, id), CommandsOf(ws[n].commands, id))
  {
    var rs, s := RequestEvents(es, n), ws[n];
    ServiceRunKeeps(c, ws, es, n);
    RunRequests(c, ws, es, n);
    RequestsDispatchedOnce(rs, |rs|, id);
    assert RequestServedOk(c, s, id);
    CountedOnce(s.requests.dispatched, id);
    var m :| 0 <= m < |s.requests.dispatched| && s.requests.dispatched[m].id == id;
  }

  lemma ServedGroup(c: Config, s: Service, id: RequestId, q: Request, ks: seq<Command>)
    requires ServiceOk(c, s) && PairOf(q) in s.router.pairs && Batch(c, s.router.pairs, id, q, ks)
    ensures exists p :: Pair(p, q.dHttp) in s.router.pairs
                        && ServedBy(c, PairOf(q), id, q.pDp, q.dDp, ks, Count(c, P, p))
    ensures SameCounts(c, s.router, q.dHttp) ==>
              ServedBy(c, PairOf(q), id, q.pDp, q.dDp, ks, Count(c, P, q.pHttp))
    ensures var z := c.sizes(P, q.pHttp);
            forall pp, tp :: 0 <= pp < z.pp && 0 <= tp < z.tp <==> InLayout(c, PairOf(q), (pp, tp))
  {
    var x := PairOf(q);
    assert PairOk(c, s.router, x);
    var p :| Pair(p, x.d) in s.router.pairs && ServedBy(c, x, id, q.pDp, q.dDp, ks, Count(c, P, p));
    assert Pair(x.p, x.d) in s.router.pairs;
    var z := c.sizes(P, x.p);
    forall pp, tp ensures 0 <= pp < z.pp && 0 <= tp < z.tp <==> InLayout(c, x, (pp, tp)) {
      ActiveBelow(Range(c.sizes(D, x.d).tp), z.tp, tp);
    }
  }

  /** Over every run in which each side reports a request at most once: while both threads run and the queue
      is empty, every matched request of a pair that is initialized by then has given each (pp, tp) rank of
      its prefill dp group exactly one command, with destinations by residue and the ranks of a
      communicator the decode instance had joined; with equal prefill counts, those sent for the pair. */
  lemma MatchedRequestsServed(c: Config, ws: seq<Service>, es: seq<Step>, n: nat, id: RequestId)
    requires IsRun(c, ws, es) && n <= |es| && OnceEach(RequestEvents(es, n))
    requires ws[n].alive && !ws[n].requests.failed && ws[n].requests.queue == []
    requires BothReported(RequestEvents(es, n), |RequestEvents(es, n)|, id)
    requires PairOf(KnownOf(es, n, id)) in ws[n].router.pairs
    ensures var q, ks := KnownOf(es, n, id), CommandsOf(ws[n].commands, id);
            && (exists p :: Pair(p, q.dHttp) in ws[n].router.pairs
                            && ServedBy(c, PairOf(q), id, q.pDp, q.dDp, ks, Count(c, P, p)))
            && (SameCounts(c, ws[n].router, q.dHttp) ==>
                  ServedBy(c, PairOf(q), id, q.pDp, q.dDp, ks, Count(c, P, q.pHttp)))
    ensures var q := KnownOf(es, n, id);
            var z := c.sizes(P, q.pHttp);
            forall pp, tp :: 0 <= pp < z.pp && 0 <= tp < z.tp <==> InLayout(c, PairOf(q), (pp, tp))
  {
    BatchOfRequest(c, ws, es, n, id);
    ServiceRunKeeps(c, ws, es, n);
    ServedGroup(c, ws[n], id, KnownOf(es, n, id), CommandsOf(ws[n].commands, id));
  }

  /** For an initialized pair the dispatcher outlives the request exactly when the decode instance has one pp stage
      and both dp ranks are in range. */
  lemma DispatcherSurvivesIff(c: Config, ws: seq<Service>, es: seq<Step>, n: nat)
    requires IsRun(c, ws, es) && n < |es| && es[n].Served?
    ensures ws[n].requests.queue != [] && Newest(ws[n].requests) in ws[n].requests.running
    ensures var q := ws[n].requests.running[Newest(ws[n].requests)];
            var zp, zd := c.sizes(P, q.pHttp), c.sizes(D, q.dHttp);
            PairOf(q) in ws[n].router.pairs ==>
              (ws[n + 1].alive <==> zd.pp == 1 && 0 <= q.dDp < zd.dp && 0 <= q.pDp < zp.dp)
  {
    var s := ws[n];
    assert CanStep(c, s, es[n], ws[n + 1]);
    ServiceRunKeeps(c, ws, es, n);
    var q := s.requests.running[Newest(s.requests)];
    var x := PairOf(q);
    if x in s.router.pairs {
      assert PairOk(c, s.router, x);
      LookupIff(c, s.router, x, q.dDp);
      if CacheFor(s.router, x, q.dDp).Some? { CanSendIff(c, s.router, x, q.dDp, q.pDp); }
    }
  }
}
