/**
 Dispatch of one request: the mapping from prefill tp ranks to decode tp ranks, and the commands sent
 to the ranks of the chosen prefill dp group.
 */
module RouterDispatch {
  import opened Common
  import opened RouterLayout
  import opened RouterRegistry
  import opened RouterPairing
  import opened RouterThreads
  import opened RouterRequests

  // ---------------------------------------------------------------- the mapping

  /** The mapping after the first `n` decode tp ranks. */
  function Built(m: int, n: nat, j: Instance, ranks: map<Coord, int>, ddp: int): Cache {
    MakeCache(m, j.(sizes := j.sizes.(tp := n)), ranks, ddp)
  }

  function Appended<T>(lists: map<int, seq<T>>, t: int, v: T): map<int, seq<T>> {
    lists[t := (if t in lists then lists[t] else []) + [v]]
  }

  lemma ActiveNext(m: int, n: nat)
    ensures Active(m, n + 1) == Active(m, n) + {Residue(n, m)}
  {
    forall t | t in Active(m, n + 1) ensures t in Active(m, n) + {Residue(n, m)} {
      var x: nat :| x < n + 1 && Residue(x, m) == t;
    }
  }

  lemma ListsNext(m: int, n: nat, j: Instance, ranks: map<Coord, int>, ddp: int, t: int)
    requires Coord(ddp, 0, n) in j.table && Coord(ddp, 0, n) in ranks
    ensures Addresses(j.table, ddp, Picks(n + 1, m, t)) ==
            Addresses(j.table, ddp, Picks(n, m, t)) + if Residue(n, m) == t then [j.table[Coord(ddp, 0, n)]] else []
    ensures CommRanks(ranks, ddp, Picks(n + 1, m, t)) ==
            CommRanks(ranks, ddp, Picks(n, m, t)) + if Residue(n, m) == t then [ranks[Coord(ddp, 0, n)]] else []
  {
  }

  lemma AddressesNext(m: int, n: nat, j: Instance, ranks: map<Coord, int>, ddp: int)
    requires Coord(ddp, 0, n) in j.table && Coord(ddp, 0, n) in ranks
    requires Active(m, n + 1) == Active(m, n) + {Residue(n, m)}
    ensures Built(m, n + 1, j, ranks, ddp).dst ==
            Appended(Built(m, n, j, ranks, ddp).dst, Residue(n, m), j.table[Coord(ddp, 0, n)])
  {
    var old', new' := Built(m, n, j, ranks, ddp).dst, Built(m, n + 1, j, ranks, ddp).dst;
    forall t | t in new' ensures new'[t] == Appended(old', Residue(n, m), j.table[Coord(ddp, 0, n)])[t] {
      ActiveHasPicks(n, m, t);
      ListsNext(m, n, j, ranks, ddp, t);
    }
  }

  lemma CommRanksNext(m: int, n: nat, j: Instance, ranks: map<Coord, int>, ddp: int)
    requires Coord(ddp, 0, n) in j.table && Coord(ddp, 0, n) in ranks
    requires Active(m, n + 1) == Active(m, n) + {Residue(n, m)}
    ensures Built(m, n + 1, j, ranks, ddp).comm ==
            Appended(Built(m, n, j, ranks, ddp).comm, Residue(n, m), ranks[Coord(ddp, 0, n)])
  {
    var old', new' := Built(m, n, j, ranks, ddp).comm, Built(m, n + 1, j, ranks, ddp).comm;
    forall t | t in new' ensures new'[t] == Appended(old', Residue(n, m), ranks[Coord(ddp, 0, n)])[t] {
      ActiveHasPicks(n, m, t);
      ListsNext(m, n, j, ranks, ddp, t);
    }
  }

  lemma BuiltNext(m: int, n: nat, j: Instance, ranks: map<Coord, int>, ddp: int)
    requires Coord(ddp, 0, n) in j.table && Coord(ddp, 0, n) in ranks
    ensures var b, x, t := Built(m, n, j, ranks, ddp), Coord(ddp, 0, n), Residue(n, m);
            Built(m, n + 1, j, ranks, ddp) ==
            Cache(Appended(b.dst, t, j.table[x]), Appended(b.comm, t, ranks[x]), b.active + {t})
  {
    ActiveNext(m, n);
    AddressesNext(m, n, j, ranks, ddp);
    CommRanksNext(m, n, j, ranks, ddp);
  }

  /** Prefill tp rank `t`, if there is a decode tp rank for it, sends to decode tp ranks `t`, `t + m`, `t + 2m` and
      so on: their addresses and communicator ranks, in this order. */
  ghost predicate Strided(m: int, j: Instance, ranks: map<Coord, int>, ddp: int, k: Cache)
    requires m > 0 && CanCache(m, j, ranks, ddp)
  {
    var n := j.sizes.tp;
    && (forall t :: t in k.active <==> 0 <= t < m && t < n)
    && k.dst.Keys == k.active && k.comm.Keys == k.active
    && (forall t :: t in k.active ==> |k.dst[t]| == |k.comm[t]| == (n - t + m - 1) / m)
    && (forall t, a :: t in k.active && 0 <= a < |k.dst[t]| ==>
          DestinationIs(j, ranks, ddp, t + a * m, k.dst[t][a], k.comm[t][a]))
  }

  predicate DestinationIs(j: Instance, ranks: map<Coord, int>, ddp: int, tp: int, address: Addr, rank: int) {
    var x := Coord(ddp, 0, tp);
    0 <= tp < j.sizes.tp && x in j.table && x in ranks && address == j.table[x] && rank == ranks[x]
  }

  lemma MappingStrided(m: int, j: Instance, ranks: map<Coord, int>, ddp: int)
    requires m > 0 && CanCache(m, j, ranks, ddp)
    ensures Strided(m, j, ranks, ddp, MakeCache(m, j, ranks, ddp))
  {
    var n, k := Range(j.sizes.tp), MakeCache(m, j, ranks, ddp);
    forall t ensures t in k.active <==> 0 <= t < m && t < n { ActiveBelow(n, m, t); }
    forall t | t in k.active ensures |k.dst[t]| == |k.comm[t]| == (n - t + m - 1) / m { PicksBalanced(n, m, t, t); }
    forall t, a | t in k.active && 0 <= a < |k.dst[t]|
      ensures DestinationIs(j, ranks, ddp, t + a * m, k.dst[t][a], k.comm[t][a])
    {
      var ts := Picks(n, m, t);
      PicksStrided(n, m, t);
      PicksPartition(n, m, t);
      assert ts[a] in ts && ts[a] == t + a * m;
    }
  }

  /** The loop over the decode tp ranks builds the mapping. */
  method BuildMapping(m: int, j: Instance, ranks: map<Coord, int>, ddp: int) returns (k: Cache)
    requires CanCache(m, j, ranks, ddp)
    ensures k == MakeCache(m, j, ranks, ddp)
    ensures m > 0 ==> Strided(m, j, ranks, ddp, k)
  {
    if m > 0 { MappingStrided(m, j, ranks, ddp); }
    var dst: map<int, seq<Addr>>, comm: map<int, seq<int>>, active: set<int> := map[], map[], {};
    assert Cache(dst, comm, active) == Built(m, 0, j, ranks, ddp);
    for n := 0 to Range(j.sizes.tp)
      invariant Cache(dst, comm, active) == Built(m, n, j, ranks, ddp)
    {
      assert Coord(ddp, 0, n) in j.table && Coord(ddp, 0, n) in ranks;
      BuiltNext(m, n, j, ranks, ddp);
      var t := Residue(n, m);
      active := active + {t};
      dst := Appended(dst, t, j.table[Coord(ddp, 0, n)]);
      comm := Appended(comm, t, ranks[Coord(ddp, 0, n)]);
    }
    k := Cache(dst, comm, active);
  }

  /** The first half of dispatch_to_P: look both instances up, require one pp stage, and take the
      cached mapping or make and keep one. */
  method FindMapping(s: RouterState, pair: Pair, ddp: int) returns (k: Option<Cache>)
    modifies s
    ensures k == CacheFor(old(s.Value()), pair, ddp)
    ensures s.Value() == RouterPairing.Next(old(s.Value()), RouterPairing.Dispatched(pair, ddp))
  {
    if pair.p !in s.prefill || pair.d !in s.decode || s.decode[pair.d].sizes.pp != 1 { return None; }
    ghost var q := PartnerFor(s.Value(), pair, ddp);
    var found;
    if (pair, ddp) in s.caches {
      found := s.caches[(pair, ddp)];
    } else {
      var m, j, ranks := s.prefill[pair.p].sizes.tp, s.decode[pair.d], Ranks(s.ranksD, pair.d);
      if !CanCache(m, j, ranks, ddp) { return None; }
      found := BuildMapping(m, j, ranks, ddp);
    }
    s.caches := s.caches[(pair, ddp) := found];
    s.partners := s.partners[(pair, ddp) := q];
    k := Some(found);
  }

  /** Every decode tp rank is a destination of exactly one prefill tp rank, once. */
  lemma DestinationsPartition(n: nat, m: int, x: nat)
    requires x < n
    ensures Residue(x, m) in Active(m, n)
    ensures forall t :: x in Picks(n, m, t) <==> t == Residue(x, m)
    ensures exists a :: IsAt(Picks(n, m, Residue(x, m)), a, x)
                        && forall b :: IsAt(Picks(n, m, Residue(x, m)), b, x) ==> b == a
  {
    forall t ensures x in Picks(n, m, t) <==> t == Residue(x, m) { PicksPartition(n, m, t); }
    PicksPartition(n, m, Residue(x, m));
    var ts := Picks(n, m, Residue(x, m));
    assert x in ts;
    var a :| 0 <= a < |ts| && ts[a] == x;
    assert IsAt(ts, a, x);
  }

  predicate IsAt(ts: seq<int>, a: int, x: int) { 0 <= a < |ts| && ts[a] == x }

  // ---------------------------------------------------------------- the commands

  datatype Command =
    | Transfer(coord: Coord, to: Addr, request: RequestId, pair: Pair,
               dstNum: nat, addresses: seq<Addr>, ranks: seq<int>)
    | NoTransfer(coord: Coord, to: Addr, request: RequestId)

  predicate Shaped(k: Cache) { k.dst.Keys == k.active && k.comm.Keys == k.active }

  /** The (pp, tp) ranks that the loops address. */
  predicate InGroup(i: Instance, k: Cache, s: (int, int)) {
    0 <= s.0 < i.sizes.pp && (s.1 in k.active || 0 <= s.1 < i.sizes.tp)
  }

  predicate Listed(i: Instance, pdp: int, s: (int, int)) { Coord(pdp, s.0, s.1) in i.table }

  /** Every address the loops look up is there. */
  ghost predicate AllListed(i: Instance, pdp: int, k: Cache) {
    forall s :: InGroup(i, k, s) ==> Listed(i, pdp, s)
  }

  /** The command for rank (pp, tp) of the group. */
  function CommandFor(i: Instance, pdp: int, k: Cache, id: RequestId, pair: Pair, s: (int, int)): Command
    requires Shaped(k) && Listed(i, pdp, s)
  {
    var x := Coord(pdp, s.0, s.1);
    if s.1 in k.active then Transfer(x, i.table[x], id, pair, |k.dst[s.1]|, k.dst[s.1], k.comm[s.1])
    else NoTransfer(x, i.table[x], id)
  }

  function Place(c: Command): (int, int) { (c.coord.pp, c.coord.tp) }

  /** The command is the right one for its rank. */
  ghost predicate IsRight(i: Instance, pdp: int, k: Cache, id: RequestId, pair: Pair, c: Command)
    requires Shaped(k)
  {
    InGroup(i, k, Place(c)) && Listed(i, pdp, Place(c)) && c == CommandFor(i, pdp, k, id, pair, Place(c))
  }

  /** `out` holds the right command for each rank of `done`, once, and nothing else. */
  ghost predicate OneEach(i: Instance, pdp: int, k: Cache, id: RequestId, pair: Pair,
                          out: seq<Command>, done: set<(int, int)>)
    requires Shaped(k)
  {
    && (forall n :: 0 <= n < |out| ==> Place(out[n]) in done && IsRight(i, pdp, k, id, pair, out[n]))
    && (forall s :: s in done ==> Listed(i, pdp, s) && CommandFor(i, pdp, k, id, pair, s) in out)
    && forall a, b :: 0 <= a < b < |out| ==> Place(out[a]) != Place(out[b])
  }

  lemma OneMore(i: Instance, pdp: int, k: Cache, id: RequestId, pair: Pair,
                out: seq<Command>, done: set<(int, int)>, s: (int, int))
    requires Shaped(k) && OneEach(i, pdp, k, id, pair, out, done)
    requires InGroup(i, k, s) && Listed(i, pdp, s) && s !in done
    ensures OneEach(i, pdp, k, id, pair, out + [CommandFor(i, pdp, k, id, pair, s)], done + {s})
  {
    var out' := out + [CommandFor(i, pdp, k, id, pair, s)];
    assert out'[|out|] in out';
    forall x | x in done ensures CommandFor(i, pdp, k, id, pair, x) in out' {
      assert CommandFor(i, pdp, k, id, pair, x) in out;
    }
  }

  /** The next element of a set, in no particular order. */
  method Any(s: set<int>) returns (t: int)
    requires s != {}
    ensures t in s
  {
    NotEmpty(s);
    t :| t in s;
  }

  lemma NotEmpty(s: set<int>)
    ensures s == {} || exists t :: t in s
  {
    if forall t :: t !in s { assert s == {}; }
  }

  /** The first loops: every pp stage, and in each the active tp ranks in any order. A missing address
      ends them. */
  method SendTransfers(i: Instance, pdp: int, k: Cache, id: RequestId, pair: Pair)
    returns (out: seq<Command>, ok: bool, ghost done: set<(int, int)>)
    requires Shaped(k)
    ensures OneEach(i, pdp, k, id, pair, out, done)
    ensures ok ==> forall s :: s in done <==> InGroup(i, k, s) && s.1 in k.active
    ensures !ok ==> !AllListed(i, pdp, k)
  {
    out, done := [], {};
    for pp := 0 to Range(i.sizes.pp)
      invariant OneEach(i, pdp, k, id, pair, out, done)
      invariant forall s :: s in done <==> InGroup(i, k, s) && s.1 in k.active && s.0 < pp
    {
      var todo := k.active;
      while todo != {}
        invariant todo <= k.active && OneEach(i, pdp, k, id, pair, out, done)
        invariant forall s :: s in done <==>
                    InGroup(i, k, s) && s.1 in k.active && (s.0 < pp || (s.0 == pp && s.1 !in todo))
        decreases |todo|
      {
        var tp := Any(todo);
        var x := Coord(pdp, pp, tp);
        assert InGroup(i, k, (pp, tp));
        if x !in i.table {
          assert !Listed(i, pdp, (pp, tp));
          ok := false;
          return;
        }
        OneMore(i, pdp, k, id, pair, out, done, (pp, tp));
        out := out + [Transfer(x, i.table[x], id, pair, |k.dst[tp]|, k.dst[tp], k.comm[tp])];
        done := done + {(pp, tp)};
        todo := todo - {tp};
      }
    }
    ok := true;
  }

  /** The last loops: the other tp ranks are told that they have nothing to send. */
  method SendNothing(i: Instance, pdp: int, k: Cache, id: RequestId, pair: Pair,
                     out0: seq<Command>, ghost done0: set<(int, int)>)
    returns (out: seq<Command>, ok: bool, ghost done: set<(int, int)>)
    requires Shaped(k) && OneEach(i, pdp, k, id, pair, out0, done0)
    requires forall s :: s in done0 <==> InGroup(i, k, s) && s.1 in k.active
    ensures OneEach(i, pdp, k, id, pair, out, done)
    ensures ok ==> forall s :: s in done <==> InGroup(i, k, s)
    ensures !ok ==> !AllListed(i, pdp, k)
  {
    out, done := out0, done0;
    for tp := 0 to Range(i.sizes.tp)
      invariant OneEach(i, pdp, k, id, pair, out, done)
      invariant forall s :: s in done <==> InGroup(i, k, s) && (s.1 in k.active || s.1 < tp)
    {
      if tp !in k.active {
        for pp := 0 to Range(i.sizes.pp)
          invariant OneEach(i, pdp, k, id, pair, out, done)
          invariant forall s :: s in done <==>
                      InGroup(i, k, s) && (s.1 in k.active || s.1 < tp || (s.1 == tp && s.0 < pp))
        {
          var x := Coord(pdp, pp, tp);
          assert InGroup(i, k, (pp, tp));
          if x !in i.table {
            assert !Listed(i, pdp, (pp, tp));
            ok := false;
            return;
          }
          OneMore(i, pdp, k, id, pair, out, done, (pp, tp));
          out := out + [NoTransfer(x, i.table[x], id)];
          done := done + {(pp, tp)};
        }
      }
    }
    ok := true;
  }

  /** Every command is right for its rank, and no rank gets two. */
  ghost predicate Sound(i: Instance, pdp: int, k: Cache, id: RequestId, pair: Pair, out: seq<Command>)
    requires Shaped(k)
  {
    && (forall n :: 0 <= n < |out| ==> IsRight(i, pdp, k, id, pair, out[n]))
    && forall a, b :: 0 <= a < b < |out| ==> Place(out[a]) != Place(out[b])
  }

  /** Every rank of the group gets its command. */
  ghost predicate Serves(i: Instance, pdp: int, k: Cache, id: RequestId, pair: Pair, out: seq<Command>)
    requires Shaped(k)
  {
    forall s :: InGroup(i, k, s) ==> Listed(i, pdp, s) && CommandFor(i, pdp, k, id, pair, s) in out
  }

  /** The second half of dispatch_to_P. It fails exactly when an address of the group is missing; what it sends
      is right and at most one per rank, and unless it fails, each (pp, tp) rank of the chosen dp group
      gets exactly one command: the transfer to its destinations, or the word that there is none. */
  method DispatchToP(i: Instance, pdp: int, k: Cache, id: RequestId, pair: Pair)
    returns (out: seq<Command>, ok: bool)
    requires Shaped(k)
    ensures ok <==> AllListed(i, pdp, k)
    ensures Sound(i, pdp, k, id, pair, out)
    ensures ok ==> Serves(i, pdp, k, id, pair, out)
  {
    ghost var done;
    out, ok, done := SendTransfers(i, pdp, k, id, pair);
    if ok {
      out, ok, done := SendNothing(i, pdp, k, id, pair, out, done);
    }
  }

  // ---------------------------------------------------------------- dispatch in a reachable state

  /** The group of an instance with positive sizes is its box. */
  lemma GroupIsBox(c: Config, i: Instance, k: Cache, x: Pair, ddp: int, base: int, s: (int, int))
    requires Positive(i.sizes) && i.sizes == c.sizes(P, x.p) && CacheFrom(c, x, ddp, k, base)
    ensures InGroup(i, k, s) <==> 0 <= s.0 < i.sizes.pp && 0 <= s.1 < i.sizes.tp
  {
    ActiveBelow(Range(c.sizes(D, x.d).tp), i.sizes.tp, s.1);
  }

  /** For an initialized pair with a mapping, the commands can be sent exactly when the prefill dp rank is in
      range. */
  lemma SendingSucceedsIff(c: Config, es: seq<RouterPairing.Event>, v: Router, x: Pair, ddp: int, pdp: int)
    requires Reaches(c, RouterPairing.START, es, v) && x in v.pairs && CacheFor(v, x, ddp).Some?
    ensures x.p in v.prefill && Shaped(CacheFor(v, x, ddp).value)
    ensures AllListed(v.prefill[x.p], pdp, CacheFor(v, x, ddp).value) <==> 0 <= pdp < c.sizes(P, x.p).dp
  {
    StartOk(c);
    RouterPairing.RunKeeps(c, RouterPairing.START, es, v);
    CanSendIff(c, v, x, ddp, pdp);
  }

  lemma CanSendIff(c: Config, v: Router, x: Pair, ddp: int, pdp: int)
    requires RouterOk(c, v) && x in v.pairs && CacheFor(v, x, ddp).Some?
    ensures x.p in v.prefill && Shaped(CacheFor(v, x, ddp).value)
    ensures AllListed(v.prefill[x.p], pdp, CacheFor(v, x, ddp).value) <==> 0 <= pdp < c.sizes(P, x.p).dp
  {
    assert PairOk(c, v, x);
    CacheForOk(c, v, x, ddp);
    var q := PartnerFor(v, x, ddp);
    ListedIff(c, v.prefill[x.p], CacheFor(v, x, ddp).value, x, ddp, pdp, Count(c, P, q.value));
  }

  lemma ListedIff(c: Config, i: Instance, k: Cache, x: Pair, ddp: int, pdp: int, base: int)
    requires Positive(i.sizes) && i.sizes == c.sizes(P, x.p) && i.table.Keys == Box(i.sizes)
    requires CacheFrom(c, x, ddp, k, base)
    ensures AllListed(i, pdp, k) <==> 0 <= pdp < i.sizes.dp
  {
    BoxIsBox(i.sizes);
    forall s ensures InGroup(i, k, s) <==> 0 <= s.0 < i.sizes.pp && 0 <= s.1 < i.sizes.tp {
      GroupIsBox(c, i, k, x, ddp, base, s);
    }
    forall s ensures Listed(i, pdp, s) <==> InBox(i.sizes, Coord(pdp, s.0, s.1)) {
      assert Coord(pdp, s.0, s.1) in i.table <==> Coord(pdp, s.0, s.1) in i.table.Keys;
    }
    if AllListed(i, pdp, k) {
      assert InGroup(i, k, (0, 0));
      assert Listed(i, pdp, (0, 0));
    }
  }

  /** Destination `n` of a transfer by prefill tp rank `t`. */
  predicate DestinationOk(c: Config, x: Pair, ddp: int, t: int, command: Command, n: int) {
    var ts := Picks(Range(c.sizes(D, x.d).tp), c.sizes(P, x.p).tp, t);
    && command.Transfer?
    && command.dstNum == |command.addresses| == |command.ranks| == |ts|
    && (0 <= n < |ts| ==>
          var member := Coord(ddp, 0, ts[n]);
          c.owns(D, x.d, member, command.addresses[n]) && command.ranks[n] == PairRank(c, x, D, member))
  }

  ghost predicate AllDestinationsOk(c: Config, i: Instance, pdp: int, k: Cache, id: RequestId, x: Pair, ddp: int)
    requires Shaped(k)
  {
    forall s, n :: InGroup(i, k, s) && s.1 in k.active && Listed(i, pdp, s) ==>
      DestinationOk(c, x, ddp, s.1, CommandFor(i, pdp, k, id, x, s), n)
  }

  /** In every reachable state, for an initialized pair with a mapping and a prefill dp rank in range, the commands
      name, for each decode tp rank of a residue in order, an address of that member and the rank sent
      to it for this pair, exactly when the last partner of the decode instance, as the mapping was
      made, had as many ranks as the prefill instance of the pair. */
  lemma ReachableDispatch(c: Config, es: seq<RouterPairing.Event>, v: Router, x: Pair, ddp: int, pdp: int,
                          id: RequestId)
    requires Reaches(c, RouterPairing.START, es, v) && x in v.pairs && CacheFor(v, x, ddp).Some?
    requires 0 <= pdp < c.sizes(P, x.p).dp
    ensures x.p in v.prefill && Shaped(CacheFor(v, x, ddp).value) && PartnerFor(v, x, ddp).Some?
    ensures AllDestinationsOk(c, v.prefill[x.p], pdp, CacheFor(v, x, ddp).value, id, x, ddp) <==>
            Count(c, P, PartnerFor(v, x, ddp).value) == Count(c, P, x.p)
  {
    SendingSucceedsIff(c, es, v, x, ddp, pdp);
    StartOk(c);
    RouterPairing.RunKeeps(c, RouterPairing.START, es, v);
    assert PairOk(c, v, x);
    CacheForOk(c, v, x, ddp);
    var k, q, i := CacheFor(v, x, ddp).value, PartnerFor(v, x, ddp), v.prefill[x.p];
    CommandsOkIff(c, i, pdp, k, id, x, ddp, Count(c, P, q.value));
  }

  lemma CommandsOkIff(c: Config, i: Instance, pdp: int, k: Cache, id: RequestId, x: Pair, ddp: int, base: int)
    requires CacheFrom(c, x, ddp, k, base) && c.sizes(D, x.d).tp > 0 && i.sizes.pp > 0 && AllListed(i, pdp, k)
    ensures AllDestinationsOk(c, i, pdp, k, id, x, ddp) <==> base == Count(c, P, x.p)
  {
    if base == Count(c, P, x.p) {
      forall s, n | InGroup(i, k, s) && s.1 in k.active && Listed(i, pdp, s)
        ensures DestinationOk(c, x, ddp, s.1, CommandFor(i, pdp, k, id, x, s), n)
      {
        CommandDestination(c, i, pdp, k, id, x, ddp, s, n);
      }
    }
    if AllDestinationsOk(c, i, pdp, k, id, x, ddp) {
      var m, n := c.sizes(P, x.p).tp, c.sizes(D, x.d).tp;
      var t := Residue(0, m);
      assert t in Active(m, n);
      ActiveHasPicks(n, m, t);
      assert ListFrom(c, x.d, ddp, Picks(n, m, t), k.dst[t], k.comm[t], base);
      assert InGroup(i, k, (0, t)) && Listed(i, pdp, (0, t));
      assert DestinationOk(c, x, ddp, t, CommandFor(i, pdp, k, id, x, (0, t)), 0);
    }
  }

  lemma CommandDestination(c: Config, i: Instance, pdp: int, k: Cache, id: RequestId, x: Pair, ddp: int,
                           s: (int, int), n: int)
    requires Shaped(k) && s.1 in k.active && Listed(i, pdp, s)
    requires CacheFrom(c, x, ddp, k, Count(c, P, x.p))
    ensures DestinationOk(c, x, ddp, s.1, CommandFor(i, pdp, k, id, x, s), n)
  {
    var m, z := c.sizes(P, x.p).tp, c.sizes(D, x.d);
    assert ListFrom(c, x.d, ddp, Picks(Range(z.tp), m, s.1), k.dst[s.1], k.comm[s.1], Count(c, P, x.p));
  }
}
