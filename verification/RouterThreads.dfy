/**
 The router's threads as they run: nested loops over instances and coordinates that send
 messages and fill tables in place. Each is proved to compute what RouterPairing says of it.
 */
module RouterThreads {
  import opened Common
  import opened RouterLayout
  import opened RouterRegistry
  import opened RouterPairing

  // ---------------------------------------------------------------- the triple loop

  /** The rank table filled up to `n` members. */
  function TableUpto(z: Sizes, base: int, n: int): map<Coord, int> {
    map x | x in Box(z) && RankOf(z, x) < n :: base + RankOf(z, x)
  }

  lemma NextMember(z: Sizes, base: int, x: Coord)
    requires InBox(z, x)
    ensures var n := RankOf(z, x);
            0 <= n < WorldSize(z) && Member(z, n) == x
                && TableUpto(z, base, n + 1) == TableUpto(z, base, n)[x := base + n]
  {
    BoxIsBox(z);
    var n := RankOf(z, x);
    MemberOfRank(z, x);
    forall y | InBox(z, y) && RankOf(z, y) == n ensures y == x {
      MemberOfRank(z, y);
    }
  }

  lemma TableEnds(z: Sizes, base: int)
    ensures TableUpto(z, base, 0) == map[]
    ensures TableUpto(z, base, WorldSize(z)) == RankTable(z, base)
  {
    BoxIsBox(z);
    forall y | InBox(z, y) ensures 0 <= RankOf(z, y) < WorldSize(z) {
      MemberOfRank(z, y);
    }
  }

  lemma RowsFollow(z: Sizes, dp: int, pp: int)
    ensures RowStart(z, dp, pp + 1) == RowStart(z, dp, pp) + z.tp
    ensures RowStart(z, dp + 1, 0) == RowStart(z, dp, z.pp)
    ensures RowStart(z, 0, 0) == 0 && RowStart(z, z.dp, 0) == WorldSize(z)
  {
    assert (dp * z.pp + pp + 1) * z.tp == (dp * z.pp + pp) * z.tp + z.tp;
    assert (dp + 1) * z.pp == dp * z.pp + z.pp;
  }

  /** The rank table after the messages: each records the rank it carries. */
  function Recorded(table: map<Coord, int>, sent: seq<Sent>): map<Coord, int> {
    if sent == [] then table
    else
      var e := sent[|sent| - 1];
      Recorded(table, sent[..|sent| - 1])[e.coord := e.rank]
  }

  /** If `tables` grows by what each message records, it is what the messages record. */
  lemma {:induction false} RecordedUpto(table: map<Coord, int>, all: seq<Sent>, tables: seq<map<Coord, int>>, n: nat)
    requires n <= |all| && |tables| == |all| + 1 && tables[0] == map[]
    requires forall k :: 0 <= k < |all| ==> Grown(all, tables, k)
    ensures Recorded(table, all[..n]) == table + tables[n]
  {
    if n == 0 {
      assert table + map[] == table;
    } else {
      RecordedUpto(table, all, tables, n - 1);
      assert Grown(all, tables, n - 1);
      assert all[..n][..n - 1] == all[..n - 1];
      Overlaid(table, tables[n - 1], all[n - 1].coord, all[n - 1].rank);
    }
  }

  predicate Grown(all: seq<Sent>, tables: seq<map<Coord, int>>, k: nat)
    requires k < |all| && |tables| == |all| + 1
  {
    tables[k + 1] == tables[k][all[k].coord := all[k].rank]
  }

  lemma Overlaid(table: map<Coord, int>, t: map<Coord, int>, x: Coord, v: int)
    ensures (table + t)[x := v] == table + t[x := v]
  {
  }

  /** Entry `k` records the number of its member. */
  lemma InitsNumber(pair: Pair, kind: Kind, i: Instance, id: nat, world: int, base: int, k: nat)
    requires Usable(i) && k < WorldSize(i.sizes)
    ensures var e := Inits(pair, kind, i, id, world, base)[k];
            TableUpto(i.sizes, base, k + 1) == TableUpto(i.sizes, base, k)[e.coord := e.rank]
  {
    RankOfMember(i.sizes, k);
    NextMember(i.sizes, base, Member(i.sizes, k));
  }

  lemma AllRecorded(pair: Pair, kind: Kind, i: Instance, id: nat, world: int, base: int, table: map<Coord, int>,
                    sent: seq<Sent>)
    requires Usable(i) && sent <= Inits(pair, kind, i, id, world, base) && |sent| == WorldSize(i.sizes)
    ensures sent == Inits(pair, kind, i, id, world, base)
    ensures Recorded(table, sent) == table + RankTable(i.sizes, base)
  {
    TableEnds(i.sizes, base);
    var tables := seq(|sent| + 1, n => TableUpto(i.sizes, base, n));
    forall k | 0 <= k < |sent| ensures Grown(sent, tables, k) {
      InitsNumber(pair, kind, i, id, world, base, k);
    }
    RecordedUpto(table, sent, tables, |sent|);
    assert sent[..|sent|] == sent;
  }

  /** The messages of row (dp, pp) stand in `all` from position `n` on. */
  predicate RowStands(all: seq<Sent>, pair: Pair, kind: Kind, i: Instance, id: nat, world: int, base: int,
                      dp: int, pp: int, n: int)
  {
    && 0 <= n && n + i.sizes.tp <= |all|
    && forall tp :: 0 <= tp < i.sizes.tp ==> StandsAt(all, pair, kind, i, id, world, base, Coord(dp, pp, tp), n + tp)
  }

  predicate StandsAt(all: seq<Sent>, pair: Pair, kind: Kind, i: Instance, id: nat, world: int, base: int, x: Coord,
                     k: int) {
    0 <= k < |all| && x in i.table && all[k] == Sent(pair, kind, x, i.table[x], id, world, base + k)
  }

  lemma InitsStand(pair: Pair, kind: Kind, i: Instance, id: nat, world: int, base: int, x: Coord)
    requires Usable(i) && InBox(i.sizes, x)
    ensures StandsAt(Inits(pair, kind, i, id, world, base), pair, kind, i, id, world, base, x, RankOf(i.sizes, x))
  {
    MemberOfRank(i.sizes, x);
    MemberListed(i, RankOf(i.sizes, x));
  }

  lemma InitsRow(pair: Pair, kind: Kind, i: Instance, id: nat, world: int, base: int, dp: int, pp: int)
    requires Usable(i) && 0 <= dp < i.sizes.dp && 0 <= pp < i.sizes.pp
    ensures RowStands(Inits(pair, kind, i, id, world, base), pair, kind, i, id, world, base, dp, pp,
              RowStart(i.sizes, dp, pp))
  {
    var n := RowStart(i.sizes, dp, pp);
    var all := Inits(pair, kind, i, id, world, base);
    forall tp | 0 <= tp < i.sizes.tp
      ensures StandsAt(all, pair, kind, i, id, world, base, Coord(dp, pp, tp), n + tp)
    {
      InitsStand(pair, kind, i, id, world, base, Coord(dp, pp, tp));
    }
    MemberOfRank(i.sizes, Coord(dp, pp, 0));
    MemberOfRank(i.sizes, Coord(dp, pp, i.sizes.tp - 1));
  }

  /** Send `comm_init` to the members of one instance, in the order of dp, pp and tp, and record their
      ranks: `rank` runs through the numbers from `base` on. */
  method InitMembers(pair: Pair, kind: Kind, i: Instance, id: nat, world: int, base: int, table: map<Coord, int>)
    returns (sent: seq<Sent>, ranks: map<Coord, int>, rank: int)
    requires Usable(i)
    ensures sent == Inits(pair, kind, i, id, world, base)
    ensures ranks == table + RankTable(i.sizes, base)
    ensures rank == base + WorldSize(i.sizes)
  {
    var z := i.sizes;
    ghost var all := Inits(pair, kind, i, id, world, base);
    RowsFollow(z, 0, 0);
    sent, ranks, rank := [], table, base;
    for dp := 0 to z.dp
      invariant |sent| == RowStart(z, dp, 0) && sent <= all && rank == base + |sent| && ranks == Recorded(table, sent)
    {
      sent, ranks, rank := InitReplica(pair, kind, i, id, world, base, table, dp, sent, ranks, rank);
    }
    RowsFollow(z, z.dp, 0);
    AllRecorded(pair, kind, i, id, world, base, table, sent);
  }

  /** The members of one dp replica. */
  method InitReplica(pair: Pair, kind: Kind, i: Instance, id: nat, world: int, base: int, ghost table: map<Coord, int>,
                     dp: int, sent0: seq<Sent>, ranks0: map<Coord, int>, rank0: int)
    returns (sent: seq<Sent>, ranks: map<Coord, int>, rank: int)
    requires Usable(i) && 0 <= dp < i.sizes.dp && |sent0| == RowStart(i.sizes, dp, 0)
    requires sent0 <= Inits(pair, kind, i, id, world, base) && rank0 == base + |sent0|
              && ranks0 == Recorded(table, sent0)
    ensures |sent| == RowStart(i.sizes, dp + 1, 0) && sent <= Inits(pair, kind, i, id, world, base)
    ensures rank == base + |sent| && ranks == Recorded(table, sent)
  {
    ghost var all := Inits(pair, kind, i, id, world, base);
    sent, ranks, rank := sent0, ranks0, rank0;
    for pp := 0 to i.sizes.pp
      invariant |sent| == RowStart(i.sizes, dp, pp) && sent <= all && rank == base + |sent|
                && ranks == Recorded(table, sent)
    {
      InitsRow(pair, kind, i, id, world, base, dp, pp);
      sent, ranks, rank := InitRow(pair, kind, i, id, world, base, table, all, dp, pp, sent, ranks, rank);
      RowsFollow(i.sizes, dp, pp);
    }
    RowsFollow(i.sizes, dp, 0);
  }

  /** The innermost loop. */
  method InitRow(pair: Pair, kind: Kind, i: Instance, id: nat, world: int, base: int, ghost table: map<Coord, int>,
                 ghost all: seq<Sent>, dp: int, pp: int, sent0: seq<Sent>, ranks0: map<Coord, int>, rank0: int)
    returns (sent: seq<Sent>, ranks: map<Coord, int>, rank: int)
    requires i.sizes.tp >= 0 && RowStands(all, pair, kind, i, id, world, base, dp, pp, |sent0|)
    requires sent0 <= all && rank0 == base + |sent0| && ranks0 == Recorded(table, sent0)
    ensures |sent| == |sent0| + i.sizes.tp && sent <= all && rank == base + |sent| && ranks == Recorded(table, sent)
  {
    sent, ranks, rank := sent0, ranks0, rank0;
    for tp := 0 to i.sizes.tp
      invariant |sent| == |sent0| + tp && sent <= all && rank == base + |sent| && ranks == Recorded(table, sent)
    {
      var x := Coord(dp, pp, tp);
      assert StandsAt(all, pair, kind, i, id, world, base, x, |sent0| + tp);
      ghost var before := sent;
      sent := sent + [Sent(pair, kind, x, i.table[x], id, world, rank)];
      assert sent[..|sent| - 1] == before;
      ranks := ranks[x := rank];
      rank := rank + 1;
    }
  }

  /** Both loops: the decode members are numbered after the prefill ones. */
  method InitPair(pair: Pair, i: Instance, j: Instance, id: nat, tableP: map<Coord, int>, tableD: map<Coord, int>)
    returns (sent: seq<Sent>, ranksP: map<Coord, int>, ranksD: map<Coord, int>)
    requires Usable(i) && Usable(j)
    ensures sent == Announcement(pair, i, j, id)
    ensures ranksP == tableP + RankTable(i.sizes, 0)
    ensures ranksD == tableD + RankTable(j.sizes, WorldSize(i.sizes))
  {
    var world := WorldSize(i.sizes) + WorldSize(j.sizes);
    var sentP, rank, sentD;
    sentP, ranksP, rank := InitMembers(pair, P, i, id, world, 0, tableP);
    assert rank == WorldSize(i.sizes);
    sentD, ranksD, rank := InitMembers(pair, D, j, id, world, rank, tableD);
    sent := sentP + sentD;
  }

  // ---------------------------------------------------------------- the pairing thread

  ghost predicate Pairable(r: Router, todo: seq<Pair>) {
    forall x :: x in todo ==> CanPair(r.prefill, r.decode, x.p, x.d)
  }

  /** The pairs do not depend on the lists. */
  function WithLists(r: Router, pendingP: seq<Addr>, pendingD: seq<Addr>, readyP: seq<Addr>,
                     readyD: seq<Addr>): Router {
    r.(pendingP := pendingP, pendingD := pendingD, readyP := readyP, readyD := readyD)
  }

  lemma PairUpLists(r: Router, x: Pair, a: seq<Addr>, b: seq<Addr>, p: seq<Addr>, d: seq<Addr>)
    requires CanPair(r.prefill, r.decode, x.p, x.d)
    ensures PairUp(WithLists(r, a, b, p, d), x.p, x.d) == WithLists(PairUp(r, x.p, x.d), a, b, p, d)
  {
  }

  lemma {:induction false} PairEachLists(r: Router, todo: seq<Pair>, a: seq<Addr>, b: seq<Addr>, p: seq<Addr>,
                                         d: seq<Addr>)
    requires Pairable(r, todo)
    ensures PairEach(WithLists(r, a, b, p, d), todo) == WithLists(PairEach(r, todo), a, b, p, d)
    decreases todo
  {
    if todo != [] {
      assert todo[0] in todo;
      PairUpLists(r, todo[0], a, b, p, d);
      PairEachLists(PairUp(r, todo[0].p, todo[0].d), todo[1..], a, b, p, d);
    }
  }

  lemma {:induction false} PairEachAppend(r: Router, s: seq<Pair>, t: seq<Pair>)
    requires Pairable(r, s + t)
    ensures Pairable(r, s) && PairEach(r, s + t) == PairEach(PairEach(r, s), t)
    decreases s
  {
    assert forall x :: x in s || x in t ==> x in s + t;
    if s == [] {
      assert s + t == t;
    } else {
      assert s[0] in s + t && (s + t)[1..] == s[1..] + t;
      PairEachAppend(PairUp(r, s[0].p, s[0].d), s[1..], t);
    }
  }

  // the two loops of the drain, one pending instance at a time

  ghost predicate CanDrainPrefill(r: Router) { Pairable(r, Rows(r.pendingP, r.readyD)) }

  ghost predicate CanDrainDecode(r: Router) { Pairable(r, Columns(r.readyP, r.pendingD)) }

  lemma RowPairable(r: Router, p: Addr)
    requires CanDrainPrefill(r) && r.pendingP != [] && p == r.pendingP[0]
    ensures Pairable(r, Row(p, r.readyD)) && Pairable(r, Rows(r.pendingP[1..], r.readyD))
  {
    assert Rows(r.pendingP, r.readyD) == Row(p, r.readyD) + Rows(r.pendingP[1..], r.readyD);
  }

  lemma ColumnPairable(r: Router, d: Addr)
    requires CanDrainDecode(r) && r.pendingD != [] && d == r.pendingD[0]
    ensures Pairable(r, Column(r.readyP, d)) && Pairable(r, Columns(r.readyP, r.pendingD[1..]))
  {
    assert Columns(r.readyP, r.pendingD) == Column(r.readyP, d) + Columns(r.readyP, r.pendingD[1..]);
  }

  /** The state after the first pending prefill instance. */
  ghost function PrefillTaken(r: Router): (v: Router)
    requires CanDrainPrefill(r) && r.pendingP != []
  {
    RowPairable(r, r.pendingP[0]);
    WithLists(PairEach(r, Row(r.pendingP[0], r.readyD)), r.pendingP[1..], r.pendingD, r.readyP + [r.pendingP[0]],
        r.readyD)
  }

  ghost function DecodeTaken(r: Router): (v: Router)
    requires CanDrainDecode(r) && r.pendingD != []
  {
    ColumnPairable(r, r.pendingD[0]);
    WithLists(PairEach(r, Column(r.readyP, r.pendingD[0])), r.pendingP, r.pendingD[1..], r.readyP,
        r.readyD + [r.pendingD[0]])
  }

  ghost function DrainPrefill(r: Router): (v: Router)
    requires CanDrainPrefill(r)
    decreases |r.pendingP|
  {
    if r.pendingP == [] then r
    else
      PrefillStep(r);
      DrainPrefill(PrefillTaken(r))
  }

  ghost function DrainDecode(r: Router): (v: Router)
    requires CanDrainDecode(r)
    decreases |r.pendingD|
  {
    if r.pendingD == [] then r
    else
      DecodeStep(r);
      DrainDecode(DecodeTaken(r))
  }

  lemma PrefillStep(r: Router)
    requires CanDrainPrefill(r) && r.pendingP != []
    ensures var v := PrefillTaken(r);
            && CanDrainPrefill(v)
            && PairEach(v, Rows(v.pendingP, v.readyD)) ==
               WithLists(PairEach(r, Rows(r.pendingP, r.readyD)), v.pendingP, v.pendingD, v.readyP, v.readyD)
  {
    var p, rest := r.pendingP[0], r.pendingP[1..];
    RowPairable(r, p);
    PairEachLists(PairEach(r, Row(p, r.readyD)), Rows(rest, r.readyD), rest, r.pendingD, r.readyP + [p], r.readyD);
    PairEachAppend(r, Row(p, r.readyD), Rows(rest, r.readyD));
  }

  lemma DecodeStep(r: Router)
    requires CanDrainDecode(r) && r.pendingD != []
    ensures var v := DecodeTaken(r);
            && CanDrainDecode(v)
            && PairEach(v, Columns(v.readyP, v.pendingD)) ==
               WithLists(PairEach(r, Columns(r.readyP, r.pendingD)), v.pendingP, v.pendingD, v.readyP, v.readyD)
  {
    var d, rest := r.pendingD[0], r.pendingD[1..];
    ColumnPairable(r, d);
    PairEachLists(PairEach(r, Column(r.readyP, d)), Columns(r.readyP, rest), r.pendingP, rest, r.readyP,
        r.readyD + [d]);
    PairEachAppend(r, Column(r.readyP, d), Columns(r.readyP, rest));
  }

  lemma {:induction false} DrainPrefillIs(r: Router)
    requires CanDrainPrefill(r)
    ensures DrainPrefill(r) ==
            WithLists(PairEach(r, Rows(r.pendingP, r.readyD)), [], r.pendingD, r.readyP + r.pendingP, r.readyD)
    decreases |r.pendingP|
  {
    if r.pendingP == [] {
      assert r.readyP + r.pendingP == r.readyP;
    } else {
      PrefillStep(r);
      DrainPrefillIs(PrefillTaken(r));
      assert r.readyP + [r.pendingP[0]] + r.pendingP[1..] == r.readyP + r.pendingP;
    }
  }

  lemma {:induction false} DrainDecodeIs(r: Router)
    requires CanDrainDecode(r)
    ensures DrainDecode(r) ==
            WithLists(PairEach(r, Columns(r.readyP, r.pendingD)), r.pendingP, [], r.readyP, r.readyD + r.pendingD)
    decreases |r.pendingD|
  {
    if r.pendingD == [] {
      assert r.readyD + r.pendingD == r.readyD;
    } else {
      DecodeStep(r);
      DrainDecodeIs(DecodeTaken(r));
      assert r.readyD + [r.pendingD[0]] + r.pendingD[1..] == r.readyD + r.pendingD;
    }
  }

  /** One instance at a time is the whole drain. */
  lemma DrainSplit(r: Router)
    requires CanDrain(r)
    ensures CanDrainPrefill(r) && CanDrainDecode(DrainPrefill(r)) && DrainDecode(DrainPrefill(r)) == Drain(r)
  {
    var rows, columns := Rows(r.pendingP, r.readyD), Columns(r.readyP + r.pendingP, r.pendingD);
    assert Todo(r) == rows + columns;
    assert forall x :: x in rows || x in columns ==> x in Todo(r);
    DrainPrefillIs(r);
    var m := DrainPrefill(r);
    DrainDecodeIs(m);
    PairEachAppend(r, rows, columns);
    PairEachLists(PairEach(r, rows), columns, [], r.pendingD, r.readyP + r.pendingP, r.readyD);
  }

  /** The tables the threads share. */
  class RouterState {
    var prefill: Registry
    var decode: Registry
    var pendingP: seq<Addr>
    var pendingD: seq<Addr>
    var readyP: seq<Addr>
    var readyD: seq<Addr>
    var pairs: map<Pair, nat>
    var ranksP: map<Addr, map<Coord, int>>
    var ranksD: map<Addr, map<Coord, int>>
    var nextId: nat
    var log: seq<Sent>
    var caches: map<(Pair, int), Cache>
    ghost var partners: map<(Pair, int), Option<Addr>>

    ghost function Value(): Router
      reads this
    {
      Router(prefill, decode, pendingP, pendingD, readyP, readyD, pairs, ranksP, ranksD, nextId, log, caches, partners)
    }

    constructor ()
      ensures Value() == START
    {
      prefill, decode, pendingP, pendingD, readyP, readyD := map[], map[], [], [], [], [];
      pairs, ranksP, ranksD, nextId, log, caches := map[], map[], map[], 0, [], map[];
      partners := map[];
    }

    /** One registration or init message, under the instance lock. */
    method Hear(m: Message)
      modifies this
      ensures Value() == RouterPairing.Hear(old(Value()), m)
    {
      var g := if m.kind.P? then prefill else decode;
      var appended := false;
      if m.Register? {
        if m.http !in g {
          g := g[m.http := Instance(NO_SIZES, map[])];
        }
        var i := g[m.http];
        i := i.(table := i.table[m.coord := m.zmq]);
        g := g[m.http := i];
        appended := IsReady(i);
      } else if m.http !in g {
        g := g[m.http := Instance(m.sizes, map[])];
      } else {
        var i := g[m.http].(sizes := m.sizes);
        g := g[m.http := i];
        appended := IsReady(i);
      }
      assert Listened(g, appended) == Listen(if m.kind.P? then old(prefill) else old(decode), m);
      if m.kind.P? {
        prefill := g;
        if appended { pendingP := pendingP + [m.http]; }
      } else {
        decode := g;
        if appended { pendingD := pendingD + [m.http]; }
      }
    }

    /** unique_id_dispatch. */
    method UniqueIdDispatch(p: Addr, d: Addr)
      requires CanPair(prefill, decode, p, d)
      modifies this
      ensures Value() == PairUp(old(Value()), p, d)
    {
      var pair := Pair(p, d);
      if pair in pairs { return; }
      var i, j := prefill[p], decode[d];
      var id := nextId;
      var sent, newP, newD := InitPair(pair, i, j, id, Ranks(ranksP, p), Ranks(ranksD, d));
      Install(pair, id, sent, newP, newD);
    }

    method Install(pair: Pair, id: nat, sent: seq<Sent>, newP: map<Coord, int>, newD: map<Coord, int>)
      modifies this
      ensures Value() == old(Value()).(
                pairs := old(pairs)[pair := id], nextId := old(nextId) + 1, log := old(log) + sent,
                ranksP := old(ranksP)[pair.p := newP], ranksD := old(ranksD)[pair.d := newD])
    {
      log := log + sent;
      ranksP := ranksP[pair.p := newP];
      ranksD := ranksD[pair.d := newD];
      pairs := pairs[pair := id];
      nextId := nextId + 1;
    }

    /** The inner loop of the drain. */
    method PairList(todo: seq<Pair>)
      requires Pairable(Value(), todo)
      modifies this
      ensures Value() == PairEach(old(Value()), todo)
    {
      ghost var r := Value();
      for k := 0 to |todo|
        invariant SameLists(r, Value()) && Pairable(Value(), todo[k..])
        invariant PairEach(Value(), todo[k..]) == PairEach(r, todo)
      {
        assert todo[k..][1..] == todo[k + 1..] && todo[k] in todo[k..];
        UniqueIdDispatch(todo[k].p, todo[k].d);
      }
    }

    /** Pair the first pending prefill instance with every ready decode one; it is then ready. */
    method TakePrefill()
      requires CanDrainPrefill(Value()) && pendingP != []
      modifies this
      ensures Value() == PrefillTaken(old(Value()))
    {
      var p := pendingP[0];
      RowPairable(Value(), p);
      PairList(Row(p, readyD));
      readyP := readyP + [p];
      pendingP := pendingP[1..];
    }

    method TakeDecode()
      requires CanDrainDecode(Value()) && pendingD != []
      modifies this
      ensures Value() == DecodeTaken(old(Value()))
    {
      var d := pendingD[0];
      ColumnPairable(Value(), d);
      PairList(Column(readyP, d));
      readyD := readyD + [d];
      pendingD := pendingD[1..];
    }

    method DrainPendingPrefill()
      requires CanDrainPrefill(Value())
      modifies this
      ensures Value() == DrainPrefill(old(Value())) && pendingP == []
    {
      ghost var r := Value();
      while pendingP != []
        invariant CanDrainPrefill(Value()) && DrainPrefill(Value()) == DrainPrefill(r)
        decreases |pendingP|
      {
        PrefillStep(Value());
        TakePrefill();
      }
    }

    method DrainPendingDecode()
      requires CanDrainDecode(Value())
      modifies this
      ensures Value() == DrainDecode(old(Value())) && pendingD == []
    {
      ghost var r := Value();
      while pendingD != []
        invariant CanDrainDecode(Value()) && DrainDecode(Value()) == DrainDecode(r)
        decreases |pendingD|
      {
        DecodeStep(Value());
        TakeDecode();
      }
    }

    /** The drain of pd_pair_init: the new prefill instances one by one, then the new decode ones. */
    method PairInit()
      requires CanDrain(Value())
      modifies this
      ensures Value() == Drain(old(Value()))
      ensures pendingP == [] && pendingD == []
    {
      DrainSplit(Value());
      DrainPendingPrefill();
      DrainPendingDecode();
    }
  }
}
