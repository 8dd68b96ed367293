/**
 Pairing of prefill and decode instances. The listener appends complete instances to the pending
 lists; the pairing thread drains both lists under the instance lock, and gives every new
 (prefill, decode) pair one communicator id and its members their ranks. The dispatcher caches, per
 pair and decode dp rank, where each prefill tp rank sends its part.
 */
module RouterPairing {
  import opened Arithmetic
  import opened Common
  import opened RouterLayout
  import opened RouterRegistry

  datatype Pair = Pair(p: Addr, d: Addr)

  /** A `comm_init` message. */
  datatype Sent = Sent(pair: Pair, kind: Kind, coord: Coord, to: Addr, id: nat, world: int, rank: int)

  /** What the dispatcher keeps for a pair and a decode dp rank: per active prefill tp rank, the
      addresses and the communicator ranks of its destinations. */
  datatype Cache = Cache(dst: map<int, seq<Addr>>, comm: map<int, seq<int>>, active: set<int>)

  /** The shared tables, the messages sent, and one piece of history: for each cached mapping, the prefill
      instance the decode instance was last paired with when the mapping was made. */
  datatype Router = Router(
    prefill: Registry, decode: Registry,
    pendingP: seq<Addr>, pendingD: seq<Addr>, readyP: seq<Addr>, readyD: seq<Addr>,
    pairs: map<Pair, nat>, ranksP: map<Addr, map<Coord, int>>, ranksD: map<Addr, map<Coord, int>>,
    nextId: nat, log: seq<Sent>, caches: map<(Pair, int), Cache>, partners: map<(Pair, int), Option<Addr>>)

  const START := Router(map[], map[], [], [], [], [], map[], map[], map[], 0, [], map[], map[])

  // ---------------------------------------------------------------- unique_id_dispatch

  /** Every coordinate can be read. */
  predicate Usable(i: Instance) {
    Positive(i.sizes) && WorldSize(i.sizes) >= 0 && Box(i.sizes) <= i.table.Keys
  }

  lemma MemberListed(i: Instance, k: int)
    requires Usable(i) && 0 <= k < WorldSize(i.sizes)
    ensures Member(i.sizes, k) in i.table
  {
    RankOfMember(i.sizes, k);
    BoxIsBox(i.sizes);
  }

  /** The messages to the members of one instance, ranks counted from `base`. */
  function Inits(pair: Pair, kind: Kind, i: Instance, id: nat, world: int, base: int): (es: seq<Sent>)
    requires Usable(i)
    ensures |es| == WorldSize(i.sizes)
  {
    seq(WorldSize(i.sizes), k requires 0 <= k < WorldSize(i.sizes) => InitAt(pair, kind, i, id, world, base, k))
  }

  function InitAt(pair: Pair, kind: Kind, i: Instance, id: nat, world: int, base: int, k: int): Sent
    requires Usable(i) && 0 <= k < WorldSize(i.sizes)
  {
    MemberListed(i, k);
    var x := Member(i.sizes, k);
    Sent(pair, kind, x, i.table[x], id, world, base + k)
  }

  function Announcement(pair: Pair, i: Instance, j: Instance, id: nat): seq<Sent>
    requires Usable(i) && Usable(j)
  {
    var n := WorldSize(i.sizes);
    var world := n + WorldSize(j.sizes);
    Inits(pair, P, i, id, world, 0) + Inits(pair, D, j, id, world, n)
  }

  /** The communicator ranks of an instance, counted from `base`. */
  function RankTable(z: Sizes, base: int): map<Coord, int> {
    map x | x in Box(z) :: base + RankOf(z, x)
  }

  function Ranks(ranks: map<Addr, map<Coord, int>>, a: Addr): map<Coord, int> {
    if a in ranks then ranks[a] else map[]
  }

  predicate CanPair(prefill: Registry, decode: Registry, p: Addr, d: Addr) {
    p in prefill && d in decode && Usable(prefill[p]) && Usable(decode[d])
  }

  /** Two states that agree on everything but the pairs. */
  predicate SameLists(r: Router, r': Router) {
    && r'.prefill == r.prefill && r'.decode == r.decode && r'.caches == r.caches && r'.partners == r.partners
    && r'.pendingP == r.pendingP && r'.pendingD == r.pendingD && r'.readyP == r.readyP && r'.readyD == r.readyD
  }

  /** Give a new pair its id; a pair that has one is left alone. */
  function PairUp(r: Router, p: Addr, d: Addr): (r': Router)
    requires CanPair(r.prefill, r.decode, p, d)
    ensures SameLists(r, r')
  {
    if Pair(p, d) in r.pairs then r
    else
      var i, j := r.prefill[p], r.decode[d];
      r.(pairs := r.pairs[Pair(p, d) := r.nextId], nextId := r.nextId + 1,
         log := r.log + Announcement(Pair(p, d), i, j, r.nextId),
         ranksP := r.ranksP[p := Ranks(r.ranksP, p) + RankTable(i.sizes, 0)],
         ranksD := r.ranksD[d := Ranks(r.ranksD, d) + RankTable(j.sizes, WorldSize(i.sizes))])
  }

  // ---------------------------------------------------------------- pd_pair_init

  /** Pair up the listed couples, in order. */
  function PairEach(r: Router, todo: seq<Pair>): (r': Router)
    requires forall x :: x in todo ==> CanPair(r.prefill, r.decode, x.p, x.d)
    ensures SameLists(r, r')
    decreases todo
  {
    if todo == [] then r
    else
      assert todo[0] in todo;
      PairEach(PairUp(r, todo[0].p, todo[0].d), todo[1..])
  }

  function Row(p: Addr, ds: seq<Addr>): seq<Pair> { seq(|ds|, k requires 0 <= k < |ds| => Pair(p, ds[k])) }

  function Column(ps: seq<Addr>, d: Addr): seq<Pair> { seq(|ps|, k requires 0 <= k < |ps| => Pair(ps[k], d)) }

  function Rows(ps: seq<Addr>, ds: seq<Addr>): seq<Pair> {
    if ps == [] then [] else Row(ps[0], ds) + Rows(ps[1..], ds)
  }

  function Columns(ps: seq<Addr>, ds: seq<Addr>): seq<Pair> {
    if ds == [] then [] else Column(ps, ds[0]) + Columns(ps, ds[1..])
  }

  lemma {:induction false} InRows(ps: seq<Addr>, ds: seq<Addr>, x: Pair)
    ensures x in Rows(ps, ds) <==> x.p in ps && x.d in ds
    decreases ps
  {
    if ps != [] {
      InRows(ps[1..], ds, x);
      var row := Row(ps[0], ds);
      if x.p == ps[0] && x.d in ds {
        var k :| 0 <= k < |ds| && ds[k] == x.d;
        assert row[k] == x;
      }
      assert ps == [ps[0]] + ps[1..];
    }
  }

  lemma {:induction false} InColumns(ps: seq<Addr>, ds: seq<Addr>, x: Pair)
    ensures x in Columns(ps, ds) <==> x.p in ps && x.d in ds
    decreases ds
  {
    if ds != [] {
      InColumns(ps, ds[1..], x);
      var column := Column(ps, ds[0]);
      if x.d == ds[0] && x.p in ps {
        var k :| 0 <= k < |ps| && ps[k] == x.p;
        assert column[k] == x;
      }
      assert ds == [ds[0]] + ds[1..];
    }
  }

  /** The couples of one drain, in the order they are tried: new prefill instances against the ready
      decode ones, then new decode instances against all prefill ones. */
  function Todo(r: Router): seq<Pair> {
    Rows(r.pendingP, r.readyD) + Columns(r.readyP + r.pendingP, r.pendingD)
  }

  /** Every address the drain looks up is known and complete. */
  ghost predicate CanDrain(r: Router) {
    forall x :: x in Todo(r) ==> CanPair(r.prefill, r.decode, x.p, x.d)
  }

  function Drain(r: Router): Router
    requires CanDrain(r)
  {
    PairEach(r, Todo(r)).(
      pendingP := [], readyP := r.readyP + r.pendingP, pendingD := [], readyD := r.readyD + r.pendingD)
  }

  // ---------------------------------------------------------------- dispatch caches

  /** The remainder with the sign of the divisor; a zero divisor is never used. */
  function Residue(x: int, m: int): int {
    if m > 0 then x % m else if m < 0 then -((-x) % (-m)) else 0
  }

  /** The decode tp ranks below `n` that prefill tp rank `t` of `m` serves, in order. */
  function Picks(n: nat, m: int, t: int): seq<int> {
    if n == 0 then [] else Picks(n - 1, m, t) + if Residue(n - 1, m) == t then [n - 1] else []
  }

  /** The destinations of a tp rank are the decode tp ranks of its residue, ascending. */
  lemma {:induction false} PicksPartition(n: nat, m: int, t: int)
    ensures forall x :: x in Picks(n, m, t) <==> 0 <= x < n && Residue(x, m) == t
    ensures forall a, b :: 0 <= a < b < |Picks(n, m, t)| ==> Picks(n, m, t)[a] < Picks(n, m, t)[b]
  {
    if n > 0 {
      PicksPartition(n - 1, m, t);
      var rest := Picks(n - 1, m, t);
      assert forall a :: 0 <= a < |rest| ==> rest[a] in rest;
    }
  }

  /** The destinations of tp rank `t` are `t`, `t + m`, `t + 2m` and so on, as far as there are decode tp ranks. */
  lemma {:induction false} PicksStrided(n: nat, m: int, t: int)
    requires 0 <= t < m
    ensures forall a :: 0 <= a < |Picks(n, m, t)| ==> Picks(n, m, t)[a] == t + a * m
    ensures n <= t + |Picks(n, m, t)| * m
    ensures Picks(n, m, t) != [] ==> t + (|Picks(n, m, t)| - 1) * m < n
  {
    if n > 0 {
      PicksStrided(n - 1, m, t);
      PicksNext(n - 1, m, t, |Picks(n - 1, m, t)|);
    }
  }

  /** The next decode tp rank belongs to `t` exactly when it is its next multiple. */
  lemma PicksNext(n: nat, m: int, t: int, c: nat)
    requires 0 <= t < m && n <= t + c * m && (c > 0 ==> t + (c - 1) * m < n)
    ensures n % m == t <==> n == t + c * m
    ensures t + (c + 1) * m == t + c * m + m
  {
    assert (c + 1) * m == c * m + m;
    if n == t + c * m { DivModUnique(n, c, t, m); }
    if n % m == t {
      var q := n / m;
      assert n == q * m + t;
      if q < c { MulOrdered(q, c - 1, m); } else if q > c { MulGap(c, q, m); }
    }
  }

  /** Hence the number of destinations, and that any two tp ranks differ by at most one. */
  lemma PicksBalanced(n: nat, m: int, t: int, u: int)
    requires 0 <= t < m && 0 <= u < m
    ensures |Picks(n, m, t)| == if t < n then (n - t + m - 1) / m else 0
    ensures -1 <= |Picks(n, m, t)| - |Picks(n, m, u)| <= 1
  {
    var c, d := |Picks(n, m, t)|, |Picks(n, m, u)|;
    PicksStrided(n, m, t);
    PicksStrided(n, m, u);
    CountIs(n, m, t, c);
    CountsClose(n, m, t, u, c, d);
    CountsClose(n, m, u, t, d, c);
  }

  lemma CountIs(n: nat, m: int, t: int, c: nat)
    requires 0 <= t < m && n <= t + c * m && (c > 0 ==> t + (c - 1) * m < n)
    ensures c == if t < n then (n - t + m - 1) / m else 0
  {
    if t < n {
      assert c > 0;
      assert (c - 1) * m == c * m - m;
      DivModUnique(n - t + m - 1, c, n - t + m - 1 - c * m, m);
    } else if c > 0 {
      MulOrdered(0, c - 1, m);
    }
  }

  lemma CountsClose(n: nat, m: int, t: int, u: int, c: nat, d: nat)
    requires 0 <= t < m && 0 <= u < m && n <= t + c * m && (d > 0 ==> u + (d - 1) * m < n)
    ensures d <= c + 1
  {
    if d > c + 1 {
      MulGap(c, d - 1, m);
    }
  }

  /** For any divisor but zero the remainder lies between zero and the divisor, a multiple away from the dividend. */
  lemma ResidueIsRemainder(x: int, m: int) returns (q: int)
    requires m != 0
    ensures x == q * m + Residue(x, m) && (if m > 0 then 0 <= Residue(x, m) < m else m < Residue(x, m) <= 0)
  {
    if m > 0 {
      q := x / m;
    } else {
      q := (-x) / (-m);
      assert -x == q * (-m) + (-x) % (-m);
      assert q * (-m) == -(q * m);
    }
  }

  /** The prefill tp ranks that have destinations. */
  function Active(m: int, n: nat): set<int> { set x: nat | x < n :: Residue(x, m) }

  lemma ActiveHasPicks(n: nat, m: int, t: int)
    ensures t in Active(m, n) <==> Picks(n, m, t) != []
  {
    PicksPartition(n, m, t);
    var ts := Picks(n, m, t);
    assert ts != [] ==> ts[0] in ts;
    if t in Active(m, n) {
      var x: nat :| x < n && Residue(x, m) == t;
      assert x in ts;
    }
  }

  /** With a positive tp size the active ranks are those below both sizes. */
  lemma ActiveBelow(n: nat, m: int, t: int)
    requires m > 0
    ensures t in Active(m, n) <==> 0 <= t < m && t < n
  {
    if t in Active(m, n) {
      var x: nat :| x < n && Residue(x, m) == t;
      ModBelow(x, m);
    }
    if 0 <= t < m && t < n {
      SmallMod(t, m);
      assert Residue(t, m) == t;
    }
  }

  lemma ModBelow(x: int, m: int)
    requires x >= 0 && m > 0
    ensures 0 <= x % m < m && x % m <= x
  {
    Quotient(x, x + 1, m);
  }

  lemma SmallMod(t: int, m: int)
    requires 0 <= t < m
    ensures t % m == t
  {
  }

  /** The length of the range of a size. */
  function Range(size: int): nat { if size < 0 then 0 else size }

  /** What the dispatcher caches for a decode dp rank; `m` is the prefill tp size. */
  function MakeCache(m: int, j: Instance, ranks: map<Coord, int>, ddp: int): Cache {
    var n := Range(j.sizes.tp);
    Cache(map t | t in Active(m, n) :: Addresses(j.table, ddp, Picks(n, m, t)),
          map t | t in Active(m, n) :: CommRanks(ranks, ddp, Picks(n, m, t)),
          Active(m, n))
  }

  /** Nothing the loop over the decode tp ranks reads is missing. */
  predicate CanCache(m: int, j: Instance, ranks: map<Coord, int>, ddp: int) {
    forall t :: 0 <= t < j.sizes.tp ==> m != 0 && Coord(ddp, 0, t) in j.table && Coord(ddp, 0, t) in ranks
  }

  function Addresses(table: map<Coord, Addr>, ddp: int, ts: seq<int>): seq<Addr> {
    seq(|ts|, k requires 0 <= k < |ts| =>
      var x := Coord(ddp, 0, ts[k]);
      if x in table then table[x] else "")
  }

  function CommRanks(ranks: map<Coord, int>, ddp: int, ts: seq<int>): seq<int> {
    seq(|ts|, k requires 0 <= k < |ts| =>
      var x := Coord(ddp, 0, ts[k]);
      if x in ranks then ranks[x] else 0)
  }

  /** The mapping the dispatcher uses for a request: the cached one, or a new one it then keeps. None
      when it fails: an instance is unknown, the decode instance has not one pp stage, or the loop
      divides by zero or reads a missing entry. Whether the pair is initialized is not asked. */
  function CacheFor(r: Router, pair: Pair, ddp: int): Option<Cache> {
    if pair.p !in r.prefill || pair.d !in r.decode || r.decode[pair.d].sizes.pp != 1 then None
    else if (pair, ddp) in r.caches then Some(r.caches[(pair, ddp)])
    else
      var m, j, ranks := r.prefill[pair.p].sizes.tp, r.decode[pair.d], Ranks(r.ranksD, pair.d);
      if CanCache(m, j, ranks, ddp) then Some(MakeCache(m, j, ranks, ddp)) else None
  }

  /** The last partner of the decode instance when that mapping was made. */
  function PartnerFor(r: Router, pair: Pair, ddp: int): Option<Addr> {
    if (pair, ddp) in r.caches then (if (pair, ddp) in r.partners then r.partners[(pair, ddp)] else None)
    else LastPartner(r.log, pair.d)
  }

  // ---------------------------------------------------------------- the state machine

  datatype Event =
    | Heard(message: Message)
    | Drained
    | Dispatched(pair: Pair, ddp: int)

  function Hear(r: Router, m: Message): Router {
    if m.kind.P? then
      var l := Listen(r.prefill, m);
      r.(prefill := l.registry, pendingP := if l.appended then r.pendingP + [m.http] else r.pendingP)
    else
      var l := Listen(r.decode, m);
      r.(decode := l.registry, pendingD := if l.appended then r.pendingD + [m.http] else r.pendingD)
  }

  function Next(r: Router, e: Event): Router
    requires e.Drained? ==> CanDrain(r)
  {
    match e
    case Heard(m) => Hear(r, m)
    case Drained => Drain(r)
    case Dispatched(pair, ddp) =>
      var k := CacheFor(r, pair, ddp);
      if k.None? then r
      else r.(caches := r.caches[(pair, ddp) := k.value], partners := r.partners[(pair, ddp) := PartnerFor(r,
          pair, ddp)])
  }

  /** The layout of every instance: its sizes, and which addresses its members may register. */
  datatype Config = Config(sizes: (Kind, Addr) -> Sizes, owns: (Kind, Addr, Coord, Addr) -> bool)

  /** An instance's messages keep to its layout; they may come in any order and any number. */
  predicate Conforms(c: Config, m: Message) {
    match m
    case Register(kind, http, coord, zmq) => InBox(c.sizes(kind, http), coord) && c.owns(kind, http, coord, zmq)
    case Init(kind, http, sizes) => sizes == c.sizes(kind, http)
  }

  ghost predicate Reaches(c: Config, r: Router, es: seq<Event>, v: Router)
    decreases |es|
  {
    if es == [] then v == r
    else
      && (es[0].Heard? ==> Conforms(c, es[0].message))
      && (es[0].Drained? ==> CanDrain(r))
      && Reaches(c, Next(r, es[0]), es[1..], v)
  }

  // ---------------------------------------------------------------- what the registries keep

  predicate InstanceOk(c: Config, kind: Kind, a: Addr, i: Instance) {
    && (i.sizes == NO_SIZES || i.sizes == c.sizes(kind, a))
    && forall x :: x in i.table ==> InBox(c.sizes(kind, a), x) && c.owns(kind, a, x, i.table[x])
  }

  predicate RegistryOk(c: Config, kind: Kind, g: Registry) {
    forall a :: a in g ==> InstanceOk(c, kind, a, g[a])
  }

  /** The instance has been appended to the pending list at least once. */
  predicate Announced(c: Config, kind: Kind, a: Addr, g: Registry) {
    a in g && g[a].sizes == c.sizes(kind, a) && Positive(g[a].sizes) && g[a].table.Keys == Box(g[a].sizes)
  }

  lemma AnnouncedUsable(c: Config, kind: Kind, a: Addr, g: Registry)
    requires Announced(c, kind, a, g)
    ensures Usable(g[a])
  {
    BoxIsBox(g[a].sizes);
  }

  lemma ListenKeeps(c: Config, g: Registry, m: Message)
    requires RegistryOk(c, m.kind, g) && Conforms(c, m)
    ensures RegistryOk(c, m.kind, Listen(g, m).registry)
    ensures Listen(g, m).appended ==> Announced(c, m.kind, m.http, Listen(g, m).registry)
  {
    var l := Listen(g, m);
    var i := l.registry[m.http];
    assert InstanceOk(c, m.kind, m.http, i);
    if l.appended {
      assert i.sizes == c.sizes(m.kind, m.http);
      ReadyIsComplete(i);
    }
  }

  lemma AnnouncedKept(c: Config, g: Registry, m: Message, a: Addr)
    requires RegistryOk(c, m.kind, g) && Conforms(c, m) && Announced(c, m.kind, a, g)
    ensures Announced(c, m.kind, a, Listen(g, m).registry)
  {
    if m.http == a && m.Register? {
      BoxIsBox(g[a].sizes);
      assert m.coord in g[a].table.Keys;
      assert Listen(g, m).registry[a].table.Keys == g[a].table.Keys;
    }
  }

  // ---------------------------------------------------------------- what the log says of a pair

  /** The messages sent for the pair. */
  function Entries(log: seq<Sent>, x: Pair): seq<Sent> {
    if log == [] then []
    else
      var rest := Entries(log[..|log| - 1], x);
      if log[|log| - 1].pair == x then rest + [log[|log| - 1]] else rest
  }

  lemma {:induction false} EntriesAppend(log: seq<Sent>, es: seq<Sent>, x: Pair)
    ensures Entries(log + es, x) == Entries(log, x) + Entries(es, x)
    decreases |es|
  {
    if es == [] {
      assert log + es == log;
    } else {
      var n := |es| - 1;
      EntriesAppend(log, es[..n], x);
      assert (log + es)[..|log + es| - 1] == log + es[..n];
    }
  }

  lemma {:induction false} EntriesOfOne(es: seq<Sent>, y: Pair, x: Pair)
    requires forall k :: 0 <= k < |es| ==> es[k].pair == y
    ensures Entries(es, x) == if x == y then es else []
    decreases |es|
  {
    if es != [] {
      var n := |es| - 1;
      EntriesOfOne(es[..n], y, x);
      assert es == es[..n] + [es[n]];
    }
  }

  function Count(c: Config, kind: Kind, a: Addr): int { WorldSize(c.sizes(kind, a)) }

  /** The rank a member has in the pair's communicator: prefill members first. */
  function PairRank(c: Config, x: Pair, kind: Kind, m: Coord): int {
    if kind.P? then RankOf(c.sizes(P, x.p), m) else Count(c, P, x.p) + RankOf(c.sizes(D, x.d), m)
  }

  predicate IsMember(c: Config, x: Pair, kind: Kind, m: Coord) {
    InBox(c.sizes(kind, if kind.P? then x.p else x.d), m)
  }

  /** One message of the pair: it carries the pair's id and world size, goes to an address of its
      member, and gives that member its rank. */
  predicate EntryOk(c: Config, x: Pair, id: nat, e: Sent, k: int) {
    && e.pair == x && e.id == id && e.world == Count(c, P, x.p) + Count(c, D, x.d)
    && e.rank == k == PairRank(c, x, e.kind, e.coord)
    && (e.kind.P? <==> k < Count(c, P, x.p))
    && IsMember(c, x, e.kind, e.coord)
    && c.owns(e.kind, if e.kind.P? then x.p else x.d, e.coord, e.to)
  }

  /** The messages of a pair: exactly one per rank of its communicator. */
  predicate Described(c: Config, x: Pair, id: nat, es: seq<Sent>) {
    && |es| == Count(c, P, x.p) + Count(c, D, x.d)
    && forall k :: 0 <= k < |es| ==> EntryOk(c, x, id, es[k], k)
  }

  predicate PairOk(c: Config, r: Router, x: Pair)
    requires x in r.pairs
  {
    && Announced(c, P, x.p, r.prefill) && Announced(c, D, x.d, r.decode)
    && Described(c, x, r.pairs[x], Entries(r.log, x))
  }

  lemma InitsDescribed(c: Config, x: Pair, kind: Kind, i: Instance, id: nat, world: int, base: int, k: int)
    requires Usable(i) && 0 <= k < WorldSize(i.sizes)
    requires world == Count(c, P, x.p) + Count(c, D, x.d)
    requires var a := if kind.P? then x.p else x.d; InstanceOk(c, kind, a, i) && i.sizes == c.sizes(kind, a)
    requires base == if kind.P? then 0 else Count(c, P, x.p)
    ensures EntryOk(c, x, id, InitAt(x, kind, i, id, world, base, k), base + k)
  {
    RankOfMember(i.sizes, k);
    MemberListed(i, k);
  }

  lemma AnnouncementDescribed(c: Config, x: Pair, i: Instance, j: Instance, id: nat)
    requires Usable(i) && Usable(j)
    requires InstanceOk(c, P, x.p, i) && i.sizes == c.sizes(P, x.p)
    requires InstanceOk(c, D, x.d, j) && j.sizes == c.sizes(D, x.d)
    ensures Described(c, x, id, Announcement(x, i, j, id))
  {
    var es := Announcement(x, i, j, id);
    var n := WorldSize(i.sizes);
    var world := n + WorldSize(j.sizes);
    forall k | 0 <= k < |es| ensures EntryOk(c, x, id, es[k], k) {
      if k < n {
        assert es[k] == InitAt(x, P, i, id, world, 0, k);
        InitsDescribed(c, x, P, i, id, world, 0, k);
      } else {
        assert es[k] == InitAt(x, D, j, id, world, n, k - n);
        InitsDescribed(c, x, D, j, id, world, n, k - n);
      }
    }
  }

  /** The prefill instance of the last communicator the decode instance joined. */
  function LastPartner(log: seq<Sent>, d: Addr): Option<Addr> {
    if log == [] then None
    else
      var e := log[|log| - 1];
      if e.kind.D? && e.pair.d == d then Some(e.pair.p) else LastPartner(log[..|log| - 1], d)
  }

  lemma {:induction false} LastPartnerAppend(log: seq<Sent>, es: seq<Sent>, d: Addr)
    requires forall k :: 0 <= k < |es| ==> es[k].pair.d != d
    ensures LastPartner(log + es, d) == LastPartner(log, d)
    decreases |es|
  {
    if es == [] {
      assert log + es == log;
    } else {
      LastPartnerAppend(log, es[..|es| - 1], d);
      assert (log + es)[..|log + es| - 1] == log + es[..|es| - 1];
    }
  }

  /** The rank tables of the pair's instances. There is one table per instance: the decode one holds
      the ranks of the last communicator it joined. */
  predicate TablesOk(c: Config, r: Router, x: Pair) {
    && x.p in r.ranksP && x.d in r.ranksD
    && TableFrom(r.ranksP[x.p], c.sizes(P, x.p), 0)
    && var q := LastPartner(r.log, x.d);
    && q.Some? && Pair(q.value, x.d) in r.pairs
    && TableFrom(r.ranksD[x.d], c.sizes(D, x.d), Count(c, P, q.value))
  }

  predicate TableFrom(ranks: map<Coord, int>, z: Sizes, base: int) {
    forall m :: m in Box(z) ==> m in ranks && ranks[m] == base + RankOf(z, m)
  }

  /** The decode instance has joined the communicator of a pair. */
  predicate RanksOwned(r: Router, d: Addr) {
    var q := LastPartner(r.log, d);
    q.Some? && Pair(q.value, d) in r.pairs
  }

  ghost predicate PairsOk(c: Config, r: Router) {
    && (forall x {:trigger PairOk(c, r, x)} :: x in r.pairs ==> PairOk(c, r, x))
    && (forall x {:trigger TablesOk(c, r, x)} :: x in r.pairs ==> TablesOk(c, r, x))
    && (forall x {:trigger Entries(r.log, x)} :: x !in r.pairs ==> Entries(r.log, x) == [])
    && (forall d {:trigger RanksOwned(r, d)} :: d in r.ranksD ==> RanksOwned(r, d))
  }

  lemma AnnouncementOfPair(x: Pair, i: Instance, j: Instance, id: nat)
    requires Usable(i) && Usable(j)
    ensures forall k :: 0 <= k < |Announcement(x, i, j, id)| ==> Announcement(x, i, j, id)[k].pair == x
    ensures |Announcement(x, i, j, id)| > 0 && Announcement(x, i, j, id)[|Announcement(x, i, j, id)| - 1].kind == D
  {
    BoxIsBox(j.sizes);
  }

  /** The log after a new pair: its own entries are the announcement, the others are unchanged. */
  lemma LogGrows(log: seq<Sent>, x: Pair, i: Instance, j: Instance, id: nat, y: Pair)
    requires Usable(i) && Usable(j)
    ensures var es := Announcement(x, i, j, id);
            Entries(log + es, y) == Entries(log, y) + if y == x then es else []
    ensures var es := Announcement(x, i, j, id);
            LastPartner(log + es, y.d) == if y.d == x.d then Some(x.p) else LastPartner(log, y.d)
  {
    var es := Announcement(x, i, j, id);
    AnnouncementOfPair(x, i, j, id);
    EntriesAppend(log, es, y);
    EntriesOfOne(es, x, y);
    if y.d != x.d {
      LastPartnerAppend(log, es, y.d);
    } else {
      assert (log + es)[|log + es| - 1] == es[|es| - 1];
    }
  }

  lemma OverlayTable(old': map<Coord, int>, z: Sizes, base: int)
    ensures TableFrom(old' + RankTable(z, base), z, base)
  {
  }

  lemma PairUpOld(c: Config, r: Router, p: Addr, d: Addr, y: Pair)
    requires CanPair(r.prefill, r.decode, p, d) && Pair(p, d) !in r.pairs && y in r.pairs && PairOk(c, r, y)
    ensures y in PairUp(r, p, d).pairs && PairOk(c, PairUp(r, p, d), y)
  {
    LogGrows(r.log, Pair(p, d), r.prefill[p], r.decode[d], r.nextId, y);
  }

  lemma PairUpPair(c: Config, r: Router, p: Addr, d: Addr)
    requires RegistryOk(c, P, r.prefill) && RegistryOk(c, D, r.decode) && Entries(r.log, Pair(p, d)) == []
    requires Announced(c, P, p, r.prefill) && Announced(c, D, d, r.decode) && Pair(p, d) !in r.pairs
    requires CanPair(r.prefill, r.decode, p, d)
    ensures Pair(p, d) in PairUp(r, p, d).pairs && PairOk(c, PairUp(r, p, d), Pair(p, d))
  {
    var i, j, y := r.prefill[p], r.decode[d], Pair(p, d);
    LogGrows(r.log, y, i, j, r.nextId, y);
    AnnouncementDescribed(c, y, i, j, r.nextId);
    assert [] + Announcement(y, i, j, r.nextId) == Announcement(y, i, j, r.nextId);
  }

  lemma PairUpTables(c: Config, r: Router, p: Addr, d: Addr, y: Pair)
    requires PairsOk(c, r)
    requires Announced(c, P, p, r.prefill) && Announced(c, D, d, r.decode) && Pair(p, d) !in r.pairs
    requires y == Pair(p, d) || y in r.pairs
    ensures CanPair(r.prefill, r.decode, p, d)
    ensures TablesOk(c, PairUp(r, p, d), y)
  {
    AnnouncedUsable(c, P, p, r.prefill);
    AnnouncedUsable(c, D, d, r.decode);
    var i, j := r.prefill[p], r.decode[d];
    LogGrows(r.log, Pair(p, d), i, j, r.nextId, y);
    OverlayTable(Ranks(r.ranksP, p), i.sizes, 0);
    OverlayTable(Ranks(r.ranksD, d), j.sizes, WorldSize(i.sizes));
    if y != Pair(p, d) { assert TablesOk(c, r, y); }
  }

  lemma PairUpRest(c: Config, r: Router, p: Addr, d: Addr, y: Pair)
    requires Entries(r.log, y) == []
    requires Announced(c, P, p, r.prefill) && Announced(c, D, d, r.decode) && Pair(p, d) !in r.pairs
    requires y != Pair(p, d) && y !in r.pairs
    ensures CanPair(r.prefill, r.decode, p, d)
    ensures Entries(PairUp(r, p, d).log, y) == []
  {
    AnnouncedUsable(c, P, p, r.prefill);
    AnnouncedUsable(c, D, d, r.decode);
    LogGrows(r.log, Pair(p, d), r.prefill[p], r.decode[d], r.nextId, y);
  }

  lemma AnnouncedCanPair(c: Config, r: Router, p: Addr, d: Addr)
    requires Announced(c, P, p, r.prefill) && Announced(c, D, d, r.decode)
    ensures CanPair(r.prefill, r.decode, p, d)
  {
    AnnouncedUsable(c, P, p, r.prefill);
    AnnouncedUsable(c, D, d, r.decode);
  }

  lemma PairUpOwns(r: Router, p: Addr, d: Addr, e: Addr)
    requires CanPair(r.prefill, r.decode, p, d) && Pair(p, d) !in r.pairs && (e == d || RanksOwned(r, e))
    ensures RanksOwned(PairUp(r, p, d), e)
  {
    LogGrows(r.log, Pair(p, d), r.prefill[p], r.decode[d], r.nextId, Pair(p, e));
  }

  lemma PairUpKeeps(c: Config, r: Router, p: Addr, d: Addr)
    requires PairsOk(c, r) && RegistryOk(c, P, r.prefill) && RegistryOk(c, D, r.decode)
    requires Announced(c, P, p, r.prefill) && Announced(c, D, d, r.decode)
    ensures CanPair(r.prefill, r.decode, p, d) && PairsOk(c, PairUp(r, p, d))
  {
    AnnouncedCanPair(c, r, p, d);
    var v := PairUp(r, p, d);
    if Pair(p, d) !in r.pairs {
      assert v.pairs == r.pairs[Pair(p, d) := r.nextId];
      forall y | y in v.pairs ensures PairOk(c, v, y) {
        if y == Pair(p, d) {
          PairUpPair(c, r, p, d);
        } else {
          assert PairOk(c, r, y);
          PairUpOld(c, r, p, d, y);
        }
      }
      forall y | y in v.pairs ensures TablesOk(c, v, y) { PairUpTables(c, r, p, d, y); }
      forall y | y !in v.pairs ensures Entries(v.log, y) == [] {
        assert Entries(r.log, y) == [];
        PairUpRest(c, r, p, d, y);
      }
      forall e | e in v.ranksD ensures RanksOwned(v, e) {
        assert e != d ==> RanksOwned(r, e);
        PairUpOwns(r, p, d, e);
      }
    }
  }

  lemma {:induction false} PairEachKeeps(c: Config, r: Router, todo: seq<Pair>)
    requires PairsOk(c, r) && RegistryOk(c, P, r.prefill) && RegistryOk(c, D, r.decode)
    requires forall x :: x in todo ==> Announced(c, P, x.p, r.prefill) && Announced(c, D, x.d, r.decode)
    requires forall x :: x in todo ==> CanPair(r.prefill, r.decode, x.p, x.d)
    ensures PairsOk(c, PairEach(r, todo))
    decreases todo
  {
    if todo != [] {
      var x := todo[0];
      assert x in todo;
      PairUpKeeps(c, r, x.p, x.d);
      PairEachKeeps(c, PairUp(r, x.p, x.d), todo[1..]);
    }
  }

  /** Every pair has an id of its own. */
  predicate IdsOk(pairs: map<Pair, nat>, nextId: nat) {
    && (forall x :: x in pairs ==> pairs[x] < nextId)
    && forall x, y {:trigger pairs[x], pairs[y]} :: x in pairs && y in pairs && x != y ==> pairs[x] != pairs[y]
  }

  lemma {:induction false} PairEachPairs(r: Router, todo: seq<Pair>, x: Pair)
    requires forall y :: y in todo ==> CanPair(r.prefill, r.decode, y.p, y.d)
    ensures x in PairEach(r, todo).pairs <==> x in r.pairs || x in todo
    decreases todo
  {
    if todo != [] {
      var y := todo[0];
      assert y in todo && y == Pair(y.p, y.d);
      PairEachPairs(PairUp(r, y.p, y.d), todo[1..], x);
      assert x in todo <==> x == y || x in todo[1..];
    }
  }

  lemma PairUpIds(r: Router, p: Addr, d: Addr)
    requires CanPair(r.prefill, r.decode, p, d) && IdsOk(r.pairs, r.nextId)
    ensures IdsOk(PairUp(r, p, d).pairs, PairUp(r, p, d).nextId)
  {
  }

  lemma {:induction false} PairEachIds(r: Router, todo: seq<Pair>)
    requires forall x :: x in todo ==> CanPair(r.prefill, r.decode, x.p, x.d)
    requires IdsOk(r.pairs, r.nextId)
    ensures IdsOk(PairEach(r, todo).pairs, PairEach(r, todo).nextId)
    decreases todo
  {
    if todo != [] {
      assert todo[0] in todo;
      PairUpIds(r, todo[0].p, todo[0].d);
      PairEachIds(PairUp(r, todo[0].p, todo[0].d), todo[1..]);
    }
  }

  // ---------------------------------------------------------------- the invariant of the router

  predicate AllAnnounced(c: Config, kind: Kind, l: seq<Addr>, g: Registry) {
    forall a :: a in l ==> Announced(c, kind, a, g)
  }

  /** A mapping: destinations by residue, addresses of the right members, and their ranks counted
      from `base`. */
  predicate CacheFrom(c: Config, x: Pair, ddp: int, k: Cache, base: int) {
    var m, n := c.sizes(P, x.p).tp, Range(c.sizes(D, x.d).tp);
    && k.active == Active(m, n) && k.dst.Keys == k.active && k.comm.Keys == k.active
    && forall t :: t in k.active ==> ListFrom(c, x.d, ddp, Picks(n, m, t), k.dst[t], k.comm[t], base)
  }

  predicate ListFrom(c: Config, d: Addr, ddp: int, ts: seq<int>, dst: seq<Addr>, comm: seq<int>, base: int) {
    && |dst| == |comm| == |ts|
    && forall i :: 0 <= i < |ts| ==>
         && c.owns(D, d, Coord(ddp, 0, ts[i]), dst[i])
         && comm[i] == base + RankOf(c.sizes(D, d), Coord(ddp, 0, ts[i]))
  }

  /** The sizes of the instance are known. */
  predicate Initialized(c: Config, kind: Kind, a: Addr, g: Registry) {
    a in g && g[a].sizes == c.sizes(kind, a)
  }

  /** A mapping made when the decode instance was last paired with `q`. */
  predicate CacheOk(c: Config, prefill: Registry, pairs: map<Pair, nat>, x: Pair, ddp: int, k: Cache, q: Option<Addr>) {
    var z := c.sizes(D, x.d);
    && CacheFrom(c, x, ddp, k, if q.Some? then Count(c, P, q.value) else 0)
    && (z.tp > 0 ==>
          && c.sizes(P, x.p).tp != 0 && Initialized(c, P, x.p, prefill) && 0 <= ddp < z.dp
          && q.Some? && Pair(q.value, x.d) in pairs)
  }

  predicate CachesOk(c: Config, prefill: Registry, pairs: map<Pair, nat>, caches: map<(Pair, int), Cache>,
                     partners: map<(Pair, int), Option<Addr>>)
  {
    forall key {:trigger caches[key]} :: key in caches ==>
      key in partners && CacheOk(c, prefill, pairs, key.0, key.1, caches[key], partners[key])
  }

  predicate ListsOk(c: Config, r: Router) {
    && AllAnnounced(c, P, r.pendingP, r.prefill) && AllAnnounced(c, P, r.readyP, r.prefill)
    && AllAnnounced(c, D, r.pendingD, r.decode) && AllAnnounced(c, D, r.readyD, r.decode)
  }

  ghost predicate RouterOk(c: Config, r: Router) {
    && RegistryOk(c, P, r.prefill) && RegistryOk(c, D, r.decode)
    && ListsOk(c, r) && PairsOk(c, r) && IdsOk(r.pairs, r.nextId)
        && CachesOk(c, r.prefill, r.pairs, r.caches, r.partners)
    && forall x :: x in r.pairs <==> x.p in r.readyP && x.d in r.readyD
  }

  lemma StartOk(c: Config)
    ensures RouterOk(c, START)
  {
  }

  /** What is announced or initialized stays so. */
  ghost predicate Grows(c: Config, kind: Kind, g: Registry, g': Registry) {
    && (forall a {:trigger Announced(c, kind, a, g')} :: Announced(c, kind, a, g) ==> Announced(c, kind, a, g'))
    && (forall a {:trigger Initialized(c, kind, a, g')} :: Initialized(c, kind, a, g) ==> Initialized(c, kind, a, g'))
  }

  lemma ListenGrows(c: Config, g: Registry, m: Message)
    requires RegistryOk(c, m.kind, g) && Conforms(c, m)
    ensures Grows(c, m.kind, g, Listen(g, m).registry)
  {
    forall a | Announced(c, m.kind, a, g) ensures Announced(c, m.kind, a, Listen(g, m).registry) {
      AnnouncedKept(c, g, m, a);
    }
    forall a | Initialized(c, m.kind, a, g) ensures Initialized(c, m.kind, a, Listen(g, m).registry) {
    }
  }

  /** The pairs do not depend on what the registries gain. */
  lemma PairsKept(c: Config, r: Router, v: Router)
    requires PairsOk(c, r) && Grows(c, P, r.prefill, v.prefill) && Grows(c, D, r.decode, v.decode)
    requires v.pairs == r.pairs && v.log == r.log && v.ranksP == r.ranksP && v.ranksD == r.ranksD
    ensures PairsOk(c, v)
  {
    forall x | x in v.pairs ensures PairOk(c, v, x) {
      assert PairOk(c, r, x);
    }
    forall x | x in v.pairs ensures TablesOk(c, v, x) {
      assert TablesOk(c, r, x);
    }
    forall d | d in v.ranksD ensures RanksOwned(v, d) {
      assert RanksOwned(r, d);
    }
  }

  lemma CachesKept(c: Config, r: Router, v: Router)
    requires CachesOk(c, r.prefill, r.pairs, r.caches, r.partners) && Grows(c, P, r.prefill, v.prefill)
    requires v.caches == r.caches && v.partners == r.partners && forall x :: x in r.pairs ==> x in v.pairs
    ensures CachesOk(c, v.prefill, v.pairs, v.caches, v.partners)
  {
    forall key | key in v.caches
      ensures key in v.partners && CacheOk(c, v.prefill, v.pairs, key.0, key.1, v.caches[key], v.partners[key])
    {
      assert CacheOk(c, r.prefill, r.pairs, key.0, key.1, r.caches[key], r.partners[key]);
      assert Initialized(c, P, key.0.p, r.prefill) ==> Initialized(c, P, key.0.p, v.prefill);
    }
  }

  lemma PrefillHeard(c: Config, r: Router, g: Registry, pending: seq<Addr>)
    requires RouterOk(c, r) && RegistryOk(c, P, g) && Grows(c, P, r.prefill, g) && AllAnnounced(c, P, pending, g)
    ensures RouterOk(c, r.(prefill := g, pendingP := pending))
  {
    var v := r.(prefill := g, pendingP := pending);
    PairsKept(c, r, v);
    CachesKept(c, r, v);
  }

  lemma DecodeHeard(c: Config, r: Router, g: Registry, pending: seq<Addr>)
    requires RouterOk(c, r) && RegistryOk(c, D, g) && Grows(c, D, r.decode, g) && AllAnnounced(c, D, pending, g)
    ensures RouterOk(c, r.(decode := g, pendingD := pending))
  {
    var v := r.(decode := g, pendingD := pending);
    PairsKept(c, r, v);
  }

  lemma PendingAnnounced(c: Config, g: Registry, m: Message, pending: seq<Addr>)
    requires RegistryOk(c, m.kind, g) && Conforms(c, m) && AllAnnounced(c, m.kind, pending, g)
    ensures var l := Listen(g, m);
            AllAnnounced(c, m.kind, if l.appended then pending + [m.http] else pending, l.registry)
  {
    ListenGrows(c, g, m);
    ListenKeeps(c, g, m);
  }

  lemma HearKeeps(c: Config, r: Router, m: Message)
    requires RouterOk(c, r) && Conforms(c, m)
    ensures RouterOk(c, Hear(r, m))
  {
    var g := if m.kind.P? then r.prefill else r.decode;
    var pending := if m.kind.P? then r.pendingP else r.pendingD;
    var l := Listen(g, m);
    ListenKeeps(c, g, m);
    ListenGrows(c, g, m);
    PendingAnnounced(c, g, m, pending);
    var pending' := if l.appended then pending + [m.http] else pending;
    if m.kind.P? { PrefillHeard(c, r, l.registry, pending'); } else { DecodeHeard(c, r, l.registry, pending'); }
  }

  lemma TodoAnnounced(c: Config, r: Router, x: Pair)
    requires ListsOk(c, r)
    ensures x in Todo(r) <==>
            (x.p in r.pendingP && x.d in r.readyD) || (x.p in r.readyP + r.pendingP && x.d in r.pendingD)
    ensures x in Todo(r) ==> Announced(c, P, x.p, r.prefill) && Announced(c, D, x.d, r.decode)
  {
    InRows(r.pendingP, r.readyD, x);
    InColumns(r.readyP + r.pendingP, r.pendingD, x);
  }

  lemma CanAlwaysDrain(c: Config, r: Router)
    requires RouterOk(c, r)
    ensures CanDrain(r) && PairsOk(c, PairEach(r, Todo(r)))
    ensures IdsOk(PairEach(r, Todo(r)).pairs, PairEach(r, Todo(r)).nextId)
    ensures forall x :: x in PairEach(r, Todo(r)).pairs <==> x in r.pairs || x in Todo(r)
  {
    forall x | x in Todo(r) ensures Announced(c, P, x.p, r.prefill) && Announced(c, D, x.d, r.decode) {
      TodoAnnounced(c, r, x);
    }
    forall x | x in Todo(r) ensures CanPair(r.prefill, r.decode, x.p, x.d) { AnnouncedCanPair(c, r, x.p, x.d); }
    PairEachKeeps(c, r, Todo(r));
    PairEachIds(r, Todo(r));
    forall x ensures x in PairEach(r, Todo(r)).pairs <==> x in r.pairs || x in Todo(r) { PairEachPairs(r, Todo(r), x); }
  }

  lemma DrainKeeps(c: Config, r: Router)
    requires RouterOk(c, r)
    ensures CanDrain(r) && RouterOk(c, Drain(r))
  {
    CanAlwaysDrain(c, r);
    var w := PairEach(r, Todo(r));
    var v := Drain(r);
    PairsKept(c, w, v);
    CachesKept(c, r, v);
    forall x ensures x in v.pairs <==> x.p in v.readyP && x.d in v.readyD {
      TodoAnnounced(c, r, x);
    }
  }

  lemma ListIsFrom(c: Config, d: Addr, ddp: int, j: Instance, ranks: map<Coord, int>, m: int, t: int, base: int)
    requires InstanceOk(c, D, d, j) && j.sizes == c.sizes(D, d) && j.sizes.tp >= 0
    requires CanCache(m, j, ranks, ddp) && TableFrom(ranks, j.sizes, base)
    ensures var ts := Picks(j.sizes.tp, m, t);
            ListFrom(c, d, ddp, ts, Addresses(j.table, ddp, ts), CommRanks(ranks, ddp, ts), base)
  {
    var ts := Picks(j.sizes.tp, m, t);
    PicksPartition(j.sizes.tp, m, t);
    BoxIsBox(j.sizes);
    forall i | 0 <= i < |ts|
      ensures Coord(ddp, 0, ts[i]) in j.table && c.owns(D, d, Coord(ddp, 0, ts[i]), j.table[Coord(ddp, 0, ts[i])])
      ensures Coord(ddp, 0, ts[i]) in ranks
                && ranks[Coord(ddp, 0, ts[i])] == base + RankOf(j.sizes, Coord(ddp, 0, ts[i]))
    {
      assert ts[i] in ts;
      assert Coord(ddp, 0, ts[i]) in j.table && InBox(j.sizes, Coord(ddp, 0, ts[i]));
    }
  }

  lemma NewCacheFrom(c: Config, x: Pair, ddp: int, m: int, j: Instance, ranks: map<Coord, int>, base: int)
    requires m == c.sizes(P, x.p).tp && InstanceOk(c, D, x.d, j) && j.sizes == c.sizes(D, x.d) && j.sizes.tp > 0
    requires CanCache(m, j, ranks, ddp) && TableFrom(ranks, j.sizes, base)
    ensures CacheFrom(c, x, ddp, MakeCache(m, j, ranks, ddp), base)
  {
    var k := MakeCache(m, j, ranks, ddp);
    forall t | t in k.active
      ensures ListFrom(c, x.d, ddp, Picks(j.sizes.tp, m, t), k.dst[t], k.comm[t], base)
    {
      ListIsFrom(c, x.d, ddp, j, ranks, m, t, base);
    }
  }

  /** What a successful lookup of a decode dp rank says about the state. */
  lemma LookupKnows(c: Config, r: Router, x: Pair, ddp: int)
    requires RegistryOk(c, P, r.prefill) && RegistryOk(c, D, r.decode) && PairsOk(c, r)
    requires x.p in r.prefill && x.d in r.decode && r.decode[x.d].sizes.pp == 1 && r.decode[x.d].sizes.tp > 0
    requires CanCache(r.prefill[x.p].sizes.tp, r.decode[x.d], Ranks(r.ranksD, x.d), ddp)
    ensures Initialized(c, P, x.p, r.prefill) && Initialized(c, D, x.d, r.decode) && r.prefill[x.p].sizes.tp != 0
    ensures 0 <= ddp < r.decode[x.d].sizes.dp && x.d in r.ranksD && RanksOwned(r, x.d)
    ensures TableFrom(r.ranksD[x.d], c.sizes(D, x.d), Count(c, P, LastPartner(r.log, x.d).value))
  {
    assert InstanceOk(c, P, x.p, r.prefill[x.p]) && InstanceOk(c, D, x.d, r.decode[x.d]);
    assert Coord(ddp, 0, 0) in r.decode[x.d].table && Coord(ddp, 0, 0) in Ranks(r.ranksD, x.d);
    assert RanksOwned(r, x.d);
    assert TablesOk(c, r, Pair(LastPartner(r.log, x.d).value, x.d));
  }

  lemma CacheForOk(c: Config, r: Router, x: Pair, ddp: int)
    requires RouterOk(c, r) && CacheFor(r, x, ddp).Some?
    ensures CacheOk(c, r.prefill, r.pairs, x, ddp, CacheFor(r, x, ddp).value, PartnerFor(r, x, ddp))
  {
    if (x, ddp) !in r.caches {
      var m, j, ranks := r.prefill[x.p].sizes.tp, r.decode[x.d], Ranks(r.ranksD, x.d);
      assert InstanceOk(c, D, x.d, j);
      if j.sizes.tp > 0 {
        LookupKnows(c, r, x, ddp);
        NewCacheFrom(c, x, ddp, m, j, ranks, Count(c, P, LastPartner(r.log, x.d).value));
      }
    }
  }

  lemma DispatchKeeps(c: Config, r: Router, x: Pair, ddp: int)
    requires RouterOk(c, r)
    ensures RouterOk(c, Next(r, Dispatched(x, ddp)))
  {
    if CacheFor(r, x, ddp).Some? {
      var v := Next(r, Dispatched(x, ddp));
      CacheForOk(c, r, x, ddp);
      PairsKept(c, r, v);
      CacheAdded(c, r, x, ddp, CacheFor(r, x, ddp).value, PartnerFor(r, x, ddp));
    }
  }

  lemma CacheAdded(c: Config, r: Router, x: Pair, ddp: int, k: Cache, q: Option<Addr>)
    requires CachesOk(c, r.prefill, r.pairs, r.caches, r.partners) && CacheOk(c, r.prefill, r.pairs, x, ddp, k, q)
    ensures CachesOk(c, r.prefill, r.pairs, r.caches[(x, ddp) := k], r.partners[(x, ddp) := q])
  {
    var caches, partners := r.caches[(x, ddp) := k], r.partners[(x, ddp) := q];
    forall key | key in caches
      ensures key in partners && CacheOk(c, r.prefill, r.pairs, key.0, key.1, caches[key], partners[key])
    {
      if key != (x, ddp) { assert caches[key] == r.caches[key]; }
    }
  }

  // ---------------------------------------------------------------- whole runs

  lemma {:induction false} RunKeeps(c: Config, r: Router, es: seq<Event>, v: Router)
    requires RouterOk(c, r) && Reaches(c, r, es, v)
    ensures RouterOk(c, v)
    decreases |es|
  {
    if es != [] {
      match es[0] {
        case Heard(m) => HearKeeps(c, r, m);
        case Drained => DrainKeeps(c, r);
        case Dispatched(x, ddp) => DispatchKeeps(c, r, x, ddp);
      }
      RunKeeps(c, Next(r, es[0]), es[1..], v);
    }
  }

  /** In every reachable state each ready prefill and each ready decode instance has a pair, and no
      other pair exists; the next drain reads no missing entry, empties both pending lists and
      pairs everything that was announced. */
  lemma EveryReadyPairIsInitialized(c: Config, es: seq<Event>, v: Router)
    requires Reaches(c, START, es, v)
    ensures forall p, d :: p in v.readyP && d in v.readyD <==> Pair(p, d) in v.pairs
    ensures CanDrain(v)
    ensures var w := Drain(v);
            && w.pendingP == [] && w.pendingD == []
            && forall p, d :: Pair(p, d) in w.pairs <==> p in v.readyP + v.pendingP && d in v.readyD + v.pendingD
  {
    StartOk(c);
    RunKeeps(c, START, es, v);
    DrainKeeps(c, v);
  }

  /** Over the whole run the messages of a pair are one per rank of its communicator, with one id,
      which no other pair has, and one world size; a pair that is not there was sent none. */
  lemma CommInitOncePerPair(c: Config, es: seq<Event>, v: Router, x: Pair)
    requires Reaches(c, START, es, v)
    ensures x !in v.pairs ==> Entries(v.log, x) == []
    ensures x in v.pairs ==> Described(c, x, v.pairs[x], Entries(v.log, x))
    ensures forall y :: x in v.pairs && y in v.pairs && y != x ==> v.pairs[y] != v.pairs[x]
  {
    StartOk(c);
    RunKeeps(c, START, es, v);
    if x in v.pairs { assert PairOk(c, v, x); }
  }

  /** Hence every member of the pair gets exactly one message, and it carries the member's rank. */
  lemma CommInitOncePerMember(c: Config, es: seq<Event>, v: Router, x: Pair, kind: Kind, m: Coord)
    requires Reaches(c, START, es, v) && x in v.pairs && IsMember(c, x, kind, m)
    ensures var sent, rank := Entries(v.log, x), PairRank(c, x, kind, m);
            && 0 <= rank < |sent|
            && sent[rank].kind == kind && sent[rank].coord == m && sent[rank].rank == rank
            && forall k :: 0 <= k < |sent| && sent[k].kind == kind && sent[k].coord == m ==> k == rank
  {
    CommInitOncePerPair(c, es, v, x);
    StartOk(c);
    RunKeeps(c, START, es, v);
    assert PairOk(c, v, x);
    MemberHasRank(c, x, v.pairs[x], Entries(v.log, x), kind, m);
  }

  lemma MemberHasRank(c: Config, x: Pair, id: nat, sent: seq<Sent>, kind: Kind, m: Coord)
    requires Described(c, x, id, sent) && IsMember(c, x, kind, m)
    requires Positive(c.sizes(P, x.p)) && Positive(c.sizes(D, x.d))
    ensures var rank := PairRank(c, x, kind, m);
            && 0 <= rank < |sent|
            && sent[rank].kind == kind && sent[rank].coord == m && sent[rank].rank == rank
            && forall k :: 0 <= k < |sent| && sent[k].kind == kind && sent[k].coord == m ==> k == rank
  {
    var z := c.sizes(kind, if kind.P? then x.p else x.d);
    var rank := PairRank(c, x, kind, m);
    BoxIsBox(c.sizes(P, x.p));
    BoxIsBox(c.sizes(D, x.d));
    MemberOfRank(z, m);
    var e := sent[rank];
    assert EntryOk(c, x, id, e, rank);
    MemberOfRank(z, e.coord);
    forall k | 0 <= k < |sent| && sent[k].kind == kind && sent[k].coord == m ensures k == rank {
      assert EntryOk(c, x, id, sent[k], k);
    }
  }

  /** All prefill instances paired with the decode instance have the same number of ranks. */
  ghost predicate SameCounts(c: Config, v: Router, d: Addr) {
    forall p, q :: Pair(p, d) in v.pairs && Pair(q, d) in v.pairs ==> Count(c, P, p) == Count(c, P, q)
  }

  /** A mapping, cached or new, carries the ranks of the pair exactly when the prefill instance the decode
      instance was last paired with, as the mapping was made, has as many ranks as the pair's. */
  lemma MappingHoldsPairRanksIff(c: Config, es: seq<Event>, v: Router, x: Pair, ddp: int)
    requires Reaches(c, START, es, v) && CacheFor(v, x, ddp).Some? && c.sizes(D, x.d).tp > 0
    ensures var k, q := CacheFor(v, x, ddp).value, PartnerFor(v, x, ddp);
            && q.Some? && Pair(q.value, x.d) in v.pairs
            && (CacheFrom(c, x, ddp, k, Count(c, P, x.p)) <==> Count(c, P, q.value) == Count(c, P, x.p))
  {
    StartOk(c);
    RunKeeps(c, START, es, v);
    CacheForOk(c, v, x, ddp);
    var k, q := CacheFor(v, x, ddp).value, PartnerFor(v, x, ddp);
    if CacheFrom(c, x, ddp, k, Count(c, P, x.p)) {
      OneBase(c, x, ddp, k, Count(c, P, x.p), Count(c, P, q.value));
    }
  }

  /** A mapping that is not empty determines the base of its ranks. */
  lemma OneBase(c: Config, x: Pair, ddp: int, k: Cache, a: int, b: int)
    requires CacheFrom(c, x, ddp, k, a) && CacheFrom(c, x, ddp, k, b) && c.sizes(D, x.d).tp > 0
    ensures a == b
  {
    var m, n := c.sizes(P, x.p).tp, c.sizes(D, x.d).tp;
    var t := Residue(0, m);
    assert t in Active(m, n);
    ActiveHasPicks(n, m, t);
    assert ListFrom(c, x.d, ddp, Picks(n, m, t), k.dst[t], k.comm[t], a);
    assert k.comm[t][0] == a + RankOf(c.sizes(D, x.d), Coord(ddp, 0, Picks(n, m, t)[0]));
  }

  /** With equal prefill counts, every mapping the dispatcher uses for an initialized pair, cached or
      new, gives each destination the rank that was sent to it for this pair. */
  lemma RemoteRanksAreSentRanks(c: Config, es: seq<Event>, v: Router, x: Pair, ddp: int)
    requires Reaches(c, START, es, v) && x in v.pairs && SameCounts(c, v, x.d) && CacheFor(v, x, ddp).Some?
    ensures CacheFrom(c, x, ddp, CacheFor(v, x, ddp).value, Count(c, P, x.p))
  {
    StartOk(c);
    RunKeeps(c, START, es, v);
    assert PairOk(c, v, x);
    MappingHoldsPairRanksIff(c, es, v, x, ddp);
    assert Pair(x.p, x.d) in v.pairs;
  }

  /** Without that, the one table per decode instance holds this pair's ranks exactly when the last
      pairing of the decode instance was with a prefill instance of the same number of ranks. */
  lemma TableHoldsPairRanksIff(c: Config, es: seq<Event>, v: Router, x: Pair, m: Coord)
    requires Reaches(c, START, es, v) && x in v.pairs && IsMember(c, x, D, m)
    ensures x.d in v.ranksD && m in v.ranksD[x.d]
    ensures var q := LastPartner(v.log, x.d);
            && q.Some?
            && (v.ranksD[x.d][m] == PairRank(c, x, D, m) <==> Count(c, P, q.value) == Count(c, P, x.p))
  {
    StartOk(c);
    RunKeeps(c, START, es, v);
    assert TablesOk(c, v, x);
    BoxIsBox(c.sizes(D, x.d));
  }

  lemma NothingMissing(m: int, j: Instance, ranks: map<Coord, int>, ddp: int, base: int)
    requires m != 0 && Positive(j.sizes) && j.sizes.pp == 1 && 0 <= ddp < j.sizes.dp
    requires j.table.Keys == Box(j.sizes) && TableFrom(ranks, j.sizes, base)
    ensures CanCache(m, j, ranks, ddp)
  {
    BoxIsBox(j.sizes);
    forall t | 0 <= t < j.sizes.tp ensures Coord(ddp, 0, t) in j.table && Coord(ddp, 0, t) in ranks {
      assert Coord(ddp, 0, t) in Box(j.sizes);
    }
  }

  /** Whether some prefill instance is paired with the decode instance. */
  ghost predicate IsPaired(v: Router, d: Addr) {
    exists q :: Pair(q, d) in v.pairs
  }

  /** The dispatcher finds a mapping exactly when both instances are known, the decode instance has one pp
      stage, and, unless its tp size leaves nothing to map, the prefill tp size is not zero, the
      decode instance is paired with some prefill instance, and the dp rank is in range. */
  lemma DispatchSucceedsIff(c: Config, es: seq<Event>, v: Router, x: Pair, ddp: int)
    requires Reaches(c, START, es, v)
    ensures CacheFor(v, x, ddp).Some? <==>
            && x.p in v.prefill && x.d in v.decode && v.decode[x.d].sizes.pp == 1
            && (v.decode[x.d].sizes.tp > 0 ==>
                  v.prefill[x.p].sizes.tp != 0 && IsPaired(v, x.d) && 0 <= ddp < v.decode[x.d].sizes.dp)
  {
    StartOk(c);
    RunKeeps(c, START, es, v);
    LookupIff(c, v, x, ddp);
  }

  lemma LookupIff(c: Config, v: Router, x: Pair, ddp: int)
    requires RouterOk(c, v)
    ensures CacheFor(v, x, ddp).Some? <==>
            && x.p in v.prefill && x.d in v.decode && v.decode[x.d].sizes.pp == 1
            && (v.decode[x.d].sizes.tp > 0 ==>
                  v.prefill[x.p].sizes.tp != 0 && IsPaired(v, x.d) && 0 <= ddp < v.decode[x.d].sizes.dp)
  {
    if x.p in v.prefill && x.d in v.decode && v.decode[x.d].sizes.pp == 1 && v.decode[x.d].sizes.tp > 0 {
      assert InstanceOk(c, D, x.d, v.decode[x.d]);
      if CacheFor(v, x, ddp).Some? {
        CacheForOk(c, v, x, ddp);
      }
      if v.prefill[x.p].sizes.tp != 0 && IsPaired(v, x.d) && 0 <= ddp < v.decode[x.d].sizes.dp {
        var q :| Pair(q, x.d) in v.pairs;
        assert PairOk(c, v, Pair(q, x.d)) && TablesOk(c, v, Pair(q, x.d));
        var base := Count(c, P, LastPartner(v.log, x.d).value);
        NothingMissing(v.prefill[x.p].sizes.tp, v.decode[x.d], Ranks(v.ranksD, x.d), ddp, base);
      }
    }
  }
}
