/**
 The router's instance tables. Every rank of an instance registers its own coordinate, and one
 message gives the sizes, in any order; the router takes the instance for complete when the number
 of registered coordinates equals the world size.
 */
module RouterRegistry {
  import opened RouterLayout

  type Addr = string

  datatype Kind = P | D

  datatype Instance = Instance(sizes: Sizes, table: map<Coord, Addr>)

  type Registry = map<Addr, Instance>

  datatype Message =
    | Register(kind: Kind, http: Addr, coord: Coord, zmq: Addr)
    | Init(kind: Kind, http: Addr, sizes: Sizes)

  const NO_SIZES := Sizes(0, 0, 0)

  predicate IsReady(i: Instance) {
    WorldSize(i.sizes) != 0 && |i.table.Keys| == WorldSize(i.sizes)
  }

  /** The registry after the message, and whether the instance is appended to the pending list. */
  datatype Listened = Listened(registry: Registry, appended: bool)

  /** One message of the listener for the registry of its kind. An init message from an unknown
      address only creates the instance. */
  function Listen(registry: Registry, m: Message): Listened {
    match m
    case Register(_, http, coord, zmq) =>
      var i := if http in registry then registry[http] else Instance(NO_SIZES, map[]);
      var i' := i.(table := i.table[coord := zmq]);
      Listened(registry[http := i'], IsReady(i'))
    case Init(_, http, sizes) =>
      if http !in registry then Listened(registry[http := Instance(sizes, map[])], false)
      else
        var i' := registry[http].(sizes := sizes);
        Listened(registry[http := i'], IsReady(i'))
  }

  // ---------------------------------------------------------------- what the count test means

  predicate AllInRange(i: Instance) {
    forall x :: x in i.table ==> InBox(i.sizes, x)
  }

  /** Every coordinate of the box has an address. */
  ghost predicate Complete(i: Instance) {
    forall x :: InBox(i.sizes, x) ==> x in i.table
  }

  /** When the count test passes, all coordinates in range means that none is missing, and the
      sizes are positive. */
  lemma ReadyIsComplete(i: Instance)
    requires IsReady(i) && AllInRange(i)
    ensures Complete(i) && Positive(i.sizes) && i.table.Keys == Box(i.sizes)
  {
    BoxIsBox(i.sizes);
    assert i.table.Keys <= Box(i.sizes);
    if |i.table.Keys| == |Box(i.sizes)| {
      SubsetOfSameSize(i.table.Keys, Box(i.sizes));
    }
  }

  /** For sizes that are not negative, the two are the same: one stray coordinate is one missing. */
  lemma ReadyIffInRange(i: Instance)
    requires IsReady(i) && i.sizes.dp >= 0 && i.sizes.pp >= 0 && i.sizes.tp >= 0
    ensures Complete(i) <==> AllInRange(i)
  {
    if AllInRange(i) { ReadyIsComplete(i); }
    if Complete(i) {
      BoxIsBox(i.sizes);
      assert Positive(i.sizes);
      assert Box(i.sizes) <= i.table.Keys;
      SubsetOfSameSize(Box(i.sizes), i.table.Keys);
      assert forall x :: x in i.table ==> x in i.table.Keys;
    }
  }

  /** A stray coordinate passes the count test while a member is missing. */
  lemma StrayLooksReady(http: Addr, zmq: Addr)
    ensures var r := Listen(map[], Init(P, http, Sizes(1, 1, 1))).registry;
            var l := Listen(r, Register(P, http, Coord(0, 0, 1), zmq));
            l.appended && !Complete(l.registry[http])
  {
    var r := Listen(map[], Init(P, http, Sizes(1, 1, 1))).registry;
    var i := Listen(r, Register(P, http, Coord(0, 0, 1), zmq)).registry[http];
    assert i.table.Keys == {Coord(0, 0, 1)};
    assert InBox(i.sizes, Coord(0, 0, 0)) && Coord(0, 0, 0) !in i.table;
  }

  // ---------------------------------------------------------------- arrival orders

  predicate About(m: Message, kind: Kind, a: Addr) { m.kind == kind && m.http == a }

  /** The registry of `kind` after the first `k` messages of the stream. */
  function After(kind: Kind, start: Registry, ms: seq<Message>, k: nat): Registry
    requires k <= |ms|
  {
    if k == 0 then start
    else
      var before := After(kind, start, ms, k - 1);
      if ms[k - 1].kind == kind then Listen(before, ms[k - 1]).registry else before
  }

  predicate AppendedAt(kind: Kind, start: Registry, ms: seq<Message>, k: nat)
    requires k < |ms|
  {
    ms[k].kind == kind && Listen(After(kind, start, ms, k), ms[k]).appended
  }

  /** The messages about `a`: one init with sizes `z` and one registration per coordinate, in any
      order and with any other messages between them. */
  ghost predicate ArrivesOnce(kind: Kind, a: Addr, z: Sizes, ms: seq<Message>) {
    && (forall i :: 0 <= i < |ms| && About(ms[i], kind, a) ==>
          if ms[i].Init? then ms[i].sizes == z else InBox(z, ms[i].coord))
    && (forall i, j :: 0 <= i < j < |ms| && About(ms[i], kind, a) && About(ms[j], kind, a) ==> !SamePlace(ms[i], ms[j]))
    && InitSeen(kind, a, ms, |ms|)
    && forall x :: InBox(z, x) ==> x in Registered(kind, a, ms, |ms|)
  }

  predicate SamePlace(m: Message, n: Message) {
    (m.Init? && n.Init?) || (m.Register? && n.Register? && m.coord == n.coord)
  }

  predicate InitSeen(kind: Kind, a: Addr, ms: seq<Message>, k: nat)
    requires k <= |ms|
  {
    exists i :: 0 <= i < k && About(ms[i], kind, a) && ms[i].Init?
  }

  /** The coordinates registered by `a` in the first `k` messages. */
  function Registered(kind: Kind, a: Addr, ms: seq<Message>, k: nat): set<Coord>
    requires k <= |ms|
  {
    set i | 0 <= i < k && About(ms[i], kind, a) && ms[i].Register? :: ms[i].coord
  }

  predicate AnySeen(kind: Kind, a: Addr, ms: seq<Message>, k: nat)
    requires k <= |ms|
  {
    exists i :: 0 <= i < k && About(ms[i], kind, a)
  }

  lemma SeenNext(kind: Kind, a: Addr, ms: seq<Message>, k: nat)
    requires k < |ms|
    ensures AnySeen(kind, a, ms, k + 1) == (AnySeen(kind, a, ms, k) || About(ms[k], kind, a))
    ensures InitSeen(kind, a, ms, k + 1) == (InitSeen(kind, a, ms, k) || (About(ms[k], kind, a) && ms[k].Init?))
    ensures Registered(kind, a, ms, k + 1) ==
            Registered(kind, a, ms, k) + if About(ms[k], kind, a) && ms[k].Register? then {ms[k].coord} else {}
  {
    if About(ms[k], kind, a) && ms[k].Register? {
      assert ms[k].coord in Registered(kind, a, ms, k + 1);
    }
  }

  /** What the registry knows of `a`: the coordinates so far, and the sizes once the init is in. */
  predicate Knows(kind: Kind, a: Addr, z: Sizes, ms: seq<Message>, k: nat, r: Registry)
    requires k <= |ms|
  {
    && (a in r <==> AnySeen(kind, a, ms, k))
    && (a !in r ==> Registered(kind, a, ms, k) == {})
    && (a in r ==>
         && r[a].table.Keys == Registered(kind, a, ms, k)
         && r[a].sizes == if InitSeen(kind, a, ms, k) then z else NO_SIZES)
  }

  lemma KnowsNext(kind: Kind, a: Addr, z: Sizes, ms: seq<Message>, k: nat, r: Registry)
    requires k < |ms| && Knows(kind, a, z, ms, k, r)
    requires About(ms[k], kind, a) && ms[k].Init? ==> ms[k].sizes == z
    ensures Knows(kind, a, z, ms, k + 1, if ms[k].kind == kind then Listen(r, ms[k]).registry else r)
  {
    SeenNext(kind, a, ms, k);
    assert InitSeen(kind, a, ms, k) ==> AnySeen(kind, a, ms, k);
    if About(ms[k], kind, a) {
      if ms[k].Register? { RegisterAdds(r, ms[k]); } else { InitSizes(r, ms[k]); }
    }
  }

  lemma RegisterAdds(r: Registry, m: Message)
    requires m.Register?
    ensures var r' := Listen(r, m).registry;
            && m.http in r'
            && r'[m.http].table.Keys == (if m.http in r then r[m.http].table.Keys else {}) + {m.coord}
            && r'[m.http].sizes == if m.http in r then r[m.http].sizes else NO_SIZES
  {
    var seen: map<Coord, Addr> := if m.http in r then r[m.http].table else map[];
    assert Listen(r, m).registry[m.http].table == seen[m.coord := m.zmq];
  }

  lemma InitSizes(r: Registry, m: Message)
    requires m.Init?
    ensures var r' := Listen(r, m).registry;
            && m.http in r' && r'[m.http].sizes == m.sizes
            && r'[m.http].table.Keys == if m.http in r then r[m.http].table.Keys else {}
  {}

  lemma {:induction false} AfterKnows(kind: Kind, a: Addr, z: Sizes, start: Registry, ms: seq<Message>, k: nat)
    requires a !in start && k <= |ms|
    requires forall i :: 0 <= i < |ms| && About(ms[i], kind, a) && ms[i].Init? ==> ms[i].sizes == z
    ensures Knows(kind, a, z, ms, k, After(kind, start, ms, k))
  {
    if k > 0 {
      AfterKnows(kind, a, z, start, ms, k - 1);
      KnowsNext(kind, a, z, ms, k - 1, After(kind, start, ms, k - 1));
    }
  }

  /** The check skipped for an init from an unknown address would fail: nothing is registered yet. */
  lemma AppendedIsReady(registry: Registry, m: Message)
    ensures var l := Listen(registry, m); m.http in l.registry && (l.appended <==> IsReady(l.registry[m.http]))
  {
    var l := Listen(registry, m);
    if m.Init? && m.http !in registry {
      assert l.registry[m.http].table.Keys == {};
    }
  }

  /** After message `k` about `a`, the count test passes exactly when everything has arrived. */
  lemma AppendedIff(kind: Kind, a: Addr, z: Sizes, start: Registry, ms: seq<Message>, k: nat)
    requires a !in start && k < |ms| && ArrivesOnce(kind, a, z, ms) && About(ms[k], kind, a)
    ensures AppendedAt(kind, start, ms, k) <==>
            Positive(z) && InitSeen(kind, a, ms, k + 1) && Registered(kind, a, ms, k + 1) == Box(z)
  {
    AfterKnows(kind, a, z, start, ms, k + 1);
    AppendedIsReady(After(kind, start, ms, k), ms[k]);
    var got := Registered(kind, a, ms, k + 1);
    forall x | x in got ensures InBox(z, x) {
    }
    ReadyIffAll(After(kind, start, ms, k + 1)[a], z, got, InitSeen(kind, a, ms, k + 1));
  }

  lemma ReadyIffAll(i: Instance, z: Sizes, got: set<Coord>, known: bool)
    requires i.table.Keys == got && i.sizes == (if known then z else NO_SIZES)
    requires forall x :: x in got ==> InBox(z, x)
    ensures IsReady(i) <==> Positive(z) && known && got == Box(z)
  {
    BoxIsBox(z);
    assert got <= Box(z);
    if known && |got| == |Box(z)| { SubsetOfSameSize(got, Box(z)); }
  }

  /** For every arrival order, an instance with positive sizes is appended exactly at the last of its
      messages; one without is never appended. */
  lemma AppendedAtLast(kind: Kind, a: Addr, z: Sizes, start: Registry, ms: seq<Message>, k: nat)
    requires a !in start && k < |ms| && ArrivesOnce(kind, a, z, ms) && About(ms[k], kind, a)
    ensures AppendedAt(kind, start, ms, k) <==>
            Positive(z) && forall j :: k < j < |ms| ==> !About(ms[j], kind, a)
  {
    AppendedIff(kind, a, z, start, ms, k);
    BoxIsBox(z);
    if AppendedAt(kind, start, ms, k) {
      forall j | k < j < |ms| ensures !About(ms[j], kind, a) {
        if About(ms[j], kind, a) { NoneLeft(kind, a, z, ms, k, j); }
      }
    }
    if forall j :: k < j < |ms| ==> !About(ms[j], kind, a) {
      AllEarlier(kind, a, ms, k);
      assert Registered(kind, a, ms, |ms|) == Box(z);
    }
  }

  lemma NoneLeft(kind: Kind, a: Addr, z: Sizes, ms: seq<Message>, k: nat, j: nat)
    requires ArrivesOnce(kind, a, z, ms) && k < j < |ms| && About(ms[j], kind, a)
    ensures !InitSeen(kind, a, ms, k + 1) || Registered(kind, a, ms, k + 1) != Box(z)
  {
    BoxIsBox(z);
    if ms[j].Init? {
      if InitSeen(kind, a, ms, k + 1) {
        var i :| 0 <= i < k + 1 && About(ms[i], kind, a) && ms[i].Init?;
        assert SamePlace(ms[i], ms[j]);
      }
    } else if ms[j].coord in Registered(kind, a, ms, k + 1) {
      var i :| 0 <= i < k + 1 && About(ms[i], kind, a) && ms[i].Register? && ms[i].coord == ms[j].coord;
      assert SamePlace(ms[i], ms[j]);
    }
  }

  lemma AllEarlier(kind: Kind, a: Addr, ms: seq<Message>, k: nat)
    requires k < |ms| && forall j :: k < j < |ms| ==> !About(ms[j], kind, a)
    ensures Registered(kind, a, ms, k + 1) == Registered(kind, a, ms, |ms|)
    ensures InitSeen(kind, a, ms, k + 1) == InitSeen(kind, a, ms, |ms|)
  {
    if InitSeen(kind, a, ms, |ms|) {
      var i :| 0 <= i < |ms| && About(ms[i], kind, a) && ms[i].Init?;
      assert i < k + 1;
    }
  }

  predicate OnlyAppend(kind: Kind, a: Addr, start: Registry, ms: seq<Message>, k: nat)
    requires k < |ms|
  {
    && About(ms[k], kind, a) && AppendedAt(kind, start, ms, k)
    && forall j :: 0 <= j < |ms| && j != k && About(ms[j], kind, a) ==> !AppendedAt(kind, start, ms, j)
  }

  /** Hence exactly one message of the stream appends it. */
  lemma AppendedOnce(kind: Kind, a: Addr, z: Sizes, start: Registry, ms: seq<Message>)
    requires a !in start && ArrivesOnce(kind, a, z, ms) && Positive(z)
    ensures exists k :: 0 <= k < |ms| && OnlyAppend(kind, a, start, ms, k)
  {
    var k := LastAbout(kind, a, ms, |ms|);
    AppendedAtLast(kind, a, z, start, ms, k);
    forall j | 0 <= j < |ms| && j != k && About(ms[j], kind, a) ensures !AppendedAt(kind, start, ms, j) {
      AppendedAtLast(kind, a, z, start, ms, j);
    }
    assert OnlyAppend(kind, a, start, ms, k);
  }

  ghost function LastAbout(kind: Kind, a: Addr, ms: seq<Message>, n: nat): (k: nat)
    requires n <= |ms| && InitSeen(kind, a, ms, n)
    ensures k < n && About(ms[k], kind, a) && forall j :: k < j < n ==> !About(ms[j], kind, a)
  {
    if About(ms[n - 1], kind, a) then n - 1 else LastAbout(kind, a, ms, n - 1)
  }

  // ---------------------------------------------------------------- repeated messages

  /** The address in the last registration of the coordinate among the first `k` messages. */
  function LastAddress(kind: Kind, a: Addr, x: Coord, ms: seq<Message>, k: nat): (z: seq<Addr>)
    requires k <= |ms|
  {
    if k == 0 then []
    else if About(ms[k - 1], kind, a) && ms[k - 1].Register? && ms[k - 1].coord == x then [ms[k - 1].zmq]
    else LastAddress(kind, a, x, ms, k - 1)
  }

  /** The sizes in the last init message. */
  function LastSizes(kind: Kind, a: Addr, ms: seq<Message>, k: nat): Sizes
    requires k <= |ms|
  {
    if k == 0 then NO_SIZES
    else if About(ms[k - 1], kind, a) && ms[k - 1].Init? then ms[k - 1].sizes
    else LastSizes(kind, a, ms, k - 1)
  }

  /** For every stream of messages, repeated ones included: a coordinate has an address exactly when it was registered,
      and it is the one registered last; the sizes are those sent last. */
  lemma {:induction false} LastMessageCounts(kind: Kind, a: Addr, x: Coord, ms: seq<Message>, k: nat)
    requires k <= |ms|
    ensures var r := After(kind, map[], ms, k);
            && (a !in r ==> LastAddress(kind, a, x, ms, k) == [] && LastSizes(kind, a, ms, k) == NO_SIZES)
            && (a in r ==>
                  && r[a].sizes == LastSizes(kind, a, ms, k)
                  && (x in r[a].table <==> LastAddress(kind, a, x, ms, k) != [])
                  && (x in r[a].table ==> [r[a].table[x]] == LastAddress(kind, a, x, ms, k)))
  {
    if k > 0 { LastMessageCounts(kind, a, x, ms, k - 1); }
  }
}
