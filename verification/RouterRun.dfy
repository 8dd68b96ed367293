/**
 One run of the router with prefill instances of different sizes. It shows that the exact conditions on
 rank tables and mappings are needed: a table and a mapping of the same pair can each be wrong while
 the other is right.
 */
module RouterRun {
  import opened Common
  import opened RouterLayout
  import opened RouterRegistry
  import opened RouterPairing

  const ONE := Sizes(1, 1, 1)
  const TWO := Sizes(1, 1, 2)
  const ORIGIN := Coord(0, 0, 0)
  const SECOND := Coord(0, 0, 1)

  /** Prefill instance "q" has two tp ranks, every other instance has one rank. */
  const LAYOUT := Config((kind, a) => if a == "q" then TWO else ONE, (kind, a, x, z) => true)

  const FIRST_PAIR := Pair("p", "d")
  const LATER_PAIR := Pair("q", "d")

  lemma {:induction false} ReachesNext(c: Config, r: Router, es: seq<Event>, w: Router, e: Event)
    requires Reaches(c, r, es, w)
    requires (e.Heard? ==> Conforms(c, e.message)) && (e.Drained? ==> CanDrain(w))
    ensures Reaches(c, r, es + [e], Next(w, e))
    decreases |es|
  {
    if es == [] {
      assert [e][1..] == [];
    } else {
      assert (es + [e])[1..] == es[1..] + [e];
      ReachesNext(c, Next(r, es[0]), es[1..], w, e);
    }
  }

  lemma Kept(es: seq<Event>, v: Router)
    requires Reaches(LAYOUT, START, es, v)
    ensures RouterOk(LAYOUT, v)
  {
    StartOk(LAYOUT);
    RunKeeps(LAYOUT, START, es, v);
  }

  function Whole(a: Addr): Instance { Instance(ONE, map[ORIGIN := a]) }

  lemma OneRankReady(g: Registry, kind: Kind, a: Addr)
    requires a in g && g[a] == Instance(ONE, map[])
    ensures Listen(g, Register(kind, a, ORIGIN, a)) == Listened(g[a := Whole(a)], true)
  {
    assert map[][ORIGIN := a] == map[ORIGIN := a];
    assert Whole(a).table.Keys == {ORIGIN};
  }

  /** A prefill instance with one rank sends its two messages. */
  lemma PrefillArrives(r: Router, a: Addr, es: seq<Event>) returns (es': seq<Event>)
    requires Reaches(LAYOUT, START, es, r) && a != "q" && a !in r.prefill
    ensures Reaches(LAYOUT, START, es', r.(prefill := r.prefill[a := Whole(a)], pendingP := r.pendingP + [a]))
  {
    var init, register := Init(P, a, ONE), Register(P, a, ORIGIN, a);
    ReachesNext(LAYOUT, START, es, r, Heard(init));
    var w := r.(prefill := r.prefill[a := Instance(ONE, map[])]);
    assert Hear(r, init) == w;
    OneRankReady(w.prefill, P, a);
    assert w.prefill[a := Whole(a)] == r.prefill[a := Whole(a)];
    ReachesNext(LAYOUT, START, es + [Heard(init)], w, Heard(register));
    es' := es + [Heard(init)] + [Heard(register)];
  }

  /** A decode instance with one rank sends its two messages. */
  lemma DecodeArrives(r: Router, a: Addr, es: seq<Event>) returns (es': seq<Event>)
    requires Reaches(LAYOUT, START, es, r) && a != "q" && a !in r.decode
    ensures Reaches(LAYOUT, START, es', r.(decode := r.decode[a := Whole(a)], pendingD := r.pendingD + [a]))
  {
    var init, register := Init(D, a, ONE), Register(D, a, ORIGIN, a);
    ReachesNext(LAYOUT, START, es, r, Heard(init));
    var w := r.(decode := r.decode[a := Instance(ONE, map[])]);
    assert Hear(r, init) == w;
    OneRankReady(w.decode, D, a);
    assert w.decode[a := Whole(a)] == r.decode[a := Whole(a)];
    ReachesNext(LAYOUT, START, es + [Heard(init)], w, Heard(register));
    es' := es + [Heard(init)] + [Heard(register)];
  }

  // the second prefill instance: its sizes, and later its two ranks

  lemma SizesArrive(r: Router, es: seq<Event>) returns (es': seq<Event>)
    requires Reaches(LAYOUT, START, es, r) && "q" !in r.prefill
    ensures Reaches(LAYOUT, START, es', r.(prefill := r.prefill["q" := Instance(TWO, map[])]))
  {
    ReachesNext(LAYOUT, START, es, r, Heard(Init(P, "q", TWO)));
    es' := es + [Heard(Init(P, "q", TWO))];
  }

  lemma TwoRanksReady(g: Registry)
    requires "q" in g && g["q"] == Instance(TWO, map[])
    ensures var half := Listen(g, Register(P, "q", ORIGIN, "q0"));
            var full := Listen(half.registry, Register(P, "q", SECOND, "q1"));
            !half.appended && full.appended
  {
    var half := Listen(g, Register(P, "q", ORIGIN, "q0")).registry;
    assert half["q"].table.Keys == {ORIGIN};
    var full := Listen(half, Register(P, "q", SECOND, "q1")).registry;
    assert full["q"].table.Keys == {ORIGIN, SECOND};
  }

  lemma RanksArrive(r: Router, es: seq<Event>) returns (es': seq<Event>, g: Registry)
    requires Reaches(LAYOUT, START, es, r) && "q" in r.prefill && r.prefill["q"] == Instance(TWO, map[])
    ensures Reaches(LAYOUT, START, es', r.(prefill := g, pendingP := r.pendingP + ["q"]))
  {
    TwoRanksReady(r.prefill);
    var first, second := Register(P, "q", ORIGIN, "q0"), Register(P, "q", SECOND, "q1");
    ReachesNext(LAYOUT, START, es, r, Heard(first));
    var w := r.(prefill := Listen(r.prefill, first).registry);
    assert Hear(r, first) == w;
    ReachesNext(LAYOUT, START, es + [Heard(first)], w, Heard(second));
    es', g := es + [Heard(first)] + [Heard(second)], Listen(w.prefill, second).registry;
  }

  // ---------------------------------------------------------------- the two drains

  lemma DrainHappens(r: Router, es: seq<Event>) returns (es': seq<Event>)
    requires Reaches(LAYOUT, START, es, r)
    ensures CanDrain(r) && RouterOk(LAYOUT, Drain(r)) && Reaches(LAYOUT, START, es', Drain(r))
  {
    Kept(es, r);
    DrainKeeps(LAYOUT, r);
    ReachesNext(LAYOUT, START, es, r, Drained);
    es' := es + [Drained];
  }

  /** With one pair there is one partner. */
  lemma OnlyPartner(r: Router)
    requires RouterOk(LAYOUT, r) && r.readyP == ["p"] && r.readyD == ["d"]
    ensures FIRST_PAIR in r.pairs && LastPartner(r.log, "d") == Some("p")
  {
    assert TablesOk(LAYOUT, r, FIRST_PAIR);
  }

  /** The second drain pairs "q" with "d", and nothing after it. */
  lemma LaterPartner(r: Router)
    requires RouterOk(LAYOUT, r) && CanDrain(r) && r.readyP == ["p"] && r.readyD == ["d"]
    requires r.pendingP == ["q"] && r.pendingD == []
    ensures LATER_PAIR in Drain(r).pairs && LastPartner(Drain(r).log, "d") == Some("q")
  {
    assert Rows(["q"][1..], ["d"]) == [];
    assert Row("q", ["d"]) == [LATER_PAIR];
    assert Todo(r) == [LATER_PAIR];
    assert LATER_PAIR in Todo(r);
    var v := PairUp(r, "q", "d");
    assert PairEach(r, [LATER_PAIR]) == v by { assert [LATER_PAIR][1..] == []; }
    assert LATER_PAIR !in r.pairs;
    LogGrows(r.log, LATER_PAIR, r.prefill["q"], r.decode["d"], r.nextId, LATER_PAIR);
  }

  // ---------------------------------------------------------------- the run

  /** A request for the couple, while "d" is paired with "p" only, leaves a mapping made with "p". */
  lemma MappingMade(r: Router, x: Pair, es: seq<Event>) returns (es': seq<Event>, k: Cache)
    requires Reaches(LAYOUT, START, es, r) && r.readyP == ["p"] && r.readyD == ["d"]
    requires x.d == "d" && x.p in r.prefill && r.prefill[x.p].sizes.tp != 0 && (x, 0) !in r.caches
    ensures Reaches(LAYOUT, START, es', r.(caches := r.caches[(x, 0) := k], partners := r.partners[(x,
              0) := Some("p")]))
  {
    Kept(es, r);
    OnlyPartner(r);
    assert PairOk(LAYOUT, r, FIRST_PAIR);
    DispatchSucceedsIff(LAYOUT, es, r, x, 0);
    k := CacheFor(r, x, 0).value;
    ReachesNext(LAYOUT, START, es, r, Dispatched(x, 0));
    es' := es + [Dispatched(x, 0)];
  }

  /** The run up to the first pairing. */
  lemma FirstPairing() returns (es: seq<Event>, v: Router)
    ensures Reaches(LAYOUT, START, es, v)
    ensures v.readyP == ["p"] && v.readyD == ["d"] && v.pendingP == [] && v.pendingD == [] && v.caches == map[]
    ensures v.prefill == map["p" := Whole("p")]
  {
    es := PrefillArrives(START, "p", []);
    var r := START.(prefill := START.prefill["p" := Whole("p")], pendingP := START.pendingP + ["p"]);
    es := DecodeArrives(r, "d", es);
    r := r.(decode := r.decode["d" := Whole("d")], pendingD := r.pendingD + ["d"]);
    es := DrainHappens(r, es);
    v := Drain(r);
  }

  predicate MadeWithFirst(r: Router, x: Pair) {
    (x, 0) in r.caches && (x, 0) in r.partners && r.partners[(x, 0)] == Some("p")
  }

  /** A mapping for the first pair, and the sizes of "q". */
  lemma FirstMapping() returns (es: seq<Event>, v: Router)
    ensures Reaches(LAYOUT, START, es, v)
    ensures v.readyP == ["p"] && v.readyD == ["d"] && v.pendingP == [] && v.pendingD == []
    ensures "q" in v.prefill && v.prefill["q"] == Instance(TWO, map[])
    ensures MadeWithFirst(v, FIRST_PAIR) && (LATER_PAIR, 0) !in v.caches
  {
    var r, k;
    es, r := FirstPairing();
    es, k := MappingMade(r, FIRST_PAIR, es);
    r := r.(caches := r.caches[(FIRST_PAIR, 0) := k], partners := r.partners[(FIRST_PAIR, 0) := Some("p")]);
    es := SizesArrive(r, es);
    v := r.(prefill := r.prefill["q" := Instance(TWO, map[])]);
  }

  /** A mapping for "q" although it is not paired yet; then its ranks. */
  lemma BothMappings() returns (es: seq<Event>, v: Router)
    ensures Reaches(LAYOUT, START, es, v)
    ensures v.readyP == ["p"] && v.readyD == ["d"] && v.pendingP == ["q"] && v.pendingD == []
    ensures MadeWithFirst(v, FIRST_PAIR) && MadeWithFirst(v, LATER_PAIR)
  {
    var r, k, g;
    es, r := FirstMapping();
    es, k := MappingMade(r, LATER_PAIR, es);
    r := r.(caches := r.caches[(LATER_PAIR, 0) := k], partners := r.partners[(LATER_PAIR, 0) := Some("p")]);
    es, g := RanksArrive(r, es);
    v := r.(prefill := g, pendingP := r.pendingP + ["q"]);
  }

  /** A mapping made with "p" is found again, right for the first pair and wrong for the later one. */
  lemma MappingsAfter(es: seq<Event>, v: Router, x: Pair)
    requires Reaches(LAYOUT, START, es, v) && x in v.pairs && x.d == "d"
    requires MadeWithFirst(v, x)
    ensures CacheFor(v, x, 0).Some?
    ensures CacheFrom(LAYOUT, x, 0, CacheFor(v, x, 0).value, Count(LAYOUT, P, x.p)) <==> x.p != "q"
  {
    Kept(es, v);
    assert PairOk(LAYOUT, v, x);
    MappingHoldsPairRanksIff(LAYOUT, es, v, x, 0);
  }

  /** A run from the start after which, of two initialized pairs with one decode instance, the table is wrong for
      the first and right for the later one, while the cached mappings are right for the first and
      wrong for the later one. */
  lemma LaterPairingOverwrites() returns (es: seq<Event>, v: Router)
    ensures Reaches(LAYOUT, START, es, v) && FIRST_PAIR in v.pairs && LATER_PAIR in v.pairs
    ensures "d" in v.ranksD && ORIGIN in v.ranksD["d"]
    ensures v.ranksD["d"][ORIGIN] != PairRank(LAYOUT, FIRST_PAIR, D, ORIGIN)
    ensures v.ranksD["d"][ORIGIN] == PairRank(LAYOUT, LATER_PAIR, D, ORIGIN)
    ensures CacheFor(v, FIRST_PAIR, 0).Some? && CacheFor(v, LATER_PAIR, 0).Some?
    ensures CacheFrom(LAYOUT, FIRST_PAIR, 0, CacheFor(v, FIRST_PAIR, 0).value, Count(LAYOUT, P, "p"))
    ensures !CacheFrom(LAYOUT, LATER_PAIR, 0, CacheFor(v, LATER_PAIR, 0).value, Count(LAYOUT, P, "q"))
  {
    var r;
    es, r := BothMappings();
    Kept(es, r);
    es := DrainHappens(r, es);
    v := Drain(r);
    LaterPartner(r);
    TableHoldsPairRanksIff(LAYOUT, es, v, FIRST_PAIR, ORIGIN);
    TableHoldsPairRanksIff(LAYOUT, es, v, LATER_PAIR, ORIGIN);
    MappingsAfter(es, v, FIRST_PAIR);
    MappingsAfter(es, v, LATER_PAIR);
  }

  /** Without any dispatch before it: once "q" has been paired too, the first request for the initialized pair
      of "p" and "d" gets a new mapping with wrong ranks. */
  lemma FirstRequestMisled() returns (es: seq<Event>, v: Router)
    ensures Reaches(LAYOUT, START, es, v) && FIRST_PAIR in v.pairs && v.caches == map[]
    ensures CacheFor(v, FIRST_PAIR, 0).Some?
    ensures !CacheFrom(LAYOUT, FIRST_PAIR, 0, CacheFor(v, FIRST_PAIR, 0).value, Count(LAYOUT, P, "p"))
  {
    var r;
    es, r := BothReady();
    Kept(es, r);
    es := DrainHappens(r, es);
    v := Drain(r);
    LaterPartner(r);
    FreshMapping(es, v);
  }

  lemma BothReady() returns (es: seq<Event>, v: Router)
    ensures Reaches(LAYOUT, START, es, v) && v.caches == map[]
    ensures v.readyP == ["p"] && v.readyD == ["d"] && v.pendingP == ["q"] && v.pendingD == []
  {
    var r, g;
    es, r := FirstPairing();
    es := SizesArrive(r, es);
    r := r.(prefill := r.prefill["q" := Instance(TWO, map[])]);
    es, g := RanksArrive(r, es);
    v := r.(prefill := g, pendingP := r.pendingP + ["q"]);
  }

  lemma FreshMapping(es: seq<Event>, v: Router)
    requires Reaches(LAYOUT, START, es, v) && FIRST_PAIR in v.pairs && v.caches == map[]
    requires LastPartner(v.log, "d") == Some("q")
    ensures CacheFor(v, FIRST_PAIR, 0).Some?
    ensures !CacheFrom(LAYOUT, FIRST_PAIR, 0, CacheFor(v, FIRST_PAIR, 0).value, Count(LAYOUT, P, "p"))
  {
    Kept(es, v);
    assert PairOk(LAYOUT, v, FIRST_PAIR);
    DispatchSucceedsIff(LAYOUT, es, v, FIRST_PAIR, 0);
    MappingHoldsPairRanksIff(LAYOUT, es, v, FIRST_PAIR, 0);
  }
}
