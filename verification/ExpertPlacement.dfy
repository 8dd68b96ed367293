/**
 Static expert placement for Step5: the rows of the packed expert tensors and of the router
 are permuted while the checkpoint streams through the loader. Placement must accept exactly
 the permutations, must not depend on how the stream is cut into load calls, and must leave
 the routed MoE output of every token unchanged.
 */
module ExpertPlacement {
  import opened Common

  // ---------------------------------------------------------------- accepting a row

  predicate InRange(row: seq<int>) {
    forall i :: 0 <= i < |row| ==> 0 <= row[i] < |row|
  }

  predicate Distinct(s: seq<int>) {
    forall i, j :: 0 <= i < j < |s| ==> s[i] != s[j]
  }

  predicate IsPermutation(row: seq<int>) {
    InRange(row) && Distinct(row)
  }

  predicate Ascending(s: seq<int>) {
    forall i, j :: 0 <= i < j < |s| ==> s[i] <= s[j]
  }

  function InsertInt(x: int, s: seq<int>): seq<int> {
    if s == [] || x <= s[0] then [x] + s else [s[0]] + InsertInt(x, s[1..])
  }

  /** torch.sort(row).values */
  function SortInts(s: seq<int>): seq<int> {
    if s == [] then [] else InsertInt(s[0], SortInts(s[1..]))
  }

  function Identity(n: nat): seq<int> {
    seq(n, i => i)
  }

  /** torch.equal(row.sort().values, arange) */
  predicate Accepts(row: seq<int>) {
    SortInts(row) == Identity(|row|)
  }

  function Occurrences(s: seq<int>, x: int): nat {
    if s == [] then 0 else (if s[0] == x then 1 else 0) + Occurrences(s[1..], x)
  }

  lemma {:induction false} InsertIntKeeps(x: int, s: seq<int>)
    requires Ascending(s)
    ensures Ascending(InsertInt(x, s)) && |InsertInt(x, s)| == |s| + 1
    ensures forall y :: y in InsertInt(x, s) <==> y == x || y in s
  {
    if s != [] && x > s[0] {
      InsertIntKeeps(x, s[1..]);
      assert forall y :: y in s <==> y == s[0] || y in s[1..];
      var tail := InsertInt(x, s[1..]);
      forall j | 0 <= j < |tail| ensures s[0] <= tail[j] {
        assert tail[j] in tail;
      }
      assert InsertInt(x, s) == [s[0]] + tail;
    } else {
      forall j | 0 <= j < |s| ensures x <= s[j] {
        assert s[0] <= s[j];
      }
    }
  }

  lemma {:induction false} InsertIntCounts(x: int, s: seq<int>, y: int)
    ensures Occurrences(InsertInt(x, s), y) == Occurrences(s, y) + (if x == y then 1 else 0)
  {
    if s == [] || x <= s[0] {
      assert ([x] + s)[1..] == s;
    } else {
      InsertIntCounts(x, s[1..], y);
      assert ([s[0]] + InsertInt(x, s[1..]))[1..] == InsertInt(x, s[1..]);
    }
  }

  lemma {:induction false} SortIntsKeeps(s: seq<int>)
    ensures Ascending(SortInts(s)) && |SortInts(s)| == |s|
    ensures forall y :: y in SortInts(s) <==> y in s
  {
    if s != [] {
      SortIntsKeeps(s[1..]);
      InsertIntKeeps(s[0], SortInts(s[1..]));
      assert forall y :: y in s <==> y == s[0] || y in s[1..];
    }
  }

  lemma {:induction false} SortIntsCounts(s: seq<int>, y: int)
    ensures Occurrences(SortInts(s), y) == Occurrences(s, y)
  {
    if s != [] {
      SortIntsCounts(s[1..], y);
      InsertIntCounts(s[0], SortInts(s[1..]), y);
    }
  }

  lemma {:induction false} OccursIn(s: seq<int>, x: int)
    ensures Occurrences(s, x) > 0 <==> x in s
  {
    if s != [] {
      OccursIn(s[1..], x);
      assert x in s <==> x == s[0] || x in s[1..];
    }
  }

  ghost predicate AtMostOnce(s: seq<int>) {
    forall x :: Occurrences(s, x) <= 1
  }

  lemma {:induction false} DistinctCounts(s: seq<int>)
    ensures Distinct(s) <==> AtMostOnce(s)
  {
    if s != [] {
      var rest := s[1..];
      DistinctCounts(rest);
      OccursIn(rest, s[0]);
      if Distinct(s) {
        assert s[0] !in rest;
        assert Distinct(rest) by {
          forall i, j | 0 <= i < j < |rest| ensures rest[i] != rest[j] {
            assert rest[i] == s[i + 1] && rest[j] == s[j + 1];
          }
        }
        forall x ensures Occurrences(s, x) <= 1 { assert Occurrences(rest, x) <= 1; }
      }
      if AtMostOnce(s) {
        forall x ensures Occurrences(rest, x) <= 1 { assert Occurrences(s, x) <= 1; }
        assert Occurrences(s, s[0]) <= 1;
        forall i, j | 0 <= i < j < |s| ensures s[i] != s[j] {
          assert s[j] == rest[j - 1] && (i > 0 ==> s[i] == rest[i - 1]);
        }
      }
    }
  }

  lemma SortKeepsDistinct(s: seq<int>)
    ensures Distinct(SortInts(s)) <==> Distinct(s)
  {
    DistinctCounts(s);
    DistinctCounts(SortInts(s));
    if Distinct(s) {
      forall x ensures Occurrences(SortInts(s), x) <= 1 {
        SortIntsCounts(s, x);
        assert Occurrences(s, x) <= 1;
      }
    }
    if Distinct(SortInts(s)) {
      forall x ensures Occurrences(s, x) <= 1 {
        SortIntsCounts(s, x);
        assert Occurrences(SortInts(s), x) <= 1;
      }
    }
  }

  /** A strictly ascending list of n numbers below n is 0, 1, ..., n-1. */
  lemma {:induction false} AscendingFills(s: seq<int>, i: nat)
    requires Ascending(s) && Distinct(s) && i < |s|
    requires forall j :: 0 <= j < |s| ==> 0 <= s[j] < |s|
    ensures s[i] >= i
  {
    if i > 0 {
      AscendingFills(s, i - 1);
      assert s[i - 1] < s[i];
    }
  }

  lemma {:induction false} AscendingFillsBelow(s: seq<int>, i: nat)
    requires Ascending(s) && Distinct(s) && i < |s|
    requires forall j :: 0 <= j < |s| ==> 0 <= s[j] < |s|
    ensures s[i] <= i
    decreases |s| - i
  {
    if i < |s| - 1 {
      AscendingFillsBelow(s, i + 1);
      assert s[i] < s[i + 1];
    }
  }

  /** The loader accepts a row exactly when it is a permutation. */
  lemma AcceptsPermutations(row: seq<int>)
    ensures Accepts(row) <==> IsPermutation(row)
    ensures Accepts(row) ==> forall e :: 0 <= e < |row| ==> e in row
  {
    var sorted := SortInts(row);
    SortIntsKeeps(row);
    SortKeepsDistinct(row);
    if Accepts(row) {
      forall i | 0 <= i < |row| ensures 0 <= row[i] < |row| {
        assert row[i] in sorted;
      }
      forall e | 0 <= e < |row| ensures e in row {
        assert sorted[e] in sorted;
      }
    }
    if IsPermutation(row) {
      forall i | 0 <= i < |sorted| ensures 0 <= sorted[i] < |sorted| {
        assert sorted[i] in row;
      }
      forall i | 0 <= i < |sorted| ensures sorted[i] == i {
        AscendingFills(sorted, i);
        AscendingFillsBelow(sorted, i);
      }
    }
  }

  // ---------------------------------------------------------------- the stream

  datatype Projection = GateProj | UpProj | DownProj
  datatype Part = Weight | WeightScale | WeightScaleInv

  /** The tensors the placement pattern selects inside a MoE block. */
  datatype Kind = RouterWeight | RouterBias | Packed(projection: Projection, part: Part)

  /** What the name of a checkpoint tensor says. */
  datatype Target = Placed(layer: nat, kind: Kind) | PerExpert(name: string) | Other(name: string)

  type Row = seq<real>

  datatype Tensor = Scalar(value: real) | Rows(rows: seq<Row>)

  datatype Item = Item(target: Target, tensor: Tensor)

  datatype Error = NotAMap | NotAPermutation | NeedsPackedExperts | ShapeMismatch

  /** Physical-to-logical rows by MoE layer. */
  type Placement = map<nat, seq<int>>

  predicate PlacementOk(placement: Placement) {
    forall l :: l in placement ==> IsPermutation(placement[l]) && placement[l] != []
  }

  function Reindex(rows: seq<Row>, row: seq<int>): seq<Row>
    requires InRange(row) && |rows| == |row|
  {
    seq(|row|, i requires 0 <= i < |row| => rows[row[i]])
  }

  function PlaceItem(item: Item, placement: Placement): Result<Item, Error>
    requires PlacementOk(placement)
  {
    if item.target.PerExpert? then Err(NeedsPackedExperts)
    else if item.target.Placed? && item.target.layer in placement then
      var row := placement[item.target.layer];
      if item.tensor.Scalar? || |item.tensor.rows| != |row| then Err(ShapeMismatch)
      else Ok(item.(tensor := Rows(Reindex(item.tensor.rows, row))))
    else Ok(item)
  }

  /** The whole stream; the first tensor that cannot be placed stops it. */
  function PlaceStream(items: seq<Item>, placement: Placement): Result<seq<Item>, Error>
    requires PlacementOk(placement)
  {
    if items == [] then Ok([])
    else
      var front := PlaceStream(items[..|items| - 1], placement);
      if front.Err? then front
      else
        var last := PlaceItem(items[|items| - 1], placement);
        if last.Err? then Err(last.error) else Ok(front.value + [last.value])
  }

  /** Reads the map, rejects anything that is not one permutation per MoE layer, then places the
      stream tensor by tensor. */
  method PlaceExperts(items: seq<Item>, table: seq<seq<int>>, columns: nat, moeLayers: seq<nat>)
      returns (r: Result<seq<Item>, Error>, placement: Placement)
    requires forall l :: 0 <= l < |table| ==> |table[l]| == columns
    requires Distinct(moeLayers)
    ensures PlacementOk(placement)
    ensures r == Err(NotAMap) <==> |table| != |moeLayers| || columns == 0
    ensures r == Err(NotAPermutation) <==>
              |table| == |moeLayers| && columns != 0 && exists l :: 0 <= l < |table| && !IsPermutation(table[l])
    ensures |table| == |moeLayers| && columns != 0 && (forall l :: 0 <= l < |table| ==> IsPermutation(table[l])) ==>
              && placement.Keys == (set l | l in moeLayers)
              && (forall i :: 0 <= i < |moeLayers| ==> placement[moeLayers[i]] == table[i])
              && r == PlaceStream(items, placement)
  {
    placement := map[];
    if |table| != |moeLayers| || columns == 0 {
      return Err(NotAMap), placement;
    }
    for l := 0 to |table|
      invariant forall k :: 0 <= k < l ==> IsPermutation(table[k])
    {
      AcceptsPermutations(table[l]);
      if !Accepts(table[l]) {
        return Err(NotAPermutation), placement;
      }
    }
    for l := 0 to |table|
      invariant placement.Keys == (set k | 0 <= k < l :: moeLayers[k])
      invariant forall k :: 0 <= k < l ==> placement[moeLayers[k]] == table[k]
    {
      placement := placement[moeLayers[l] := table[l]];
    }
    var out: seq<Item> := [];
    for n := 0 to |items|
      invariant PlacementOk(placement)
      invariant PlaceStream(items[..n], placement) == Ok(out)
    {
      var placed := PlaceItem(items[n], placement);
      assert items[..n + 1][..n] == items[..n];
      if placed.Err? {
        ErrorStays(items, n + 1, placement);
        return Err(placed.error), placement;
      }
      out := out + [placed.value];
    }
    assert items[..|items|] == items;
    return Ok(out), placement;
  }

  lemma {:induction false} ErrorStays(items: seq<Item>, n: nat, placement: Placement)
    requires PlacementOk(placement) && n <= |items| && PlaceStream(items[..n], placement).Err?
    ensures PlaceStream(items, placement) == PlaceStream(items[..n], placement)
    decreases |items|
  {
    if n < |items| {
      var front := items[..|items| - 1];
      assert front[..n] == items[..n];
      ErrorStays(front, n, placement);
    } else {
      assert items[..n] == items;
    }
  }

  /** The tensor is not an expert of its own, and if the placement selects it, it has one row per expert. */
  predicate Placeable(item: Item, placement: Placement) {
    && !item.target.PerExpert?
    && (item.target.Placed? && item.target.layer in placement ==>
          item.tensor.Rows? && |item.tensor.rows| == |placement[item.target.layer]|)
  }

  /** A stream is placed exactly when all its tensors can be, and then tensor by tensor with targets unchanged. */
  lemma {:induction false} PlacedWhenPlaceable(items: seq<Item>, placement: Placement)
    requires PlacementOk(placement)
    ensures var r := PlaceStream(items, placement);
            && (r.Ok? <==> forall i :: 0 <= i < |items| ==> Placeable(items[i], placement))
            && (r.Ok? ==> |r.value| == |items| && forall i :: 0 <= i < |items| ==> r.value[i].target == items[i].target)
  {
    if items != [] {
      var n := |items| - 1;
      PlacedWhenPlaceable(items[..n], placement);
      assert forall i :: 0 <= i < n ==> items[..n][i] == items[i];
      assert PlaceItem(items[n], placement).Ok? <==> Placeable(items[n], placement);
    }
  }

  /** The first tensor that cannot be placed decides the error. */
  lemma FirstFailureDecides(items: seq<Item>, placement: Placement, k: nat)
    requires PlacementOk(placement) && k < |items| && !Placeable(items[k], placement)
    requires forall i :: 0 <= i < k ==> Placeable(items[i], placement)
    ensures PlaceStream(items, placement) ==
            Err(if items[k].target.PerExpert? then NeedsPackedExperts else ShapeMismatch)
  {
    var upto := items[..k + 1];
    assert upto[..k] == items[..k] && upto[k] == items[k];
    PlacedWhenPlaceable(items[..k], placement);
    assert PlaceStream(upto, placement) == Err(PlaceItem(items[k], placement).error);
    ErrorStays(items, k + 1, placement);
  }

  // ---------------------------------------------------------------- splitting the load

  type Params = map<(nat, Kind), seq<Row>>

  /** Parameters after the selected tensors of a stream have been copied in. */
  function Load(params: Params, items: seq<Item>): Params {
    if items == [] then params
    else
      var front := Load(params, items[..|items| - 1]);
      var last := items[|items| - 1];
      if last.target.Placed? && last.tensor.Rows?
      then front[(last.target.layer, last.target.kind) := last.tensor.rows]
      else front
  }

  /** One load_weights call per part of the stream. */
  function LoadCalls(params: Params, parts: seq<seq<Item>>, placement: Placement): Result<Params, Error>
    requires PlacementOk(placement)
    decreases |parts|
  {
    if parts == [] then Ok(params)
    else
      var placed := PlaceStream(parts[0], placement);
      if placed.Err? then Err(placed.error)
      else LoadCalls(Load(params, placed.value), parts[1..], placement)
  }

  function Flatten(parts: seq<seq<Item>>): seq<Item> {
    if parts == [] then [] else parts[0] + Flatten(parts[1..])
  }

  lemma {:induction false} PlaceConcat(a: seq<Item>, b: seq<Item>, placement: Placement)
    requires PlacementOk(placement)
    ensures var pa, pb := PlaceStream(a, placement), PlaceStream(b, placement);
            PlaceStream(a + b, placement) ==
              if pa.Err? then pa else if pb.Err? then pb else Ok(pa.value + pb.value)
  {
    if b == [] {
      assert a + b == a;
      if PlaceStream(a, placement).Ok? {
        assert PlaceStream(a, placement).value + [] == PlaceStream(a, placement).value;
      }
    } else {
      var n := |b| - 1;
      assert (a + b)[..|a| + n] == a + b[..n];
      PlaceConcat(a, b[..n], placement);
      var pa, front := PlaceStream(a, placement), PlaceStream(b[..n], placement);
      if pa.Ok? && front.Ok? && PlaceItem(b[n], placement).Ok? {
        var last := [PlaceItem(b[n], placement).value];
        assert (pa.value + front.value) + last == pa.value + (front.value + last);
      }
    }
  }

  lemma {:induction false} LoadConcat(params: Params, a: seq<Item>, b: seq<Item>)
    ensures Load(params, a + b) == Load(Load(params, a), b)
  {
    if b == [] {
      assert a + b == a;
    } else {
      assert (a + b)[..|a| + |b| - 1] == a + b[..|b| - 1];
      LoadConcat(params, a, b[..|b| - 1]);
    }
  }

  /** However the stream is cut, the calls fail together or load the same parameters. */
  lemma {:induction false} SplitLoadsAgree(params: Params, parts: seq<seq<Item>>, placement: Placement)
    requires PlacementOk(placement)
    ensures LoadCalls(params, parts, placement) ==
              (var placed := PlaceStream(Flatten(parts), placement);
               if placed.Err? then Err(placed.error) else Ok(Load(params, placed.value)))
    decreases |parts|
  {
    if parts != [] {
      PlaceConcat(parts[0], Flatten(parts[1..]), placement);
      var first := PlaceStream(parts[0], placement);
      if first.Ok? {
        SplitLoadsAgree(Load(params, first.value), parts[1..], placement);
        var rest := PlaceStream(Flatten(parts[1..]), placement);
        if rest.Ok? { LoadConcat(params, first.value, rest.value); }
      }
    }
  }

  // ---------------------------------------------------------------- loaded layers

  /** All parameters of one expert, its router row and bias included. */
  type Expert = map<Kind, Row>

  const KINDS: set<Kind> := {
    RouterWeight, RouterBias,
    Packed(GateProj, Weight), Packed(GateProj, WeightScale), Packed(GateProj, WeightScaleInv),
    Packed(UpProj, Weight), Packed(UpProj, WeightScale), Packed(UpProj, WeightScaleInv),
    Packed(DownProj, Weight), Packed(DownProj, WeightScale), Packed(DownProj, WeightScaleInv)
  }

  function ExpertAt(params: Params, layer: nat, e: nat): Expert {
    map kind | kind in KINDS && (layer, kind) in params && e < |params[(layer, kind)]| :: params[(layer, kind)][e]
  }

  function Experts(params: Params, layer: nat, count: nat): seq<Expert> {
    seq(count, e requires 0 <= e < count => ExpertAt(params, layer, e))
  }

  /** Placement makes every parameter of a placed layer the reindexed one and no other. */
  lemma {:induction false} PlacedParams(items: seq<Item>, placement: Placement, key: (nat, Kind))
    requires PlacementOk(placement) && PlaceStream(items, placement).Ok?
    ensures var plain, placed := Load(map[], items), Load(map[], PlaceStream(items, placement).value);
            && (key in placed <==> key in plain)
            && (key in plain ==>
                  if key.0 in placement then
                    |plain[key]| == |placement[key.0]| && placed[key] == Reindex(plain[key], placement[key.0])
                  else placed[key] == plain[key])
  {
    if items != [] {
      var n := |items| - 1;
      var front := PlaceStream(items[..n], placement);
      var last := PlaceItem(items[n], placement);
      PlacedParams(items[..n], placement, key);
      assert (front.value + [last.value])[..|front.value|] == front.value;
    }
  }

  /** Slot `i` of a placed layer holds all the parameters of logical expert `row[i]`. */
  lemma PlacedExperts(items: seq<Item>, placement: Placement, layer: nat)
    requires PlacementOk(placement) && PlaceStream(items, placement).Ok? && layer in placement
    ensures var row := placement[layer];
            var logical := Experts(Load(map[], items), layer, |row|);
            var physical := Experts(Load(map[], PlaceStream(items, placement).value), layer, |row|);
            forall i :: 0 <= i < |row| ==> physical[i] == logical[row[i]]
  {
    var row := placement[layer];
    var plain, placed := Load(map[], items), Load(map[], PlaceStream(items, placement).value);
    var logical, physical := Experts(plain, layer, |row|), Experts(placed, layer, |row|);
    forall i | 0 <= i < |row| ensures physical[i] == logical[row[i]] {
      forall kind: Kind ensures Moved(plain, placed, (layer, kind), row) {
        PlacedParams(items, placement, (layer, kind));
      }
      ExpertMoves(plain, placed, layer, row, i);
    }
  }

  ghost predicate Moved(plain: Params, placed: Params, key: (nat, Kind), row: seq<int>)
    requires InRange(row)
  {
    && (key in placed <==> key in plain)
    && (key in plain ==> |plain[key]| == |row| && placed[key] == Reindex(plain[key], row))
  }

  lemma ExpertMoves(plain: Params, placed: Params, layer: nat, row: seq<int>, i: nat)
    requires InRange(row) && i < |row|
    requires forall kind: Kind :: Moved(plain, placed, (layer, kind), row)
    ensures ExpertAt(placed, layer, i) == ExpertAt(plain, layer, row[i])
  {
    forall kind | kind in KINDS
      ensures kind in ExpertAt(placed, layer, i) <==> kind in ExpertAt(plain, layer, row[i])
      ensures kind in ExpertAt(placed, layer, i) ==>
                ExpertAt(placed, layer, i)[kind] == ExpertAt(plain, layer, row[i])[kind]
    {
      assert Moved(plain, placed, (layer, kind), row);
    }
  }

  // ---------------------------------------------------------------- routing

  /** What one token sees of an expert: its router score, its selection bias, its output. */
  datatype Routing = Routing(score: Expert -> real, bias: Expert -> real, output: Expert -> real)

  function Biased(r: Routing, experts: seq<Expert>): seq<real> {
    seq(|experts|, e requires 0 <= e < |experts| => r.score(experts[e]) + r.bias(experts[e]))
  }

  /** `ids` is a valid answer of torch.topk: descending, and nothing left out is better. */
  predicate IsTopK(values: seq<real>, k: nat, ids: seq<nat>) {
    && |ids| == k && Distinct(ids)
    && (forall j :: 0 <= j < k ==> ids[j] < |values|)
    && (forall i, j :: 0 <= i < j < k ==> values[ids[i]] >= values[ids[j]])
    && (forall e, j :: 0 <= e < |values| && e !in ids && 0 <= j < k ==> values[e] <= values[ids[j]])
  }

  /** Adds the selected scores from left to right. */
  function ScoreSum(r: Routing, experts: seq<Expert>, ids: seq<nat>): real
    requires forall j :: 0 <= j < |ids| ==> ids[j] < |experts|
  {
    if ids == [] then 0.0 else ScoreSum(r, experts, ids[..|ids| - 1]) + r.score(experts[ids[|ids| - 1]])
  }

  /** The weighted sum over the first `n` of the selected experts. */
  function WeightedSum(r: Routing, experts: seq<Expert>, ids: seq<nat>, n: nat, norm: real, scaling: real): real
    requires n <= |ids| && norm != 0.0 && forall j :: 0 <= j < |ids| ==> ids[j] < |experts|
  {
    if n == 0 then 0.0
    else
      var e := experts[ids[n - 1]];
      WeightedSum(r, experts, ids, n - 1, norm, scaling) + (r.score(e) / norm * scaling) * r.output(e)
  }

  function Epsilon(): real { 0.00000000000000000001 }

  /** The routed output for one token: unbiased scores of the selected experts, optionally
      renormalized, times the scaling factor. Scores are sigmoids, so the norm is not zero. */
  function MoeOutput(r: Routing, experts: seq<Expert>, ids: seq<nat>, renormalize: bool, scaling: real): real
    requires forall j :: 0 <= j < |ids| ==> ids[j] < |experts|
    requires renormalize ==> ScoreSum(r, experts, ids) + Epsilon() != 0.0
  {
    WeightedSum(r, experts, ids, |ids|, if renormalize then ScoreSum(r, experts, ids) + Epsilon() else 1.0, scaling)
  }

  /** Every tie lies strictly below the last value selected by the top-k answer `ids`. */
  predicate TiesBelow(values: seq<real>, ids: seq<nat>)
    requires forall j :: 0 <= j < |ids| ==> ids[j] < |values|
  {
    ids != [] ==>
      forall i, j :: 0 <= i < j < |values| && values[i] == values[j] ==> values[i] < values[ids[|ids| - 1]]
  }

  lemma NoTieAbove(values: seq<real>, a: seq<nat>, i: nat, j: nat)
    requires a != [] && (forall m :: 0 <= m < |a| ==> a[m] < |values|) && TiesBelow(values, a)
    requires i < |values| && j < |values| && values[i] == values[j] >= values[a[|a| - 1]]
    ensures i == j
  {}

  lemma {:induction false} TopKUnique(values: seq<real>, k: nat, a: seq<nat>, b: seq<nat>, n: nat)
    requires IsTopK(values, k, a) && IsTopK(values, k, b) && TiesBelow(values, a) && n <= k
    ensures a[..n] == b[..n]
  {
    if n > 0 {
      TopKUnique(values, k, a, b, n - 1);
      TopKSameNext(values, k, a, b, n - 1);
      LongerPrefix(a, b, n);
    }
  }

  lemma LongerPrefix(a: seq<nat>, b: seq<nat>, n: nat)
    requires 0 < n <= |a| && n <= |b| && a[..n - 1] == b[..n - 1] && a[n - 1] == b[n - 1]
    ensures a[..n] == b[..n]
  {
    assert a[..n] == a[..n - 1] + [a[n - 1]];
    assert b[..n] == b[..n - 1] + [b[n - 1]];
  }

  lemma TopKSameNext(values: seq<real>, k: nat, a: seq<nat>, b: seq<nat>, n: nat)
    requires IsTopK(values, k, a) && IsTopK(values, k, b) && TiesBelow(values, a) && n < k && a[..n] == b[..n]
    ensures a[n] == b[n]
  {
    TopKNext(values, k, a, b, n);
    TopKNext(values, k, b, a, n);
    NoTieAbove(values, a, a[n], b[n]);
  }

  lemma TopKNext(values: seq<real>, k: nat, a: seq<nat>, b: seq<nat>, n: nat)
    requires IsTopK(values, k, a) && IsTopK(values, k, b) && n < k && a[..n] == b[..n]
    ensures values[a[n]] <= values[b[n]]
  {
    forall m | 0 <= m < n ensures b[m] != a[n] {
      assert a[..n][m] == b[..n][m];
    }
  }

  /** Two tied experts that are both selected can be exchanged. */
  lemma SwapSelected(values: seq<real>, k: nat, a: seq<nat>, i: nat, j: nat)
    requires IsTopK(values, k, a) && i < j < k && values[a[i]] == values[a[j]]
    ensures IsTopK(values, k, a[i := a[j]][j := a[i]]) && a[i := a[j]][j := a[i]] != a
  {
    var b := a[i := a[j]][j := a[i]];
    assert b[i] == a[j] != a[i];
    forall m | 0 <= m < k ensures a[m] in b {
      assert b[if m == i then j else if m == j then i else m] == a[m];
    }
  }

  /** An expert that ties with the last selected one can replace it. */
  lemma ReplaceLast(values: seq<real>, k: nat, a: seq<nat>, e: nat)
    requires IsTopK(values, k, a) && k > 0 && e < |values| && e !in a && values[e] == values[a[k - 1]]
    ensures IsTopK(values, k, a[k - 1 := e]) && a[k - 1 := e] != a
  {
    var b := a[k - 1 := e];
    assert b[k - 1] == e != a[k - 1];
    forall m | 0 <= m < k - 1 ensures b[m] != e {
      assert a[m] in a;
    }
    forall m | 0 <= m < k - 1 ensures a[m] in b {
      assert b[m] == a[m];
    }
    forall x | x in a && x !in b ensures x == a[k - 1] {
      var m :| 0 <= m < k && a[m] == x;
    }
  }

  /** Top-k has one answer exactly when every tie lies strictly below the last value selected. */
  lemma TopKUniqueIff(values: seq<real>, k: nat, a: seq<nat>)
    requires IsTopK(values, k, a)
    ensures TiesBelow(values, a) <==> forall b :: IsTopK(values, k, b) ==> b == a
  {
    if TiesBelow(values, a) {
      forall b | IsTopK(values, k, b) ensures b == a {
        TopKUnique(values, k, a, b, k);
        assert a[..k] == a && b[..k] == b;
      }
    } else {
      var b := OtherTopK(values, k, a);
    }
  }

  lemma OtherTopK(values: seq<real>, k: nat, a: seq<nat>) returns (b: seq<nat>)
    requires IsTopK(values, k, a) && !TiesBelow(values, a)
    ensures IsTopK(values, k, b) && b != a
  {
    var i, j :| 0 <= i < j < |values| && values[i] == values[j] && values[i] >= values[a[k - 1]];
    if i in a && j in a {
      var m :| 0 <= m < k && a[m] == i;
      var n :| 0 <= n < k && a[n] == j;
      if m < n {
        SwapSelected(values, k, a, m, n);
        b := a[m := a[n]][n := a[m]];
      } else {
        SwapSelected(values, k, a, n, m);
        b := a[n := a[m]][m := a[n]];
      }
    } else {
      var e := if i in a then j else i;
      ReplaceLast(values, k, a, e);
      b := a[k - 1 := e];
    }
  }

  /** Every value left out lies strictly below the last one selected. */
  predicate CutClear(values: seq<real>, ids: seq<nat>)
    requires forall j :: 0 <= j < |ids| ==> ids[j] < |values|
  {
    ids != [] ==> forall e :: 0 <= e < |values| && e !in ids ==> values[e] < values[ids[|ids| - 1]]
  }

  /** A distinct sequence inside another of the same length has the same elements. */
  lemma {:induction false} SameLengthInside(a: seq<nat>, b: seq<nat>)
    requires Distinct(a) && Distinct(b) && |a| == |b| && forall e :: e in a ==> e in b
    ensures multiset(a) == multiset(b)
    decreases |a|
  {
    if a != [] {
      var e := a[|a| - 1];
      assert e in a;
      var j :| 0 <= j < |b| && b[j] == e;
      var a', b' := a[..|a| - 1], b[..j] + b[j + 1..];
      assert a == a' + [e];
      WithoutOne(b, j);
      forall x | x in a' ensures x in b' {
        var m :| 0 <= m < |a'| && a'[m] == x;
        assert a[m] == x && x != e;
      }
      SameLengthInside(a', b');
    }
  }

  lemma WithoutOne(b: seq<nat>, j: nat)
    requires Distinct(b) && j < |b|
    ensures var b' := b[..j] + b[j + 1..];
            && Distinct(b') && |b'| == |b| - 1 && multiset(b) == multiset(b') + multiset{b[j]}
            && forall x :: x in b && x != b[j] ==> x in b'
  {
    assert b == b[..j] + [b[j]] + b[j + 1..];
  }

  /** With a clear cut the selected set is the same in every answer. */
  lemma SelectedSetUnique(values: seq<real>, k: nat, a: seq<nat>, b: seq<nat>)
    requires IsTopK(values, k, a) && IsTopK(values, k, b) && CutClear(values, a)
    ensures multiset(a) == multiset(b)
  {
    forall e | e in b ensures e in a {
      SelectedByBoth(values, k, a, b, e);
    }
    SameLengthInside(b, a);
  }

  lemma SelectedByBoth(values: seq<real>, k: nat, a: seq<nat>, b: seq<nat>, e: nat)
    requires IsTopK(values, k, a) && IsTopK(values, k, b) && CutClear(values, a) && e in b
    ensures e in a
  {
    if forall x :: x in a ==> x in b {
      SameLengthInside(a, b);
      assert e in multiset(b);
    } else {
      var x :| x in a && x !in b;
      NotBelowCut(values, k, a, b, e, x);
    }
  }

  /** What another answer selects in place of `x` is not below the cut. */
  lemma NotBelowCut(values: seq<real>, k: nat, a: seq<nat>, b: seq<nat>, e: nat, x: nat)
    requires IsTopK(values, k, a) && IsTopK(values, k, b) && e in b && x in a && x !in b
    ensures k > 0 && e < |values| && values[e] >= values[a[k - 1]]
  {
    var m :| 0 <= m < k && a[m] == x;
    var n :| 0 <= n < k && b[n] == e;
    assert values[x] >= values[a[k - 1]];
  }

  /** Mapping a physical top-k through the row gives a logical top-k. */
  lemma TopKMapped(logical: seq<real>, physical: seq<real>, row: seq<int>, k: nat, ids: seq<nat>, mapped: seq<nat>)
    requires IsPermutation(row) && |row| == |logical| == |physical|
    requires forall i :: 0 <= i < |row| ==> physical[i] == logical[row[i]]
    requires IsTopK(physical, k, ids)
    requires |mapped| == k && forall j :: 0 <= j < k ==> mapped[j] == row[ids[j]]
    ensures IsTopK(logical, k, mapped)
  {
    AcceptsPermutations(row);
    forall i, j | 0 <= i < j < k ensures mapped[i] != mapped[j] {
      RowInjective(row, ids[i], ids[j]);
    }
    forall e, j | 0 <= e < |logical| && e !in mapped && 0 <= j < k ensures logical[e] <= logical[mapped[j]] {
      assert e in row;
      var i :| 0 <= i < |row| && row[i] == e;
      assert forall m :: 0 <= m < k ==> mapped[m] in mapped;
      assert i !in ids;
    }
  }

  lemma RowInjective(row: seq<int>, i: nat, j: nat)
    requires Distinct(row) && i < |row| && j < |row| && i != j
    ensures row[i] != row[j]
  {}

  // ---------------------------------------------------------------- the output does not depend on the order

  /** The sum of `f` over the selected experts. */
  function SumOver(f: nat -> real, ids: seq<nat>): real {
    if ids == [] then 0.0 else SumOver(f, ids[..|ids| - 1]) + f(ids[|ids| - 1])
  }

  lemma {:induction false} SumOverConcat(f: nat -> real, a: seq<nat>, b: seq<nat>)
    ensures SumOver(f, a + b) == SumOver(f, a) + SumOver(f, b)
    decreases |b|
  {
    if b == [] {
      assert a + b == a;
    } else {
      assert (a + b)[..|a + b| - 1] == a + b[..|b| - 1];
      SumOverConcat(f, a, b[..|b| - 1]);
    }
  }

  lemma {:induction false} SumOverReordered(f: nat -> real, a: seq<nat>, b: seq<nat>)
    requires multiset(a) == multiset(b)
    ensures SumOver(f, a) == SumOver(f, b)
    decreases |a|
  {
    if a == [] {
      assert |multiset(b)| == 0;
    } else {
      var e := a[|a| - 1];
      assert e in multiset(b);
      var j :| 0 <= j < |b| && b[j] == e;
      RemovedOne(a, |a| - 1);
      RemovedOne(b, j);
      assert a[..|a| - 1] + a[|a|..] == a[..|a| - 1];
      SumOverReordered(f, a[..|a| - 1], b[..j] + b[j + 1..]);
      SplitAt(b, j);
      SumOverMiddle(f, b[..j], e, b[j + 1..]);
    }
  }

  lemma SplitAt(b: seq<nat>, j: nat)
    requires j < |b|
    ensures b == b[..j] + [b[j]] + b[j + 1..]
  {}

  lemma RemovedOne(b: seq<nat>, j: nat)
    requires j < |b|
    ensures multiset(b[..j] + b[j + 1..]) == multiset(b) - multiset{b[j]}
  {
    SplitAt(b, j);
  }

  lemma SumOverMiddle(f: nat -> real, front: seq<nat>, x: nat, back: seq<nat>)
    ensures SumOver(f, front + [x] + back) == SumOver(f, front + back) + f(x)
  {
    SumOverConcat(f, front, back);
    SumOverConcat(f, front + [x], back);
    assert (front + [x])[..|front|] == front;
  }

  lemma {:induction false} SameSum(r: Routing, a: seq<Expert>, b: seq<Expert>, x: seq<nat>, y: seq<nat>)
    requires |x| == |y|
    requires forall j :: 0 <= j < |x| ==> x[j] < |a| && y[j] < |b| && a[x[j]] == b[y[j]]
    ensures ScoreSum(r, a, x) == ScoreSum(r, b, y)
  {
    if x != [] { SameSum(r, a, b, x[..|x| - 1], y[..|y| - 1]); }
  }

  lemma {:induction false} SameWeighted(r: Routing, a: seq<Expert>, b: seq<Expert>, x: seq<nat>, y: seq<nat>,
                                        n: nat, norm: real, scaling: real)
    requires n <= |x| == |y| && norm != 0.0
    requires forall j :: 0 <= j < |x| ==> x[j] < |a| && y[j] < |b| && a[x[j]] == b[y[j]]
    ensures WeightedSum(r, a, x, n, norm, scaling) == WeightedSum(r, b, y, n, norm, scaling)
  {
    if n > 0 { SameWeighted(r, a, b, x, y, n - 1, norm, scaling); }
  }

  function ScoreOf(r: Routing, experts: seq<Expert>): nat -> real {
    (e: nat) => if e < |experts| then r.score(experts[e]) else 0.0
  }

  function TermOf(r: Routing, experts: seq<Expert>, norm: real, scaling: real): nat -> real
    requires norm != 0.0
  {
    (e: nat) => if e < |experts| then (r.score(experts[e]) / norm * scaling) * r.output(experts[e]) else 0.0
  }

  lemma {:induction false} ScoresSummed(r: Routing, experts: seq<Expert>, ids: seq<nat>)
    requires forall j :: 0 <= j < |ids| ==> ids[j] < |experts|
    ensures ScoreSum(r, experts, ids) == SumOver(ScoreOf(r, experts), ids)
  {
    if ids != [] { ScoresSummed(r, experts, ids[..|ids| - 1]); }
  }

  lemma {:induction false} TermsSummed(r: Routing, experts: seq<Expert>, ids: seq<nat>, n: nat, norm: real,
                                       scaling: real)
    requires n <= |ids| && norm != 0.0 && forall j :: 0 <= j < |ids| ==> ids[j] < |experts|
    ensures WeightedSum(r, experts, ids, n, norm, scaling) == SumOver(TermOf(r, experts, norm, scaling), ids[..n])
  {
    if n > 0 {
      TermsSummed(r, experts, ids, n - 1, norm, scaling);
      assert ids[..n][..n - 1] == ids[..n - 1];
    }
  }

  /** Experts that all answer `o` give the selected share of `o`: the scores over the norm, times the scaling factor. */
  lemma {:induction false} EqualAnswers(r: Routing, experts: seq<Expert>, ids: seq<nat>, n: nat, o: real, norm: real,
                                         scaling: real)
    requires n <= |ids| && norm != 0.0 && forall j :: 0 <= j < |ids| ==> ids[j] < |experts|
    requires forall j :: 0 <= j < |ids| ==> r.output(experts[ids[j]]) == o
    ensures Times(WeightedSum(r, experts, ids, n, norm, scaling), norm)
            == Times(ScoreSum(r, experts, ids[..n]), Times(scaling, o))
  {
    if n > 0 {
      EqualAnswers(r, experts, ids, n - 1, o, norm, scaling);
      assert ids[..n][..n - 1] == ids[..n - 1];
      OneShare(WeightedSum(r, experts, ids, n - 1, norm, scaling), ScoreSum(r, experts, ids[..n - 1]),
               r.score(experts[ids[n - 1]]), norm, scaling, o);
    }
  }

  function Times(a: real, b: real): real { a * b }

  lemma OneShare(w: real, s: real, score: real, norm: real, scaling: real, o: real)
    requires norm != 0.0 && Times(w, norm) == Times(s, Times(scaling, o))
    ensures Times(w + (score / norm * scaling) * o, norm) == Times(s + score, Times(scaling, o))
  {
    assert (score / norm * scaling) * o * norm == score * (scaling * o) by {
      var q := score / norm;
      assert q * norm == score;
      assert (q * scaling) * o * norm == (q * norm) * (scaling * o);
    }
  }

  /** Without renormalization the norm is 1, with it the sum of the selected scores plus a little. */
  lemma OutputOfEqualAnswers(r: Routing, experts: seq<Expert>, ids: seq<nat>, o: real, renormalize: bool, scaling: real)
    requires forall j :: 0 <= j < |ids| ==> ids[j] < |experts|
    requires forall j :: 0 <= j < |ids| ==> r.output(experts[ids[j]]) == o
    requires ScoreSum(r, experts, ids) + 0.00000000000000000001 != 0.0
    ensures var total := ScoreSum(r, experts, ids);
            if renormalize then
              Times(MoeOutput(r, experts, ids, true, scaling), total + 0.00000000000000000001)
              == Times(total, Times(scaling, o))
            else MoeOutput(r, experts, ids, false, scaling) == Times(total, Times(scaling, o))
  {
    var norm := if renormalize then ScoreSum(r, experts, ids) + Epsilon() else 1.0;
    EqualAnswers(r, experts, ids, |ids|, o, norm, scaling);
    assert ids[..|ids|] == ids;
  }

  /** In exact arithmetic the output depends only on which experts are selected. */
  lemma OutputReordered(r: Routing, experts: seq<Expert>, x: seq<nat>, y: seq<nat>, renormalize: bool, scaling: real)
    requires multiset(x) == multiset(y)
    requires forall j :: 0 <= j < |x| ==> x[j] < |experts|
    requires forall j :: 0 <= j < |y| ==> y[j] < |experts|
    requires renormalize ==> ScoreSum(r, experts, y) + Epsilon() != 0.0
    ensures ScoreSum(r, experts, x) == ScoreSum(r, experts, y)
    ensures MoeOutput(r, experts, x, renormalize, scaling) == MoeOutput(r, experts, y, renormalize, scaling)
  {
    ScoresSummed(r, experts, x);
    ScoresSummed(r, experts, y);
    SumOverReordered(ScoreOf(r, experts), x, y);
    var norm := if renormalize then ScoreSum(r, experts, y) + Epsilon() else 1.0;
    TermsSummed(r, experts, x, |x|, norm, scaling);
    TermsSummed(r, experts, y, |y|, norm, scaling);
    assert x[..|x|] == x && y[..|y|] == y;
    SumOverReordered(TermOf(r, experts, norm, scaling), x, y);
  }

  /** Every logical top-k is selected by some physical one. */
  lemma TopKPulledBack(logical: seq<real>, physical: seq<real>, row: seq<int>, k: nat, ids: seq<nat>)
      returns (placed: seq<nat>)
    requires IsPermutation(row) && |row| == |logical| == |physical|
    requires forall i :: 0 <= i < |row| ==> physical[i] == logical[row[i]]
    requires IsTopK(logical, k, ids)
    ensures IsTopK(physical, k, placed) && forall j :: 0 <= j < k ==> row[placed[j]] == ids[j]
  {
    AcceptsPermutations(row);
    assert forall j :: 0 <= j < k ==> ids[j] in row;
    placed := seq(k, j requires 0 <= j < k => Slot(row, ids[j]));
    forall i, j | 0 <= i < j < k ensures placed[i] != placed[j] {
      assert row[placed[i]] != row[placed[j]];
    }
    forall e | 0 <= e < |physical| && row[e] in ids ensures e in placed {
      var m :| 0 <= m < k && ids[m] == row[e];
      SlotUnique(row, e, ids[m]);
      assert placed[m] == e;
    }
  }

  /** Where a logical expert is placed. */
  function Slot(row: seq<int>, e: int): (i: nat)
    requires e in row
    ensures i < |row| && row[i] == e
  {
    if row[|row| - 1] == e then |row| - 1
    else
      assert row == row[..|row| - 1] + [row[|row| - 1]];
      Slot(row[..|row| - 1], e)
  }

  lemma SlotUnique(row: seq<int>, i: nat, e: int)
    requires Distinct(row) && i < |row| && row[i] == e
    ensures Slot(row, e) == i
  {
    if Slot(row, e) != i { RowInjective(row, Slot(row, e), i); }
  }

  /** For every placement, the placed layer is bound to select the same logical experts in the same order
      exactly when every tie of the biased scores lies strictly below the last one selected. */
  lemma SelectionUnchangedIff(logical: seq<real>, physical: seq<real>, row: seq<int>, k: nat, ids: seq<nat>)
    requires IsPermutation(row) && |row| == |logical| == |physical|
    requires forall i :: 0 <= i < |row| ==> physical[i] == logical[row[i]]
    requires IsTopK(logical, k, ids)
    ensures TiesBelow(logical, ids) <==>
              forall placed :: IsTopK(physical, k, placed) ==> SameSelection(row, placed, ids)
  {
    if TiesBelow(logical, ids) {
      forall placed | IsTopK(physical, k, placed) ensures SameSelection(row, placed, ids) {
        MappedSelection(logical, physical, row, k, ids, placed);
      }
    } else {
      var other := OtherTopK(logical, k, ids);
      var placed := TopKPulledBack(logical, physical, row, k, other);
      assert SameSelection(row, placed, other);
      if SameSelection(row, placed, ids) { OneSelection(row, placed, other, ids); }
    }
  }

  lemma OneSelection(row: seq<int>, placed: seq<nat>, a: seq<nat>, b: seq<nat>)
    requires SameSelection(row, placed, a) && SameSelection(row, placed, b)
    ensures a == b
  {}

  predicate SameSelection(row: seq<int>, placed: seq<nat>, ids: seq<nat>) {
    |placed| == |ids| && forall j :: 0 <= j < |ids| ==> placed[j] < |row| && row[placed[j]] == ids[j]
  }

  lemma MappedSelection(logical: seq<real>, physical: seq<real>, row: seq<int>, k: nat, ids: seq<nat>, placed: seq<nat>)
    requires IsPermutation(row) && |row| == |logical| == |physical|
    requires forall i :: 0 <= i < |row| ==> physical[i] == logical[row[i]]
    requires IsTopK(logical, k, ids) && TiesBelow(logical, ids) && IsTopK(physical, k, placed)
    ensures SameSelection(row, placed, ids)
  {
    var mapped := seq(k, j requires 0 <= j < k => row[placed[j]] as nat);
    TopKMapped(logical, physical, row, k, placed, mapped);
    TopKUnique(logical, k, ids, mapped, k);
    assert mapped[..k] == mapped && ids[..k] == ids;
  }

  /** The logical experts behind a selection of the placed layer. */
  function Mapped(row: seq<int>, placed: seq<nat>): (ids: seq<nat>)
    requires InRange(row) && forall j :: 0 <= j < |placed| ==> placed[j] < |row|
    ensures |ids| == |placed|
  {
    seq(|placed|, j requires 0 <= j < |placed| => row[placed[j]] as nat)
  }

  /** With a clear cut the placed layer selects the same logical experts, in the same order unless some of
      them tie, and computes the same output. */
  lemma RoutingUnchanged(r: Routing, logical: seq<Expert>, physical: seq<Expert>, row: seq<int>,
                         k: nat, ids: seq<nat>, placedIds: seq<nat>, renormalize: bool, scaling: real)
    requires IsPermutation(row) && |row| == |logical| == |physical|
    requires forall i :: 0 <= i < |row| ==> physical[i] == logical[row[i]]
    requires IsTopK(Biased(r, logical), k, ids) && IsTopK(Biased(r, physical), k, placedIds)
    requires CutClear(Biased(r, logical), ids)
    requires renormalize ==> ScoreSum(r, logical, ids) + Epsilon() != 0.0
    ensures multiset(Mapped(row, placedIds)) == multiset(ids)
    ensures TiesBelow(Biased(r, logical), ids) ==> Mapped(row, placedIds) == ids
    ensures ScoreSum(r, physical, placedIds) == ScoreSum(r, logical, ids)
    ensures MoeOutput(r, physical, placedIds, renormalize, scaling) == MoeOutput(r, logical, ids, renormalize, scaling)
  {
    var mapped := Mapped(row, placedIds);
    TopKMapped(Biased(r, logical), Biased(r, physical), row, k, placedIds, mapped);
    SelectedSetUnique(Biased(r, logical), k, ids, mapped);
    if TiesBelow(Biased(r, logical), ids) { OneAnswer(Biased(r, logical), k, ids, mapped); }
    OutputReordered(r, logical, mapped, ids, renormalize, scaling);
    MappedAlike(logical, physical, row, placedIds);
    SameOutput(r, physical, logical, placedIds, mapped, renormalize, scaling);
  }

  lemma OneAnswer(values: seq<real>, k: nat, a: seq<nat>, b: seq<nat>)
    requires IsTopK(values, k, a) && IsTopK(values, k, b) && TiesBelow(values, a)
    ensures b == a
  {
    TopKUnique(values, k, a, b, k);
    assert a[..k] == a && b[..k] == b;
  }

  lemma MappedAlike(logical: seq<Expert>, physical: seq<Expert>, row: seq<int>, placed: seq<nat>)
    requires InRange(row) && |row| == |logical| == |physical| && forall j :: 0 <= j < |placed| ==> placed[j] < |row|
    requires forall i :: 0 <= i < |row| ==> physical[i] == logical[row[i]]
    ensures forall j :: 0 <= j < |placed| ==> physical[placed[j]] == logical[Mapped(row, placed)[j]]
  {}

  /** Selections of equal experts give equal outputs. */
  lemma SameOutput(r: Routing, a: seq<Expert>, b: seq<Expert>, x: seq<nat>, y: seq<nat>, renormalize: bool,
                   scaling: real)
    requires |x| == |y|
    requires forall j :: 0 <= j < |x| ==> x[j] < |a| && y[j] < |b| && a[x[j]] == b[y[j]]
    requires renormalize ==> ScoreSum(r, b, y) + Epsilon() != 0.0
    ensures ScoreSum(r, a, x) == ScoreSum(r, b, y)
    ensures MoeOutput(r, a, x, renormalize, scaling) == MoeOutput(r, b, y, renormalize, scaling)
  {
    SameSum(r, a, b, x, y);
    SameWeighted(r, a, b, x, y, |x|, if renormalize then ScoreSum(r, b, y) + Epsilon() else 1.0, scaling);
  }

  /** End to end: load a checkpoint in any number of calls, with and without a placement. Every
      token for which no expert left out ties with a selected one gets the same output from the layer. */
  lemma PlacementPreservesOutput(
      parts: seq<seq<Item>>, placement: Placement, layer: nat, r: Routing,
      k: nat, ids: seq<nat>, placedIds: seq<nat>, renormalize: bool, scaling: real)
    requires PlacementOk(placement) && layer in placement
    requires LoadCalls(map[], parts, placement).Ok?
    requires var logical := Experts(Load(map[], Flatten(parts)), layer, |placement[layer]|);
             && IsTopK(Biased(r, logical), k, ids) && CutClear(Biased(r, logical), ids)
             && (renormalize ==> ScoreSum(r, logical, ids) + Epsilon() != 0.0)
    requires var physical := Experts(LoadCalls(map[], parts, placement).value, layer, |placement[layer]|);
             IsTopK(Biased(r, physical), k, placedIds)
    ensures var logical := Experts(Load(map[], Flatten(parts)), layer, |placement[layer]|);
            var physical := Experts(LoadCalls(map[], parts, placement).value, layer, |placement[layer]|);
            && multiset(Mapped(placement[layer], placedIds)) == multiset(ids)
            && ScoreSum(r, physical, placedIds) == ScoreSum(r, logical, ids)
            && MoeOutput(r, physical, placedIds, renormalize, scaling) == MoeOutput(r, logical, ids, renormalize,
                scaling)
  {
    SplitLoadsAgree(map[], parts, placement);
    PlacedExperts(Flatten(parts), placement, layer);
    RoutingUnchanged(r, Experts(Load(map[], Flatten(parts)), layer, |placement[layer]|),
                     Experts(LoadCalls(map[], parts, placement).value, layer, |placement[layer]|),
                     placement[layer], k, ids, placedIds, renormalize, scaling);
  }

  /** A tie across the cut changes the output: any two experts with tied biased scores but different
      weighted outputs, placed by the swap, and one of them selected. Both selections are valid. */
  lemma TiesMayDiffer(r: Routing, a: Expert, b: Expert, scaling: real)
    requires r.score(a) + r.bias(a) == r.score(b) + r.bias(b) && scaling != 0.0
    requires r.score(a) * r.output(a) != r.score(b) * r.output(b)
    ensures var logical, physical, row := [a, b], [b, a], [1, 0];
            && IsPermutation(row) && (forall i :: 0 <= i < 2 ==> physical[i] == logical[row[i]])
            && IsTopK(Biased(r, logical), 1, [0]) && IsTopK(Biased(r, physical), 1, [0])
            && MoeOutput(r, logical, [0], false, scaling) != MoeOutput(r, physical, [0], false, scaling)
  {
    OneSelected(r, [a, b], 0, scaling);
    OneSelected(r, [b, a], 0, scaling);
    ScaledDiffer(r.score(a), r.output(a), r.score(b), r.output(b), scaling);
  }

  lemma OneSelected(r: Routing, experts: seq<Expert>, e: nat, scaling: real)
    requires e < |experts|
    ensures MoeOutput(r, experts, [e], false, scaling) == (r.score(experts[e]) / 1.0 * scaling) * r.output(experts[e])
  {
    assert WeightedSum(r, experts, [e], 0, 1.0, scaling) == 0.0;
  }

  lemma ScaledDiffer(s: real, o: real, t: real, p: real, scaling: real)
    requires s * o != t * p && scaling != 0.0
    ensures (s / 1.0 * scaling) * o != (t / 1.0 * scaling) * p
  {
    assert (s / 1.0 * scaling) * o == scaling * (s * o);
    assert (t / 1.0 * scaling) * p == scaling * (t * p);
    if scaling * (s * o) == scaling * (t * p) { CancelFactor(scaling, s * o, t * p); }
  }

  lemma CancelFactor(c: real, x: real, y: real)
    requires c != 0.0 && c * x == c * y
    ensures x == y
  {
    assert c * (x - y) == 0.0;
  }

  // ---------------------------------------------------------------- when the output is bound to be the same

  predicate DistinctExperts(experts: seq<Expert>) {
    forall i, j :: 0 <= i < j < |experts| ==> experts[i] != experts[j]
  }

  /** Scores are sigmoids. */
  ghost predicate PositiveScores(r: Routing) {
    forall e :: r.score(e) > 0.0
  }

  lemma {:induction false} ScoresNonNegative(r: Routing, experts: seq<Expert>, ids: seq<nat>)
    requires PositiveScores(r) && forall j :: 0 <= j < |ids| ==> ids[j] < |experts|
    ensures ScoreSum(r, experts, ids) >= 0.0
  {
    if ids != [] { ScoresNonNegative(r, experts, ids[..|ids| - 1]); }
  }

  /** The output of the layer with the expert outputs `output`. */
  ghost function Answer(r: Routing, output: Expert -> real, experts: seq<Expert>, ids: seq<nat>,
                        renormalize: bool, scaling: real): real
    requires PositiveScores(r) && forall j :: 0 <= j < |ids| ==> ids[j] < |experts|
  {
    var s := r.(output := output);
    assert PositiveScores(s);
    ScoresNonNegative(s, experts, ids);
    MoeOutput(s, experts, ids, renormalize, scaling)
  }

  /** Whatever the experts answer and however the placed layer breaks ties, it gives the plain output. */
  ghost predicate AlwaysSame(r: Routing, logical: seq<Expert>, physical: seq<Expert>, k: nat, ids: seq<nat>,
                             renormalize: bool, scaling: real)
    requires PositiveScores(r) && IsTopK(Biased(r, logical), k, ids)
  {
    forall output, placed :: IsTopK(Biased(r, physical), k, placed) ==>
      Answer(r, output, physical, placed, renormalize, scaling) == Answer(r, output, logical, ids, renormalize, scaling)
  }

  lemma {:induction false} ZeroOutputs(r: Routing, experts: seq<Expert>, ids: seq<nat>, n: nat, norm: real,
                                       scaling: real)
    requires n <= |ids| && norm != 0.0 && forall j :: 0 <= j < |ids| ==> ids[j] < |experts|
    requires forall j :: 0 <= j < n ==> r.output(experts[ids[j]]) == 0.0
    ensures WeightedSum(r, experts, ids, n, norm, scaling) == 0.0
  {
    if n > 0 { ZeroOutputs(r, experts, ids, n - 1, norm, scaling); }
  }

  lemma WeightNotZero(score: real, norm: real, scaling: real)
    requires score > 0.0 && norm > 0.0 && scaling != 0.0
    ensures score / norm * scaling != 0.0
  {
    var w := score / norm;
    assert w > 0.0;
  }

  /** An output function that tells the last selected expert from all others. */
  lemma LastOnly(r: Routing, experts: seq<Expert>, e: nat, a: seq<nat>, b: seq<nat>, renormalize: bool, scaling: real)
    requires PositiveScores(r) && DistinctExperts(experts) && scaling != 0.0 && e < |experts|
    requires |a| == |b| > 0 && b == a[|a| - 1 := e] && e !in a
    requires forall j :: 0 <= j < |a| ==> a[j] < |experts|
    ensures var output := (x: Expert) => if x == experts[e] then 1.0 else 0.0;
            Answer(r, output, experts, a, renormalize, scaling) != Answer(r, output, experts, b, renormalize, scaling)
  {
    var output := (x: Expert) => if x == experts[e] then 1.0 else 0.0;
    var s, n := r.(output := output), |a| - 1;
    assert PositiveScores(s);
    ScoresNonNegative(s, experts, a);
    ScoresNonNegative(s, experts, b);
    forall j | 0 <= j < |a| ensures experts[a[j]] != experts[e] {
      assert a[j] in a;
    }
    ZeroOutputs(s, experts, a, |a|, if renormalize then ScoreSum(s, experts, a) + Epsilon() else 1.0, scaling);
    var norm := if renormalize then ScoreSum(s, experts, b) + Epsilon() else 1.0;
    ZeroOutputs(s, experts, b, n, norm, scaling);
    WeightNotZero(s.score(experts[e]), norm, scaling);
  }

  /** For positive scores, distinct experts and a scaling factor that is not zero: the placed layer is bound to
      give the plain output exactly when no expert left out ties with the last one selected. */
  lemma OutputUnchangedIff(r: Routing, logical: seq<Expert>, physical: seq<Expert>, row: seq<int>,
                           k: nat, ids: seq<nat>, renormalize: bool, scaling: real)
    requires IsPermutation(row) && |row| == |logical| == |physical|
    requires forall i :: 0 <= i < |row| ==> physical[i] == logical[row[i]]
    requires PositiveScores(r) && DistinctExperts(logical) && scaling != 0.0
    requires IsTopK(Biased(r, logical), k, ids)
    ensures CutClear(Biased(r, logical), ids) <==> AlwaysSame(r, logical, physical, k, ids, renormalize, scaling)
  {
    if CutClear(Biased(r, logical), ids) {
      forall output: Expert -> real, placed | IsTopK(Biased(r, physical), k, placed)
        ensures Answer(r, output, physical, placed, renormalize, scaling)
                == Answer(r, output, logical, ids, renormalize, scaling)
      {
        AnswerUnchanged(r, output, logical, physical, row, k, ids, placed, renormalize, scaling);
      }
    } else {
      var output, placed := TieShows(r, logical, physical, row, k, ids, renormalize, scaling);
    }
  }

  lemma AnswerUnchanged(r: Routing, output: Expert -> real, logical: seq<Expert>, physical: seq<Expert>, row: seq<int>,
                        k: nat, ids: seq<nat>, placed: seq<nat>, renormalize: bool, scaling: real)
    requires IsPermutation(row) && |row| == |logical| == |physical|
    requires forall i :: 0 <= i < |row| ==> physical[i] == logical[row[i]]
    requires PositiveScores(r) && IsTopK(Biased(r, logical), k, ids) && CutClear(Biased(r, logical), ids)
    requires IsTopK(Biased(r, physical), k, placed)
    ensures Answer(r, output, physical, placed, renormalize, scaling)
            == Answer(r, output, logical, ids, renormalize, scaling)
  {
    var s := r.(output := output);
    assert PositiveScores(s);
    assert Biased(s, logical) == Biased(r, logical) && Biased(s, physical) == Biased(r, physical);
    ScoresNonNegative(s, logical, ids);
    RoutingUnchanged(s, logical, physical, row, k, ids, placed, renormalize, scaling);
  }

  /** A tie across the cut shows in the output of some experts. */
  lemma TieShows(r: Routing, logical: seq<Expert>, physical: seq<Expert>, row: seq<int>,
                 k: nat, ids: seq<nat>, renormalize: bool, scaling: real)
      returns (output: Expert -> real, placed: seq<nat>)
    requires IsPermutation(row) && |row| == |logical| == |physical|
    requires forall i :: 0 <= i < |row| ==> physical[i] == logical[row[i]]
    requires PositiveScores(r) && DistinctExperts(logical) && scaling != 0.0
    requires IsTopK(Biased(r, logical), k, ids) && !CutClear(Biased(r, logical), ids)
    ensures IsTopK(Biased(r, physical), k, placed)
    ensures Answer(r, output, physical, placed, renormalize, scaling)
            != Answer(r, output, logical, ids, renormalize, scaling)
  {
    var values := Biased(r, logical);
    var e :| 0 <= e < |values| && e !in ids && values[e] >= values[ids[k - 1]];
    ReplaceLast(values, k, ids, e);
    var other := ids[k - 1 := e];
    placed := TopKPulledBack(values, Biased(r, physical), row, k, other);
    output := (x: Expert) => if x == logical[e] then 1.0 else 0.0;
    LastOnly(r, logical, e, ids, other, renormalize, scaling);
    AnswerAlike(r, output, physical, logical, placed, other, renormalize, scaling);
  }

  lemma AnswerAlike(r: Routing, output: Expert -> real, a: seq<Expert>, b: seq<Expert>, x: seq<nat>, y: seq<nat>,
                    renormalize: bool, scaling: real)
    requires PositiveScores(r) && |x| == |y|
    requires forall j :: 0 <= j < |x| ==> x[j] < |a| && y[j] < |b| && a[x[j]] == b[y[j]]
    ensures Answer(r, output, a, x, renormalize, scaling) == Answer(r, output, b, y, renormalize, scaling)
  {
    var s := r.(output := output);
    assert PositiveScores(s);
    ScoresNonNegative(s, b, y);
    SameOutput(s, a, b, x, y, renormalize, scaling);
  }
}
