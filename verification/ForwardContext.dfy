/**
 The phase choice for DeepEP auto mode: a walk over the attention metadata, which may be
 shared and cyclic, explicit phase evidence, and the sum all-reduce that makes every
 data-parallel rank enter the same collective.
 */
module ForwardContext {
  import opened Common

  // ---------------------------------------------------------------- phase evidence

  /** A phase value as Python hands it over: `Tensor` has a working `tolist`, `BadTensor` one that
      raises, `Foreign` is any other object. */
  datatype Phase =
    | Absent
    | Flag(prefilling: bool)
    | Listing(items: seq<Phase>)
    | Tensor(content: Phase)
    | BadTensor
    | Foreign

  predicate ExplicitlyNonPrefilling(v: Phase)
    decreases v, 2
  {
    match v
    case Absent => false
    case BadTensor => false
    case Tensor(content) => PlainNonPrefilling(content)
    case _ => PlainNonPrefilling(v)
  }

  /** After `tolist`: a nonempty listing of evidence, or the flag False. */
  predicate PlainNonPrefilling(v: Phase)
    decreases v, 1
  {
    match v
    case Listing(items) => items != [] && AllNonPrefilling(items)
    case Flag(prefilling) => !prefilling
    case _ => false
  }

  predicate AllNonPrefilling(items: seq<Phase>)
    decreases items, 0
  {
    items == [] || (ExplicitlyNonPrefilling(items[0]) && AllNonPrefilling(items[1..]))
  }

  /** All flags of `v` from left to right; None when something in it is no evidence at all:
      a missing or foreign value, a failing or doubly wrapped tensor, an empty listing. */
  function Flags(v: Phase): Option<seq<bool>>
    decreases v, 2
  {
    match v
    case Flag(prefilling) => Some([prefilling])
    case Listing(items) => if items == [] then None else FlagsOf(items)
    case Tensor(content) => if content.Flag? || content.Listing? then Flags(content) else None
    case _ => None
  }

  function FlagsOf(items: seq<Phase>): Option<seq<bool>>
    decreases items, 1
  {
    if items == [] then Some([])
    else
      var first, rest := Flags(items[0]), FlagsOf(items[1..]);
      if first.Some? && rest.Some? then Some(first.value + rest.value) else None
  }

  predicate NoneTrue(flags: Option<seq<bool>>) {
    flags.Some? && forall i :: 0 <= i < |flags.value| ==> !flags.value[i]
  }

  /** Evidence counts exactly when it is flags throughout, at least one, and none of them true. */
  lemma {:induction false} EvidenceIsAllFalse(v: Phase)
    ensures ExplicitlyNonPrefilling(v) <==> NoneTrue(Flags(v))
    ensures Flags(v).Some? ==> |Flags(v).value| > 0
    decreases v, 2
  {
    match v
    case Tensor(content) =>
      EvidenceIsAllFalse(content);
    case Listing(items) =>
      EvidenceIsAllFalseIn(items);
    case Flag(prefilling) =>
      assert [prefilling][0] == prefilling;
    case _ =>
  }

  lemma {:induction false} EvidenceIsAllFalseIn(items: seq<Phase>)
    ensures AllNonPrefilling(items) <==> NoneTrue(FlagsOf(items))
    ensures items != [] && FlagsOf(items).Some? ==> |FlagsOf(items).value| > 0
    decreases items, 1
  {
    if items != [] {
      EvidenceIsAllFalse(items[0]);
      EvidenceIsAllFalseIn(items[1..]);
      var first, rest := Flags(items[0]), FlagsOf(items[1..]);
      if first.Some? && rest.Some? {
        JoinNoneTrue(first.value, rest.value);
      }
    }
  }

  lemma JoinNoneTrue(a: seq<bool>, b: seq<bool>)
    ensures NoneTrue(Some(a + b)) <==> NoneTrue(Some(a)) && NoneTrue(Some(b))
  {
    if NoneTrue(Some(a + b)) {
      forall i | 0 <= i < |a| ensures !a[i] { assert (a + b)[i] == a[i]; }
      forall i | 0 <= i < |b| ensures !b[i] { assert (a + b)[|a| + i] == b[i]; }
    }
  }

  // ---------------------------------------------------------------- metadata walk

  /** An object is known by its identity. Dicts, lists and tuples are containers. */
  type Id = nat

  datatype Node =
    | Container(children: seq<Id>)
    | Leaf(maxQueryLen: Option<int>, maxSeqLen: Option<int>)

  type Graph = map<Id, Node>

  predicate Closed(g: Graph) {
    forall n :: n in g && g[n].Container? ==> forall c :: c in g[n].children ==> c in g
  }

  ghost predicate IsPath(g: Graph, path: seq<Id>) {
    && path != [] && path[0] in g
    && forall i :: 0 <= i < |path| - 1 ==> path[i] in g && g[path[i]].Container? && path[i + 1] in g[path[i]].children
  }

  ghost predicate Reaches(g: Graph, from: Id, to: Id) {
    exists path :: IsPath(g, path) && path[0] == from && path[|path| - 1] == to
  }

  predicate HasLengths(n: Node) {
    n.Leaf? && n.maxQueryLen.Some? && n.maxSeqLen.Some?
  }

  predicate DecodeLeaf(n: Node, limit: int)
    requires HasLengths(n)
  {
    0 < n.maxQueryLen.value <= limit && n.maxSeqLen.value > n.maxQueryLen.value
  }

  /** Some leaf that can be reached carries both lengths, and every such leaf is within the bound. */
  ghost predicate AllReachableDecode(g: Graph, root: Id, limit: int) {
    && (exists n :: n in g && Reaches(g, root, n) && HasLengths(g[n]))
    && (forall n :: n in g && Reaches(g, root, n) && HasLengths(g[n]) ==> DecodeLeaf(g[n], limit))
  }

  function DecodeLimit(speculativeTokens: Option<int>): int {
    1 + if speculativeTokens.Some? then speculativeTokens.value else 0
  }

  ghost predicate PureSpecDecode(g: Graph, metadata: Option<Id>, speculativeTokens: Option<int>) {
    DecodeLimit(speculativeTokens) > 1 && metadata.Some?
        && AllReachableDecode(g, metadata.value, DecodeLimit(speculativeTokens))
  }

  lemma ReachSelf(g: Graph, n: Id)
    requires n in g
    ensures Reaches(g, n, n)
  {
    assert IsPath(g, [n]);
  }

  lemma ReachChild(g: Graph, root: Id, n: Id, c: Id)
    requires Reaches(g, root, n) && n in g && g[n].Container? && c in g[n].children
    ensures Reaches(g, root, c)
  {
    var path :| IsPath(g, path) && path[0] == root && path[|path| - 1] == n;
    var longer := path + [c];
    forall i | 0 <= i < |longer| - 1
      ensures longer[i] in g && g[longer[i]].Container? && longer[i + 1] in g[longer[i]].children
    {
      if i < |path| - 1 {
        assert longer[i] == path[i] && longer[i + 1] == path[i + 1];
      }
    }
    assert IsPath(g, longer);
  }

  /** A set that holds the root and the children of its containers holds all that is reachable. */
  lemma {:induction false} ClosedSetHoldsPath(g: Graph, seen: set<Id>, path: seq<Id>, i: nat)
    requires IsPath(g, path) && i < |path| && path[0] in seen
    requires forall n :: n in seen && n in g && g[n].Container? ==> forall c :: c in g[n].children ==> c in seen
    ensures path[i] in seen
  {
    if i > 0 {
      ClosedSetHoldsPath(g, seen, path, i - 1);
    }
  }

  lemma ClosedSetHoldsReachable(g: Graph, seen: set<Id>, root: Id)
    requires root in seen
    requires forall n :: n in seen && n in g && g[n].Container? ==> forall c :: c in g[n].children ==> c in seen
    ensures forall n :: Reaches(g, root, n) ==> n in seen
  {
    forall n | Reaches(g, root, n) ensures n in seen {
      var path :| IsPath(g, path) && path[0] == root && path[|path| - 1] == n;
      ClosedSetHoldsPath(g, seen, path, |path| - 1);
    }
  }

  predicate Expanded(g: Graph, seen: set<Id>, pending: seq<Id>) {
    forall n :: n in seen && n in g && g[n].Container? ==> forall c :: c in g[n].children ==> c in seen || c in pending
  }

  /** The worklist loop. It ends on every finite graph: a round either sees a new object or
      shortens the worklist. */
  method IsPureSpecDecode(g: Graph, metadata: Option<Id>, speculativeTokens: Option<int>) returns (r: bool)
    requires Closed(g) && (metadata.Some? ==> metadata.value in g)
    ensures r <==> PureSpecDecode(g, metadata, speculativeTokens)
  {
    var limit := DecodeLimit(speculativeTokens);
    if limit <= 1 || metadata.None? {
      return false;
    }
    var root := metadata.value;
    var pending, seen, found := [root], {}, false;
    ReachSelf(g, root);
    while pending != []
      invariant forall n :: n in pending ==> n in g && Reaches(g, root, n)
      invariant forall n :: n in seen ==> n in g && Reaches(g, root, n)
      invariant root in seen || root in pending
      invariant Expanded(g, seen, pending)
      invariant found <==> exists n :: n in seen && HasLengths(g[n])
      invariant forall n :: n in seen && HasLengths(g[n]) ==> DecodeLeaf(g[n], limit)
      decreases g.Keys - seen, |pending|
    {
      var n := pending[|pending| - 1];
      ghost var before := pending;
      pending := pending[..|pending| - 1];
      assert forall x :: x in before <==> x in pending || x == n;
      if n in seen {
        continue;
      }
      ghost var unseen := g.Keys - seen;
      assert n in unseen;
      seen := seen + {n};
      match g[n]
      case Container(children) =>
        forall c | c in children ensures c in g && Reaches(g, root, c) { ReachChild(g, root, n, c); }
        pending := pending + children;
        assert forall x :: x in before ==> x in pending || x == n;
      case Leaf(maxQueryLen, maxSeqLen) =>
        if maxQueryLen.Some? && maxSeqLen.Some? {
          found := true;
          if !(0 < maxQueryLen.value <= limit && maxSeqLen.value > maxQueryLen.value) {
            assert HasLengths(g[n]) && !DecodeLeaf(g[n], limit);
            return false;
          }
        }
    }
    ClosedSetHoldsReachable(g, seen, root);
    return found;
  }

  // ---------------------------------------------------------------- the choice

  /** The concrete graph modes, and any other value of the enumeration. */
  datatype Mode = Eager | Piecewise | Full | Composite

  datatype Config = Config(
    deepepAuto: bool, fixed: Option<bool>, dataParallelSize: int, speculativeTokens: Option<int>)

  /** One rank's arguments: `uniform` is None without a batch descriptor, `holder` is the
      context-local phase holder. */
  datatype Forward = Forward(
    numTokens: Option<int>, tokensAcrossDp: bool, uniform: Option<bool>, metadata: Option<Id>,
    isPrefilling: Phase, holder: Option<Phase>, mode: Option<Mode>, capture: Option<Mode>)

  /** What a rank does: return at once, raise, or contribute to the all-reduce. */
  datatype Decision = Return(lowLatency: bool) | Raise | Join(active: bool, decode: bool)

  predicate ControlOnly(f: Forward) {
    f.numTokens.None? && !f.tokensAcrossDp && f.uniform.None? && f.metadata.None?
  }

  function GraphMode(f: Forward): Option<Mode> {
    if f.mode == Some(Eager) && (f.capture == Some(Full) || f.capture == Some(Piecewise)) then f.capture else f.mode
  }

  predicate IsEager(f: Forward) {
    GraphMode(f).None? || GraphMode(f) == Some(Eager)
  }

  predicate IsActive(f: Forward) {
    f.numTokens.Some? && f.numTokens.value > 0
  }

  /** The rank holds explicit decode evidence. */
  ghost predicate DecodeEvidence(g: Graph, c: Config, f: Forward) {
    var phase := if f.isPrefilling.Absent? then (if f.holder.Some? then f.holder.value else Absent) else f.isPrefilling;
    ExplicitlyNonPrefilling(phase)
    && (f.uniform == Some(true) || PureSpecDecode(g, f.metadata, c.speculativeTokens))
  }

  ghost function Decide(g: Graph, c: Config, f: Forward): Decision {
    if !c.deepepAuto || ControlOnly(f) then Return(false)
    else if c.fixed.Some? then Return(c.fixed.value)
    else if GraphMode(f) == Some(Full) then Return(true)
    else if GraphMode(f) == Some(Piecewise) then Return(false)
    else if !IsEager(f) then Raise
    else if c.dataParallelSize > 1 then Join(IsActive(f), DecodeEvidence(g, c, f))
    else Return(DecodeEvidence(g, c, f))
  }

  /** What each graph mode gives, whatever the evidence: a full graph is low latency and a piecewise one is not, also
      when they are being captured; any other mode raises. */
  lemma ModeDecides(g: Graph, c: Config, f: Forward)
    requires c.deepepAuto && c.fixed.None?
    requires f.numTokens.Some? || f.tokensAcrossDp || f.uniform.Some? || f.metadata.Some?
    ensures f.mode == Some(Full) ==> Decide(g, c, f) == Return(true)
    ensures f.mode == Some(Piecewise) ==> Decide(g, c, f) == Return(false)
    ensures f.mode == Some(Eager) && f.capture == Some(Full) ==> Decide(g, c, f) == Return(true)
    ensures f.mode == Some(Eager) && f.capture == Some(Piecewise) ==> Decide(g, c, f) == Return(false)
    ensures f.mode == Some(Composite) ==> Decide(g, c, f) == Raise
    ensures f.mode.None?
            || (f.mode == Some(Eager) && (f.capture.None? || f.capture.value.Eager? || f.capture.value.Composite?))
            ==> Decide(g, c, f) == if c.dataParallelSize > 1
                                   then Join(f.numTokens.Some? && f.numTokens.value > 0, DecodeEvidence(g, c, f))
                                   else Return(DecodeEvidence(g, c, f))
  {}

  /** High throughput without auto mode and for control work; a fixed choice goes before any mode. */
  lemma ChoiceWithoutModes(g: Graph, c: Config, f: Forward)
    ensures !c.deepepAuto ==> Decide(g, c, f) == Return(false)
    ensures f.numTokens.None? && !f.tokensAcrossDp && f.uniform.None? && f.metadata.None? ==>
              Decide(g, c, f) == Return(false)
    ensures c.deepepAuto && f.numTokens.Some? && c.fixed.Some? ==> Decide(g, c, f) == Return(c.fixed.value)
  {}

  /** The runner's flag counts, or that of the holder when there is none; a flag that says prefill never does. Without
      attention metadata a uniform batch is needed. */
  lemma EvidenceFromFlags(g: Graph, c: Config, f: Forward, b: bool)
    requires f.metadata.None?
    ensures f.isPrefilling == Flag(b) ==> (DecodeEvidence(g, c, f) <==> !b && f.uniform == Some(true))
    ensures f.isPrefilling == Absent && f.holder == Some(Flag(b)) ==>
              (DecodeEvidence(g, c, f) <==> !b && f.uniform == Some(true))
    ensures f.isPrefilling == Absent && f.holder.None? ==> !DecodeEvidence(g, c, f)
  {
    assert ExplicitlyNonPrefilling(Flag(b)) <==> !b;
  }

  /** One leaf with both lengths is speculative decode exactly when there are speculative tokens, its queries number
      from one to one more than these, and its sequences are longer. */
  lemma OneLeafDecides(query: int, length: int, tokens: int)
    ensures PureSpecDecode(map[0 := Leaf(Some(query), Some(length))], Some(0), Some(tokens)) <==>
            tokens >= 1 && 1 <= query <= tokens + 1 && length > query
    ensures !PureSpecDecode(map[0 := Leaf(Some(query), Some(length))], Some(0), None)
  {
    var g: Graph := map[0 := Leaf(Some(query), Some(length))];
    ReachSelf(g, 0);
    assert HasLengths(g[0]);
  }

  /** The two lanes of the evidence tensor after a sum all-reduce over the group. */
  function SumActive(ds: seq<Decision>): nat {
    if ds == [] then 0
    else SumActive(ds[..|ds| - 1]) + (var d := ds[|ds| - 1]; if d.Join? && d.active then 1 else 0)
  }

  function SumDecode(ds: seq<Decision>): nat {
    if ds == [] then 0
    else SumDecode(ds[..|ds| - 1]) + (var d := ds[|ds| - 1]; if d.Join? && d.active && d.decode then 1 else 0)
  }

  function Reduced(ds: seq<Decision>): bool {
    SumActive(ds) > 0 && SumDecode(ds) == SumActive(ds)
  }

  /** What a rank returns once the reduced sums are known; None when it raises. */
  function Result(d: Decision, ds: seq<Decision>): Option<bool> {
    match d
    case Return(b) => Some(b)
    case Raise => None
    case Join(_, _) => Some(Reduced(ds))
  }

  ghost function Decisions(graphs: seq<Graph>, c: Config, fs: seq<Forward>): seq<Decision>
    requires |graphs| == |fs|
  {
    seq(|fs|, i requires 0 <= i < |fs| => Decide(graphs[i], c, fs[i]))
  }

  lemma {:induction false} SumsCompare(ds: seq<Decision>)
    ensures SumDecode(ds) <= SumActive(ds)
    ensures SumActive(ds) > 0 <==> exists i :: 0 <= i < |ds| && ds[i].Join? && ds[i].active
    ensures SumDecode(ds) == SumActive(ds) <==>
              forall i :: 0 <= i < |ds| && ds[i].Join? && ds[i].active ==> ds[i].decode
  {
    if ds != [] {
      var n := |ds| - 1;
      var rest := ds[..n];
      SumsCompare(rest);
      assert forall i :: 0 <= i < n ==> rest[i] == ds[i];
      if ds[n].Join? && ds[n].active {
      } else if SumActive(ds) > 0 {
        var i :| 0 <= i < |rest| && rest[i].Join? && rest[i].active;
        assert ds[i].Join? && ds[i].active;
      }
    }
  }

  /** In a real eager forward every rank joins the all-reduce and all return the same choice:
      low latency exactly when some rank is active and every active rank has decode evidence. */
  lemma RanksAgree(graphs: seq<Graph>, c: Config, fs: seq<Forward>)
    requires |graphs| == |fs| == c.dataParallelSize && c.dataParallelSize > 1
    requires c.deepepAuto && c.fixed.None?
    requires forall i :: 0 <= i < |fs| ==> !ControlOnly(fs[i]) && IsEager(fs[i])
    ensures var ds := Decisions(graphs, c, fs);
      && (forall i :: 0 <= i < |ds| ==> ds[i].Join?)
      && (forall i :: 0 <= i < |ds| ==>
            Result(ds[i], ds) == Some((exists j :: 0 <= j < |fs| && IsActive(fs[j]))
                                      && forall j :: 0 <= j < |fs| && IsActive(fs[j]) ==>
                                          DecodeEvidence(graphs[j], c, fs[j])))
  {
    var ds := Decisions(graphs, c, fs);
    SumsCompare(ds);
    forall i | 0 <= i < |ds| ensures ds[i] == Join(IsActive(fs[i]), DecodeEvidence(graphs[i], c, fs[i])) {}
    if SumActive(ds) > 0 {
      var i :| 0 <= i < |ds| && ds[i].Join? && ds[i].active;
      assert IsActive(fs[i]);
    }
    if j :| 0 <= j < |fs| && IsActive(fs[j]) {
      assert ds[j].Join? && ds[j].active;
    }
  }

  /** Whatever the shared graph mode, the ranks of a real forward never split: all return the same
      value or all raise, and either all of them enter the all-reduce or none does. */
  lemma RanksNeverSplit(graphs: seq<Graph>, c: Config, fs: seq<Forward>, i: nat, j: nat)
    requires |graphs| == |fs| == c.dataParallelSize && c.dataParallelSize > 1
    requires i < |fs| && j < |fs|
    requires forall k :: 0 <= k < |fs| ==> !ControlOnly(fs[k]) && GraphMode(fs[k]) == GraphMode(fs[0])
    ensures var ds := Decisions(graphs, c, fs);
      Result(ds[i], ds) == Result(ds[j], ds) && (ds[i].Join? <==> ds[j].Join?)
  {
    var ds := Decisions(graphs, c, fs);
    assert ds[i] == Decide(graphs[i], c, fs[i]) && ds[j] == Decide(graphs[j], c, fs[j]);
  }

  /** An idle rank is neutral: the sums, and so the choice of the others, are those without it. */
  lemma {:induction false} IdleIsNeutral(a: seq<Decision>, idle: Decision, b: seq<Decision>)
    requires idle.Join? && !idle.active
    ensures SumActive(a + [idle] + b) == SumActive(a + b)
    ensures SumDecode(a + [idle] + b) == SumDecode(a + b)
    ensures Reduced(a + [idle] + b) == Reduced(a + b)
  {
    if b == [] {
      assert a + [idle] + b == a + [idle] && a + b == a;
      assert (a + [idle])[..|a|] == a;
    } else {
      var n := |b| - 1;
      assert (a + [idle] + b)[..|a| + 1 + n] == a + [idle] + b[..n];
      assert (a + b)[..|a| + n] == a + b[..n];
      IdleIsNeutral(a, idle, b[..n]);
    }
  }
}
