/**
 The container checks of the checkpoint auditor: the byte extent of one tensor against its
 dtype and shape, and the sweep over all ranges of a shard, which certifies that every
 payload byte belongs to exactly one tensor.
 */
module CheckpointAudit {
  import opened Common

  /** A value of the decoded header. `Real` stands for any JSON number that is not an int. */
  datatype Json =
    | Null
    | Bool(b: bool)
    | Int(n: int)
    | Real
    | Str(s: string)
    | List(items: seq<Json>)
    | Dict(fields: map<string, Json>)

  datatype Error =
    | InvalidOffsets(name: string)
    | OutsideShard(name: string)
    | InvalidDtype(name: string)
    | InvalidShape(name: string)
    | CountOverflow(name: string)
    | ExtentMismatch(name: string)
    | Overlap(name: string)
    | Gap(from: int, to: int)
    | Trailing(from: int, to: int)

  const MAX_USIZE := 0xffff_ffff_ffff_ffff

  const DTYPE_BITS: map<string, nat> := map[
    "BOOL" := 8, "U8" := 8, "I8" := 8,
    "I16" := 16, "U16" := 16, "F16" := 16, "BF16" := 16,
    "I32" := 32, "U32" := 32, "F32" := 32,
    "I64" := 64, "U64" := 64, "F64" := 64, "C64" := 64,
    "F8_E4M3" := 8, "F8_E5M2" := 8, "F8_E8M0" := 8,
    "F8_E4M3FNUZ" := 8, "F8_E5M2FNUZ" := 8,
    "F4" := 4, "F6_E2M3" := 6, "F6_E3M2" := 6
  ]

  predicate IsDigit(c: char) { '0' <= c <= '9' }

  /** The first number in a name, 0 without one. */
  function NumberIn(name: string, i: nat): nat
    requires i <= |name|
    decreases |name| - i
  {
    if i == |name| then 0
    else if !IsDigit(name[i]) then NumberIn(name, i + 1)
    else if i + 1 < |name| && IsDigit(name[i + 1])
    then 10 * (name[i] as nat - '0' as nat) + (name[i + 1] as nat - '0' as nat)
    else name[i] as nat - '0' as nat
  }

  /** A dtype other than BOOL has the width that its name says. */
  lemma WidthsAreNamed(dtype: string)
    requires dtype in DTYPE_BITS
    ensures DTYPE_BITS[dtype] == if dtype == "BOOL" then 8 else NumberIn(dtype, 0)
  {
    if dtype != "BOOL" { WidthNamed(dtype, if dtype == "BF16" then 2 else 1); }
  }

  /** The number starts at the second character, or the third. */
  lemma WidthNamed(dtype: string, i: nat)
    requires dtype in DTYPE_BITS && dtype != "BOOL" && i == if dtype == "BF16" then 2 else 1
    ensures NumberIn(dtype, 0) == DTYPE_BITS[dtype]
  {
    assert i < |dtype| && IsDigit(dtype[i]) && !IsDigit(dtype[0]) && (i == 2 ==> !IsDigit(dtype[1]));
    assert NumberIn(dtype, i) == DTYPE_BITS[dtype];
  }

  function Get(info: map<string, Json>, key: string): Json {
    if key in info then info[key] else Null
  }

  // ---------------------------------------------------------------- extent

  predicate DtypeOk(info: map<string, Json>) {
    Get(info, "dtype").Str? && Get(info, "dtype").s in DTYPE_BITS
  }

  predicate ShapeOk(info: map<string, Json>) {
    var shape := Get(info, "shape");
    shape.List? && forall i :: 0 <= i < |shape.items| ==> shape.items[i].Int? && 0 <= shape.items[i].n <= MAX_USIZE
  }

  /** The product of the first `i` dimensions. */
  function Elements(info: map<string, Json>, i: nat): nat
    requires ShapeOk(info) && i <= |Get(info, "shape").items|
  {
    if i == 0 then 1 else Elements(info, i - 1) * Get(info, "shape").items[i - 1].n
  }

  function Rank(info: map<string, Json>): nat
    requires ShapeOk(info)
  {
    |Get(info, "shape").items|
  }

  /** Every partial product fits, as the reader that multiplies dimension by dimension needs. */
  predicate CountFits(info: map<string, Json>)
    requires ShapeOk(info)
  {
    forall i :: 0 <= i <= Rank(info) ==> Elements(info, i) <= MAX_USIZE
  }

  predicate ExtentMatches(info: map<string, Json>, start: int, end: int)
    requires DtypeOk(info) && ShapeOk(info)
  {
    (end - start) * 8 == Elements(info, Rank(info)) * DTYPE_BITS[Get(info, "dtype").s]
  }

  predicate ExtentOk(info: map<string, Json>, start: int, end: int) {
    DtypeOk(info) && ShapeOk(info) && CountFits(info) && ExtentMatches(info, start, end)
  }

  /** The checks in order: the report names the first one that fails. */
  method ValidateTensorExtent(name: string, info: map<string, Json>, start: int,
                              end: int) returns (error: Option<Error>)
    ensures error.None? <==> ExtentOk(info, start, end)
    ensures error == Some(InvalidDtype(name)) <==> !DtypeOk(info)
    ensures error == Some(InvalidShape(name)) <==> DtypeOk(info) && !ShapeOk(info)
    ensures error == Some(CountOverflow(name)) <==> DtypeOk(info) && ShapeOk(info) && !CountFits(info)
    ensures error == Some(ExtentMismatch(name)) <==>
              DtypeOk(info) && ShapeOk(info) && CountFits(info) && !ExtentMatches(info, start, end)
  {
    if !DtypeOk(info) {
      return Some(InvalidDtype(name));
    }
    if !ShapeOk(info) {
      return Some(InvalidShape(name));
    }
    var shape := Get(info, "shape").items;
    var elements := 1;
    for i := 0 to |shape|
      invariant elements == Elements(info, i)
      invariant forall j :: 0 <= j <= i ==> Elements(info, j) <= MAX_USIZE
    {
      elements := elements * shape[i].n;
      if elements > MAX_USIZE {
        assert Elements(info, i + 1) > MAX_USIZE;
        return Some(CountOverflow(name));
      }
    }
    var bits := elements * DTYPE_BITS[Get(info, "dtype").s];
    if bits % 8 != 0 || end - start != bits / 8 {
      return Some(ExtentMismatch(name));
    }
    return None;
  }

  /** A zero dimension does not rescue a shape whose earlier dimensions overflow. */
  lemma ZeroAfterOverflow(info: map<string, Json>, i: nat)
    requires ShapeOk(info) && i < Rank(info)
    requires Elements(info, i) > MAX_USIZE && Get(info, "shape").items[i].n == 0
    ensures Elements(info, Rank(info)) == 0 && !CountFits(info)
  {
    ZeroStays(info, i + 1, Rank(info));
  }

  lemma {:induction false} ZeroStays(info: map<string, Json>, i: nat, j: nat)
    requires ShapeOk(info) && i <= j <= Rank(info) && Elements(info, i) == 0
    ensures Elements(info, j) == 0
    decreases j - i
  {
    if i < j { ZeroStays(info, i, j - 1); }
  }

  // ---------------------------------------------------------------- ranges

  datatype Range = Range(start: int, end: int, name: string)

  /** The header in its own order; names are the keys of a JSON object. */
  type Header = seq<(string, Json)>

  predicate OffsetsOk(info: Json) {
    && info.Dict?
    && var offsets := Get(info.fields, "data_offsets");
       offsets.List? && |offsets.items| == 2 && offsets.items[0].Int? && offsets.items[1].Int?
  }

  function StartOf(info: Json): int
    requires OffsetsOk(info)
  {
    Get(info.fields, "data_offsets").items[0].n
  }

  function EndOf(info: Json): int
    requires OffsetsOk(info)
  {
    Get(info.fields, "data_offsets").items[1].n
  }

  predicate InShard(info: Json, size: int) {
    OffsetsOk(info) && 0 <= StartOf(info) <= EndOf(info) <= size
  }

  predicate EntryOk(info: Json, size: int) {
    InShard(info, size) && ExtentOk(info.fields, StartOf(info), EndOf(info))
  }

  const METADATA := "__metadata__"

  /** The ranges of the entries whose offsets lie in the shard, in header order. */
  function RangesOf(header: Header, size: int): seq<Range> {
    if header == [] then []
    else
      var (name, info) := header[|header| - 1];
      RangesOf(header[..|header| - 1], size)
      + (if name != METADATA && InShard(info, size) then [Range(StartOf(info), EndOf(info), name)] else [])
  }

  function InvalidNames(header: Header, size: int): set<string> {
    set i | 0 <= i < |header| && header[i].0 != METADATA && !EntryOk(header[i].1, size) :: header[i].0
  }

  /** The metadata entry is no tensor: whatever it holds, there is neither a range nor a report for it. */
  lemma MetadataIgnored(header: Header, info: Json, size: int)
    ensures RangesOf(header + [("__metadata__", info)], size) == RangesOf(header, size)
    ensures InvalidNames(header + [("__metadata__", info)], size) == InvalidNames(header, size)
  {
    var all := header + [("__metadata__", info)];
    assert all[..|header|] == header && all[|header|].0 == METADATA;
    forall name ensures name in InvalidNames(all, size) <==> name in InvalidNames(header, size) {
      if name in InvalidNames(header, size) {
        var k :| 0 <= k < |header| && header[k].0 != METADATA && !EntryOk(header[k].1, size) && header[k].0 == name;
        assert all[k] == header[k];
      }
    }
  }

  /** An entry with the given dtype, dimensions and offsets. */
  function Written(dtype: string, dims: seq<int>, start: int, end: int): Json {
    Dict(map["dtype" := Str(dtype), "shape" := List(seq(|dims|, i requires 0 <= i < |dims| => Int(dims[i]))),
             "data_offsets" := List([Int(start), Int(end)])])
  }

  function Product(dims: seq<int>): int {
    if dims == [] then 1 else Product(dims[..|dims| - 1]) * dims[|dims| - 1]
  }

  ghost predicate ProductsFit(dims: seq<int>) {
    forall i :: 0 <= i <= |dims| ==> Product(dims[..i]) < 0x1_0000_0000_0000_0000
  }

  predicate HoldsDims(fields: map<string, Json>, dims: seq<int>) {
    var shape := Get(fields, "shape");
    shape.List? && |shape.items| == |dims| && forall i :: 0 <= i < |dims| ==> shape.items[i] == Int(dims[i])
  }

  /** As written in a header: an entry is valid exactly when its dtype is known, its dimensions and all their partial
      products are sizes, its start does not lie after its end nor its end behind the payload, and it has as
      many bytes as elements of its width take. */
  lemma WrittenEntry(dtype: string, dims: seq<int>, start: int, end: int, size: int)
    ensures EntryOk(Written(dtype, dims, start, end), size) <==>
            && dtype in DTYPE_BITS && ProductsFit(dims)
            && (forall i :: 0 <= i < |dims| ==> 0 <= dims[i] < 0x1_0000_0000_0000_0000)
            && 0 <= start <= end <= size && (end - start) * 8 == Product(dims) * DTYPE_BITS[dtype]
  {
    var info := Written(dtype, dims, start, end);
    WrittenFields(dtype, dims, start, end);
    FieldsMean(info.fields, dtype, dims, start, end);
  }

  lemma WrittenFields(dtype: string, dims: seq<int>, start: int, end: int)
    ensures var info := Written(dtype, dims, start, end);
            && OffsetsOk(info) && StartOf(info) == start && EndOf(info) == end
            && Get(info.fields, "dtype") == Str(dtype) && HoldsDims(info.fields, dims)
  {
    var info := Written(dtype, dims, start, end);
    assert Get(info.fields, "data_offsets") == List([Int(start), Int(end)]);
  }

  lemma FieldsMean(fields: map<string, Json>, dtype: string, dims: seq<int>, start: int, end: int)
    requires Get(fields, "dtype") == Str(dtype) && HoldsDims(fields, dims)
    ensures ExtentOk(fields, start, end) <==>
            && dtype in DTYPE_BITS && ProductsFit(dims)
            && (forall i :: 0 <= i < |dims| ==> 0 <= dims[i] < 0x1_0000_0000_0000_0000)
            && (end - start) * 8 == Product(dims) * DTYPE_BITS[dtype]
  {
    assert ShapeOk(fields) <==> forall i :: 0 <= i < |dims| ==> 0 <= dims[i] < 0x1_0000_0000_0000_0000;
    if ShapeOk(fields) { CountsMean(fields, dims); }
  }

  lemma CountsMean(fields: map<string, Json>, dims: seq<int>)
    requires HoldsDims(fields, dims) && ShapeOk(fields)
    ensures Elements(fields, Rank(fields)) == Product(dims) && (CountFits(fields) <==> ProductsFit(dims))
  {
    forall i | 0 <= i <= |dims| ensures Elements(fields, i) == Product(dims[..i]) { ElementsMean(fields, dims, i); }
    assert dims[..|dims|] == dims;
  }

  lemma {:induction false} ElementsMean(fields: map<string, Json>, dims: seq<int>, i: nat)
    requires HoldsDims(fields, dims) && ShapeOk(fields) && i <= |dims|
    ensures Elements(fields, i) == Product(dims[..i])
  {
    if i > 0 {
      ElementsMean(fields, dims, i - 1);
      assert dims[..i][..i - 1] == dims[..i - 1];
    }
  }

  // ---------------------------------------------------------------- sorting

  predicate NameLe(a: string, b: string) {
    a == "" || (b != "" && (a[0] < b[0] || (a[0] == b[0] && NameLe(a[1..], b[1..]))))
  }

  /** Tuple order on (start, end, name). */
  predicate RangeLe(a: Range, b: Range) {
    a.start < b.start
    || (a.start == b.start && (a.end < b.end || (a.end == b.end && NameLe(a.name, b.name))))
  }

  predicate Before(a: Range, b: Range) {
    a.start < b.start || (a.start == b.start && a.end <= b.end)
  }

  predicate Sorted(rs: seq<Range>) {
    forall i, j :: 0 <= i < j < |rs| ==> Before(rs[i], rs[j])
  }

  function Insert(r: Range, rs: seq<Range>): seq<Range> {
    if rs == [] || RangeLe(r, rs[0]) then [r] + rs else [rs[0]] + Insert(r, rs[1..])
  }

  function Sort(rs: seq<Range>): seq<Range> {
    if rs == [] then [] else Insert(rs[0], Sort(rs[1..]))
  }

  function Owns(r: Range, b: int): nat {
    if r.start <= b < r.end then 1 else 0
  }

  /** How many of the ranges hold byte `b`. */
  function Owners(rs: seq<Range>, b: int): nat {
    OwnersIn(rs, |rs|, b)
  }

  /** The same, counting only the first `n` ranges. */
  function OwnersIn(rs: seq<Range>, n: nat, b: int): nat
    requires n <= |rs|
  {
    if n == 0 then 0 else OwnersIn(rs, n - 1, b) + Owns(rs[n - 1], b)
  }

  lemma {:induction false} OwnersCons(r: Range, rs: seq<Range>, n: nat, b: int)
    requires n <= |rs|
    ensures OwnersIn([r] + rs, n + 1, b) == Owns(r, b) + OwnersIn(rs, n, b)
  {
    if n > 0 { OwnersCons(r, rs, n - 1, b); }
  }

  lemma {:induction false} NameLeTotal(a: string, b: string)
    ensures NameLe(a, b) || NameLe(b, a)
  {
    if a != "" && b != "" { NameLeTotal(a[1..], b[1..]); }
  }

  lemma {:induction false} InsertSorted(r: Range, rs: seq<Range>)
    requires Sorted(rs)
    ensures Sorted(Insert(r, rs)) && |Insert(r, rs)| == |rs| + 1
    ensures forall x :: x in Insert(r, rs) <==> x == r || x in rs
  {
    if rs != [] && !RangeLe(r, rs[0]) {
      NameLeTotal(r.name, rs[0].name);
      InsertSorted(r, rs[1..]);
      assert forall x :: x in rs <==> x == rs[0] || x in rs[1..];
      forall x | x in Insert(r, rs[1..]) ensures Before(rs[0], x) {}
    }
  }

  lemma {:induction false} InsertOwners(r: Range, rs: seq<Range>, b: int)
    ensures Owners(Insert(r, rs), b) == Owns(r, b) + Owners(rs, b)
  {
    if rs == [] || RangeLe(r, rs[0]) {
      OwnersCons(r, rs, |rs|, b);
    } else {
      InsertOwners(r, rs[1..], b);
      OwnersCons(rs[0], Insert(r, rs[1..]), |Insert(r, rs[1..])|, b);
      OwnersCons(rs[0], rs[1..], |rs| - 1, b);
      assert [rs[0]] + rs[1..] == rs;
    }
  }

  lemma {:induction false} SortKeeps(rs: seq<Range>, b: int)
    ensures Sorted(Sort(rs)) && |Sort(rs)| == |rs|
    ensures forall x :: x in Sort(rs) <==> x in rs
    ensures Owners(Sort(rs), b) == Owners(rs, b)
  {
    if rs != [] {
      SortKeeps(rs[1..], b);
      InsertSorted(rs[0], Sort(rs[1..]));
      InsertOwners(rs[0], Sort(rs[1..]), b);
      OwnersCons(rs[0], rs[1..], |rs| - 1, b);
      assert [rs[0]] + rs[1..] == rs;
      assert forall x :: x in rs <==> x == rs[0] || x in rs[1..];
    }
  }

  // ---------------------------------------------------------------- tiling

  ghost predicate Tiles(rs: seq<Range>, size: int) {
    forall b :: 0 <= b < size ==> Owners(rs, b) == 1
  }

  /** No empty range lies strictly inside another range. */
  ghost predicate NoEmptyInside(rs: seq<Range>) {
    forall e, r :: e in rs && r in rs && e.start == e.end ==> !(r.start < e.start < r.end)
  }

  predicate Bounded(rs: seq<Range>, size: int) {
    forall i :: 0 <= i < |rs| ==> 0 <= rs[i].start <= rs[i].end <= size
  }

  /** Each range starts where the one before it ends, from 0 on. */
  predicate Chained(rs: seq<Range>, n: nat)
    requires n <= |rs|
  {
    n == 0 || (Chained(rs, n - 1) && rs[n - 1].start == Reached(rs, n - 1))
  }

  function Reached(rs: seq<Range>, i: nat): int
    requires i <= |rs|
  {
    if i == 0 then 0 else rs[i - 1].end
  }

  lemma {:induction false} OwnersMore(rs: seq<Range>, i: nat, j: nat, x: int)
    requires i <= j <= |rs|
    ensures OwnersIn(rs, i, x) <= OwnersIn(rs, j, x)
    ensures (forall k :: i <= k < j ==> Owns(rs[k], x) == 0) ==> OwnersIn(rs, i, x) == OwnersIn(rs, j, x)
  {
    if i < j { OwnersMore(rs, i, j - 1, x); }
  }

  lemma OwnersTwo(rs: seq<Range>, i: nat, x: int)
    requires 0 < i < |rs| && Owns(rs[i - 1], x) == 1 && Owns(rs[i], x) == 1
    ensures Owners(rs, x) >= 2
  {
    OwnersMore(rs, i + 1, |rs|, x);
    assert OwnersIn(rs, i + 1, x) == OwnersIn(rs, i, x) + 1;
  }

  /** In a chain, exactly the bytes below the end reached so far are owned, each once. */
  lemma {:induction false} ChainOwns(rs: seq<Range>, n: nat, size: int, x: int)
    requires n <= |rs| && Bounded(rs, size) && Chained(rs, n) && x >= 0
    ensures OwnersIn(rs, n, x) == (if x < Reached(rs, n) then 1 else 0)
    ensures forall i :: 0 <= i < n ==> rs[i].end <= Reached(rs, n)
  {
    if n > 0 { ChainOwns(rs, n - 1, size, x); }
  }

  /** A tiling, sorted, is a chain up to its end. */
  lemma {:induction false} TilingChains(rs: seq<Range>, n: nat, size: int)
    requires n <= |rs| && Sorted(rs) && Bounded(rs, size) && Tiles(rs, size) && NoEmptyInside(rs)
    ensures Chained(rs, n)
  {
    if n > 0 {
      TilingChains(rs, n - 1, size);
      var i := n - 1;
      var r, c := rs[i], Reached(rs, i);
      ChainOwns(rs, i, size, 0);
      if r.start < c {
        assert Before(rs[i - 1], r);
        assert rs[i - 1] in rs && r in rs;
        OwnersTwo(rs, i, r.start);
      } else if r.start > c {
        ByteUnowned(rs, i, size);
      }
    }
  }

  lemma ByteUnowned(rs: seq<Range>, i: nat, size: int)
    requires i <= |rs| && Sorted(rs) && Bounded(rs, size) && Chained(rs, i)
    requires i < |rs| ==> rs[i].start > Reached(rs, i)
    ensures Reached(rs, i) >= 0 && Owners(rs, Reached(rs, i)) == 0
  {
    var c := Reached(rs, i);
    ChainOwns(rs, i, size, c);
    forall k | i <= k < |rs| ensures Owns(rs[k], c) == 0 {
      assert k > i ==> Before(rs[i], rs[k]);
    }
    OwnersMore(rs, i, |rs|, c);
  }

  lemma ChainTiles(rs: seq<Range>, size: int)
    requires Bounded(rs, size) && Chained(rs, |rs|) && Reached(rs, |rs|) >= size
    ensures Tiles(rs, size)
  {
    forall b | 0 <= b < size ensures Owners(rs, b) == 1 {
      ChainOwns(rs, |rs|, size, b);
    }
  }

  lemma EmptyOutside(rs: seq<Range>, i: nat, j: nat, size: int)
    requires Bounded(rs, size) && Chained(rs, |rs|) && i < |rs| && j < |rs|
    requires rs[i].start == rs[i].end
    ensures !(rs[j].start < rs[i].start < rs[j].end)
  {
    if i < j { ChainOrdered(rs, i, j, |rs|, size); }
    if j < i { ChainOrdered(rs, j, i, |rs|, size); }
  }

  lemma ChainHasNoEmptyInside(rs: seq<Range>, size: int)
    requires Bounded(rs, size) && Chained(rs, |rs|)
    ensures NoEmptyInside(rs)
  {
    forall i, j | 0 <= i < |rs| && 0 <= j < |rs| && rs[i].start == rs[i].end
      ensures !(rs[j].start < rs[i].start < rs[j].end)
    {
      EmptyOutside(rs, i, j, size);
    }
  }

  /** The heart of the sweep: meeting every range at the cursor is the same as tiling. */
  lemma SweepIsTiling(rs: seq<Range>, size: int)
    requires Sorted(rs) && Bounded(rs, size)
    ensures Chained(rs, |rs|) && Reached(rs, |rs|) >= size <==> Tiles(rs, size) && NoEmptyInside(rs)
  {
    if Chained(rs, |rs|) && Reached(rs, |rs|) >= size {
      ChainTiles(rs, size);
      ChainHasNoEmptyInside(rs, size);
    }
    if Tiles(rs, size) && NoEmptyInside(rs) {
      TilingChains(rs, |rs|, size);
      if Reached(rs, |rs|) < size { ByteUnowned(rs, |rs|, size); }
    }
  }

  lemma {:induction false} ChainOrdered(rs: seq<Range>, i: nat, j: nat, n: nat, size: int)
    requires i < j < n <= |rs| && Chained(rs, n) && Bounded(rs, size)
    ensures rs[i].end <= rs[j].start
  {
    if j < n - 1 { ChainOrdered(rs, i, j, n - 1, size); } else { ChainOwns(rs, j, size, 0); }
  }

  // ---------------------------------------------------------------- the sweep

  /** The loop over the sorted ranges. It reports nothing exactly for a tiling. */
  method Sweep(rs: seq<Range>, size: int) returns (errors: seq<Error>)
    requires Sorted(rs) && Bounded(rs, size)
    ensures errors == [] <==> Tiles(rs, size) && NoEmptyInside(rs)
  {
    errors := [];
    var cursor := 0;
    for i := 0 to |rs|
      invariant errors == [] <==> Chained(rs, i)
      invariant errors == [] ==> cursor == Reached(rs, i)
    {
      if rs[i].start < cursor {
        errors := errors + [Overlap(rs[i].name)];
      } else if rs[i].start > cursor {
        errors := errors + [Gap(cursor, rs[i].start)];
      }
      cursor := if cursor > rs[i].end then cursor else rs[i].end;
    }
    if cursor < size {
      errors := errors + [Trailing(cursor, size)];
    }
    SweepIsTiling(rs, size);
  }

  lemma {:induction false} RangesBounded(header: Header, size: int)
    ensures Bounded(RangesOf(header, size), size)
  {
    if header != [] { RangesBounded(header[..|header| - 1], size); }
  }

  /** The body of the first loop, for one tensor entry. */
  method CheckEntry(name: string, info: Json, size: int) returns (error: Option<Error>, range: Option<Range>)
    ensures error.None? <==> EntryOk(info, size)
    ensures range == if InShard(info, size) then Some(Range(StartOf(info), EndOf(info), name)) else None
    ensures error == Some(InvalidOffsets(name)) <==> !OffsetsOk(info)
    ensures error == Some(OutsideShard(name)) <==> OffsetsOk(info) && !InShard(info, size)
  {
    if !OffsetsOk(info) {
      return Some(InvalidOffsets(name)), None;
    }
    var start, end := StartOf(info), EndOf(info);
    if !(0 <= start <= end <= size) {
      return Some(OutsideShard(name)), None;
    }
    error := ValidateTensorExtent(name, info.fields, start, end);
    range := Some(Range(start, end, name));
  }

  /** Whatever the header order: nothing is reported exactly when every entry is valid on its own
      and the ranges tile the payload; the returned names are those of the invalid entries. */
  method ValidateShardRanges(header: Header, dataSize: int) returns (errors: seq<Error>, invalid: set<string>)
    ensures errors == [] <==>
              && (forall i :: 0 <= i < |header| && header[i].0 != "__metadata__" ==> EntryOk(header[i].1, dataSize))
              && Tiles(RangesOf(header, dataSize), dataSize)
              && NoEmptyInside(RangesOf(header, dataSize))
    ensures invalid == InvalidNames(header, dataSize)
  {
    errors, invalid := [], {};
    var ranges: seq<Range> := [];
    for i := 0 to |header|
      invariant ranges == RangesOf(header[..i], dataSize)
      invariant invalid == InvalidNames(header[..i], dataSize)
      invariant errors == [] <==> forall j :: 0 <= j < i && header[j].0 != METADATA ==> EntryOk(header[j].1, dataSize)
    {
      var (name, info) := header[i];
      assert header[..i + 1][..i] == header[..i] && header[..i + 1][i] == header[i];
      InvalidGrows(header, i, dataSize);
      if name != METADATA {
        var error, range := CheckEntry(name, info, dataSize);
        if error.Some? {
          errors := errors + [error.value];
          invalid := invalid + {name};
        }
        if range.Some? {
          ranges := ranges + [range.value];
        }
      }
    }
    assert header[..|header|] == header;
    RangesBounded(header, dataSize);
    SortTiles(ranges, dataSize);
    var more := Sweep(Sort(ranges), dataSize);
    errors := errors + more;
  }

  lemma InvalidGrows(header: Header, i: nat, size: int)
    requires i < |header|
    ensures InvalidNames(header[..i + 1], size)
            == InvalidNames(header[..i], size)
               + (if header[i].0 != METADATA && !EntryOk(header[i].1, size) then {header[i].0} else {})
  {
    var now, before := header[..i + 1], header[..i];
    forall n ensures n in InvalidNames(now, size) <==>
        n in InvalidNames(before, size) || (n == header[i].0 && n != METADATA && !EntryOk(header[i].1, size))
    {
      if n in InvalidNames(before, size) {
        var k :| 0 <= k < i && before[k].0 != METADATA && !EntryOk(before[k].1, size) && before[k].0 == n;
        assert now[k] == before[k];
      }
      if n in InvalidNames(now, size) {
        var k :| 0 <= k < i + 1 && now[k].0 != METADATA && !EntryOk(now[k].1, size) && now[k].0 == n;
        assert k < i ==> now[k] == before[k];
      }
      assert now[i] == header[i];
    }
  }

  lemma SortTiles(rs: seq<Range>, size: int)
    requires Bounded(rs, size)
    ensures Sorted(Sort(rs)) && Bounded(Sort(rs), size)
    ensures Tiles(Sort(rs), size) <==> Tiles(rs, size)
    ensures NoEmptyInside(Sort(rs)) <==> NoEmptyInside(rs)
  {
    SortKeeps(rs, 0);
    forall b ensures Owners(Sort(rs), b) == Owners(rs, b) { SortKeeps(rs, b); }
    forall i | 0 <= i < |Sort(rs)| ensures 0 <= Sort(rs)[i].start <= Sort(rs)[i].end <= size {
      assert Sort(rs)[i] in rs;
    }
  }
}
