/** The mapped import slots of a 64-bit PE image: a nested walk with a limit, and the limit-free trace behind it. */
module Pe {
  import opened Types
  import opened Bytes

  const DOS_SIGNATURE: nat := 0x5a4d
  const NT_SIGNATURE: nat := 0x4550
  const OPTIONAL_MAGIC_64: nat := 0x20b
  const E_LFANEW: nat := 60
  const OPTIONAL_FROM_NT: nat := 24
  const OPTIONAL_SIZE_FROM_NT: nat := 20
  const DATA_DIRECTORY: nat := 112
  const DIRECTORY_COUNT: nat := 108
  const IMPORT_DIRECTORY: nat := 1
  const DIRECTORY_ENTRY: nat := 8
  const IMPORT_DESCRIPTOR: nat := 20

  // ----- the headers

  function OptionalHeader(image: seq<byte>): Option<seq<byte>> {
    var dos :- Read(image, 0, 2);
    if dos != DOS_SIGNATURE then None
    else
      var nt :- Read(image, E_LFANEW, 4);
      var signature :- Read(image, nt, 4);
      if signature != NT_SIGNATURE then None
      else
        var size :- Read(image, nt + OPTIONAL_SIZE_FROM_NT, 2);
        var start := nt + OPTIONAL_FROM_NT;
        if start + size > |image| then None
        else
          var optional := image[start..start + size];
          var magic :- Read(optional, 0, 2);
          if magic != OPTIONAL_MAGIC_64 then None else Some(optional)
  }

  function Directory(optional: seq<byte>, index: nat): Option<(nat, nat)> {
    var count :- Read(optional, DIRECTORY_COUNT, 4);
    if index >= count then None
    else
      var offset := DATA_DIRECTORY + index * DIRECTORY_ENTRY;
      var address :- Read(optional, offset, 4);
      var size :- Read(optional, offset + 4, 4);
      if address == 0 || size == 0 then None else Some((address, size))
  }

  /** Where the import descriptors start and end, inside the image. */
  function ImportRange(image: seq<byte>): (r: Option<(nat, nat)>)
    ensures r.Some? ==> r.value.0 <= r.value.1 <= |image|
  {
    var optional :- OptionalHeader(image);
    var (start, size) :- Directory(optional, IMPORT_DIRECTORY);
    if start + size > |image| then None else Some((start, start + size))
  }

  // ----- the trace without a limit

  type Pair = (nat, nat)
  datatype Stop = FoundEnd | NoEnd | Malformed
  datatype Trace = Trace(slots: seq<Pair>, stop: Stop)

  function After(slots: seq<Pair>, t: Trace): Trace { Trace(slots + t.slots, t.stop) }

  /** The slots of one descriptor, up to the zero that ends its count table. */
  function Table(image: seq<byte>, base: nat, count: nat, table: nat, index: nat): Trace
    decreases |image| - 8 * index
  {
    var delta := 8 * index;
    match Read(image, count + delta, 8)
    case None => Trace([], Malformed)
    case Some(entry) =>
      if entry == 0 then Trace([], FoundEnd)
      else match Read(image, table + delta, 8)
        case None => Trace([], Malformed)
        case Some(value) =>
          if base + table + delta >= U64_SPAN then Trace([], Malformed)
          else After([(base + table + delta, value)], Table(image, base, count, table, index + 1))
  }

  datatype Descriptor = Descriptor(lookup: nat, name: nat, table: nat) {
    function Count(): nat { if lookup == 0 then table else lookup }
  }

  function DescriptorAt(image: seq<byte>, at: nat): Descriptor
    requires at + IMPORT_DESCRIPTOR <= |image|
  {
    Descriptor(Read(image, at, 4).value, Read(image, at + 12, 4).value, Read(image, at + 16, 4).value)
  }

  /** Every slot from one descriptor on, and why the walk stopped. */
  function Walk(image: seq<byte>, base: nat, at: nat, end: nat): Trace
    requires end <= |image|
    decreases end - at
  {
    if at + IMPORT_DESCRIPTOR > end then Trace([], NoEnd)
    else
      var d := DescriptorAt(image, at);
      if d.name == 0 && d.table == 0 then Trace([], FoundEnd)
      else if d.table == 0 then Trace([], Malformed)
      else
        var t := Table(image, base, d.Count(), d.table, 0);
        if t.stop.Malformed? then t else After(t.slots, Walk(image, base, at + IMPORT_DESCRIPTOR, end))
  }

  /** The walk opens the table of some descriptor, which is where it first compares with its limit. */
  predicate OpensATable(image: seq<byte>, start: nat, end: nat)
    requires end <= |image|
  {
    start + IMPORT_DESCRIPTOR <= end && DescriptorAt(image, start).table != 0
  }

  /** What a limit makes of a trace: a full prefix, or everything when the table ended properly. */
  function Limited(t: Trace, opens: bool, most: nat): Option<seq<Pair>> {
    if most == 0 then (if opens then Some([]) else None)
    else if |t.slots| >= most then Some(t.slots[..most])
    else if t.stop.FoundEnd? && t.slots != [] then Some(t.slots)
    else None
  }

  function ImportSlots(image: seq<byte>, base: nat, most: nat): Option<seq<Pair>> {
    var (start, end) :- ImportRange(image);
    Limited(Walk(image, base, start, end), OpensATable(image, start, end), most)
  }

  // ----- the walk itself

  datatype Step = Answer(r: Option<seq<Pair>>) | Continue(slots: seq<Pair>)

  /** The inner loop, which answers at the limit or at a malformed entry. */
  method ReadTable(image: seq<byte>, base: nat, count: nat, table: nat, most: nat, before: seq<Pair>) returns (s: Step)
    requires base < U64_SPAN && (|before| < most || most == 0)
    ensures var t := Table(image, base, count, table, 0);
      s == if most == 0 then Answer(Some(before))
           else if |before| + |t.slots| >= most then Answer(Some((before + t.slots)[..most]))
           else if t.stop.Malformed? then Answer(None)
           else Continue(before + t.slots)
  {
    hide Table, Read;
    var slots: seq<Pair> := before;
    var index: nat := 0;
    ghost var t := Table(image, base, count, table, 0);
    AfterNothing(before, t);
    while true
      invariant most > 0 ==> |slots| <= most
      invariant most == 0 ==> slots == before
      invariant |slots| >= |before|
      invariant After(before, t) == After(slots, Table(image, base, count, table, index))
      invariant index > 0 ==> count + 8 * index <= |image|
      decreases |image| - 8 * index
    {
      if |slots| >= most {
        assert most > 0 ==> (before + t.slots)[..most] == slots;
        return Answer(Some(slots));
      }
      TableStep(image, base, count, table, index);
      var delta := index * 8;
      var entry := Read(image, count + delta, 8);
      if entry.None? { return Answer(None); }
      if entry.value == 0 { break; }
      var value := Read(image, table + delta, 8);
      if value.None? { return Answer(None); }
      var slot := base + (table + delta);
      if slot >= U64_SPAN { return Answer(None); }
      AfterAfter(slots, [(slot, value.value)], Table(image, base, count, table, index + 1));
      ReadFits(image, count + delta, 8);
      slots := slots + [(slot, value.value)];
      index := index + 1;
    }
    return Continue(slots);
  }

  lemma TableStep(image: seq<byte>, base: nat, count: nat, table: nat, index: nat)
    ensures var t, delta := Table(image, base, count, table, index), 8 * index;
      var entry, value := Read(image, count + delta, 8), Read(image, table + delta, 8);
      t == if entry.None? then Trace([], Malformed)
           else if entry.value == 0 then Trace([], FoundEnd)
           else if value.None? || base + table + delta >= U64_SPAN then Trace([], Malformed)
           else After([(base + table + delta, value.value)], Table(image, base, count, table, index + 1))
  {
  }

  lemma ReadFits(b: seq<byte>, at: nat, k: nat)
    ensures Read(b, at, k).Some? <==> at + k <= |b|
  {
  }

  lemma AfterNothing(slots: seq<Pair>, t: Trace)
    ensures After([], t) == t && slots + [] == slots
  {
  }

  lemma AfterAfter(a: seq<Pair>, b: seq<Pair>, t: Trace)
    ensures After(a, After(b, t)) == After(a + b, t)
  {
  }

  method MappedImportSlots(image: seq<byte>, base: nat, most: nat) returns (r: Option<seq<Pair>>)
    requires base < U64_SPAN
    ensures r == ImportSlots(image, base, most)
  {
    hide Walk, Read, ImportRange, Table;
    var range := ImportRange(image);
    if range.None? { return None; }
    var (start, end) := range.value;
    var slots: seq<Pair> := [];
    var at := start;
    ghost var whole := Walk(image, base, start, end);
    AfterNothing(slots, whole);
    while at + IMPORT_DESCRIPTOR <= end
      invariant start <= at
      invariant at == start || (most > 0 && |slots| < most)
      invariant at == start ==> slots == []
      invariant whole == After(slots, Walk(image, base, at, end))
    {
      WalkStep(image, base, at, end);
      var d := DescriptorAt(image, at);
      if d.name == 0 && d.table == 0 {
        AfterNothing(slots, whole);
        if slots != [] { return Some(slots); }
        return None;
      }
      if d.table == 0 { return None; }
      var step := ReadTable(image, base, d.Count(), d.table, most, slots);
      AfterAfter(slots, Table(image, base, d.Count(), d.table, 0).slots,
                 Walk(image, base, at + IMPORT_DESCRIPTOR, end));
      if step.Answer? {
        assert most > 0 && step.r.Some? ==> whole.slots[..most] == step.r.value;
        return step.r;
      }
      slots := step.slots;
      at := at + IMPORT_DESCRIPTOR;
    }
    WalkEnds(image, base, at, end);
    return None;
  }

  lemma WalkEnds(image: seq<byte>, base: nat, at: nat, end: nat)
    requires end <= |image| && at + IMPORT_DESCRIPTOR > end
    ensures Walk(image, base, at, end) == Trace([], NoEnd)
  {
  }

  lemma WalkStep(image: seq<byte>, base: nat, at: nat, end: nat)
    requires end <= |image| && at + IMPORT_DESCRIPTOR <= end
    ensures var d := DescriptorAt(image, at);
      var t := Table(image, base, d.Count(), d.table, 0);
      Walk(image, base, at, end)
      == if d.name == 0 && d.table == 0 then Trace([], FoundEnd)
         else if d.table == 0 then Trace([], Malformed)
         else if t.stop.Malformed? then t
         else After(t.slots, Walk(image, base, at + IMPORT_DESCRIPTOR, end))
  {
  }

  // ----- what every answer keeps

  /** The pair is an offset of the image plus the base, without overflow, and the eight bytes stored there. */
  ghost predicate SlotOf(image: seq<byte>, base: nat, p: Pair) {
    base <= p.0 < U64_SPAN && Read(image, p.0 - base, 8) == Some(p.1)
  }

  ghost predicate AllSlots(image: seq<byte>, base: nat, slots: seq<Pair>) {
    forall i :: 0 <= i < |slots| ==> SlotOf(image, base, slots[i])
  }

  lemma {:induction false} TableIsSound(image: seq<byte>, base: nat, count: nat, table: nat, index: nat)
    ensures AllSlots(image, base, Table(image, base, count, table, index).slots)
    decreases |image| - 8 * index
  {
    hide Read, Table;
    TableStep(image, base, count, table, index);
    ReadFits(image, count + 8 * index, 8);
    if count + 8 * index + 8 <= |image| { TableIsSound(image, base, count, table, index + 1); }
  }

  lemma {:induction false} WalkIsSound(image: seq<byte>, base: nat, at: nat, end: nat)
    requires end <= |image|
    ensures AllSlots(image, base, Walk(image, base, at, end).slots)
    decreases end - at
  {
    hide Read, Table, SlotOf;
    if at + IMPORT_DESCRIPTOR <= end {
      var d := DescriptorAt(image, at);
      TableIsSound(image, base, d.Count(), d.table, 0);
      WalkIsSound(image, base, at + IMPORT_DESCRIPTOR, end);
    }
  }

  /** On arbitrary bytes, an answer holds at most the limit, and each pair is a slot of the image. */
  lemma SlotsAreSound(image: seq<byte>, base: nat, most: nat)
    ensures ImportSlots(image, base, most).Some? ==>
      |ImportSlots(image, base, most).value| <= most && AllSlots(image, base, ImportSlots(image, base, most).value)
  {
    hide Walk, ImportRange, SlotOf;
    var range := ImportRange(image);
    if range.Some? { WalkIsSound(image, base, range.value.0, range.value.1); }
  }

  /** A larger limit never contradicts a smaller one. */
  lemma SmallerLimitIsAPrefix(image: seq<byte>, base: nat, most: nat, fewer: nat)
    requires fewer <= most && ImportSlots(image, base, most).Some?
    ensures var s := ImportSlots(image, base, most).value;
      ImportSlots(image, base, fewer) == Some(s[..if fewer <= |s| then fewer else |s|])
  {
    hide Walk, ImportRange;
    var (start, end) := ImportRange(image).value;
    var t := Walk(image, base, start, end);
    if t.slots != [] { SlotsNeedATable(image, base, start, end); }
    var s := ImportSlots(image, base, most).value;
    assert s[..|s|] == s && (fewer <= |s| ==> s[..fewer] == t.slots[..fewer]);
  }

  lemma SlotsNeedATable(image: seq<byte>, base: nat, start: nat, end: nat)
    requires end <= |image| && Walk(image, base, start, end).slots != []
    ensures OpensATable(image, start, end)
  {
  }

  // ----- the encoder, as what an image holds

  /** One import: its descriptor fields, and the two parallel tables that it names. */
  datatype Import = Import(lookup: nat, name: nat, table: nat, hints: seq<nat>, values: seq<nat>) {
    function Count(): nat { if lookup == 0 then table else lookup }
  }

  predicate Holds64(image: seq<byte>, at: nat, numbers: seq<nat>) {
    forall j :: 0 <= j < |numbers| ==> Read(image, at + 8 * j, 8) == Some(numbers[j])
  }

  /** The image holds an import: a descriptor, a zero-ended count table without other zeros, and the slots. */
  predicate HoldsImport(image: seq<byte>, base: nat, at: nat, i: Import) {
    && Read(image, at, 4) == Some(i.lookup) && Read(image, at + 12, 4) == Some(i.name)
    && Read(image, at + 16, 4) == Some(i.table) && i.table != 0
    && |i.hints| == |i.values| && (forall j :: 0 <= j < |i.hints| ==> i.hints[j] != 0)
    && Holds64(image, i.Count(), i.hints + [0]) && Holds64(image, i.table, i.values)
    && (|i.values| > 0 ==> base + i.table + 8 * (|i.values| - 1) < U64_SPAN)
  }

  predicate HoldsImports(image: seq<byte>, base: nat, start: nat, imports: seq<Import>) {
    && (forall k :: 0 <= k < |imports| ==> HoldsImport(image, base, start + 20 * k, imports[k]))
    && Read(image, start + 20 * |imports| + 12, 4) == Some(0)
    && Read(image, start + 20 * |imports| + 16, 4) == Some(0)
  }

  function SlotsOf(base: nat, i: Import, from: nat): seq<Pair>
    requires from <= |i.values|
  {
    seq(|i.values| - from,
        j requires 0 <= j < |i.values| - from => (base + i.table + 8 * (from + j), i.values[from + j]))
  }

  function AllSlotsOf(base: nat, imports: seq<Import>): seq<Pair> {
    if imports == [] then [] else SlotsOf(base, imports[0], 0) + AllSlotsOf(base, imports[1..])
  }

  lemma {:induction false} TableReadsBack(image: seq<byte>, base: nat, at: nat, i: Import, from: nat)
    requires HoldsImport(image, base, at, i) && from <= |i.values|
    ensures Table(image, base, i.Count(), i.table, from) == Trace(SlotsOf(base, i, from), FoundEnd)
    decreases |i.values| - from
  {
    hide Read, Table;
    TableStep(image, base, i.Count(), i.table, from);
    assert Read(image, i.Count() + 8 * from, 8) == Some((i.hints + [0])[from]);
    if from < |i.values| {
      TableReadsBack(image, base, at, i, from + 1);
      assert SlotsOf(base, i, from) == [(base + i.table + 8 * from, i.values[from])] + SlotsOf(base, i, from + 1);
    }
  }

  /** For every list of imports that an image holds, the trace is exactly their slots, in order. */
  lemma {:induction false} ImportsReadBack(image: seq<byte>, base: nat, start: nat, end: nat, imports: seq<Import>)
    requires HoldsImports(image, base, start, imports)
    requires start + IMPORT_DESCRIPTOR * (|imports| + 1) <= end <= |image|
    ensures Walk(image, base, start, end) == Trace(AllSlotsOf(base, imports), FoundEnd)
    decreases imports
  {
    hide Read, Table, Walk;
    WalkStep(image, base, start, end);
    if imports != [] {
      var i, rest := imports[0], imports[1..];
      var next := start + IMPORT_DESCRIPTOR;
      assert HoldsImport(image, base, start + IMPORT_DESCRIPTOR * 0, i);
      forall k | 0 <= k < |rest| ensures HoldsImport(image, base, next + IMPORT_DESCRIPTOR * k, rest[k]) {
        assert HoldsImport(image, base, start + IMPORT_DESCRIPTOR * (k + 1), imports[k + 1]);
      }
      TableReadsBack(image, base, start, i, 0);
      ImportsReadBack(image, base, next, end, rest);
    }
  }

  /** What an image must hold for its import descriptors to be found: each field of the headers, in place. */
  ghost predicate HoldsHeaders(image: seq<byte>, nt: nat, size: nat, count: nat, start: nat, end: nat) {
    var optional := nt + 24;
    && Read(image, 0, 2) == Some(0x5a4d)
    && Read(image, 60, 4) == Some(nt)
    && Read(image, nt, 4) == Some(0x4550)
    && Read(image, nt + 20, 2) == Some(size)
    && optional + size <= |image| && 128 <= size
    && Read(image, optional + 0, 2) == Some(0x20b)
    && Read(image, optional + 108, 4) == Some(count) && count > 1
    && Read(image, optional + 120, 4) == Some(start) && start != 0
    && start < end && Read(image, optional + 124, 4) == Some(end - start)
    && end <= |image|
  }

  /** The import descriptors are found exactly when the headers name them. */
  lemma ImportRangeIff(image: seq<byte>, start: nat, end: nat)
    ensures ImportRange(image) == Some((start, end))
       <==> exists nt: nat, size: nat, count: nat :: HoldsHeaders(image, nt, size, count, start, end)
  {
    if ImportRange(image) == Some((start, end)) {
      var count := RangeNeedsHeaders(image, start, end);
    }
    if nt: nat, size: nat, count: nat :| HoldsHeaders(image, nt, size, count, start, end) {
      HeadersGiveRange(image, nt, size, count, start, end);
    }
  }

  lemma RangeNeedsHeaders(image: seq<byte>, start: nat, end: nat) returns (count: nat)
    requires ImportRange(image) == Some((start, end))
    ensures exists nt: nat, size: nat :: HoldsHeaders(image, nt, size, count, start, end)
  {
    hide Num;
    var nt := Read(image, E_LFANEW, 4).value;
    var size := Read(image, nt + OPTIONAL_SIZE_FROM_NT, 2).value;
    HeaderFields(image, nt + OPTIONAL_FROM_NT, size);
    count := Read(image, nt + OPTIONAL_FROM_NT + 108, 4).value;
    assert HoldsHeaders(image, nt, size, count, start, end);
  }

  lemma HeadersGiveRange(image: seq<byte>, nt: nat, size: nat, count: nat, start: nat, end: nat)
    requires HoldsHeaders(image, nt, size, count, start, end)
    ensures ImportRange(image) == Some((start, end))
  {
    hide Num;
    HeaderFields(image, nt + OPTIONAL_FROM_NT, size);
  }

  lemma HeaderFields(image: seq<byte>, start: nat, size: nat)
    requires start + size <= |image|
    ensures var optional := image[start..start + size];
      && (size >= 2 ==> Read(optional, 0, 2) == Read(image, start + 0, 2))
      && (size >= 128 ==>
            && Read(optional, 108, 4) == Read(image, start + 108, 4)
            && Read(optional, 120, 4) == Read(image, start + 120, 4)
            && Read(optional, 124, 4) == Read(image, start + 124, 4))
  {
    hide Read;
    ReadInside(image, start, size, 0, 2);
    ReadInside(image, start, size, 108, 4);
    ReadInside(image, start, size, 120, 4);
    ReadInside(image, start, size, 124, 4);
  }

  /** For every image that holds the headers and a list of imports, a limit answers the first slots of that list. */
  lemma ImageReadsBack(image: seq<byte>, base: nat, nt: nat, size: nat, count: nat, start: nat, end: nat,
                       imports: seq<Import>, most: nat)
    requires HoldsHeaders(image, nt, size, count, start, end) && HoldsImports(image, base, start, imports)
    requires start + IMPORT_DESCRIPTOR * (|imports| + 1) <= end
    ensures ImportSlots(image, base, most) == Limited(Trace(AllSlotsOf(base, imports), FoundEnd), imports != [], most)
  {
    hide Walk, Read, HoldsHeaders, ImportRange;
    HeadersGiveRange(image, nt, size, count, start, end);
    ImportsReadBack(image, base, start, end, imports);
    if imports != [] { assert HoldsImport(image, base, start + IMPORT_DESCRIPTOR * 0, imports[0]); }
  }

  // ----- an image with as many slots as one likes

  function Gap(n: nat): seq<byte> { seq(n, _ => 0) }

  /** A table of n ones, which the reader counts as slots, and the zero that ends it. */
  function OnesTable(n: nat): seq<seq<byte>> { seq(n + 1, i => Le(if i < n then 1 else 0, 8)) }

  function SamplePieces(n: nat): seq<seq<byte>> {
    [Le(0x5a4d, 2), Gap(58), Le(64, 4), Le(0x4550, 4), Gap(16), Le(128, 2), Gap(2),
     Le(0x20b, 2), Gap(106), Le(2, 4), Gap(8), Le(216, 4), Le(40, 4),
     Le(0, 4), Gap(8), Le(1, 4), Le(256, 4),
     Gap(12), Le(0, 4), Le(0, 4), Joined(OnesTable(n))]
  }

  function Sample(n: nat): seq<byte> { Joined(SamplePieces(n)) }

  function SampleImport(n: nat): Import { Import(0, 1, 256, seq(n, _ => 1), seq(n, _ => 1)) }

  lemma SampleOffsets(n: nat)
    ensures var p := SamplePieces(n);
      && |p| == 21 && Offset(p, 0) == 0 && Offset(p, 2) == 60 && Offset(p, 3) == 64 && Offset(p, 5) == 84
      && Offset(p, 7) == 88 && Offset(p, 9) == 196 && Offset(p, 11) == 208 && Offset(p, 12) == 212
      && Offset(p, 13) == 216
      && Offset(p, 15) == 228 && Offset(p, 16) == 232 && Offset(p, 18) == 248 && Offset(p, 19) == 252
      && Offset(p, 20) == 256
  {
    hide Le, Offset, Joined, OnesTable;
    var p := SamplePieces(n);
    OffsetOfNone(p);
    OffsetStep(p, 0); OffsetStep(p, 1); OffsetStep(p, 2); OffsetStep(p, 3); OffsetStep(p, 4);
    OffsetStep(p, 5); OffsetStep(p, 6); OffsetStep(p, 7); OffsetStep(p, 8); OffsetStep(p, 9);
    OffsetStep(p, 10); OffsetStep(p, 11); OffsetStep(p, 12); OffsetStep(p, 13); OffsetStep(p, 14);
    OffsetStep(p, 15); OffsetStep(p, 16); OffsetStep(p, 17); OffsetStep(p, 18); OffsetStep(p, 19);
  }

  lemma SampleTable(n: nat, j: nat)
    requires j <= n
    ensures 256 + 8 * (n + 1) <= |Sample(n)| && Read(Sample(n), 256 + 8 * j, 8) == Some(if j < n then 1 else 0)
  {
    Spans();
    hide Le, Offset, Joined, Span, Read, At, SamplePieces;
    var p, records := SamplePieces(n), OnesTable(n);
    SampleLast(n);
    SampleOffsets(n);
    PieceAt(p, 20);
    assert forall i :: 0 <= i < |records| ==> records[i] == Le(if i < n then 1 else 0, 8);
    RecordAt(records, 8, j);
    AtInside(Sample(n), 256, Joined(records), j * 8, records[j]);
    ReadsIff(Sample(n), 256 + 8 * j, if j < n then 1 else 0, 8);
    AtFits(Sample(n), 256, Joined(records));
  }

  lemma SampleLast(n: nat)
    ensures |SamplePieces(n)| == 21 && SamplePieces(n)[20] == Joined(OnesTable(n))
  {
  }

  lemma AtFits(b: seq<byte>, at: nat, part: seq<byte>)
    requires At(b, at, part)
    ensures at + |part| <= |b|
  {
  }

  lemma SampleFields(n: nat)
    ensures var b := Sample(n);
      && Read(b, 0, 2) == Some(DOS_SIGNATURE) && Read(b, 60, 4) == Some(64) && Read(b, 64, 4) == Some(NT_SIGNATURE)
      && Read(b, 84, 2) == Some(128) && Read(b, 88, 2) == Some(OPTIONAL_MAGIC_64) && Read(b, 196, 4) == Some(2)
      && Read(b, 208, 4) == Some(216) && Read(b, 212, 4) == Some(40)
      && Read(b, 216, 4) == Some(0) && Read(b, 228, 4) == Some(1) && Read(b, 232, 4) == Some(256)
      && Read(b, 248, 4) == Some(0) && Read(b, 252, 4) == Some(0)
  {
    Spans();
    hide Le, Offset, Joined, Span, Read, OnesTable;
    var p := SamplePieces(n);
    SampleOffsets(n);
    PieceReads(p, 0, DOS_SIGNATURE, 2);
    PieceReads(p, 2, 64, 4);
    PieceReads(p, 3, NT_SIGNATURE, 4);
    PieceReads(p, 5, 128, 2);
    PieceReads(p, 7, OPTIONAL_MAGIC_64, 2);
    PieceReads(p, 9, 2, 4);
    PieceReads(p, 11, 216, 4);
    PieceReads(p, 12, 40, 4);
    PieceReads(p, 13, 0, 4);
    PieceReads(p, 15, 1, 4);
    PieceReads(p, 16, 256, 4);
    PieceReads(p, 18, 0, 4);
    PieceReads(p, 19, 0, 4);
  }

  /** For every number below 2^60 there is an image whose import table holds that many slots. */
  lemma SampleReadsBack(n: nat, most: nat)
    requires n < 0x1000_0000_0000_0000
    ensures ImportRange(Sample(n)) == Some((216, 256))
    ensures var t := Walk(Sample(n), 0, 216, 256);
      |t.slots| == n && ImportSlots(Sample(n), 0, most) == Limited(t, true, most)
  {
    hide Le, Offset, Joined, Span, Read, Sample, Walk, ImportRange;
    var b, i := Sample(n), SampleImport(n);
    SampleFields(n);
    SampleTable(n, 0);
    assert HoldsHeaders(b, 64, 128, 2, 216, 256);
    HeadersGiveRange(b, 64, 128, 2, 216, 256);
    forall j | 0 <= j < n + 1 ensures Read(b, 256 + 8 * j, 8) == Some((i.hints + [0])[j]) { SampleTable(n, j); }
    forall j | 0 <= j < n ensures Read(b, 256 + 8 * j, 8) == Some(i.values[j]) { SampleTable(n, j); }
    assert HoldsImport(b, 0, 216, i);
    assert HoldsImports(b, 0, 216, [i]);
    ImportsReadBack(b, 0, 216, 256, [i]);
    assert AllSlotsOf(0, [i]) == SlotsOf(0, i, 0) + AllSlotsOf(0, []);
  }
}
