/** The dispatch sections that Mach-O load commands describe. */
module MachoDispatch {
  import opened Types
  import opened Bytes
  import opened Macho

  const MAX_POINTER_SECTIONS: nat := 128
  const SECTION_TYPE: nat := 0x100
  const S_NON_LAZY_SYMBOL_POINTERS: nat := 0x6

  datatype PointerSection = PointerSection(address: nat, bytes: nat)
  datatype DispatchLayout = DispatchLayout(sections: seq<PointerSection>, bound: bool)

  /** The type of a section is the low byte of its flags. */
  predicate IsPointers(flags: nat) { flags % 0x100 == 6 }

  function SectionAt(i: nat): nat { 72 + i * 80 }

  /** The pointer sections among the first n sections of a segment. */
  function PointersIn(bytes: seq<byte>, n: nat): seq<PointerSection>
    requires SectionAt(n) <= |bytes|
  {
    if n == 0 then []
    else
      var s := SectionAt(n - 1);
      PointersIn(bytes, n - 1) +
      if IsPointers(Read(bytes, s + 64, 4).value)
      then [PointerSection(Read(bytes, s + 32, 8).value, Read(bytes, s + 40, 8).value)]
      else []
  }

  /** What one command contributes, or nothing when it is a segment that cannot hold its sections. */
  function PointersOf(c: Command): Option<seq<PointerSection>> {
    if c.kind != 0x19 then Some([])
    else if |c.bytes| < 72 then None
    else
      var count := Read(c.bytes, 64, 4).value;
      if SectionAt(count) > |c.bytes| then None else Some(PointersIn(c.bytes, count))
  }

  function AllPointers(cs: seq<Command>): Option<seq<PointerSection>> {
    if cs == [] then Some([])
    else
      var before :- AllPointers(cs[..|cs| - 1]);
      var own :- PointersOf(cs[|cs| - 1]);
      Some(before + own)
  }

  predicate Bound(cs: seq<Command>) { exists i :: 0 <= i < |cs| && cs[i].kind == 0x8000_0034 }

  /** The layout that a list of commands describes. */
  function LayoutOf(cs: seq<Command>): Option<DispatchLayout> {
    var all :- AllPointers(cs);
    if |all| > 128 then None else Some(DispatchLayout(all, Bound(cs)))
  }

  function Layout(commands: seq<byte>, n: nat): Option<DispatchLayout> {
    if |commands| > 0x40_0000 then None
    else
      var cs :- Commands(commands, 0, n);
      LayoutOf(cs)
  }

  // ----- the walk

  method ReadSections(commands: seq<byte>, at: nat, c: Command, count: nat, before: seq<PointerSection>)
    returns (r: Option<seq<PointerSection>>)
    requires at + |c.bytes| <= |commands| && c.bytes == commands[at..at + |c.bytes|]
    requires SectionAt(count) <= |c.bytes| && |before| <= MAX_POINTER_SECTIONS
    ensures var own := PointersIn(c.bytes, count);
      r == if |before| + |own| > MAX_POINTER_SECTIONS then None else Some(before + own)
  {
    hide Read;
    var sections := before;
    for index := 0 to count
      invariant sections == before + PointersIn(c.bytes, index)
      invariant |sections| <= MAX_POINTER_SECTIONS
    {
      var section := at + SEGMENT_COMMAND_BYTES + index * SECTION_BYTES;
      ReadInside(commands, at, |c.bytes|, SectionAt(index) + 64, 4);
      ReadInside(commands, at, |c.bytes|, SectionAt(index) + 32, 8);
      ReadInside(commands, at, |c.bytes|, SectionAt(index) + 40, 8);
      PointersGrow(c.bytes, index + 1, count);
      var flags := Read(commands, section + 64, 4).value;
      if !IsPointers(flags) { continue; }
      if |sections| == MAX_POINTER_SECTIONS { return None; }
      sections := sections
        + [PointerSection(Read(commands, section + 32, 8).value, Read(commands, section + 40, 8).value)];
    }
    return Some(sections);
  }

  lemma {:induction false} PointersGrow(bytes: seq<byte>, m: nat, n: nat)
    requires m <= n && SectionAt(n) <= |bytes|
    ensures |PointersIn(bytes, m)| <= |PointersIn(bytes, n)|
    decreases n - m
  {
    hide Read;
    if m < n { PointersGrow(bytes, m, n - 1); }
  }

  method ReadLayout(commands: seq<byte>, commandCount: nat) returns (r: Option<DispatchLayout>)
    ensures r == Layout(commands, commandCount)
  {
    hide Commands, WellFormed, PointersIn, AllPointers, Bound, Read;
    if |commands| > MAX_COMMAND_BYTES { return None; }
    var at: nat := 0;
    var bound := false;
    var sections: seq<PointerSection> := [];
    ghost var seen: seq<Command> := [];
    ghost var all := Commands(commands, 0, commandCount);
    NothingSeen(all);
    NothingBound();
    for i := 0 to commandCount
      invariant all == Behind(seen, Commands(commands, at, commandCount - i))
      invariant AllPointers(seen) == Some(sections) && |sections| <= MAX_POINTER_SECTIONS
      invariant bound == Bound(seen)
    {
      var next := NextCommand(commands, at, commandCount - i, seen);
      if next.None? { return None; }
      var c := next.value;
      ghost var seen' := seen + [c];
      PointersStep(seen, c);
      assert sections + [] == sections;
      if all.Some? && AllPointers(all.value).Some? { PointersOfPrefix(seen', all.value); }
      if c.kind == LC_DYLD_CHAINED_FIXUPS { bound := true; }
      assert bound == Bound(seen') by { BoundStep(seen, c); }
      if c.kind == LC_SEGMENT_64 {
        if |c.bytes| < SEGMENT_COMMAND_BYTES { return None; }
        ReadInside(commands, at, |c.bytes|, 64, 4);
        var count := Read(commands, at + 64, 4).value;
        var required := SEGMENT_COMMAND_BYTES + count * SECTION_BYTES;
        if required > |c.bytes| { return None; }
        var more := ReadSections(commands, at, c, count, sections);
        if more.None? { return None; }
        sections := more.value;
      }
      seen := seen';
      at := at + |c.bytes|;
    }
    CommandsEnd(commands, at, seen);
    if at != |commands| { return None; }
    return Some(DispatchLayout(sections, bound));
  }

  lemma NothingBound()
    ensures AllPointers([]) == Some([]) && !Bound([])
  {
  }

  lemma PointersStep(seen: seq<Command>, c: Command)
    requires AllPointers(seen).Some?
    ensures AllPointers(seen + [c])
         == if PointersOf(c).Some? then Some(AllPointers(seen).value + PointersOf(c).value) else None
  {
    hide PointersOf;
    assert (seen + [c])[..|seen|] == seen;
  }

  lemma BoundStep(seen: seq<Command>, c: Command)
    ensures Bound(seen + [c]) <==> Bound(seen) || c.kind == LC_DYLD_CHAINED_FIXUPS
  {
    if i :| 0 <= i < |seen| && seen[i].kind == LC_DYLD_CHAINED_FIXUPS {
      assert (seen + [c])[i] == seen[i];
    }
    assert (seen + [c])[|seen|] == c;
  }

  /** A list describes no layout once one of its prefixes describes none. */
  lemma {:induction false} PointersOfPrefix(seen: seq<Command>, all: seq<Command>)
    requires seen <= all && AllPointers(all).Some?
    ensures AllPointers(seen).Some? && |AllPointers(seen).value| <= |AllPointers(all).value|
    decreases |all|
  {
    hide PointersOf;
    if |seen| < |all| { PointersOfPrefix(seen, all[..|all| - 1]); } else { assert seen == all; }
  }

  // ----- what the reader makes of an encoded image

  /** The pointer sections that were written into a list of commands, in order. */
  function WrittenIn(sections: seq<Section>): seq<PointerSection> {
    if sections == [] then []
    else
      var last := sections[|sections| - 1];
      WrittenIn(sections[..|sections| - 1])
      + if IsPointers(last.flags) then [PointerSection(last.address, last.size)] else []
  }

  function Written(loads: seq<Load>): seq<PointerSection> {
    if loads == [] then []
    else
      var last := loads[|loads| - 1];
      Written(loads[..|loads| - 1]) + if last.Segment? then WrittenIn(last.sections) else []
  }

  lemma SectionFields(s: Section)
    requires s.Valid()
    ensures |s.Encode()| == SECTION_BYTES
    ensures Read(s.Encode(), 32, 8) == Some(s.address) && Read(s.Encode(), 40, 8) == Some(s.size)
    ensures Read(s.Encode(), 64, 4) == Some(s.flags)
  {
    hide Le, Span, Read, Joined;
    var p := s.Pieces();
    SectionOffsets(s);
    PieceReads(p, 1, s.address, 8);
    PieceReads(p, 2, s.size, 8);
    PieceReads(p, 4, s.flags, 4);
    PieceAt(p, 0);
  }

  lemma SectionOffsets(s: Section)
    requires s.Valid()
    ensures var p := s.Pieces(); Offset(p, 1) == 32 && Offset(p, 2) == 40 && Offset(p, 4) == 64 && Offset(p, |p|) == 80
  {
    hide Le, Span, Offset;
    var p := s.Pieces();
    OffsetOfNone(p);
    OffsetStep(p, 0);
    OffsetStep(p, 1);
    OffsetStep(p, 2);
    OffsetStep(p, 3);
    OffsetStep(p, 4);
    OffsetStep(p, 5);
  }

  lemma {:induction false} SectionsReadBack(l: Load, n: nat)
    requires l.Segment? && l.Valid() && n <= |l.sections| && SectionAt(n) <= |l.Encode()|
    ensures PointersIn(l.Encode(), n) == WrittenIn(l.sections[..n])
    decreases n
  {
    hide Le, Span, Read, Load.Encode, Load.Valid, Section.Encode;
    if n > 0 {
      SectionsReadBack(l, n - 1);
      SectionReadsBack(l, n - 1);
      assert l.sections[..n][..n - 1] == l.sections[..n - 1];
    }
  }

  lemma SectionReadsBack(l: Load, i: nat)
    requires l.Segment? && l.Valid() && i < |l.sections|
    ensures SectionAt(|l.sections|) <= |l.Encode()|
    ensures var s, b := SectionAt(i), l.Encode();
      && Read(b, s + 64, 4) == Some(l.sections[i].flags)
      && Read(b, s + 32, 8) == Some(l.sections[i].address)
      && Read(b, s + 40, 8) == Some(l.sections[i].size)
  {
    var b, s, e := l.Encode(), SectionAt(i), l.sections[i].Encode();
    assert |e| == SECTION_BYTES && At(b, s, e) && SectionAt(|l.sections|) <= |b| by { SectionSits(l, i); }
    hide Le, Span, Read, Load.Encode, Section.Encode;
    SectionFields(l.sections[i]);
    ReadInside(b, s, SECTION_BYTES, 64, 4);
    ReadInside(b, s, SECTION_BYTES, 32, 8);
    ReadInside(b, s, SECTION_BYTES, 40, 8);
  }

  lemma SectionSits(l: Load, i: nat)
    requires l.Segment? && l.Valid() && i < |l.sections|
    ensures |l.sections[i].Encode()| == SECTION_BYTES
    ensures At(l.Encode(), SectionAt(i), l.sections[i].Encode())
    ensures SectionAt(|l.sections|) <= |l.Encode()|
  {
    hide Le, Span, Read, Joined, Offset, Section.Encode;
    var front := [Le(l.Kind(), 4), Le(|Joined(l.Body())| + 8, 4)];
    var pieces := front + l.Body();
    var all := EncodeSections(l.sections);
    SegmentFields(l);
    PieceAt(pieces, 10);
    OffsetOfFront(front, l.Body(), 8);
    TwoFours(front);
    forall j | 0 <= j < |l.sections| ensures |l.sections[j].Encode()| == SECTION_BYTES { SectionFields(l.sections[j]); }
    RecordAt(Records(l.sections), SECTION_BYTES, i);
    assert At(all, i * SECTION_BYTES, l.sections[i].Encode());
    AtInside(l.Encode(), 72, all, i * SECTION_BYTES, l.sections[i].Encode());
  }

  lemma LoadReadsBack(l: Load)
    requires l.Valid()
    ensures PointersOf(l.ToCommand()) == Some(if l.Segment? then WrittenIn(l.sections) else [])
  {
    hide Le, Span, Read, Joined, WrittenIn, PointersIn, EncodeSections;
    if l.Segment? {
      SegmentFields(l);
      BodyReads(l, 6, |l.sections|, 4, 64);
      SegmentFits(l);
      SectionsReadBack(l, |l.sections|);
      assert l.sections[..|l.sections|] == l.sections;
    }
  }

  lemma SegmentFits(l: Load)
    requires l.Segment? && l.Valid()
    ensures SectionAt(|l.sections|) <= |l.Encode()|
  {
    if l.sections != [] {
      SectionSits(l, 0);
    } else {
      hide Le, Span, Joined;
      SegmentFields(l);
      var front := [Le(l.Kind(), 4), Le(|Joined(l.Body())| + 8, 4)];
      PieceAt(front + l.Body(), 10);
      OffsetOfFront(front, l.Body(), 8);
      TwoFours(front);
    }
  }

  lemma {:induction false} LoadsReadBack(loads: seq<Load>)
    requires forall i :: 0 <= i < |loads| ==> loads[i].Valid()
    ensures AllPointers(ToCommands(loads)) == Some(Written(loads))
  {
    hide Load.Valid, Load.Encode, PointersOf, WrittenIn;
    if loads != [] {
      var n := |loads| - 1;
      LoadsReadBack(loads[..n]);
      LoadReadsBack(loads[n]);
      assert ToCommands(loads)[..n] == ToCommands(loads[..n]);
    }
  }

  predicate Chained(loads: seq<Load>) { exists i :: 0 <= i < |loads| && loads[i].Kind() == 0x8000_0034 }

  /** For every list of commands within the bounds, the layout is exactly its pointer sections, in order. */
  lemma LayoutReadsBack(loads: seq<Load>)
    requires (forall i :: 0 <= i < |loads| ==> loads[i].Valid()) && |Image(loads)| <= 0x40_0000
    ensures Layout(Image(loads), |loads|)
         == if |Written(loads)| <= 128 then Some(DispatchLayout(Written(loads), Chained(loads)))
           else None
  {
    hide Load.Valid, Load.Encode, Image, Written, Commands;
    Macho.ImageReadsBack(loads);
    LoadsReadBack(loads);
    var cs := ToCommands(loads);
    assert Bound(cs) <==> Chained(loads) by {
      assert forall i :: 0 <= i < |loads| ==> cs[i].kind == loads[i].Kind();
    }
  }

  /** On arbitrary bytes a layout comes only from commands whose sizes sum to the buffer, and stays within the bound. */
  lemma LayoutIsBounded(commands: seq<byte>, n: nat)
    requires Layout(commands, n).Some?
    ensures |Layout(commands, n).value.sections| <= MAX_POINTER_SECTIONS
    ensures Commands(commands, 0, n).Some?
      && Sizes(Commands(commands, 0, n).value) == |commands| >= LOAD_COMMAND_BYTES * n
  {
    SizesSumToTheBuffer(commands, n);
    SizesAreLarge(Commands(commands, 0, n).value);
  }

  lemma {:induction false} SizesAreLarge(cs: seq<Command>)
    requires forall i :: 0 <= i < |cs| ==> WellFormed(cs[i])
    ensures Sizes(cs) >= LOAD_COMMAND_BYTES * |cs|
  {
    if cs != [] { SizesAreLarge(cs[1..]); }
  }
}
