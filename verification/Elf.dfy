/** The ELF64 dynamic array and the jump-slot relocations. */
module Elf {
  import opened Types
  import opened Bytes

  const MAX_DYNAMIC_BYTES: nat := 1024 * 1024
  const MAX_RELOCATION_BYTES: nat := 4 * 1024 * 1024
  const DYNAMIC_ENTRY_BYTES: nat := 16
  const RELA_ENTRY_BYTES: nat := 24
  const DT_NULL: nat := 0
  const DT_PLTRELSZ: nat := 2
  const DT_RELA: nat := 7
  const DT_PLTREL: nat := 20
  const DT_JMPREL: nat := 23
  const DT_BIND_NOW: nat := 24
  const DT_FLAGS: nat := 30
  const DT_FLAGS_1: nat := 0x6fff_fffb

  // ----- the dynamic array

  /** One entry. The tag is signed in the format; every tag that matters is below 2^63. */
  datatype Entry = Entry(tag: nat, value: nat) {
    predicate Binds() {
      tag == 24 || (tag == 30 && value / 8 % 2 == 1) || (tag == 0x6fff_fffb && value % 2 == 1)
    }
    predicate Valid() { tag < Span(8) && value < Span(8) }
    function Encode(): seq<byte> { Le(tag, 8) + Le(value, 8) }
  }

  datatype DynamicTable = DynamicTable(jumpRelocations: nat, jumpRelocationBytes: nat, bound: bool)

  /** The value of the last entry with a tag, or zero. */
  function LastOf(entries: seq<Entry>, tag: nat): nat {
    if entries == [] then 0
    else if entries[|entries| - 1].tag == tag then entries[|entries| - 1].value
    else LastOf(entries[..|entries| - 1], tag)
  }

  predicate Bound(entries: seq<Entry>) { exists i :: 0 <= i < |entries| && entries[i].Binds() }

  /** What the entries in front of the end marker describe. */
  function Describes(entries: seq<Entry>): Option<DynamicTable> {
    var relocations, bytes := LastOf(entries, 23), LastOf(entries, 2);
    if relocations == 0 || bytes == 0 || LastOf(entries, 20) != 7 then None
    else Some(DynamicTable(relocations, bytes, Bound(entries)))
  }

  function EntryAt(bytes: seq<byte>, i: nat): Option<Entry> {
    var tag :- Read(bytes, i * 16, 8);
    var value :- Read(bytes, i * 16 + 8, 8);
    Some(Entry(tag, value))
  }

  /** The bytes start with these entries, none of which is the end marker. */
  ghost predicate StartsWith(bytes: seq<byte>, entries: seq<Entry>) {
    forall i :: 0 <= i < |entries| ==> EntryAt(bytes, i) == Some(entries[i]) && entries[i].tag != 0
  }

  ghost predicate EndsAt(bytes: seq<byte>, n: nat) {
    EntryAt(bytes, n).Some? && EntryAt(bytes, n).value.tag == 0
  }

  /** An answer, and the entries in front of the first end marker or of the first incomplete entry. */
  ghost predicate Answers(bytes: seq<byte>, r: Option<DynamicTable>, entries: seq<Entry>) {
    && (r.Some? ==>
         && |bytes| <= 0x10_0000 && StartsWith(bytes, entries) && EndsAt(bytes, |entries|)
         && r == Describes(entries))
    && (r.None? ==>
         || |bytes| > 0x10_0000
         || (StartsWith(bytes, entries)
             && (EntryAt(bytes, |entries|).None? || (EndsAt(bytes, |entries|) && Describes(entries) == None))))
  }

  method ReadDynamicTable(bytes: seq<byte>) returns (r: Option<DynamicTable>)
    ensures exists entries :: Answers(bytes, r, entries)
  {
    ghost var entries: seq<Entry> := [];
    assert |bytes| > MAX_DYNAMIC_BYTES ==> Answers(bytes, None, entries);
    if |bytes| > MAX_DYNAMIC_BYTES { return None; }
    var relocations, size, form, bound := 0, 0, 0, false;
    var at: nat := 0;
    while at < |bytes|
      invariant at == |entries| * DYNAMIC_ENTRY_BYTES
      invariant StartsWith(bytes, entries)
      invariant relocations == LastOf(entries, DT_JMPREL) && size == LastOf(entries, DT_PLTRELSZ)
      invariant form == LastOf(entries, DT_PLTREL) && bound == Bound(entries)
      decreases |bytes| - at
    {
      var tag := Read(bytes, at, 8);
      if tag.None? {
        assert Answers(bytes, None, entries);
        return None;
      }
      var value := Read(bytes, at + 8, 8);
      if value.None? {
        assert Answers(bytes, None, entries);
        return None;
      }
      ghost var entry := Entry(tag.value, value.value);
      assert EntryAt(bytes, |entries|) == Some(entry);
      if tag.value == DT_NULL {
        if relocations == 0 || size == 0 || form != DT_RELA {
          assert Answers(bytes, None, entries);
          return None;
        }
        assert Answers(bytes, Some(DynamicTable(relocations, size, bound)), entries);
        return Some(DynamicTable(relocations, size, bound));
      }
      EntriesGrow(entries, entry);
      if tag.value == DT_JMPREL {
        relocations := value.value;
      } else if tag.value == DT_PLTRELSZ {
        size := value.value;
      } else if tag.value == DT_PLTREL {
        form := value.value;
      } else if tag.value == DT_BIND_NOW {
        bound := true;
      } else if tag.value == DT_FLAGS && value.value / 8 % 2 == 1 {
        bound := true;
      } else if tag.value == DT_FLAGS_1 && value.value % 2 == 1 {
        bound := true;
      }
      entries := entries + [entry];
      at := at + DYNAMIC_ENTRY_BYTES;
    }
    assert Answers(bytes, None, entries);
    return None;
  }

  lemma EntriesGrow(entries: seq<Entry>, entry: Entry)
    ensures forall tag ::
      LastOf(entries + [entry], tag) == if entry.tag == tag then entry.value else LastOf(entries, tag)
    ensures Bound(entries + [entry]) <==> Bound(entries) || entry.Binds()
  {
    assert (entries + [entry])[..|entries|] == entries;
    if i :| 0 <= i < |entries| && entries[i].Binds() { assert (entries + [entry])[i].Binds(); }
    if entry.Binds() { assert (entries + [entry])[|entries|].Binds(); }
  }

  /** The entries in front of the first end marker are determined by the bytes. */
  lemma EntriesAreUnique(bytes: seq<byte>, a: seq<Entry>, b: seq<Entry>)
    requires StartsWith(bytes, a) && EndsAt(bytes, |a|) && StartsWith(bytes, b)
    requires EndsAt(bytes, |b|) || EntryAt(bytes, |b|).None?
    ensures a == b
  {
    hide EntryAt;
    forall i | 0 <= i < |a| && i < |b| ensures a[i] == b[i] {
      assert EntryAt(bytes, i) == Some(a[i]) && EntryAt(bytes, i) == Some(b[i]);
    }
  }

  function EncodeEntries(entries: seq<Entry>): seq<byte> {
    Joined(seq(|entries|, i requires 0 <= i < |entries| => entries[i].Encode()))
  }

  lemma EntryReadsBack(bytes: seq<byte>, i: nat, e: Entry)
    requires e.Valid() && At(bytes, i * DYNAMIC_ENTRY_BYTES, e.Encode())
    ensures EntryAt(bytes, i) == Some(e)
  {
    hide Le, Span, Read, At;
    var at := i * DYNAMIC_ENTRY_BYTES;
    AtConcat(bytes, at, Le(e.tag, 8), Le(e.value, 8));
    ReadsIff(bytes, at, e.tag, 8);
    ReadsIff(bytes, at + 8, e.value, 8);
  }

  /** A written array, its end marker and anything behind it start with the written entries. */
  lemma ArrayReadsBack(entries: seq<Entry>, ending: Entry, rest: seq<byte>)
    requires (forall i :: 0 <= i < |entries| ==> entries[i].Valid() && entries[i].tag != DT_NULL)
    requires ending.Valid() && ending.tag == DT_NULL
    ensures var bytes := EncodeEntries(entries) + ending.Encode() + rest;
      StartsWith(bytes, entries) && EndsAt(bytes, |entries|)
  {
    hide Le, Span, EntryAt, Joined, At, Entry.Valid;
    var records := seq(|entries|, i requires 0 <= i < |entries| => entries[i].Encode());
    var body := EncodeEntries(entries);
    var bytes := body + ending.Encode() + rest;
    assert |body| == |entries| * DYNAMIC_ENTRY_BYTES by {
      if entries == [] { JoinedNothing(records); } else { RecordAt(records, DYNAMIC_ENTRY_BYTES, 0); }
    }
    AtBetween(body, ending.Encode(), rest);
    EntryReadsBack(bytes, |entries|, ending);
    forall i | 0 <= i < |entries| ensures EntryAt(bytes, i) == Some(entries[i]) && entries[i].tag != DT_NULL {
      RecordAt(records, DYNAMIC_ENTRY_BYTES, i);
      AtExtends(body, i * DYNAMIC_ENTRY_BYTES, records[i], ending.Encode() + rest);
      assert body + (ending.Encode() + rest) == bytes;
      EntryReadsBack(bytes, i, entries[i]);
    }
  }

  lemma JoinedNothing(records: seq<seq<byte>>)
    requires records == []
    ensures Joined(records) == []
  {
  }

  lemma AtExtends(b: seq<byte>, at: nat, part: seq<byte>, rest: seq<byte>)
    requires At(b, at, part)
    ensures At(b + rest, at, part)
  {
    assert (b + rest)[at..at + |part|] == b[at..at + |part|];
  }

  /** For every written array within the bound, the last entry of each kind in front of the end marker wins. */
  lemma DynamicReadsBack(entries: seq<Entry>, ending: Entry, rest: seq<byte>, r: Option<DynamicTable>, seen: seq<Entry>)
    requires (forall i :: 0 <= i < |entries| ==> entries[i].Valid() && entries[i].tag != 0)
    requires ending.Valid() && ending.tag == 0
    requires |EncodeEntries(entries) + ending.Encode() + rest| <= 0x10_0000
    requires Answers(EncodeEntries(entries) + ending.Encode() + rest, r, seen)
    ensures r == Describes(entries)
  {
    hide EntryAt, EncodeEntries, Entry.Encode, Entry.Valid, Describes;
    ArrayReadsBack(entries, ending, rest);
    EntriesAreUnique(EncodeEntries(entries) + ending.Encode() + rest, entries, seen);
  }

  // ----- the jump slots

  datatype JumpSlots = JumpSlots(offsets: seq<nat>, truncated: bool)

  /** The offsets of the jump slots among the first n relocations. */
  function SlotsIn(bytes: seq<byte>, jumpSlot: nat, n: nat): seq<nat>
    requires n * 24 <= |bytes|
  {
    if n == 0 then []
    else
      var at := (n - 1) * 24;
      SlotsIn(bytes, jumpSlot, n - 1)
      + if Read(bytes, at + 8, 8).value % 0x1_0000_0000 == jumpSlot then [Read(bytes, at, 8).value] else []
  }

  /** The first slots up to a limit, and whether there were more. */
  function Slots(bytes: seq<byte>, jumpSlot: nat, limit: nat): Option<JumpSlots> {
    if |bytes| > 0x40_0000 || |bytes| % 24 != 0 then None
    else
      var all := SlotsIn(bytes, jumpSlot, |bytes| / 24);
      Some(JumpSlots(if |all| <= limit then all else all[..limit], |all| > limit))
  }

  method ReadJumpSlots(bytes: seq<byte>, jumpSlot: nat, limit: nat) returns (r: Option<JumpSlots>)
    ensures r == Slots(bytes, jumpSlot, limit)
  {
    hide Num;
    if |bytes| > MAX_RELOCATION_BYTES || |bytes| % RELA_ENTRY_BYTES != 0 { return None; }
    var offsets: seq<nat> := [];
    var truncated := false;
    ghost var n := |bytes| / RELA_ENTRY_BYTES;
    for i := 0 to |bytes| / RELA_ENTRY_BYTES
      invariant var all := SlotsIn(bytes, jumpSlot, i);
        offsets == (if |all| <= limit then all else all[..limit]) && truncated == (|all| > limit)
    {
      var at := i * RELA_ENTRY_BYTES;
      var offset := Read(bytes, at, 8);
      if offset.None? { return None; }
      var info := Read(bytes, at + 8, 8);
      if info.None? { return None; }
      if info.value % 0x1_0000_0000 != jumpSlot { continue; }
      if |offsets| == limit {
        truncated := true;
        continue;
      }
      offsets := offsets + [offset.value];
    }
    return Some(JumpSlots(offsets, truncated));
  }

  /** One relocation: the slot that it fills, the symbol that fills it, and its kind. */
  datatype Rela = Rela(offset: nat, symbol: nat, kind: nat, addend: nat) {
    predicate Valid() { offset < Span(8) && symbol < 0x1_0000_0000 && kind < 0x1_0000_0000 && addend < Span(8) }
    function Info(): nat { symbol * 0x1_0000_0000 + kind }
    function Encode(): seq<byte> { Le(offset, 8) + Le(Info(), 8) + Le(addend, 8) }
    predicate IsSlot(jumpSlot: nat) { kind == jumpSlot }
  }

  function EncodeRelas(relas: seq<Rela>): seq<byte> {
    Joined(seq(|relas|, i requires 0 <= i < |relas| => relas[i].Encode()))
  }

  function WrittenSlots(relas: seq<Rela>, jumpSlot: nat): seq<nat> {
    if relas == [] then []
    else
      var last := relas[|relas| - 1];
      WrittenSlots(relas[..|relas| - 1], jumpSlot) + if last.IsSlot(jumpSlot) then [last.offset] else []
  }

  lemma RelaReadsBack(bytes: seq<byte>, at: nat, r: Rela)
    requires r.Valid() && At(bytes, at, r.Encode())
    ensures Read(bytes, at, 8) == Some(r.offset) && Read(bytes, at + 8, 8).Some?
    ensures Read(bytes, at + 8, 8).value % 0x1_0000_0000 == r.kind
  {
    hide Le, Read, At, Span;
    InfoFits(r);
    AtConcat(bytes, at, Le(r.offset, 8) + Le(r.Info(), 8), Le(r.addend, 8));
    AtConcat(bytes, at, Le(r.offset, 8), Le(r.Info(), 8));
    ReadsIff(bytes, at, r.offset, 8);
    ReadsIff(bytes, at + 8, r.Info(), 8);
  }

  lemma InfoFits(r: Rela)
    requires r.Valid()
    ensures r.offset < Span(8) && r.Info() < Span(8) && r.Info() % 0x1_0000_0000 == r.kind
  {
  }

  lemma {:induction false} RelasReadBack(relas: seq<Rela>, bytes: seq<byte>, jumpSlot: nat, n: nat)
    requires (forall i :: 0 <= i < |relas| ==> relas[i].Valid()) && n <= |relas|
    requires bytes == EncodeRelas(relas) && |bytes| == |relas| * RELA_ENTRY_BYTES
    ensures SlotsIn(bytes, jumpSlot, n) == WrittenSlots(relas[..n], jumpSlot)
    decreases n
  {
    hide Le, Span, Read, Joined, At, Rela.Valid;
    if n > 0 {
      RelasReadBack(relas, bytes, jumpSlot, n - 1);
      var records := seq(|relas|, i requires 0 <= i < |relas| => relas[i].Encode());
      RecordAt(records, RELA_ENTRY_BYTES, n - 1);
      RelaReadsBack(bytes, (n - 1) * RELA_ENTRY_BYTES, relas[n - 1]);
      assert relas[..n][..n - 1] == relas[..n - 1];
    }
  }

  /** For every list of relocations within the bound, the reader keeps the first slots of the asked kind. */
  lemma SlotsReadBack(relas: seq<Rela>, jumpSlot: nat, limit: nat)
    requires (forall i :: 0 <= i < |relas| ==> relas[i].Valid()) && |EncodeRelas(relas)| <= 0x40_0000
    ensures var all := WrittenSlots(relas, jumpSlot);
      Slots(EncodeRelas(relas), jumpSlot, limit)
        == Some(JumpSlots(if |all| <= limit then all else all[..limit], |all| > limit))
  {
    hide Le, Span, Joined, At, Rela.Valid, SlotsIn;
    var records := seq(|relas|, i requires 0 <= i < |relas| => relas[i].Encode());
    if relas == [] { JoinedNothing(records); } else { RecordAt(records, RELA_ENTRY_BYTES, 0); }
    RelasReadBack(relas, EncodeRelas(relas), jumpSlot, |relas|);
    assert relas[..|relas|] == relas;
  }
}
