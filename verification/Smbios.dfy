/** The System Information strings of a raw SMBIOS table. */
module Smbios {
  import opened Types
  import opened Text

  const SYSTEM_INFORMATION: byte := 1
  const END_OF_TABLE: byte := 127
  const HEADER_BYTES: nat := 4
  const MANUFACTURER: nat := 4
  const PRODUCT: nat := 5

  /** The two texts, as their UTF-8 bytes. */
  datatype Information = Information(manufacturer: seq<byte>, product: seq<byte>)

  // ----- strings

  /** The pieces between zero bytes; a run without any is one piece, even when it is empty. */
  function Split(strings: seq<byte>): (r: seq<seq<byte>>)
    ensures r != []
  {
    if strings == [] then [[]]
    else
      var rest := Split(strings[1..]);
      if strings[0] == 0 then [[]] + rest else [[strings[0]] + rest[0]] + rest[1..]
  }

  /** The text that a field's number names. */
  function StringOf(strings: seq<byte>, number: byte): Option<seq<byte>> {
    if number == 0 then Some([])
    else if number as int > |Split(strings)| then None
    else if ValidUtf8(Split(strings)[number - 1]) then Some(Split(strings)[number - 1])
    else None
  }

  // ----- the walk

  predicate Ends(table: seq<byte>, at: nat) { at + 2 <= |table| && table[at..at + 2] == [0, 0] }

  /** The byte after the first two zeros from a start on. */
  ghost predicate FirstEnd(table: seq<byte>, start: nat, end: Option<nat>) {
    match end
    case None => forall at: nat :: at >= start ==> !Ends(table, at)
    case Some(n) => n >= start + 2 && Ends(table, n - 2) && forall at: nat :: start <= at < n - 2 ==> !Ends(table, at)
  }

  function RunEnd(table: seq<byte>, start: nat): (r: Option<nat>)
    ensures r.Some? ==> start + 2 <= r.value <= |table|
    decreases |table| - start
  {
    if start + 2 > |table| then None
    else if table[start..start + 2] == [0, 0] then Some(start + 2)
    else RunEnd(table, start + 1)
  }

  lemma {:induction false} RunEndIsFirst(table: seq<byte>, start: nat)
    ensures FirstEnd(table, start, RunEnd(table, start))
    decreases |table| - start
  {
    if start + 2 <= |table| && table[start..start + 2] != [0, 0] { RunEndIsFirst(table, start + 1); }
  }

  lemma RunEndIs(table: seq<byte>, start: nat, n: nat)
    requires FirstEnd(table, start, Some(n))
    ensures RunEnd(table, start) == Some(n)
  {
    hide RunEnd;
    RunEndIsFirst(table, start);
  }

  method ReadRunEnd(table: seq<byte>, start: nat) returns (r: Option<nat>)
    ensures r == RunEnd(table, start)
  {
    var cursor := start;
    while true
      invariant RunEnd(table, start) == RunEnd(table, cursor)
      decreases |table| - cursor
    {
      if cursor + 2 > |table| { return None; }
      if table[cursor..cursor + 2] == [0, 0] { return Some(cursor + 2); }
      cursor := cursor + 1;
    }
  }

  /** What the structure at a cursor states, when it is the one that states the machine. */
  function InformationAt(table: seq<byte>, cursor: nat, start: nat, end: nat): Option<Information>
    requires cursor <= start && start + 2 <= end <= |table|
  {
    var fields := table[cursor..start];
    var strings := table[start..end - 2];
    if |fields| <= 4 then None
    else
      var manufacturer :- StringOf(strings, fields[4]);
      if |fields| <= 5 then None
      else
        var product :- StringOf(strings, fields[5]);
        Some(Information(manufacturer, product))
  }

  function Walk(table: seq<byte>, cursor: nat): Option<Information>
    decreases |table| - cursor
  {
    if cursor + 4 > |table| then None
    else
      var kind, formatted := table[cursor], table[cursor + 1] as int;
      if kind == 127 || formatted < 4 then None
      else
        var end :- RunEnd(table, cursor + formatted);
        if kind == 1 then InformationAt(table, cursor, cursor + formatted, end)
        else Walk(table, end)
  }

  /** The second cursor is the end of the structure at the first, at least six bytes on, and inside the table. */
  predicate Follows(table: seq<byte>, cursor: nat, next: nat) {
    && cursor + 4 <= |table|
    && RunEnd(table, cursor + table[cursor + 1] as int) == Some(next)
    && cursor + 6 <= next <= |table|
  }

  ghost predicate Advances(table: seq<byte>, cursors: seq<nat>) {
    forall i, j :: 0 <= i && j == i + 1 && j < |cursors| ==> Follows(table, cursors[i], cursors[j])
  }

  lemma NoAdvance(table: seq<byte>)
    ensures Advances(table, [0])
  {
  }

  lemma StepFollows(table: seq<byte>, cursor: nat, next: nat)
    requires cursor + HEADER_BYTES <= |table| && table[cursor + 1] as int >= HEADER_BYTES
    requires RunEnd(table, cursor + table[cursor + 1] as int) == Some(next)
    ensures Follows(table, cursor, next)
  {
  }

  lemma AdvancesOnce(table: seq<byte>, cursors: seq<nat>, next: nat)
    requires cursors != [] && Advances(table, cursors) && Follows(table, cursors[|cursors| - 1], next)
    ensures Advances(table, cursors + [next])
  {
    hide Follows;
  }

  /** The walk over the structures, and the cursors that it passes. */
  method SystemInformation(table: seq<byte>) returns (r: Option<Information>, ghost cursors: seq<nat>)
    ensures r == Walk(table, 0)
    ensures |cursors| >= 1 && cursors[0] == 0 && Advances(table, cursors)
    ensures 6 * (|cursors| - 1) <= |table|
  {
    hide Advances, Follows;
    var cursor: nat := 0;
    cursors := [0];
    NoAdvance(table);
    while true
      invariant Walk(table, 0) == Walk(table, cursor)
      invariant |cursors| >= 1 && cursors[0] == 0 && cursors[|cursors| - 1] == cursor && Advances(table, cursors)
      invariant 6 * (|cursors| - 1) <= cursor && (cursor <= |table| || cursor == 0)
      decreases |table| - cursor
    {
      if cursor + HEADER_BYTES > |table| { return None, cursors; }
      var header := table[cursor..cursor + HEADER_BYTES];
      var kind := header[0];
      var formatted: nat := header[1];
      if kind == END_OF_TABLE || formatted < HEADER_BYTES { return None, cursors; }
      var start := cursor + formatted;
      var end := ReadRunEnd(table, start);
      if end.None? { return None, cursors; }
      if kind == SYSTEM_INFORMATION {
        return InformationAt(table, cursor, start, end.value), cursors;
      }
      StepFollows(table, cursor, end.value);
      AdvancesOnce(table, cursors, end.value);
      cursors := cursors + [end.value];
      cursor := end.value;
    }
  }

  // ----- the encoder

  /** One structure: its type, its handle, the rest of its formatted area, and its strings. */
  datatype Structure = Structure(kind: byte, handle: seq<byte>, fields: seq<byte>, strings: seq<seq<byte>>) {
    ghost predicate Valid() {
      && |handle| == 2 && |fields| <= 251
      && forall i :: 0 <= i < |strings| ==> IsString(strings[i])
    }
    function Formatted(): seq<byte> { [kind, (4 + |fields|) % 256] + handle + fields }
    function Encode(): seq<byte> { Formatted() + Run(strings) + [0, 0] }
  }

  /** A string of a structure is never empty and holds no zero byte. */
  predicate IsString(s: seq<byte>) { s != [] && forall i :: 0 <= i < |s| ==> s[i] != 0 }

  /** The strings with a zero between them. */
  function Run(strings: seq<seq<byte>>): seq<byte> {
    if strings == [] then []
    else if |strings| == 1 then strings[0]
    else strings[0] + [0] + Run(strings[1..])
  }

  /** What the numbers of a structure name. Without strings, the number one still reads as empty text. */
  function Named(strings: seq<seq<byte>>, number: byte): Option<seq<byte>> {
    if number == 0 || (number == 1 && strings == []) then Some([])
    else if number as int <= |strings| && ValidUtf8(strings[number - 1]) then Some(strings[number - 1])
    else None
  }

  lemma {:induction false} SplitOfPiece(s: seq<byte>, rest: seq<byte>)
    requires forall i :: 0 <= i < |s| ==> s[i] != 0
    ensures Split(s) == [s]
    ensures Split(s + [0] + rest) == [s] + Split(rest)
  {
    if s == [] {
      assert s + [0] + rest == [0] + rest;
      assert ([0] + rest)[1..] == rest;
    } else {
      SplitOfPiece(s[1..], rest);
      assert (s + [0] + rest)[1..] == s[1..] + [0] + rest;
      assert [s[0]] + s[1..] == s;
    }
  }

  lemma {:induction false} SplitOfRun(strings: seq<seq<byte>>)
    requires forall i :: 0 <= i < |strings| ==> IsString(strings[i])
    ensures Split(Run(strings)) == if strings == [] then [[]] else strings
  {
    hide Split;
    if strings == [] {
      SplitOfPiece([], []);
    } else {
      SplitOfPiece(strings[0], Run(strings[1..]));
      if |strings| > 1 {
        SplitOfRun(strings[1..]);
        assert [strings[0]] + strings[1..] == strings;
      } else {
        assert [strings[0]] == strings;
      }
    }
  }

  /** The number of a field names the string that was written. */
  lemma TextReadsBack(strings: seq<seq<byte>>, number: byte)
    requires forall i :: 0 <= i < |strings| ==> IsString(strings[i])
    ensures StringOf(Run(strings), number) == Named(strings, number)
  {
    hide Split, Run;
    SplitOfRun(strings);
    Utf8IsValid([]);
  }

  /** No two zeros inside the strings, and none across their end but the last two. */
  lemma {:induction false} RunHasNoEnd(strings: seq<seq<byte>>, at: nat)
    requires forall i :: 0 <= i < |strings| ==> IsString(strings[i])
    requires at < |Run(strings)|
    ensures !((Run(strings) + [0])[at] == 0 && (Run(strings) + [0])[at + 1] == 0)
    ensures Run(strings)[0] != 0
  {
    var s, rest := strings[0], strings[1..];
    assert IsString(s);
    if |strings| > 1 {
      var skip := |s| + 1;
      assert IsString(rest[0]);
      assert Run(rest) != [];
      RunHasNoEnd(rest, if at >= skip then at - skip else 0);
      assert Run(strings) == s + [0] + Run(rest);
      if at >= skip {
        assert (Run(strings) + [0])[at] == (Run(rest) + [0])[at - skip];
        assert (Run(strings) + [0])[at + 1] == (Run(rest) + [0])[at + 1 - skip];
      }
    }
  }

  /** The run of a structure ends where its two zeros were written. */
  lemma RunEndReadsBack(before: seq<byte>, strings: seq<seq<byte>>, after: seq<byte>)
    requires forall i :: 0 <= i < |strings| ==> IsString(strings[i])
    ensures RunEnd(before + Run(strings) + [0, 0] + after, |before|) == Some(|before| + |Run(strings)| + 2)
  {
    hide Run, RunEnd;
    var table := before + Run(strings) + [0, 0] + after;
    var n := |before| + |Run(strings)| + 2;
    assert Ends(table, n - 2);
    forall at: nat | |before| <= at < n - 2 ensures !Ends(table, at) {
      RunHasNoEnd(strings, at - |before|);
      var run := Run(strings) + [0];
      assert table[at] == run[at - |before|] && table[at + 1] == run[at + 1 - |before|];
    }
    RunEndIs(table, |before|, n);
  }

  function Table(structures: seq<Structure>): seq<byte> {
    if structures == [] then [] else structures[0].Encode() + Table(structures[1..])
  }

  /** What the structures state: the first one of the asked type in front of an end marker. */
  function States(structures: seq<Structure>): Option<Information> {
    if structures == [] || structures[0].kind == 127 then None
    else if structures[0].kind == 1 then
      var s := structures[0];
      if |s.fields| < 2 then None
      else
        var manufacturer :- Named(s.strings, s.fields[0]);
        var product :- Named(s.strings, s.fields[1]);
        Some(Information(manufacturer, product))
    else States(structures[1..])
  }

  lemma StructureAt(before: seq<byte>, s: Structure, after: seq<byte>)
    requires s.Valid()
    ensures var table, cursor := before + s.Encode() + after, |before|;
      && |s.Encode()| == |s.Formatted()| + |Run(s.strings)| + 2 && |s.Formatted()| == 4 + |s.fields|
      && table[cursor] == s.kind && table[cursor + 1] as int == |s.Formatted()|
      && RunEnd(table, cursor + |s.Formatted()|) == Some(cursor + |s.Encode()|)
      && table[cursor..cursor + |s.Formatted()|] == s.Formatted()
      && table[cursor + |s.Formatted()|..cursor + |s.Encode()| - 2] == Run(s.strings)
  {
    hide Run, RunEnd;
    var table := before + s.Encode() + after;
    RunEndReadsBack(before + s.Formatted(), s.strings, after);
    assert before + s.Formatted() + Run(s.strings) + [0, 0] + after == table;
    assert table[|before|] == s.Encode()[0] && table[|before| + 1] == s.Encode()[1];
  }

  lemma InformationReadsBack(before: seq<byte>, s: Structure, after: seq<byte>)
    requires s.Valid() && s.kind == SYSTEM_INFORMATION
    ensures Walk(before + s.Encode() + after, |before|) == States([s])
  {
    hide RunEnd, Run, Named, StringOf;
    StructureAt(before, s, after);
    var formatted := s.Formatted();
    if |s.fields| > 0 {
      TextReadsBack(s.strings, s.fields[0]);
      assert formatted[MANUFACTURER] == s.fields[0];
    }
    if |s.fields| > 1 {
      TextReadsBack(s.strings, s.fields[1]);
      assert formatted[PRODUCT] == s.fields[1];
    }
  }

  lemma SkipsOther(before: seq<byte>, s: Structure, after: seq<byte>)
    requires s.Valid() && s.kind != SYSTEM_INFORMATION
    ensures var table := before + s.Encode() + after;
      Walk(table, |before|) == if s.kind == END_OF_TABLE then None else Walk(table, |before + s.Encode()|)
  {
    hide RunEnd, Run;
    StructureAt(before, s, after);
  }

  /** For every table of structures, the walk answers what the structures state. */
  lemma {:induction false} TableReadsBack(before: seq<byte>, structures: seq<Structure>)
    requires forall i :: 0 <= i < |structures| ==> structures[i].Valid()
    ensures Walk(before + Table(structures), |before|) == States(structures)
    decreases structures
  {
    hide Walk, RunEnd, Run, Named, Structure.Encode, Structure.Valid;
    if structures == [] {
      NothingLeft(before);
      assert before + Table(structures) == before;
    } else {
      var s, rest := structures[0], structures[1..];
      assert s.Valid();
      var before' := before + s.Encode();
      assert before' + Table(rest) == before + Table(structures);
      if s.kind == SYSTEM_INFORMATION {
        InformationReadsBack(before, s, Table(rest));
      } else {
        SkipsOther(before, s, Table(rest));
        TableReadsBack(before', rest);
      }
    }
  }

  lemma NothingLeft(table: seq<byte>)
    ensures Walk(table, |table|) == None
  {
  }

  /** A structure that names no string reads as empty text under the number one, and as nothing under a larger one. */
  lemma NumberOneWithoutStrings(s: Structure, number: byte)
    requires s.Valid() && s.kind == SYSTEM_INFORMATION && s.strings == []
    requires |s.fields| >= 2 && s.fields[0] == number && s.fields[1] == 0
    ensures Walk(s.Encode(), 0) == if number <= 1 then Some(Information([], [])) else None
  {
    hide Walk, RunEnd, Run, Structure.Encode;
    assert [] + s.Encode() + [] == s.Encode();
    InformationReadsBack([], s, []);
  }
}
