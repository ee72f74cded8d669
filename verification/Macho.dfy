/** Mach-O load commands: the framing that both readers walk, and the commands that an image can carry. */
module Macho {
  import opened Types
  import opened Bytes

  const MAX_COMMAND_BYTES: nat := 4 * 1024 * 1024
  const LOAD_COMMAND_BYTES: nat := 8
  const SEGMENT_COMMAND_BYTES: nat := 72
  const SECTION_BYTES: nat := 80
  const SIGNATURE_COMMAND_BYTES: nat := 16
  const LC_SEGMENT_64: nat := 0x19
  const LC_CODE_SIGNATURE: nat := 0x1d
  const LC_DYLD_CHAINED_FIXUPS: nat := 0x8000_0034

  /** One command: its kind, and all of its bytes. */
  datatype Command = Command(kind: nat, bytes: seq<byte>)

  /** The stated number of commands from an offset on, when they end exactly where the buffer ends. */
  function Commands(b: seq<byte>, at: nat, n: nat): Option<seq<Command>>
    decreases n
  {
    if n == 0 then (if at == |b| then Some([]) else None)
    else
      var kind :- Read(b, at, 4);
      var size :- Read(b, at + 4, 4);
      if size < 8 || at + size > |b| then None
      else
        var rest :- Commands(b, at + size, n - 1);
        Some([Command(kind, b[at..at + size])] + rest)
  }

  /** The command states its own kind and its own size. */
  predicate WellFormed(c: Command) {
    |c.bytes| >= 8 && Read(c.bytes, 0, 4) == Some(c.kind) && Read(c.bytes, 4, 4) == Some(|c.bytes|)
  }

  function Concat(cs: seq<Command>): seq<byte> {
    if cs == [] then [] else cs[0].bytes + Concat(cs[1..])
  }

  ghost predicate Framed(b: seq<byte>, at: nat, n: nat, cs: seq<Command>) {
    && |cs| == n && (forall i :: 0 <= i < |cs| ==> WellFormed(cs[i]))
    && at <= |b| && b[at..] == Concat(cs)
  }

  /** The walk reads exactly the lists of commands whose bytes fill the rest of the buffer. */
  lemma {:induction false} CommandsIff(b: seq<byte>, at: nat, n: nat, cs: seq<Command>)
    ensures Commands(b, at, n) == Some(cs) <==> Framed(b, at, n, cs)
    decreases n
  {
    if n > 0 {
      if Framed(b, at, n, cs) { CommandsFound(b, at, n, cs); }
      if Commands(b, at, n) == Some(cs) { CommandsShape(b, at, n, cs); }
    }
  }

  lemma CommandsFound(b: seq<byte>, at: nat, n: nat, cs: seq<Command>)
    requires n > 0 && Framed(b, at, n, cs)
    ensures Commands(b, at, n) == Some(cs)
    decreases n, 0
  {
    hide Read;
    var c, rest := cs[0], cs[1..];
    var size := |c.bytes|;
    assert WellFormed(c);
    assert at + size <= |b| && b[at..at + size] == c.bytes && b[at + size..] == Concat(rest) by {
      assert b[at..][..size] == c.bytes && b[at..][size..] == Concat(rest);
    }
    ReadInside(b, at, size, 0, 4);
    ReadInside(b, at, size, 4, 4);
    CommandsIff(b, at + size, n - 1, rest);
    assert cs == [c] + rest;
  }

  lemma CommandsShape(b: seq<byte>, at: nat, n: nat, cs: seq<Command>)
    requires n > 0 && Commands(b, at, n) == Some(cs)
    ensures Framed(b, at, n, cs)
    decreases n, 0
  {
    hide Read;
    var size := Read(b, at + 4, 4).value;
    var c := Command(Read(b, at, 4).value, b[at..at + size]);
    var rest := Commands(b, at + size, n - 1).value;
    CommandsIff(b, at + size, n - 1, rest);
    ReadInside(b, at, size, 0, 4);
    ReadInside(b, at, size, 4, 4);
    assert WellFormed(c) && cs[1..] == rest;
    assert b[at..] == b[at..at + size] + b[at + size..];
  }

  /** The sizes that the commands state. */
  function Sizes(cs: seq<Command>): nat {
    if cs == [] then 0 else |cs[0].bytes| + Sizes(cs[1..])
  }

  lemma {:induction false} SizesOfConcat(cs: seq<Command>)
    ensures Sizes(cs) == |Concat(cs)|
  {
    if cs != [] { SizesOfConcat(cs[1..]); }
  }

  /** On arbitrary bytes the walk answers only when the stated sizes sum to the length of the buffer. */
  lemma SizesSumToTheBuffer(b: seq<byte>, n: nat)
    requires Commands(b, 0, n).Some?
    ensures var cs := Commands(b, 0, n).value;
      |cs| == n && Sizes(cs) == |b| && forall i :: 0 <= i < n ==> WellFormed(cs[i])
  {
    var cs := Commands(b, 0, n).value;
    CommandsIff(b, 0, n, cs);
    SizesOfConcat(cs);
  }

  // ----- the walk as both readers perform it

  lemma CommandsEnd(b: seq<byte>, at: nat, seen: seq<Command>)
    ensures Behind(seen, Commands(b, at, 0)) == if at == |b| then Some(seen) else None
  {
    assert seen + [] == seen;
  }

  /** One command of the walk, or nothing when it is malformed. */
  method NextCommand(b: seq<byte>, at: nat, ghost n: nat, ghost seen: seq<Command>) returns (c: Option<Command>)
    requires n > 0
    ensures c.None? ==> Behind(seen, Commands(b, at, n)) == None
    ensures c.Some? ==>
      && at + |c.value.bytes| <= |b| && c.value.bytes == b[at..at + |c.value.bytes|]
      && WellFormed(c.value)
      && Behind(seen, Commands(b, at, n)) == Behind(seen + [c.value], Commands(b, at + |c.value.bytes|, n - 1))
  {
    hide Read;
    var kind := Read(b, at, 4);
    if kind.None? { return None; }
    var size := Read(b, at + 4, 4);
    if size.None? || size.value < LOAD_COMMAND_BYTES || at + size.value > |b| { return None; }
    var command := Command(kind.value, b[at..at + size.value]);
    ReadInside(b, at, size.value, 0, 4);
    ReadInside(b, at, size.value, 4, 4);
    ghost var rest := Commands(b, at + size.value, n - 1);
    if rest.Some? { assert seen + ([command] + rest.value) == seen + [command] + rest.value; }
    return Some(command);
  }

  // ----- the encoder

  /** A section: its two names, its address and size, sixteen bytes of layout, its flags, and twelve more. */
  datatype Section = Section(names: seq<byte>, address: nat, size: nat, layout: seq<byte>, flags: nat,
                             reserved: seq<byte>) {
    predicate Valid() {
      && |names| == 32 && address < Span(8) && size < Span(8) && |layout| == 16 && flags < Span(4) && |reserved| == 12
    }
    function Pieces(): seq<seq<byte>> { [names, Le(address, 8), Le(size, 8), layout, Le(flags, 4), reserved] }
    function Encode(): seq<byte> { Joined(Pieces()) }
  }

  /** What an image can carry, each with some bytes of its own at the end. */
  datatype Load =
    | Segment(name: seq<byte>, address: nat, size: nat, fileOffset: nat, fileSize: nat, protection: seq<byte>,
              sections: seq<Section>, flags: seq<byte>, slack: seq<byte>)
    | Signature(offset: nat, size: nat, slack: seq<byte>)
    | Other(kind: nat, body: seq<byte>)
  {
    function Kind(): nat {
      if Segment? then 0x19 else if Signature? then 0x1d else kind
    }
    function Body(): seq<seq<byte>> {
      match this
      case Segment(name, address, size, fileOffset, fileSize, protection, sections, flags, slack) =>
        [name, Le(address, 8), Le(size, 8), Le(fileOffset, 8), Le(fileSize, 8), protection,
         Le(|sections|, 4), flags, EncodeSections(sections), slack]
      case Signature(offset, size, slack) => [Le(offset, 4), Le(size, 4), slack]
      case Other(_, body) => [body]
    }
    function Encode(): seq<byte> {
      Joined([Le(Kind(), 4), Le(|Joined(Body())| + 8, 4)] + Body())
    }
    predicate Valid() {
      && Kind() < Span(4) && |Joined(Body())| + 8 < Span(4)
      && match this
         case Segment(name, address, size, fileOffset, fileSize, protection, sections, flags, _) =>
           && |name| == 16 && address < Span(8) && size < Span(8) && fileOffset < Span(8) && fileSize < Span(8)
           && |protection| == 8 && |flags| == 4 && |sections| < Span(4)
           && forall i :: 0 <= i < |sections| ==> sections[i].Valid()
         case Signature(offset, size, _) => offset < Span(4) && size < Span(4)
         case Other(kind, _) => kind != 0x19 && kind != 0x1d
    }
    function ToCommand(): Command { Command(Kind(), Encode()) }
  }

  function Records(sections: seq<Section>): seq<seq<byte>> {
    seq(|sections|, i requires 0 <= i < |sections| => sections[i].Encode())
  }

  function EncodeSections(sections: seq<Section>): seq<byte> { Joined(Records(sections)) }

  function Image(loads: seq<Load>): seq<byte> {
    if loads == [] then [] else loads[0].Encode() + Image(loads[1..])
  }

  function ToCommands(loads: seq<Load>): (cs: seq<Command>)
    ensures |cs| == |loads|
  {
    seq(|loads|, i requires 0 <= i < |loads| => loads[i].ToCommand())
  }

  lemma {:induction false} OffsetOfFront(front: seq<seq<byte>>, back: seq<seq<byte>>, i: nat)
    requires i <= |back|
    ensures Offset(front + back, |front| + i) == Offset(front, |front|) + Offset(back, i)
  {
    if front != [] {
      assert (front + back)[1..] == front[1..] + back;
      OffsetOfFront(front[1..], back, i);
    } else {
      assert front + back == back;
    }
  }

  lemma EncodedIsWellFormed(l: Load)
    requires l.Valid()
    ensures WellFormed(l.ToCommand()) && |l.Encode()| == |Joined(l.Body())| + 8
  {
    hide Le, Span, Read, Load.Body;
    var size := |Joined(l.Body())| + 8;
    var pieces := [Le(l.Kind(), 4), Le(size, 4)] + l.Body();
    PieceReads(pieces, 0, l.Kind(), 4);
    PieceReads(pieces, 1, size, 4);
    assert pieces[1..] == [Le(size, 4)] + l.Body() && pieces[1..][1..] == l.Body();
    assert Offset(pieces, 1) == 4;
  }

  lemma {:induction false} ImageIsConcat(loads: seq<Load>)
    ensures Image(loads) == Concat(ToCommands(loads))
  {
    hide Load.Encode;
    if loads != [] {
      ImageIsConcat(loads[1..]);
      assert ToCommands(loads)[1..] == ToCommands(loads[1..]);
    }
  }

  /** An encoded image walks to the commands it was written from. */
  lemma ImageReadsBack(loads: seq<Load>)
    requires forall i :: 0 <= i < |loads| ==> loads[i].Valid()
    ensures Commands(Image(loads), 0, |loads|) == Some(ToCommands(loads))
  {
    hide Load.Encode, Load.Valid, WellFormed;
    var cs := ToCommands(loads);
    forall i | 0 <= i < |cs| ensures WellFormed(cs[i]) { EncodedIsWellFormed(loads[i]); }
    ImageIsConcat(loads);
    assert Image(loads)[0..] == Image(loads);
    CommandsIff(Image(loads), 0, |loads|, cs);
  }

  /** The number at one of the body's pieces reads back from the whole command. */
  lemma BodyReads(l: Load, i: nat, n: nat, k: nat, at: nat)
    requires i < |l.Body()| && l.Body()[i] == Le(n, k) && n < Span(k) && at == 8 + Offset(l.Body(), i)
    ensures Read(l.Encode(), at, k) == Some(n)
  {
    hide Le, Span, Read, Load.Body, Joined, Offset;
    var front := [Le(l.Kind(), 4), Le(|Joined(l.Body())| + 8, 4)];
    PieceReads(front + l.Body(), 2 + i, n, k);
    OffsetOfFront(front, l.Body(), i);
    TwoFours(front);
  }

  lemma TwoFours(front: seq<seq<byte>>)
    requires |front| == 2 && |front[0]| == 4 && |front[1]| == 4
    ensures Offset(front, |front|) == 8
  {
    assert Offset(front[1..], 1) == 4;
  }

  /** Where the fields of a segment sit. */
  lemma SegmentFields(l: Load)
    requires l.Segment? && l.Valid()
    ensures |l.Body()| == 10 && l.Body()[8] == EncodeSections(l.sections)
    ensures Offset(l.Body(), 6) == 56 && Offset(l.Body(), 8) == 64
    ensures Offset(l.Body(), 1) == 16 && Offset(l.Body(), 3) == 32 && Offset(l.Body(), 4) == 40
  {
    hide Le, Span, EncodeSections, Joined, Offset;
    var b := l.Body();
    OffsetOfNone(b);
    OffsetStep(b, 0);
    OffsetStep(b, 1);
    OffsetStep(b, 2);
    OffsetStep(b, 3);
    OffsetStep(b, 4);
    OffsetStep(b, 5);
    OffsetStep(b, 6);
    OffsetStep(b, 7);
  }
}
