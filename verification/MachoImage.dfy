/** The code-signature range that Mach-O load commands describe. */
module MachoImage {
  import opened Types
  import opened Bytes
  import opened Macho

  const LINKEDIT: seq<byte> := [0x5F, 0x5F, 0x4C, 0x49, 0x4E, 0x4B, 0x45, 0x44, 0x49, 0x54]
  const MAX_SIGNATURE_BYTES: nat := 16 * 1024 * 1024

  datatype SegmentRange = SegmentRange(address: nat, fileOffset: nat, fileSize: nat)
  datatype DataRange = DataRange(offset: nat, size: nat)
  datatype SignatureLayout = SignatureLayout(address: nat, bytes: nat)

  /** The name field holds the ten characters and then a zero. */
  predicate IsLinkedit(name: seq<byte>) {
    |name| > 10 && name[..10] == [0x5F, 0x5F, 0x4C, 0x49, 0x4E, 0x4B, 0x45, 0x44, 0x49, 0x54] && name[10] == 0
  }

  /** What one command says, or nothing when it is too short to say it. */
  datatype Said = Link(segment: SegmentRange) | Sign(data: DataRange) | Silent

  function Says(c: Command): Option<Said>
    requires WellFormed(c)
  {
    if c.kind == 0x19 then
      if |c.bytes| < 72 then None
      else if !IsLinkedit(c.bytes[8..24]) then Some(Silent)
      else Some(Link(SegmentRange(Read(c.bytes, 24, 8).value, Read(c.bytes, 40, 8).value, Read(c.bytes, 48, 8).value)))
    else if c.kind == 0x1d then
      if |c.bytes| < 16 then None
      else Some(Sign(DataRange(Read(c.bytes, 8, 4).value, Read(c.bytes, 12, 4).value)))
    else Some(Silent)
  }

  datatype Located = Located(linkedit: Option<SegmentRange>, signature: Option<DataRange>)

  /** Both ranges, each stated at most once. */
  function Locate(cs: seq<Command>): Option<Located>
    requires forall i :: 0 <= i < |cs| ==> WellFormed(cs[i])
  {
    if cs == [] then Some(Located(None, None))
    else
      var before :- Locate(cs[..|cs| - 1]);
      var said :- Says(cs[|cs| - 1]);
      Add(before, said)
  }

  function Add(l: Located, said: Said): Option<Located> {
    match said
    case Link(segment) => if l.linkedit.Some? then None else Some(l.(linkedit := Some(segment)))
    case Sign(data) => if l.signature.Some? then None else Some(l.(signature := Some(data)))
    case Silent => Some(l)
  }

  /** Checked 64-bit arithmetic from a data range of the file to a slid address. */
  function Fit(segment: SegmentRange, data: DataRange, slide: int): Option<SignatureLayout> {
    if data.size == 0 || data.size > MAX_SIGNATURE_BYTES then None
    else
      var start := data.offset;
      var end := start + data.size;
      if end >= U64_SPAN || start < segment.fileOffset then None
      else if segment.fileOffset + segment.fileSize >= U64_SPAN || end > segment.fileOffset + segment.fileSize then None
      else if segment.address < segment.fileOffset then None
      else
        var unslid := segment.address - segment.fileOffset + start;
        if unslid >= U64_SPAN || unslid + slide < 0 || unslid + slide >= U64_SPAN then None
        else Some(SignatureLayout(unslid + slide, data.size))
  }

  function Signature(commands: seq<byte>, n: nat, slide: int): Option<SignatureLayout> {
    if |commands| > 0x40_0000 then None
    else match Commands(commands, 0, n)
      case None => None
      case Some(cs) =>
        CommandsIff(commands, 0, n, cs);
        var located :- Locate(cs);
        var segment :- located.linkedit;
        var data :- located.signature;
        Fit(segment, data, slide)
  }

  // ----- the walk

  method ReadSignature(commands: seq<byte>, commandCount: nat, slide: int) returns (r: Option<SignatureLayout>)
    ensures r == Signature(commands, commandCount, slide)
  {
    hide Commands, WellFormed, Locate, Says, Fit;
    if |commands| > MAX_COMMAND_BYTES { return None; }
    var at: nat := 0;
    var linkedit: Option<SegmentRange> := None;
    var signature: Option<DataRange> := None;
    ghost var seen: seq<Command> := [];
    ghost var all := Commands(commands, 0, commandCount);
    if all.Some? { CommandsIff(commands, 0, commandCount, all.value); }
    NothingSeen(all);
    NothingLocated();
    for i := 0 to commandCount
      invariant all == Behind(seen, Commands(commands, at, commandCount - i))
      invariant forall j :: 0 <= j < |seen| ==> WellFormed(seen[j])
      invariant Locate(seen) == Some(Located(linkedit, signature))
    {
      var next := NextCommand(commands, at, commandCount - i, seen);
      if next.None? { return None; }
      var c := next.value;
      ghost var seen' := seen + [c];
      LocateStep(seen, c);
      if all.Some? && Locate(all.value).Some? { LocatePrefix(seen', all.value); }
      var said := Listen(commands, at, c);
      if said.None? { return None; }
      match said.value {
        case Link(segment) =>
          if linkedit.Some? { return None; }
          linkedit := Some(segment);
        case Sign(data) =>
          if signature.Some? { return None; }
          signature := Some(data);
        case Silent =>
      }
      seen := seen';
      at := at + |c.bytes|;
    }
    CommandsEnd(commands, at, seen);
    if at != |commands| { return None; }
    if linkedit.None? || signature.None? { return None; }
    return Fit(linkedit.value, signature.value, slide);
  }

  /** One command of the loop, read at its place in the buffer. */
  method Listen(commands: seq<byte>, at: nat, c: Command) returns (said: Option<Said>)
    requires WellFormed(c) && at + |c.bytes| <= |commands| && c.bytes == commands[at..at + |c.bytes|]
    ensures said == Says(c)
  {
    if c.kind == LC_SEGMENT_64 && |c.bytes| >= SEGMENT_COMMAND_BYTES {
      var name := commands[at + 8..at + 24];
      SliceOfSlice(commands, at, at + |c.bytes|, 8, 24);
      if !IsLinkedit(name) { return Some(Silent); }
      ReadInside(commands, at, |c.bytes|, 24, 8);
      ReadInside(commands, at, |c.bytes|, 40, 8);
      ReadInside(commands, at, |c.bytes|, 48, 8);
      return Some(Link(SegmentRange(Read(commands, at + 24, 8).value, Read(commands, at + 40, 8).value,
                                    Read(commands, at + 48, 8).value)));
    } else if c.kind == LC_CODE_SIGNATURE && |c.bytes| >= SIGNATURE_COMMAND_BYTES {
      ReadInside(commands, at, |c.bytes|, 8, 4);
      ReadInside(commands, at, |c.bytes|, 12, 4);
      return Some(Sign(DataRange(Read(commands, at + 8, 4).value, Read(commands, at + 12, 4).value)));
    } else if c.kind == LC_SEGMENT_64 || c.kind == LC_CODE_SIGNATURE {
      return None;
    }
    return Some(Silent);
  }

  lemma NothingLocated()
    ensures Locate([]) == Some(Located(None, None))
  {
  }

  lemma LocateStep(seen: seq<Command>, c: Command)
    requires (forall j :: 0 <= j < |seen| ==> WellFormed(seen[j])) && WellFormed(c) && Locate(seen).Some?
    ensures Locate(seen + [c]) == if Says(c).Some? then Add(Locate(seen).value, Says(c).value) else None
  {
    hide Says, Add, WellFormed;
    assert (seen + [c])[..|seen|] == seen;
  }

  lemma {:induction false} LocatePrefix(seen: seq<Command>, all: seq<Command>)
    requires (forall j :: 0 <= j < |all| ==> WellFormed(all[j])) && seen <= all && Locate(all).Some?
    ensures Locate(seen).Some?
    decreases |all|
  {
    hide Says, Add, WellFormed;
    if |seen| < |all| { LocatePrefix(seen, all[..|all| - 1]); } else { assert seen == all; }
  }

  // ----- the range over the integers

  /** The signature lies inside the slid segment, byte for byte, and its size is what the command states. */
  ghost predicate Inside(l: SignatureLayout, segment: SegmentRange, data: DataRange, slide: int) {
    && l.bytes == data.size && 0 < l.bytes <= 0x100_0000
    && segment.address + slide <= l.address
    && l.address + l.bytes <= segment.address + segment.fileSize + slide
    && l.address - (segment.address + slide) == data.offset - segment.fileOffset
    && 0 <= l.address < U64_SPAN
  }

  /** The checked arithmetic answers exactly when the range is inside, the file range fits and nothing wraps. */
  lemma FitIff(segment: SegmentRange, data: DataRange, slide: int, l: SignatureLayout)
    requires data.offset < Span(4) && data.size < Span(4)
    ensures Fit(segment, data, slide) == Some(l)
       <==> && Inside(l, segment, data, slide)
            && segment.fileOffset <= segment.address
            && segment.fileOffset + segment.fileSize < U64_SPAN
            && l.address - slide < U64_SPAN
  {
    Spans();
    hide Span;
  }

  /** Any answer on arbitrary bytes lies inside the slid file range of the one `__LINKEDIT` segment. */
  lemma SignatureLiesInLinkedit(commands: seq<byte>, n: nat, slide: int)
    requires Signature(commands, n, slide).Some?
    ensures Commands(commands, 0, n).Some?
    ensures var cs := Commands(commands, 0, n).value;
      && (forall i :: 0 <= i < |cs| ==> WellFormed(cs[i]))
      && exists i, j :: OnlyLink(cs, i) && OnlySign(cs, j)
           && Inside(Signature(commands, n, slide).value, Says(cs[i]).value.segment, Says(cs[j]).value.data, slide)
  {
    var cs := Commands(commands, 0, n).value;
    CommandsIff(commands, 0, n, cs);
    var located := Locate(cs).value;
    var i := LinkIsOnly(cs);
    var j := SignIsOnly(cs);
    SaysFits(cs[j]);
    FitIff(located.linkedit.value, located.signature.value, slide, Signature(commands, n, slide).value);
    assert OnlyLink(cs, i) && OnlySign(cs, j);
  }

  ghost predicate OnlyLink(cs: seq<Command>, i: int)
    requires forall k :: 0 <= k < |cs| ==> WellFormed(cs[k])
  {
    && 0 <= i < |cs| && Says(cs[i]).Some? && Says(cs[i]).value.Link?
    && forall k :: 0 <= k < |cs| && k != i ==> Says(cs[k]).Some? && !Says(cs[k]).value.Link?
  }

  ghost predicate OnlySign(cs: seq<Command>, j: int)
    requires forall k :: 0 <= k < |cs| ==> WellFormed(cs[k])
  {
    && 0 <= j < |cs| && Says(cs[j]).Some? && Says(cs[j]).value.Sign?
    && forall k :: 0 <= k < |cs| && k != j ==> Says(cs[k]).Some? && !Says(cs[k]).value.Sign?
  }

  lemma SaysFits(c: Command)
    requires WellFormed(c) && Says(c).Some? && Says(c).value.Sign?
    ensures Says(c).value.data.offset < Span(4) && Says(c).value.data.size < Span(4)
  {
    hide Num, Span;
    NumBound(c.bytes[8..8 + 4]);
    NumBound(c.bytes[12..12 + 4]);
  }

  lemma {:induction false} NoLink(cs: seq<Command>)
    requires (forall k :: 0 <= k < |cs| ==> WellFormed(cs[k])) && Locate(cs).Some? && Locate(cs).value.linkedit.None?
    ensures forall k :: 0 <= k < |cs| ==> Says(cs[k]).Some? && !Says(cs[k]).value.Link?
  {
    hide Says, WellFormed;
    if cs != [] { NoLink(cs[..|cs| - 1]); }
  }

  lemma {:induction false} LinkIsOnly(cs: seq<Command>) returns (i: int)
    requires (forall k :: 0 <= k < |cs| ==> WellFormed(cs[k])) && Locate(cs).Some? && Locate(cs).value.linkedit.Some?
    ensures OnlyLink(cs, i) && Says(cs[i]).value.segment == Locate(cs).value.linkedit.value
  {
    hide Says, WellFormed;
    var n := |cs| - 1;
    var before := cs[..n];
    if Says(cs[n]).value.Link? {
      NoLink(before);
      i := n;
      assert forall k :: 0 <= k < n ==> before[k] == cs[k];
    } else {
      i := LinkIsOnly(before);
      assert forall k :: 0 <= k < n ==> before[k] == cs[k];
    }
  }

  lemma {:induction false} NoSign(cs: seq<Command>)
    requires (forall k :: 0 <= k < |cs| ==> WellFormed(cs[k])) && Locate(cs).Some? && Locate(cs).value.signature.None?
    ensures forall k :: 0 <= k < |cs| ==> Says(cs[k]).Some? && !Says(cs[k]).value.Sign?
  {
    hide Says, WellFormed;
    if cs != [] { NoSign(cs[..|cs| - 1]); }
  }

  lemma {:induction false} SignIsOnly(cs: seq<Command>) returns (j: int)
    requires (forall k :: 0 <= k < |cs| ==> WellFormed(cs[k])) && Locate(cs).Some? && Locate(cs).value.signature.Some?
    ensures OnlySign(cs, j) && Says(cs[j]).value.data == Locate(cs).value.signature.value
  {
    hide Says, WellFormed;
    var n := |cs| - 1;
    var before := cs[..n];
    if Says(cs[n]).value.Sign? {
      NoSign(before);
      j := n;
      assert forall k :: 0 <= k < n ==> before[k] == cs[k];
    } else {
      j := SignIsOnly(before);
      assert forall k :: 0 <= k < n ==> before[k] == cs[k];
    }
  }

  // ----- what the reader makes of an encoded image

  function SaysOf(l: Load): Said {
    match l
    case Segment(name, address, _, fileOffset, fileSize, _, _, _, _) =>
      if IsLinkedit(name) then Link(SegmentRange(address, fileOffset, fileSize)) else Silent
    case Signature(offset, size, _) => Sign(DataRange(offset, size))
    case Other(_, _) => Silent
  }

  function LocateIn(loads: seq<Load>): Option<Located> {
    if loads == [] then Some(Located(None, None))
    else
      var before :- LocateIn(loads[..|loads| - 1]);
      Add(before, SaysOf(loads[|loads| - 1]))
  }

  lemma SegmentSays(l: Load)
    requires l.Segment? && l.Valid() && WellFormed(l.ToCommand())
    ensures Says(l.ToCommand()) == Some(SaysOf(l))
  {
    hide Le, Span, Read, Joined, EncodeSections, WellFormed, Offset;
    SegmentFields(l);
    BodyReads(l, 1, l.address, 8, 24);
    BodyReads(l, 3, l.fileOffset, 8, 40);
    BodyReads(l, 4, l.fileSize, 8, 48);
    SegmentBytes(l);
    var front := [Le(l.Kind(), 4), Le(|Joined(l.Body())| + 8, 4)];
    PieceAt(front + l.Body(), 2);
    OffsetOfFront(front, l.Body(), 0);
    OffsetOfNone(l.Body());
    TwoFours(front);
  }

  lemma SegmentBytes(l: Load)
    requires l.Segment? && l.Valid()
    ensures |l.Encode()| >= SEGMENT_COMMAND_BYTES
  {
    hide Le, Span, Joined, EncodeSections, Offset;
    SegmentFields(l);
    var front := [Le(l.Kind(), 4), Le(|Joined(l.Body())| + 8, 4)];
    PieceAt(front + l.Body(), 10);
    OffsetOfFront(front, l.Body(), 8);
    TwoFours(front);
  }

  lemma SignatureSays(l: Load)
    requires l.Signature? && l.Valid() && WellFormed(l.ToCommand())
    ensures Says(l.ToCommand()) == Some(SaysOf(l))
  {
    hide Le, Span, Read, Joined, WellFormed, Offset;
    var b := l.Body();
    OffsetOfNone(b);
    OffsetStep(b, 0);
    OffsetStep(b, 1);
    BodyReads(l, 0, l.offset, 4, 8);
    BodyReads(l, 1, l.size, 4, 12);
    PieceAt(b, 2);
    EncodedIsWellFormed(l);
  }

  lemma {:induction false} LocateReadsBack(loads: seq<Load>)
    requires forall i :: 0 <= i < |loads| ==> loads[i].Valid()
    ensures forall i :: 0 <= i < |loads| ==> WellFormed(ToCommands(loads)[i])
    ensures Locate(ToCommands(loads)) == LocateIn(loads)
  {
    hide Load.Valid, Load.Encode, WellFormed, Add, SaysOf;
    forall i | 0 <= i < |loads| ensures WellFormed(ToCommands(loads)[i]) { EncodedIsWellFormed(loads[i]); }
    if loads != [] {
      var n := |loads| - 1;
      LocateReadsBack(loads[..n]);
      EncodedIsWellFormed(loads[n]);
      SaysReadsBack(loads[n]);
      assert ToCommands(loads)[..n] == ToCommands(loads[..n]);
    }
  }

  lemma SaysReadsBack(l: Load)
    requires l.Valid() && WellFormed(l.ToCommand())
    ensures Says(l.ToCommand()) == Some(SaysOf(l))
  {
    hide Load.Encode, WellFormed;
    if l.Segment? {
      SegmentSays(l);
    } else if l.Signature? {
      SignatureSays(l);
    }
  }

  /**
   For every list of commands within the bound, the answer is the fit of the ranges that the list states once each.
   */
  lemma SignatureReadsBack(loads: seq<Load>, slide: int)
    requires (forall i :: 0 <= i < |loads| ==> loads[i].Valid()) && |Image(loads)| <= 0x40_0000
    ensures var located := LocateIn(loads);
      Signature(Image(loads), |loads|, slide)
      == if located.Some? && located.value.linkedit.Some? && located.value.signature.Some?
         then Fit(located.value.linkedit.value, located.value.signature.value, slide) else None
  {
    hide Load.Valid, Load.Encode, Image, Commands, Fit;
    Macho.ImageReadsBack(loads);
    LocateReadsBack(loads);
  }
}
