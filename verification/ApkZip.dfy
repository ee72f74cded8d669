/** The end record of an archive: the backward search, and what searching only the tail costs. */
module ApkZip {
  import opened Types
  import opened Bytes

  const END_MAGIC: seq<byte> := [0x50, 0x4b, 0x05, 0x06]
  const END_SIZE: nat := 22
  const OFFSET_FIELD: nat := 16
  const COMMENT_FIELD: nat := 20
  const MAX_COMMENT: nat := 0xffff
  const MAX_TAIL: nat := MAX_COMMENT + END_SIZE

  /** A record sits here, and the comment length it states reaches exactly to the end of the bytes. */
  predicate RecordAt(b: seq<byte>, at: nat) {
    && at + 22 <= |b|
    && b[at..at + 4] == [0x50, 0x4b, 0x05, 0x06]
    && Read(b, at + 20, 2) == Some(|b| - at - 22)
  }

  /** The directory offset that the last such record states. */
  ghost predicate StatedByLast(b: seq<byte>, r: Option<nat>) {
    match r
    case None => forall at: nat :: !RecordAt(b, at)
    case Some(offset) =>
      exists at: nat :: RecordAt(b, at) && Read(b, at + 16, 4) == Some(offset) && NoneAfter(b, at)
  }

  ghost predicate NoneAfter(b: seq<byte>, at: nat) { forall later: nat :: later > at ==> !RecordAt(b, later) }

  /** At most one answer fits. */
  lemma StatedByLastIsUnique(b: seq<byte>, r: Option<nat>, s: Option<nat>)
    requires StatedByLast(b, r) && StatedByLast(b, s)
    ensures r == s
  {
    hide RecordAt, Read;
    if r.Some? && s.Some? {
      var i: nat :| RecordAt(b, i) && Read(b, i + OFFSET_FIELD, 4) == r && NoneAfter(b, i);
      var j: nat :| RecordAt(b, j) && Read(b, j + OFFSET_FIELD, 4) == s && NoneAfter(b, j);
      assert i == j;
    }
  }

  method CentralDirectoryOffset(tail: seq<byte>) returns (r: Option<nat>)
    ensures StatedByLast(tail, r)
  {
    if |tail| < END_SIZE { return None; }
    var at := |tail| - END_SIZE + 1;
    while at > 0
      invariant at <= |tail| - END_SIZE + 1
      invariant forall later: nat :: later >= at ==> !RecordAt(tail, later)
    {
      at := at - 1;
      if tail[at..at + 4] != END_MAGIC { continue; }
      var comment := Read(tail, at + COMMENT_FIELD, 2);
      if comment.None? { continue; }
      var ends := at + END_SIZE + comment.value;
      if ends != |tail| { continue; }
      var offset := Read(tail, at + OFFSET_FIELD, 4);
      assert RecordAt(tail, at) && NoneAfter(tail, at);
      return offset;
    }
    return None;
  }

  /** What a caller reads of a file. */
  function Tail(file: seq<byte>): (t: seq<byte>)
    ensures |t| == if |file| < 65557 then |file| else 65557
  {
    if |file| <= MAX_TAIL then file else file[|file| - MAX_TAIL..]
  }

  lemma RecordInTail(file: seq<byte>, at: nat)
    ensures var cut := |file| - |Tail(file)|;
      RecordAt(file, at) <==> at >= cut && RecordAt(Tail(file), at - cut)
  {
    hide Num, Span;
    var tail := Tail(file);
    var cut := |file| - |tail|;
    if at + END_SIZE <= |file| {
      NumBound(file[at + COMMENT_FIELD..at + COMMENT_FIELD + 2]);
      Spans();
    }
    if at >= cut && at + END_SIZE <= |file| {
      assert file[at..at + 4] == tail[at - cut..at - cut + 4];
      ReadInTail(file, at + COMMENT_FIELD, 2);
    }
  }

  lemma ReadInTail(file: seq<byte>, at: nat, k: nat)
    requires |file| - |Tail(file)| <= at
    ensures Read(file, at, k) == Read(Tail(file), at - (|file| - |Tail(file)|), k)
  {
    var tail := Tail(file);
    var cut := |file| - |tail|;
    if at + k <= |file| { assert file[at..at + k] == tail[at - cut..at - cut + k]; }
  }

  /** Searching the tail answers what searching the whole file answers. */
  lemma TailAnswersForTheFile(file: seq<byte>, r: Option<nat>)
    ensures StatedByLast(Tail(file), r) <==> StatedByLast(file, r)
  {
    hide RecordAt, Read, Tail;
    var tail := Tail(file);
    var cut := |file| - |tail|;
    TailShorter(file);
    forall at: nat ensures RecordAt(file, at) <==> at >= cut && RecordAt(tail, at - cut) { RecordInTail(file, at); }
    if r.None? {
      if StatedByLast(file, r) {
        forall at: nat ensures !RecordAt(tail, at) { assert !RecordAt(file, at + cut); }
      }
    } else {
      if StatedByLast(tail, r) {
        var at: nat :| RecordAt(tail, at) && Read(tail, at + OFFSET_FIELD, 4) == r && NoneAfter(tail, at);
        ReadInTail(file, at + cut + OFFSET_FIELD, 4);
        assert RecordAt(file, at + cut) && NoneAfter(file, at + cut);
      }
      if StatedByLast(file, r) {
        var at: nat :| RecordAt(file, at) && Read(file, at + OFFSET_FIELD, 4) == r && NoneAfter(file, at);
        ReadInTail(file, at + OFFSET_FIELD, 4);
        forall later: nat | later > at - cut ensures !RecordAt(tail, later) { assert !RecordAt(file, later + cut); }
        assert RecordAt(tail, at - cut) && NoneAfter(tail, at - cut);
      }
    }
  }

  lemma TailShorter(file: seq<byte>)
    ensures |Tail(file)| <= |file|
  {
  }

  // ----- the encoder

  /** An end record: twelve bytes of counts, the directory offset, and a comment. */
  function EndRecord(counts: seq<byte>, offset: nat, comment: seq<byte>): seq<byte> {
    [0x50, 0x4b, 0x05, 0x06] + counts + Le(offset, 4) + Le(|comment|, 2) + comment
  }

  /** A written record answers with its offset, unless its own comment holds another record that ends the file. */
  lemma RecordReadsBack(body: seq<byte>, counts: seq<byte>, offset: nat, comment: seq<byte>, r: Option<nat>)
    requires |counts| == 12 && offset < Span(4) && |comment| <= 0xffff
    requires StatedByLast(body + EndRecord(counts, offset, comment), r)
    ensures RecordAt(body + EndRecord(counts, offset, comment), |body|)
    ensures NoneAfter(body + EndRecord(counts, offset, comment), |body|) ==> r == Some(offset)
    ensures r.Some?
  {
    var file := body + EndRecord(counts, offset, comment);
    WrittenRecord(body, counts, offset, comment);
    if NoneAfter(file, |body|) { StatedByLastIsUnique(file, r, Some(offset)); }
  }

  lemma WrittenRecord(body: seq<byte>, counts: seq<byte>, offset: nat, comment: seq<byte>)
    requires |counts| == 12 && offset < Span(4) && |comment| <= 0xffff
    ensures RecordAt(body + EndRecord(counts, offset, comment), |body|)
    ensures Read(body + EndRecord(counts, offset, comment), |body| + 16, 4) == Some(offset)
  {
    Spans();
    hide Span, Le, Num;
    var file := body + EndRecord(counts, offset, comment);
    var head := body + END_MAGIC + counts;
    var middle := Le(|comment|, 2);
    AtBetween(head, Le(offset, 4), middle + comment);
    assert head + Le(offset, 4) + (middle + comment) == file;
    ReadsIff(file, |body| + OFFSET_FIELD, offset, 4);
    AtBetween(head + Le(offset, 4), middle, comment);
    assert head + Le(offset, 4) + middle + comment == file;
    ReadsIff(file, |body| + COMMENT_FIELD, |comment|, 2);
  }
}
