/** From a whole archive to the certificate that signed it: the three reads of the Android probe, in order. */
module ApkArchive {
  import opened Types
  import opened Bytes
  import opened ApkSigning
  import opened ApkZip

  datatype Gap = NoDirectory | NoBlock | NoCertificate | Unreadable

  /** One range of the file, never more than the reader's own bound. */
  function ReadAt(file: seq<byte>, at: nat, size: nat): Result<seq<byte>, Gap> {
    if size > MAX_BLOCK || at + size > |file| then Err(Unreadable) else Ok(file[at..at + size])
  }

  /** What the archive yields once its directory offset is known. */
  function CertificateBefore(file: seq<byte>, directory: nat): Result<seq<byte>, Gap> {
    if directory < FOOTER then Err(NoBlock)
    else
      var footer :- ReadAt(file, directory - FOOTER, FOOTER);
      match BlockLength(footer)
      case None => Err(NoBlock)
      case Some(size) =>
        if size > directory then Err(NoBlock)
        else
          var block :- ReadAt(file, directory - size, size);
          match Signer(block)
          case None => Err(NoCertificate)
          case Some(certificate) => Ok(certificate)
  }

  ghost predicate Answers(file: seq<byte>, r: Result<seq<byte>, Gap>) {
    exists directory :: StatedByLast(file, directory)
      && r == if directory.None? then Err(NoDirectory) else CertificateBefore(file, directory.value)
  }

  method ArchiveCertificate(file: seq<byte>) returns (r: Result<seq<byte>, Gap>)
    ensures Answers(file, r)
  {
    hide StatedByLast, BlockLength, Signer;
    var tailSize := if |file| < MAX_TAIL then |file| else MAX_TAIL;
    var tail := ReadAt(file, |file| - tailSize, tailSize);
    assert file[|file| - tailSize..|file|] == Tail(file);
    var directory := CentralDirectoryOffset(tail.value);
    TailAnswersForTheFile(file, directory);
    if directory.None? { return Err(NoDirectory); }
    if directory.value < FOOTER { return Err(NoBlock); }
    var footer := ReadAt(file, directory.value - FOOTER, FOOTER);
    if footer.Err? { return Err(footer.error); }
    var size := BlockLength(footer.value);
    if size.None? || size.value > directory.value { return Err(NoBlock); }
    var block := ReadAt(file, directory.value - size.value, size.value);
    if block.Err? { return Err(block.error); }
    var certificate := SignerCertificate(block.value);
    if certificate.None? { return Err(NoCertificate); }
    return Ok(certificate.value);
  }

  /** An archive: its contents, a signing block, the central directory, and the end record that names it. */
  function Archive(contents: seq<byte>, entries: seq<Entry>, central: seq<byte>, counts: seq<byte>,
                   comment: seq<byte>): seq<byte> {
    var offset := |contents| + |SigningBlock(entries)|;
    contents + SigningBlock(entries) + central + EndRecord(counts, offset, comment)
  }

  /** What the probe makes of a written block: both bounds decide before any entry does. */
  function Expected(entries: seq<Entry>): Result<seq<byte>, Gap> {
    if |SigningBlock(entries)| > MAX_BLOCK + 8 then Err(NoBlock)
    else if |SigningBlock(entries)| > MAX_BLOCK then Err(Unreadable)
    else if Preferred(entries).Some? then Ok(Preferred(entries).value)
    else Err(NoCertificate)
  }

  /**
   Every archive written so yields the preferred certificate of its entries when the block is within the bound. A
   larger one is unreadable up to eight bytes more, and no block beyond. The comment holds no further record that
   ends the file.
   */
  lemma ArchiveReadsBack(contents: seq<byte>, entries: seq<Entry>, central: seq<byte>, counts: seq<byte>,
                         comment: seq<byte>, r: Result<seq<byte>, Gap>)
    requires Encodable(entries)
    requires |counts| == 12 && |comment| <= MAX_COMMENT && |contents| + |SigningBlock(entries)| < Span(4)
    requires var file := Archive(contents, entries, central, counts, comment);
      && NoneAfter(file, |contents| + |SigningBlock(entries)| + |central|)
      && Answers(file, r)
    ensures r == Expected(entries)
  {
    hide StatedByLast, BlockLength, Signer, SigningBlock, EndRecord, NoneAfter;
    hide Preferred, Span, Encodable, CertificateBefore;
    var block := SigningBlock(entries);
    var file := Archive(contents, entries, central, counts, comment);
    var offset := |contents| + |block|;
    var body := contents + block + central;
    var directory :| StatedByLast(file, directory)
      && r == if directory.None? then Err(NoDirectory) else CertificateBefore(file, directory.value);
    RecordReadsBack(body, counts, offset, comment, directory);
    BlockBeforeDirectory(file, contents, entries, central + EndRecord(counts, offset, comment));
  }

  lemma BlockBeforeDirectory(file: seq<byte>, contents: seq<byte>, entries: seq<Entry>, after: seq<byte>)
    requires Encodable(entries) && |SigningBlock(entries)| < Span(4)
    requires file == contents + SigningBlock(entries) + after
    ensures CertificateBefore(file, |contents| + |SigningBlock(entries)|) == Expected(entries)
  {
    hide BlockLength, Signer, SigningBlock, Preferred, Span, Encodable;
    BlockFacts(entries);
    var block := SigningBlock(entries);
    var directory := |contents| + |block|;
    assert file[directory - FOOTER..directory] == block[|block| - FOOTER..];
    assert file[directory - |block|..directory] == block;
  }

  /** The entries of a block in the gap that holds a certificate. */
  function GapEntries(c: seq<byte>): seq<Entry>
    requires |c| + 60 <= MAX_BLOCK
  {
    [PaddedEntry(c, MAX_BLOCK - 60 - |c|)]
  }

  /** For every certificate that fits, every archive around a block in the gap holds it and is unreadable. */
  lemma GapArchiveIsUnreadable(c: seq<byte>, contents: seq<byte>, central: seq<byte>, counts: seq<byte>,
                               comment: seq<byte>, r: Result<seq<byte>, Gap>)
    requires |c| + 60 <= MAX_BLOCK && |counts| == 12 && |comment| <= MAX_COMMENT
    requires |contents| + |SigningBlock(GapEntries(c))| < Span(4)
    requires var file := Archive(contents, GapEntries(c), central, counts, comment);
      && NoneAfter(file, |contents| + |SigningBlock(GapEntries(c))| + |central|)
      && Answers(file, r)
    ensures Preferred(GapEntries(c)) == Some(c) && r == Err(Unreadable)
  {
    hide Encode, Preferred, PaddedEntry, BlockLength, Signer, Encodable, SigningBlock;
    hide Span, NoneAfter, Answers, Archive;
    GapHidesACertificate(c);
    BlockLengthReadsBack([], GapEntries(c));
    ArchiveReadsBack(contents, GapEntries(c), central, counts, comment, r);
  }

  lemma BlockFacts(entries: seq<Entry>)
    requires Encodable(entries) && |SigningBlock(entries)| < Span(4)
    ensures var block := SigningBlock(entries);
      && |block| >= FOOTER + 8
      && BlockLength(block[|block| - FOOTER..]) == (if |block| <= MAX_BLOCK + 8 then Some(|block|) else None)
      && (|block| <= MAX_BLOCK ==> Signer(block) == Preferred(entries))
  {
    Spans();
    hide BlockLength, Signer, SigningBlock, Preferred, Span, Encodable;
    var block := SigningBlock(entries);
    if |block| <= MAX_BLOCK { SignerReadsBack(entries); }
    BlockLengthReadsBack([], entries);
    assert [] + block == block;
    FooterDecides(block);
  }

  /** The measure looks at the last bytes only. */
  lemma FooterDecides(bytes: seq<byte>)
    requires |bytes| >= FOOTER
    ensures BlockLength(bytes[|bytes| - FOOTER..]) == BlockLength(bytes)
  {
    var footer := bytes[|bytes| - FOOTER..];
    var at := |bytes| - FOOTER;
    assert footer[8..] == bytes[at + 8..];
    assert footer[0..8] == bytes[at..at + 8];
  }
}
