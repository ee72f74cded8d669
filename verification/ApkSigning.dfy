/** The signing block of an Android archive: the reader, and the blocks it reads. */
module ApkSigning {
  import opened Types
  import opened Bytes

  const MAGIC: seq<byte> := [
    0x41, 0x50, 0x4B, 0x20, 0x53, 0x69, 0x67, 0x20, 0x42, 0x6C, 0x6F, 0x63, 0x6B, 0x20, 0x34, 0x32]
  const FOOTER: nat := 24
  const SCHEME_V2: nat := 0x7109_871a
  const SCHEME_V3: nat := 0xf053_68c0
  const SCHEME_V31: nat := 0x1b93_ad61
  const MAX_BLOCK: nat := 4 * 1024 * 1024

  // ----- the readers

  function BlockLength(footer: seq<byte>): (r: Option<nat>) {
    if |footer| < FOOTER then None
    else
      var at := |footer| - FOOTER;
      if footer[at + 8..] != MAGIC then None
      else
        var size := Read(footer, at, 8).value;
        if size > MAX_BLOCK then None else Some(size + 8)
  }

  /** The bytes behind the 32-bit length at an offset, when that many are there. */
  function Element(bytes: seq<byte>, at: nat): Option<seq<byte>> {
    var length :- Read(bytes, at, 4);
    if at + 4 + length <= |bytes| then Some(bytes[at + 4..at + 4 + length]) else None
  }

  /** The first certificate of one scheme block. */
  function Certificate(scheme: seq<byte>): Option<seq<byte>> {
    var signers :- Element(scheme, 0);
    var signer :- Element(signers, 0);
    var signedData :- Element(signer, 0);
    var digests :- Element(signedData, 0);
    var certificates :- Element(signedData, 4 + |digests|);
    Element(certificates, 0)
  }

  datatype Entry = Entry(id: nat, value: seq<byte>)

  /** The entries from an offset on, or nothing when one of them is malformed. */
  function Entries(block: seq<byte>, at: nat, trailing: nat): Option<seq<Entry>>
    decreases |block| - at
  {
    if at >= trailing then Some([])
    else
      var length :- Read(block, at, 8);
      var id :- Read(block, at + 8, 4);
      if length < 4 || at + 8 + length > |block| then None
      else
        var rest :- Entries(block, at + 8 + length, trailing);
        Some([Entry(id, block[at + 12..at + 8 + length])] + rest)
  }

  /** The certificate of the first entry of one scheme that holds one. */
  function FirstOf(entries: seq<Entry>, id: nat): Option<seq<byte>> {
    if entries == [] then None
    else
      var before := FirstOf(entries[..|entries| - 1], id);
      var last := entries[|entries| - 1];
      if before.None? && last.id == id then Certificate(last.value) else before
  }

  /** v3.1 answers first, then v3, then v2. */
  function Preferred(entries: seq<Entry>): Option<seq<byte>> {
    FirstOf(entries, 0x1b93_ad61).Or(FirstOf(entries, 0xf053_68c0)).Or(FirstOf(entries, 0x7109_871a))
  }

  predicate Framing(block: seq<byte>) {
    24 <= |block| <= 0x40_0000 && Read(block, 0, 8) == Read(block, |block| - 24, 8)
  }

  function Signer(block: seq<byte>): Option<seq<byte>> {
    if !Framing(block) then None
    else
      var entries :- Entries(block, 8, |block| - FOOTER);
      Preferred(entries)
  }

  /** The walk, in one pass over the block. */
  method SignerCertificate(block: seq<byte>) returns (r: Option<seq<byte>>)
    ensures r == Signer(block)
  {
    hide Certificate, FirstOf;
    if |block| > MAX_BLOCK { return None; }
    if |block| < FOOTER { return None; }
    var trailing := |block| - FOOTER;
    if Read(block, 0, 8) != Read(block, trailing, 8) { return None; }

    var v31: Option<seq<byte>>, v3: Option<seq<byte>>, v2: Option<seq<byte>> := None, None, None;
    var at := 8;
    ghost var seen: seq<Entry> := [];
    FirstOfNone();
    NothingSeen(Entries(block, 8, trailing));
    while at < trailing
      invariant v31 == FirstOf(seen, SCHEME_V31) && v3 == FirstOf(seen, SCHEME_V3) && v2 == FirstOf(seen, SCHEME_V2)
      invariant Entries(block, 8, trailing) == Behind(seen, Entries(block, at, trailing))
      decreases |block| - at
    {
      var length := Read(block, at, 8);
      if length.None? { return None; }
      var id := Read(block, at + 8, 4);
      if id.None? { return None; }
      var start, end := at + 12, at + 8 + length.value;
      if start > end || end > |block| { return None; }
      var value := block[start..end];

      ghost var entry := Entry(id.value, value);
      EntriesStep(block, at, trailing, seen, entry, end);
      FirstOfStep(seen, entry);
      if id.value == SCHEME_V31 && v31.None? {
        v31 := Certificate(value);
      } else if id.value == SCHEME_V3 && v3.None? {
        v3 := Certificate(value);
      } else if id.value == SCHEME_V2 && v2.None? {
        v2 := Certificate(value);
      }
      seen := seen + [entry];
      at := end;
    }
    assert seen + [] == seen;
    return v31.Or(v3).Or(v2);
  }

  lemma EntriesStep(block: seq<byte>, at: nat, trailing: nat, seen: seq<Entry>, entry: Entry, end: nat)
    requires at < trailing && at + 12 <= end <= |block|
    requires Read(block, at, 8) == Some(end - at - 8) && Read(block, at + 8, 4) == Some(entry.id)
    requires entry.value == block[at + 12..end]
    ensures Behind(seen, Entries(block, at, trailing)) == Behind(seen + [entry], Entries(block, end, trailing))
  {
    var rest := Entries(block, end, trailing);
    if rest.Some? {
      assert seen + ([entry] + rest.value) == seen + [entry] + rest.value;
    }
  }

  lemma FirstOfNone()
    ensures forall id :: FirstOf([], id) == None
  {
  }

  lemma FirstOfStep(seen: seq<Entry>, entry: Entry)
    ensures forall id ::
      FirstOf(seen + [entry], id)
      == if FirstOf(seen, id).None? && entry.id == id then Certificate(entry.value) else FirstOf(seen, id)
  {
    assert (seen + [entry])[..|seen|] == seen;
  }

  // ----- the answer for one scheme

  /** The answer is the certificate of an entry, and no earlier entry of that scheme holds one. */
  lemma {:induction false} FirstOfIsFirst(entries: seq<Entry>, id: nat, c: seq<byte>)
    ensures FirstOf(entries, id) == Some(c)
      <==> exists i :: FirstAt(entries, id, i) && Certificate(entries[i].value) == Some(c)
    ensures FirstOf(entries, id) == None
      <==> forall i :: 0 <= i < |entries| && entries[i].id == id ==> Certificate(entries[i].value) == None
  {
    hide Certificate;
    if entries != [] {
      var n := |entries| - 1;
      FirstOfIsFirst(entries[..n], id, c);
      if FirstOf(entries[..n], id) == Some(c) {
        var i :| FirstAt(entries[..n], id, i) && Certificate(entries[..n][i].value) == Some(c);
        assert FirstAt(entries, id, i) && entries[i] == entries[..n][i];
      }
      if i :| FirstAt(entries, id, i) && Certificate(entries[i].value) == Some(c) {
        if i < n {
          assert FirstAt(entries[..n], id, i) && entries[i] == entries[..n][i];
        }
      }
    }
  }

  ghost predicate FirstAt(entries: seq<Entry>, id: nat, i: int) {
    && 0 <= i < |entries| && entries[i].id == id && Certificate(entries[i].value).Some?
    && forall j :: 0 <= j < i && entries[j].id == id ==> Certificate(entries[j].value) == None
  }

  // ----- bounds on arbitrary bytes

  ghost predicate Within(s: seq<byte>, whole: seq<byte>) {
    exists i, j :: SliceOf(s, whole, i, j)
  }

  ghost predicate SliceOf(s: seq<byte>, whole: seq<byte>, i: int, j: int) {
    0 <= i <= j <= |whole| && s == whole[i..j]
  }

  lemma WithinTransitive(s: seq<byte>, t: seq<byte>, u: seq<byte>)
    requires Within(s, t) && Within(t, u)
    ensures Within(s, u)
  {
    var i, j :| SliceOf(s, t, i, j);
    var k, l :| SliceOf(t, u, k, l);
    SliceOfSlice(u, k, l, i, j);
    assert SliceOf(s, u, k + i, k + j);
  }

  lemma ElementWithin(bytes: seq<byte>, at: nat)
    ensures Element(bytes, at).Some? ==> Within(Element(bytes, at).value, bytes)
  {
    if Element(bytes, at).Some? {
      var length := Read(bytes, at, 4).value;
      assert SliceOf(Element(bytes, at).value, bytes, at + 4, at + 4 + length);
    }
  }

  lemma CertificateWithin(scheme: seq<byte>)
    requires Certificate(scheme).Some?
    ensures Within(Certificate(scheme).value, scheme)
  {
    hide Element, Within;
    var signers := Element(scheme, 0).value;
    var signer := Element(signers, 0).value;
    var signedData := Element(signer, 0).value;
    var certificates := Element(signedData, 4 + |Element(signedData, 0).value|).value;
    var answer := Certificate(scheme).value;
    ElementWithin(scheme, 0);
    ElementWithin(signers, 0);
    ElementWithin(signer, 0);
    ElementWithin(signedData, 4 + |Element(signedData, 0).value|);
    ElementWithin(certificates, 0);
    WithinTransitive(answer, certificates, signedData);
    WithinTransitive(answer, signedData, signer);
    WithinTransitive(answer, signer, signers);
    WithinTransitive(answer, signers, scheme);
  }

  /** Each accepted entry advances the walk by at least twelve bytes and is a part of the block. */
  lemma {:induction false} EntriesAdvance(block: seq<byte>, at: nat, trailing: nat)
    requires at <= |block| && Entries(block, at, trailing).Some?
    ensures var entries := Entries(block, at, trailing).value;
      && 12 * |entries| <= |block| - at
      && forall i :: 0 <= i < |entries| ==> Within(entries[i].value, block)
    decreases |block| - at
  {
    hide Within;
    if at < trailing {
      var end := at + 8 + Read(block, at, 8).value;
      EntriesAdvance(block, end, trailing);
      SliceWithin(block, at + 12, end);
    }
  }

  lemma SliceWithin(block: seq<byte>, i: nat, j: nat)
    requires i <= j <= |block|
    ensures Within(block[i..j], block)
  {
    assert SliceOf(block[i..j], block, i, j);
  }

  /** On arbitrary bytes, an answer is a slice of the block, taken out of an entry of a known scheme. */
  lemma SignerIsASlice(block: seq<byte>)
    requires Signer(block).Some?
    ensures Within(Signer(block).value, block)
  {
    var entries := Entries(block, 8, |block| - FOOTER).value;
    var answer := Signer(block).value;
    EntriesAdvance(block, 8, |block| - FOOTER);
    var id := if FirstOf(entries, SCHEME_V31).Some? then SCHEME_V31
              else if FirstOf(entries, SCHEME_V3).Some? then SCHEME_V3 else SCHEME_V2;
    FirstOfIsFirst(entries, id, answer);
    hide Certificate, Entries, Within, FirstOf;
    var i :| FirstAt(entries, id, i) && Certificate(entries[i].value) == Some(answer);
    CertificateWithin(entries[i].value);
    WithinTransitive(answer, entries[i].value, block);
  }

  // ----- the encoder, and what the reader makes of it

  function Elem(payload: seq<byte>): seq<byte> { Le(|payload|, 4) + payload }

  /** An element reads exactly where it was written. */
  lemma ElementIff(bytes: seq<byte>, at: nat, payload: seq<byte>)
    ensures Element(bytes, at) == Some(payload) <==> |payload| < Span(4) && At(bytes, at, Elem(payload))
  {
    hide Read, Span, Le;
    ReadsIff(bytes, at, |payload|, 4);
    AtConcat(bytes, at, Le(|payload|, 4), payload);
    if Element(bytes, at) == Some(payload) { ReadsIff(bytes, at, Read(bytes, at, 4).value, 4); }
  }

  /** What follows each element on its level; the reader ignores all of it. */
  datatype Slack = Slack(afterCertificate: seq<byte>, afterCertificates: seq<byte>, afterSigned: seq<byte>,
                         afterSigner: seq<byte>, afterSigners: seq<byte>)

  function Certificates(c: seq<byte>, k: Slack): seq<byte> { Elem(c) + k.afterCertificate }
  function SignedData(digests: seq<byte>, c: seq<byte>, k: Slack): seq<byte> {
    Elem(digests) + (Elem(Certificates(c, k)) + k.afterCertificates)
  }
  function SignerOf(digests: seq<byte>, c: seq<byte>, k: Slack): seq<byte> {
    Elem(SignedData(digests, c, k)) + k.afterSigned
  }
  function SignersOf(digests: seq<byte>, c: seq<byte>, k: Slack): seq<byte> {
    Elem(SignerOf(digests, c, k)) + k.afterSigner
  }
  function Scheme(digests: seq<byte>, c: seq<byte>, k: Slack): seq<byte> {
    Elem(SignersOf(digests, c, k)) + k.afterSigners
  }

  /** The reader inverts the nesting, whatever follows on each level. */
  lemma CertificateReadsBack(digests: seq<byte>, c: seq<byte>, k: Slack)
    requires |SignersOf(digests, c, k)| < Span(4)
    ensures Certificate(Scheme(digests, c, k)) == Some(c)
  {
    hide Element, Span;
    First(SignersOf(digests, c, k), k.afterSigners);
    First(SignerOf(digests, c, k), k.afterSigner);
    First(SignedData(digests, c, k), k.afterSigned);
    First(digests, Elem(Certificates(c, k)) + k.afterCertificates);
    AtBetween(Elem(digests), Elem(Certificates(c, k)), k.afterCertificates);
    assert SignedData(digests, c, k) == Elem(digests) + Elem(Certificates(c, k)) + k.afterCertificates;
    ElementIff(SignedData(digests, c, k), 4 + |digests|, Certificates(c, k));
    First(c, k.afterCertificate);
  }

  lemma First(payload: seq<byte>, rest: seq<byte>)
    requires |payload| < Span(4)
    ensures Element(Elem(payload) + rest, 0) == Some(payload)
  {
    hide Element, Elem;
    assert [] + Elem(payload) + rest == Elem(payload) + rest;
    AtBetween([], Elem(payload), rest);
    ElementIff(Elem(payload) + rest, 0, payload);
  }

  lemma FirstShape(bytes: seq<byte>) returns (rest: seq<byte>)
    requires Element(bytes, 0).Some?
    ensures |Element(bytes, 0).value| < Span(4) && bytes == Elem(Element(bytes, 0).value) + rest
  {
    hide Element, Elem, Span;
    var payload := Element(bytes, 0).value;
    ElementIff(bytes, 0, payload);
    rest := bytes[|Elem(payload)|..];
  }

  /** Every scheme block that yields a certificate has that nesting. */
  lemma CertificateShape(scheme: seq<byte>) returns (digests: seq<byte>, k: Slack)
    requires Certificate(scheme).Some?
    ensures scheme == Scheme(digests, Certificate(scheme).value, k)
    ensures |SignersOf(digests, Certificate(scheme).value, k)| < Span(4)
  {
    hide Element, Elem, Span;
    var signers := Element(scheme, 0).value;
    var signer := Element(signers, 0).value;
    var signedData := Element(signer, 0).value;
    digests := Element(signedData, 0).value;
    var afterSigners := FirstShape(scheme);
    var afterSigner := FirstShape(signers);
    var afterSigned := FirstShape(signer);
    var tail := FirstShape(signedData);
    var certificates := Element(signedData, 4 + |digests|).value;
    assert |Elem(digests)| == 4 + |digests| by { ElemLength(digests); }
    ElementIff(signedData, 4 + |digests|, certificates);
    var afterCertificates := tail[|Elem(certificates)|..];
    assert tail == signedData[4 + |digests|..] && tail[..|Elem(certificates)|] == Elem(certificates);
    var afterCertificate := FirstShape(certificates);
    k := Slack(afterCertificate, afterCertificates, afterSigned, afterSigner, afterSigners);
    assert certificates == Certificates(Certificate(scheme).value, k);
    assert tail == Elem(certificates) + afterCertificates;
    assert signedData == SignedData(digests, Certificate(scheme).value, k);
  }

  lemma ElemLength(payload: seq<byte>)
    ensures |Elem(payload)| == 4 + |payload|
  {
  }

  predicate Encodable(entries: seq<Entry>) {
    forall i :: 0 <= i < |entries| ==> entries[i].id < Span(4) && |entries[i].value| + 4 < Span(8)
  }

  function EncodeEntry(e: Entry): seq<byte> { Le(|e.value| + 4, 8) + Le(e.id, 4) + e.value }

  function Encode(entries: seq<Entry>): seq<byte> {
    if entries == [] then [] else EncodeEntry(entries[0]) + Encode(entries[1..])
  }

  function SigningBlock(entries: seq<Entry>): seq<byte> {
    var size := |Encode(entries)| + 24;
    Le(size, 8) + Encode(entries)
    + (Le(size, 8) + [
         0x41, 0x50, 0x4B, 0x20, 0x53, 0x69, 0x67, 0x20, 0x42, 0x6C, 0x6F, 0x63, 0x6B, 0x20, 0x34, 0x32])
  }

  /** Written entries read back. */
  lemma {:induction false} EntriesReadBack(block: seq<byte>, at: nat, entries: seq<Entry>)
    requires Encodable(entries) && At(block, at, Encode(entries))
    ensures Entries(block, at, at + |Encode(entries)|) == Some(entries)
    decreases entries
  {
    hide Span, Le, EncodeEntry, Read, Entries;
    if entries == [] {
      NoEntries(block, at, at);
      return;
    }
    var e, rest := entries[0], entries[1..];
    var end := at + |EncodeEntry(e)|;
    AtConcat(block, at, EncodeEntry(e), Encode(rest));
    EntriesReadBack(block, end, rest);
    EntryIff(block, at, e);
    EntriesStep(block, at, at + |Encode(entries)|, [], e, end);
    assert [] + [e] == [e] && entries == [e] + rest;
    NothingSeen(Entries(block, at, at + |Encode(entries)|));
  }

  lemma NoEntries(block: seq<byte>, at: nat, trailing: nat)
    requires at >= trailing
    ensures Entries(block, at, trailing) == Some([])
  {
  }

  /** An entry reads exactly where it was written. */
  lemma EntryIff(block: seq<byte>, at: nat, e: Entry)
    ensures |EncodeEntry(e)| == 12 + |e.value|
    ensures e.id < Span(4) && |e.value| + 4 < Span(8) && At(block, at, EncodeEntry(e))
       <==> && Read(block, at, 8) == Some(|e.value| + 4)
            && Read(block, at + 8, 4) == Some(e.id)
            && At(block, at + 12, e.value)
  {
    hide Span, Le, Read, At;
    ReadsIff(block, at, |e.value| + 4, 8);
    ReadsIff(block, at + 8, e.id, 4);
    AtConcat(block, at, Le(|e.value| + 4, 8), Le(e.id, 4));
    AtConcat(block, at, Le(|e.value| + 4, 8) + Le(e.id, 4), e.value);
  }

  /** Every block whose entries all read is made of those entries. */
  lemma {:induction false} EntriesShape(block: seq<byte>, at: nat, trailing: nat)
    requires at <= |block| && Entries(block, at, trailing).Some?
    ensures var entries := Entries(block, at, trailing).value;
      && Encodable(entries)
      && at + |Encode(entries)| <= |block| && (at < trailing ==> trailing <= at + |Encode(entries)|)
      && At(block, at, Encode(entries))
    decreases |block| - at
  {
    hide Span, Le, EncodeEntry, At, Num;
    if at >= trailing {
      SliceAt(block, at, at);
      return;
    }
    var entries := Entries(block, at, trailing).value;
    var e := entries[0];
    var end := at + 8 + Read(block, at, 8).value;
    EntriesShape(block, end, trailing);
    assert At(block, at + 12, e.value) by { SliceAt(block, at + 12, end); }
    EntryIff(block, at, e);
    AtConcat(block, at, EncodeEntry(e), Encode(entries[1..]));
  }

  lemma SliceAt(block: seq<byte>, i: nat, j: nat)
    requires i <= j <= |block|
    ensures At(block, i, block[i..j])
  {
  }

  /** The footer states the length of the block it ends, up to the bound. */
  lemma BlockLengthReadsBack(before: seq<byte>, entries: seq<Entry>)
    ensures |SigningBlock(entries)| == |Encode(entries)| + 24 + 8
    ensures |Encode(entries)| + 24 < Span(8) ==>
      BlockLength(before + SigningBlock(entries))
      == if |Encode(entries)| + 24 <= 0x40_0000 then Some(|SigningBlock(entries)|) else None
  {
    hide Span, Le, Num, Encode;
    var size := |Encode(entries)| + FOOTER;
    if size < Span(8) {
      var front := before + Le(size, 8) + Encode(entries);
      AtBetween(front, Le(size, 8), MAGIC);
      ReadsIff(front + Le(size, 8) + MAGIC, |front|, size, 8);
      assert front + Le(size, 8) + MAGIC == before + SigningBlock(entries);
    }
  }

  /** For every list of entries within the bound, the reader answers the preferred certificate of the list. */
  lemma SignerReadsBack(entries: seq<Entry>)
    requires Encodable(entries) && |SigningBlock(entries)| <= 0x40_0000
    ensures Signer(SigningBlock(entries)) == Preferred(entries)
  {
    Spans();
    hide Span, Le, Num, Encode, Preferred, Entries;
    var body := Encode(entries);
    var size := |body| + FOOTER;
    var block := SigningBlock(entries);
    var footer := Le(size, 8) + MAGIC;
    AtBetween([], Le(size, 8), body + footer);
    assert [] + Le(size, 8) + (body + footer) == block;
    ReadsIff(block, 0, size, 8);
    AtBetween(Le(size, 8) + body, Le(size, 8), MAGIC);
    assert Le(size, 8) + body + Le(size, 8) + MAGIC == block;
    ReadsIff(block, |block| - FOOTER, size, 8);
    AtBetween(Le(size, 8), body, footer);
    EntriesReadBack(block, 8, entries);
  }

  /** The two bounds differ by the leading size field: a block in between is measured, and then refused. */
  lemma BoundsDisagree(before: seq<byte>, entries: seq<Entry>)
    requires MAX_BLOCK - 8 < |Encode(entries)| + FOOTER <= MAX_BLOCK
    ensures BlockLength(before + SigningBlock(entries)) == Some(|SigningBlock(entries)|)
    ensures Signer(SigningBlock(entries)) == None
  {
    Spans();
    BlockLengthReadsBack(before, entries);
  }

  /** A measured block is also walked exactly when it is within the bound as a whole. */
  lemma MeasuredBlockIsWalkedIff(before: seq<byte>, entries: seq<Entry>)
    requires Encodable(entries) && BlockLength(before + SigningBlock(entries)) == Some(|SigningBlock(entries)|)
    requires Preferred(entries).Some?
    ensures Signer(SigningBlock(entries)) == Preferred(entries) <==> |SigningBlock(entries)| <= MAX_BLOCK
  {
    if |SigningBlock(entries)| <= MAX_BLOCK { SignerReadsBack(entries); }
  }

  // ----- which blocks answer

  /** The entries reach the footer, and all but the last of them end before it. */
  predicate Reaches(at: nat, trailing: nat, entries: seq<Entry>)
    decreases entries
  {
    if entries == [] then at >= trailing
    else at < trailing && Reaches(at + |EncodeEntry(entries[0])|, trailing, entries[1..])
  }

  /** The walk reads a list of entries exactly when they are written there and reach the footer. */
  lemma {:induction false} EntriesIff(block: seq<byte>, at: nat, trailing: nat, entries: seq<Entry>)
    requires at <= |block|
    ensures Entries(block, at, trailing) == Some(entries)
       <==> Encodable(entries) && At(block, at, Encode(entries)) && Reaches(at, trailing, entries)
    decreases entries
  {
    hide Span, Le, EncodeEntry, Entries, Read, Encode, At;
    if Entries(block, at, trailing) == Some(entries) {
      EntriesShape(block, at, trailing);
      EntriesReach(block, at, trailing);
    }
    if Encodable(entries) && At(block, at, Encode(entries)) && Reaches(at, trailing, entries) {
      ReachedEntriesRead(block, at, trailing, entries);
    }
  }

  lemma {:induction false} EntriesReach(block: seq<byte>, at: nat, trailing: nat)
    requires at <= |block| && Entries(block, at, trailing).Some?
    ensures Reaches(at, trailing, Entries(block, at, trailing).value)
    decreases |block| - at
  {
    hide Span, Le, EncodeEntry, At, Num;
    if at < trailing {
      var entries := Entries(block, at, trailing).value;
      var end := at + 8 + Read(block, at, 8).value;
      EntryIff(block, at, entries[0]);
      EntriesReach(block, end, trailing);
      assert entries[1..] == Entries(block, end, trailing).value;
    }
  }

  lemma {:induction false} ReachedEntriesRead(block: seq<byte>, at: nat, trailing: nat, entries: seq<Entry>)
    requires at <= |block| && Encodable(entries) && At(block, at, Encode(entries)) && Reaches(at, trailing, entries)
    ensures Entries(block, at, trailing) == Some(entries)
    decreases entries
  {
    hide Span, Le, EncodeEntry, Read, Entries;
    if entries == [] {
      NoEntries(block, at, trailing);
      return;
    }
    var e, rest := entries[0], entries[1..];
    var end := at + |EncodeEntry(e)|;
    AtConcat(block, at, EncodeEntry(e), Encode(rest));
    ReachedEntriesRead(block, end, trailing, rest);
    EntryIff(block, at, e);
    EntriesStep(block, at, trailing, [], e, end);
    assert [] + [e] == [e] && entries == [e] + rest;
    NothingSeen(Entries(block, at, trailing));
  }

  /** The block holds these entries behind its size field, up to its footer or into it. */
  ghost predicate HoldsEntries(block: seq<byte>, entries: seq<Entry>)
    requires |block| >= FOOTER
  {
    Encodable(entries) && At(block, 8, Encode(entries)) && Reaches(8, |block| - FOOTER, entries)
  }

  /**
   Exactly which blocks answer: those within the bound whose two size fields agree and that hold entries whose
   preferred certificate is the answer. The stated size and the magic are not looked at, and the last entry may run
   into the footer.
   */
  lemma SignerIff(block: seq<byte>, c: seq<byte>)
    ensures Signer(block) == Some(c)
       <==> Framing(block) && exists entries :: HoldsEntries(block, entries) && Preferred(entries) == Some(c)
  {
    hide Entries, Preferred, Encodable, Encode, At, Reaches, Read;
    if Framing(block) {
      var trailing := |block| - FOOTER;
      if Signer(block) == Some(c) {
        var entries := Entries(block, 8, trailing).value;
        EntriesIff(block, 8, trailing, entries);
        assert HoldsEntries(block, entries) && Preferred(entries) == Some(c);
      }
      if entries :| HoldsEntries(block, entries) && Preferred(entries) == Some(c) {
        EntriesIff(block, 8, trailing, entries);
      }
    }
  }

  /** A block that states size zero, has no magic, and whose one entry covers the whole footer. */
  function OverlappingBlock(c: seq<byte>): seq<byte> { Le(0, 8) + EncodeEntry(PaddedEntry(c, FOOTER)) }

  /** For every certificate that fits: it is not a block by its footer, and the walk answers the certificate. */
  lemma FooterOverlapAnswers(c: seq<byte>)
    requires |c| + 100 <= MAX_BLOCK
    ensures BlockLength(OverlappingBlock(c)) == None && Signer(OverlappingBlock(c)) == Some(c)
  {
    var e := PaddedEntry(c, FOOTER);
    var block := OverlappingBlock(c);
    PaddedLength(c, FOOTER);
    PaddedValue(c, FOOTER);
    PaddedAnswer(c, FOOTER);
    OverlapZeros(c);
    assert [e][1..] == [] && Encode([]) == [] && Encode([e]) == EncodeEntry(e) + [] == EncodeEntry(e);
    hide Encode, EncodeEntry, PaddedEntry, Preferred, Encodable, Signer, Le, BlockLength;
    OneEntryReaches(block, e);
    SignerIff(block, c);
    ZeroFooter(block);
  }

  lemma OneEntryReaches(block: seq<byte>, e: Entry)
    requires block == Le(0, 8) + EncodeEntry(e) && Encode([e]) == EncodeEntry(e) && Encodable([e])
    requires |block| > FOOTER + 8
    ensures HoldsEntries(block, [e])
  {
    hide Encode, EncodeEntry, Encodable, Le;
    assert Le(0, 8) + EncodeEntry(e) + [] == block;
    AtBetween(Le(0, 8), EncodeEntry(e), []);
    assert [e][1..] == [];
    assert Reaches(|block|, |block| - FOOTER, []);
    assert Reaches(8, |block| - FOOTER, [e]);
  }

  /** The first and the last bytes of the block are zeros. */
  lemma OverlapZeros(c: seq<byte>)
    ensures var block := OverlappingBlock(c);
      && |block| == 44 + |c| + FOOTER
      && block[..8] == seq(8, _ => 0) && block[|block| - FOOTER..] == seq(FOOTER, _ => 0)
  {
    PaddedLength(c, FOOTER);
    var e := PaddedEntry(c, FOOTER);
    assert [e][1..] == [] && Encode([e]) == EncodeEntry(e) + [] == EncodeEntry(e);
    LeOfZero(8);
    hide Le;
    var value := Scheme([], c, PaddedSlack(FOOTER));
    assert value[|value| - FOOTER..] == PaddedSlack(FOOTER).afterSigners;
  }

  lemma {:induction false} LeOfZero(k: nat)
    ensures Le(0, k) == seq(k, _ => 0)
  {
    if k > 0 { LeOfZero(k - 1); }
  }

  /** Zeros at both ends agree as sizes and are no magic. */
  lemma ZeroFooter(block: seq<byte>)
    requires FOOTER + 8 < |block| <= MAX_BLOCK
    requires block[..8] == seq(8, _ => 0) && block[|block| - FOOTER..] == seq(FOOTER, _ => 0)
    ensures Framing(block) && BlockLength(block) == None
  {
    hide Num;
    var at := |block| - FOOTER;
    assert block[0..8] == block[..8] && block[at..at + 8] == block[at..][..8] == seq(8, _ => 0);
    assert block[at + 8..][0] == block[at..][8] == 0;
    assert MAGIC[0] == 0x41;
  }

  // ----- a block in the gap

  /** One v2 entry that holds a certificate, padded behind its signers to a stated size. */
  function PaddedEntry(c: seq<byte>, padding: nat): Entry {
    Entry(SCHEME_V2, Scheme([], c, PaddedSlack(padding)))
  }

  lemma PaddedLength(c: seq<byte>, padding: nat)
    ensures |Encode([PaddedEntry(c, padding)])| == 36 + |c| + padding
    ensures |SignersOf([], c, PaddedSlack(padding))| == 20 + |c|
  {
    hide Le;
    var e := PaddedEntry(c, padding);
    assert [e][1..] == [] && Encode([e]) == EncodeEntry(e) + [];
    assert |Certificates(c, PaddedSlack(padding))| == 4 + |c|;
    assert |SignedData([], c, PaddedSlack(padding))| == 12 + |c|;
  }

  function PaddedSlack(padding: nat): Slack { Slack([], [], [], [], seq(padding, _ => 0)) }

  /**
   For every certificate that fits, there is a block that states the largest size: it is measured, it holds that
   certificate, and the walk answers nothing.
   */
  lemma GapHidesACertificate(c: seq<byte>)
    requires |c| + 60 <= MAX_BLOCK
    ensures var entries := [PaddedEntry(c, MAX_BLOCK - 60 - |c|)];
      && Encodable(entries) && |Encode(entries)| + FOOTER == MAX_BLOCK
      && BlockLength(SigningBlock(entries)) == Some(|SigningBlock(entries)|)
      && Preferred(entries) == Some(c)
      && Signer(SigningBlock(entries)) == None
  {
    hide Encode, BlockLength, Signer, SigningBlock, Preferred, PaddedEntry, Encodable;
    var padding := MAX_BLOCK - 60 - |c|;
    var e := PaddedEntry(c, padding);
    PaddedLength(c, padding);
    PaddedValue(c, padding);
    PaddedAnswer(c, padding);
    BoundsDisagree([], [e]);
    assert [] + SigningBlock([e]) == SigningBlock([e]);
  }

  lemma PaddedValue(c: seq<byte>, padding: nat)
    requires |c| + padding <= MAX_BLOCK
    ensures Encodable([PaddedEntry(c, padding)])
  {
    Spans();
    hide Le, Span;
    PaddedLength(c, padding);
    assert |Scheme([], c, PaddedSlack(padding))| == 24 + |c| + padding;
  }

  lemma PaddedAnswer(c: seq<byte>, padding: nat)
    requires |c| + 60 <= MAX_BLOCK
    ensures Preferred([PaddedEntry(c, padding)]) == Some(c)
  {
    hide Le, Span, Certificate, Scheme, SignersOf, Encode;
    Spans();
    PaddedLength(c, padding);
    CertificateReadsBack([], c, PaddedSlack(padding));
    var e := PaddedEntry(c, padding);
    assert [] + [e] == [e];
    FirstOfNone();
    FirstOfStep([], e);
  }
}
