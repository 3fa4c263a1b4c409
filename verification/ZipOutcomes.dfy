/**
 * Which buffers the export check accepts, in terms of bytes at offsets
 * (PKWARE APPNOTE.TXT, sections 4.3.7, 4.3.12 and 4.3.16), and which parts an
 * accepted office file holds.
 */
module ZipOutcomes {
  import opened Wrappers
  import opened ZipFormat
  import opened ZipNames
  import opened ZipValidator
  import opened ZipWriter

  /** Two and four bytes, the least significant first. */
  lemma FieldsAreLittleEndian(b: Bytes, i: nat)
    ensures i + 2 <= |b| ==> U16(b, i) == (b[i] as int) + 256 * (b[i + 1] as int)
    ensures i + 4 <= |b| ==> U32(b, i) == (b[i] as int) + 256 * (b[i + 1] as int) + 65_536 * (b[i + 2] as int) + 16_777_216 * (b[i + 3] as int)
  {
  }

  /** "PK" and two more bytes. */
  predicate SignatureAt(b: Bytes, i: nat, x: Byte, y: Byte) {
    i + 4 <= |b| && b[i] == 0x50 && b[i + 1] == 0x4b && b[i + 2] == x && b[i + 3] == y
  }

  lemma SignatureExactly(b: Bytes, i: nat)
    requires i + 4 <= |b|
    ensures U32(b, i) == LOCAL <==> SignatureAt(b, i, 3, 4)
    ensures U32(b, i) == CENTRAL <==> SignatureAt(b, i, 1, 2)
    ensures U32(b, i) == EOCD <==> SignatureAt(b, i, 5, 6)
  {
    Digits(b[i], b[i + 1], b[i + 2], b[i + 3], 0x50, 0x4b, 3, 4);
    Digits(b[i], b[i + 1], b[i + 2], b[i + 3], 0x50, 0x4b, 1, 2);
    Digits(b[i], b[i + 1], b[i + 2], b[i + 3], 0x50, 0x4b, 5, 6);
  }

  lemma Digits(a: Byte, b: Byte, c: Byte, d: Byte, w: Byte, x: Byte, y: Byte, z: Byte)
    ensures a as int + 0x100 * b as int + 0x1_0000 * c as int + 0x100_0000 * d as int
         == w as int + 0x100 * x as int + 0x1_0000 * y as int + 0x100_0000 * z as int
       <==> a == w && b == x && c == y && d == z
  {
  }

  /** A central record at its offset: its fields are what the bytes say, and it ends where its parts do. */
  predicate RecordIs(b: Bytes, r: Record) {
    && r.at + 46 <= |b| && SignatureAt(b, r.at, 1, 2)
    && r.flags == U16(b, r.at + 8) && r.compression == U16(b, r.at + 10)
    && r.packed == U32(b, r.at + 20) && r.expanded == U32(b, r.at + 24)
    && r.disk == U16(b, r.at + 34) && r.localOffset == U32(b, r.at + 42)
    && r.next == r.at + 46 + U16(b, r.at + 28) + U16(b, r.at + 30) + U16(b, r.at + 32) && r.next <= |b|
    && r.name == b[r.at + 46..r.at + 46 + U16(b, r.at + 28)]
  }

  /** The records fill the directory from its first byte to its last, one after the other. */
  predicate Listed(b: Bytes, start: nat, end: nat, rs: seq<Record>) {
    && start <= end && (rs == [] ==> start == end)
    && (rs != [] ==> rs[0].at == start && rs[|rs| - 1].next == end)
    && (forall k :: 0 <= k < |rs| - 1 ==> rs[k].next == rs[k + 1].at)
    && (forall k :: 0 <= k < |rs| ==> RecordIs(b, rs[k]) && rs[k].next <= end)
  }

  lemma CentralExactly(b: Bytes, offset: nat, end: nat)
    requires end <= |b|
    ensures forall r :: CentralAt(b, offset, end) == Some(r) <==> r.at == offset && RecordIs(b, r) && r.next <= end
  {
    if offset + 46 <= end {
      SignatureExactly(b, offset);
    }
    hide U16, U32;
  }

  lemma RecordsStep(b: Bytes, start: nat, end: nat, count: nat, rs: seq<Record>)
    requires end <= |b| && count > 0
    ensures Records(b, start, end, count) == Some(rs) <==>
      rs != [] && CentralAt(b, start, end) == Some(rs[0]) && Records(b, rs[0].next, end, count - 1) == Some(rs[1..])
  {
    hide CentralAt;
    if rs != [] {
      assert rs == [rs[0]] + rs[1..];
    }
  }

  lemma NoRecords(b: Bytes, start: nat, end: nat, rs: seq<Record>)
    requires end <= |b| && start <= end
    ensures Records(b, start, end, 0) == Some(rs) <==> rs == [] && Listed(b, start, end, rs)
  {
    hide RecordIs;
  }

  lemma {:induction false} RecordsExactly(b: Bytes, start: nat, end: nat, count: nat, rs: seq<Record>)
    requires end <= |b| && start <= end
    ensures Records(b, start, end, count) == Some(rs) <==> |rs| == count && Listed(b, start, end, rs)
    decreases count
  {
    hide CentralAt, RecordIs, Records, Listed;
    if count == 0 {
      NoRecords(b, start, end, rs);
    } else {
      RecordsStep(b, start, end, count, rs);
      if rs != [] {
        CentralExactly(b, start, end);
        if CentralAt(b, start, end) == Some(rs[0]) {
          RecordsExactly(b, rs[0].next, end, count - 1, rs[1..]);
          ListedTail(b, start, end, rs[0], rs);
        } else {
          ListedFirst(b, start, end, rs);
        }
      }
    }
  }

  lemma ListedFirst(b: Bytes, start: nat, end: nat, rs: seq<Record>)
    requires rs != [] && !(rs[0].at == start && RecordIs(b, rs[0]) && rs[0].next <= end)
    ensures !Listed(b, start, end, rs)
  {
    hide RecordIs;
  }

  lemma ListedTail(b: Bytes, start: nat, end: nat, r: Record, rs: seq<Record>)
    requires rs != [] && start <= r.next <= end && r.at == start && RecordIs(b, r)
    ensures Listed(b, start, end, rs) && rs[0] == r <==> rs[0] == r && Listed(b, r.next, end, rs[1..])
  {
    hide RecordIs;
    var tail := rs[1..];
    assert forall k :: 0 <= k < |tail| ==> tail[k] == rs[k + 1];
    assert forall k :: 0 < k < |rs| ==> rs[k] == tail[k - 1];
  }

  /** At most 20 MiB packed and 80 MiB expanded, both known, and never more than two thousandfold. */
  predicate SizesFit(r: Record) {
    r.packed <= 20_971_520 && r.expanded <= 83_886_080 && (if r.packed == 0 then r.expanded == 0 else r.expanded <= 2000 * r.packed)
  }

  /** The local header says the same, and its data ends in front of the directory. */
  predicate LocalFits(b: Bytes, r: Record, start: nat) {
    var at := r.localOffset;
    && at + 30 <= start <= |b| && SignatureAt(b, at, 3, 4)
    && U16(b, at + 6) % 2 == 0 && U16(b, at + 8) == r.compression
    && at + 30 + U16(b, at + 26) + U16(b, at + 28) + r.packed <= start
    && b[at + 30..at + 30 + U16(b, at + 26)] == r.name
  }

  /** An entry on this disk, not encrypted, stored or deflated. */
  ghost predicate RecordFits(b: Bytes, r: Record, start: nat) {
    && r.disk == 0 && r.flags % 2 == 0 && (r.compression == 0 || r.compression == 8)
    && SizesFit(r) && NameFits(r.name) && LocalFits(b, r, start)
  }

  lemma RecordFitsExactly(b: Bytes, r: Record, start: nat)
    requires start <= |b|
    ensures RecordOk(b, r, start) <==> RecordFits(b, r, start)
  {
    AdmissibleExactly(r.name);
    if r.localOffset + 30 <= start {
      SignatureExactly(b, r.localOffset);
    }
    hide AdmissibleName, NameFits, U16, U32;
  }

  /** The parts every office file of the format has. */
  predicate HoldsParts(names: set<Bytes>, format: Format) {
    && (exists n :: n in names && Spells(n, "[Content_Types].xml"))
    && (exists n :: n in names && Spells(n, "_rels/.rels"))
    && match format
       case Docx => exists n :: n in names && Spells(n, "word/document.xml")
       case Pptx => exists n :: n in names && Spells(n, "ppt/presentation.xml")
  }

  lemma SpelledIn(names: set<Bytes>, s: string)
    requires forall k :: 0 <= k < |s| ==> s[k] < 128 as char
    ensures Ascii(s) in names <==> exists n :: n in names && Spells(n, s)
  {
    AsciiSpells(Ascii(s), s);
    forall n | n in names && Spells(n, s) ensures n == Ascii(s) {
      AsciiSpells(n, s);
    }
  }

  lemma PartsRequired(names: set<Bytes>, format: Format)
    ensures RequiredNames(format) <= names <==> HoldsParts(names, format)
  {
    SpelledIn(names, "[Content_Types].xml");
    SpelledIn(names, "_rels/.rels");
    SpelledIn(names, "word/document.xml");
    SpelledIn(names, "ppt/presentation.xml");
    hide Ascii, Spells;
  }

  /** An end record at `end` whose comment closes the buffer, and none after it. */
  ghost predicate EndsAt(b: Bytes, end: nat) {
    && ClosesAt(b, end) && forall j: nat :: end < j ==> !ClosesAt(b, j)
  }

  predicate ClosesAt(b: Bytes, i: nat) {
    i + 22 <= |b| && SignatureAt(b, i, 5, 6) && i + 22 + U16(b, i + 20) == |b|
  }

  lemma EndsExactly(b: Bytes, end: nat)
    ensures LastEndRecord(b, end) <==> EndsAt(b, end)
  {
    forall i: nat ensures IsEndRecord(b, i) <==> ClosesAt(b, i) {
      if i + 22 <= |b| {
        SignatureExactly(b, i);
      }
    }
    hide IsEndRecord, ClosesAt;
    assert forall i: nat :: ClosesAt(b, i) ==> i + 22 <= |b| by { ClosesInside(b); }
  }

  lemma ClosesInside(b: Bytes)
    ensures forall i: nat :: ClosesAt(b, i) ==> i + 22 <= |b|
  {
  }

  /** One disk, between 3 and 2048 entries, and a directory of at most 20 MiB that ends where the end record begins. */
  predicate EndFits(b: Bytes, end: nat, start: nat, count: nat)
    requires end + 22 <= |b|
  {
    && U16(b, end + 4) == 0 && U16(b, end + 6) == 0 && U16(b, end + 8) == count && U16(b, end + 10) == count
    && 3 <= count <= 2048
    && U32(b, end + 12) <= 20_971_520 && U32(b, end + 16) == start && start < end && start + U32(b, end + 12) == end
  }

  function Expansion(rs: seq<Record>): nat {
    if rs == [] then 0 else rs[0].expanded + Expansion(rs[1..])
  }

  lemma {:induction false} ExpansionIsTotal(rs: seq<Record>)
    ensures TotalExpanded(rs) == Expansion(rs)
    decreases |rs|
  {
    if rs != [] {
      ExpansionIsTotal(rs[1..]);
      TotalFromFront(rs[0], rs[1..]);
      assert [rs[0]] + rs[1..] == rs;
    }
  }

  ghost predicate DirectoryFits(b: Bytes, rs: seq<Record>, start: nat, format: Format) {
    && (forall r :: r in rs ==> RecordFits(b, r, start))
    && (forall i, j :: 0 <= i < j < |rs| ==> rs[i].name != rs[j].name)
    && Expansion(rs) <= 83_886_080
    && HoldsParts(set r | r in rs :: r.name, format)
  }

  lemma RecordsFitExactly(b: Bytes, rs: seq<Record>, start: nat)
    requires start <= |b|
    ensures (forall r :: r in rs ==> RecordOk(b, r, start)) <==> (forall r :: r in rs ==> RecordFits(b, r, start))
  {
    hide RecordOk, RecordFits;
    forall r | r in rs ensures RecordOk(b, r, start) <==> RecordFits(b, r, start) {
      RecordFitsExactly(b, r, start);
    }
  }

  lemma DirectoryExactly(b: Bytes, rs: seq<Record>, start: nat, format: Format)
    requires start <= |b|
    ensures DirectoryOk(b, rs, start, format) <==> DirectoryFits(b, rs, start, format)
  {
    hide RecordOk, RecordFits, RequiredNames, HoldsParts, TotalExpanded, Expansion;
    RecordsFitExactly(b, rs, start);
    ExpansionIsTotal(rs);
    PartsRequired(Names(rs), format);
    assert Names(rs) == (set r | r in rs :: r.name);
    assert DistinctNames(rs) <==> forall i, j :: 0 <= i < j < |rs| ==> rs[i].name != rs[j].name;
    hide DistinctNames, Names;
  }

  /** The buffer is an archive of that format with this directory. */
  ghost predicate ArchiveIs(b: Bytes, format: Format, start: nat, end: nat, rs: seq<Record>) {
    && EndsAt(b, end) && end + 22 <= |b| && EndFits(b, end, start, |rs|)
    && Listed(b, start, end, rs) && DirectoryFits(b, rs, start, format)
  }

  lemma ArchiveAtExactly(b: Bytes, end: nat, format: Format, rs: seq<Record>)
    requires EndsAt(b, end)
    ensures end + 22 <= |b|
    ensures ArchiveOkAt(b, end, format) && Records(b, Start(b, end), end, Count(b, end)) == Some(rs)
       <==> ArchiveIs(b, format, Start(b, end), end, rs)
  {
    ClosesInside(b);
    var (start, count) := (Start(b, end), Count(b, end));
    hide EndsAt, ClosesAt, Records, Listed, DirectoryOk, DirectoryFits, U16, U32;
    if start <= end {
      RecordsExactly(b, start, end, count, rs);
      DirectoryExactly(b, rs, start, format);
    }
  }

  /**
   * A buffer is accepted as an office archive exactly when it begins with a
   * local header, closes with an end record, and that record describes a
   * directory which fits: tiled by records that fit their local headers, all
   * named differently, and holding the parts of the format.
   */
  lemma AcceptedExactly(b: Bytes, format: Format)
    ensures ValidArchive(b, format) <==>
      |b| >= 22 && SignatureAt(b, 0, 3, 4) && exists start, end, rs :: ArchiveIs(b, format, start, end, rs)
  {
    hide ArchiveOkAt, EndsAt, LastEndRecord, ArchiveIs, Records;
    if |b| >= 22 {
      SignatureExactly(b, 0);
      if ValidArchive(b, format) {
        ValidHasDirectory(b, format);
      }
      if SignatureAt(b, 0, 3, 4) && exists start, end, rs :: ArchiveIs(b, format, start, end, rs) {
        var start, end, rs :| ArchiveIs(b, format, start, end, rs);
        DirectoryIsAccepted(b, format, start, end, rs);
      }
    }
  }

  lemma ValidHasDirectory(b: Bytes, format: Format)
    requires ValidArchive(b, format)
    ensures exists start, end, rs :: ArchiveIs(b, format, start, end, rs)
  {
    hide ArchiveOkAt, ArchiveIs;
    var end :| LastEndRecord(b, end) && ArchiveOkAt(b, end, format);
    AcceptedHasDirectory(b, end, format);
  }

  lemma AcceptedHasDirectory(b: Bytes, end: nat, format: Format)
    requires LastEndRecord(b, end) && ArchiveOkAt(b, end, format)
    ensures exists start, end, rs :: ArchiveIs(b, format, start, end, rs)
  {
    EndsExactly(b, end);
    var rs := Records(b, Start(b, end), end, Count(b, end)).value;
    hide EndsAt, LastEndRecord, ArchiveIs, Records;
    ArchiveAtExactly(b, end, format, rs);
    hide ArchiveOkAt;
  }

  lemma DirectoryIsAccepted(b: Bytes, format: Format, start: nat, end: nat, rs: seq<Record>)
    requires ArchiveIs(b, format, start, end, rs)
    ensures LastEndRecord(b, end) && ArchiveOkAt(b, end, format)
  {
    EndsExactly(b, end);
    assert start == Start(b, end);
    hide EndsAt, LastEndRecord, Records, ArchiveOkAt;
    ArchiveAtExactly(b, end, format, rs);
  }

  /** A file is accepted for export exactly within 8 bytes and 20 MiB, as a PDF by its first five bytes, as an office file as above. */
  lemma SignatureAcceptedExactly(b: Bytes, format: ExportFormat)
    ensures Accepted(b, format) <==>
      && 8 <= |b| <= 20_971_520
      && match format
         case Pdf => Spells(b[..5], "%PDF-")
         case Office(f) => |b| >= 22 && SignatureAt(b, 0, 3, 4) && exists start, end, rs :: ArchiveIs(b, f, start, end, rs)
         case Unknown => false
  {
    if format.Office? {
      AcceptedExactly(b, format.format);
    }
    hide ValidArchive, ArchiveIs;
    if |b| >= 5 {
      var t := b[..5];
      assert Spells(t, "%PDF-") <==> t == [0x25, 0x50, 0x44, 0x46, 0x2d] by {
        assert "%PDF-" == ['%', 'P', 'D', 'F', '-'];
      }
    }
  }

  // ----- what the reference writer may write

  ghost predicate MayWrite(e: Entry) {
    && NameFits(e.name) && |e.name| <= 65_535 && e.flags % 2 == 0 && e.flags <= 65_535 && (e.compression == 0 || e.compression == 8)
    && |e.stamp| == 8 && |e.data| <= 20_971_520 && e.expanded <= 83_886_080
    && (if e.data == [] then e.expanded == 0 else e.expanded <= 2000 * |e.data|)
    && |e.localExtra| <= 65_535 && |e.centralExtra| <= 65_535 && |e.comment| <= 65_535
  }

  /** Any entries within the limits, with the format's parts among them, make an archive that is accepted, and their directory is read back. */
  lemma EveryFittingArchiveAccepted(es: seq<Entry>, format: Format)
    requires 3 <= |es| <= 2048 && (forall e :: e in es ==> MayWrite(e))
    requires forall i, j :: 0 <= i < j < |es| ==> es[i].name != es[j].name
    requires HoldsParts(set e | e in es :: e.name, format)
    requires Expanded(es) <= 83_886_080 && |Archive(es)| <= 20_971_520
    ensures ValidArchive(Archive(es), format)
    ensures var (start, end) := (|Locals(es)|, |Locals(es)| + |Centrals(es, 0)|);
            ArchiveIs(Archive(es), format, start, end, RecordsOf(es, start, 0))
  {
    hide Archive, Locals, Centrals, RecordsOf, Records, MayWrite, HoldsParts, ArchiveOkAt, WritableArchive, Expanded, ArchiveIs, EndsAt;
    FittingIsWritable(es, format);
    WrittenArchiveAccepted(es, format);
    WrittenIs(es, format);
  }

  lemma WrittenIs(es: seq<Entry>, format: Format)
    requires WritableArchive(es, format)
    ensures var (start, end) := (|Locals(es)|, |Locals(es)| + |Centrals(es, 0)|);
            ArchiveIs(Archive(es), format, start, end, RecordsOf(es, start, 0))
  {
    hide Archive, Locals, Centrals, RecordsOf, Records, ArchiveOkAt, WritableArchive, ArchiveIs, EndsAt, LastEndRecord, ValidArchive;
    var (b, start, end) := (Archive(es), |Locals(es)|, |Locals(es)| + |Centrals(es, 0)|);
    WrittenArchiveAccepted(es, format);
    WrittenEnd(es, format);
    EndsExactly(b, end);
    StartsWithLocal(es, format);
    OnlyLastEndRecordMatters(b, end, format);
    ArchiveAtExactly(b, end, format, RecordsOf(es, start, 0));
  }

  lemma WrittenEnd(es: seq<Entry>, format: Format)
    requires WritableArchive(es, format)
    ensures LastEndRecord(Archive(es), |Locals(es)| + |Centrals(es, 0)|)
  {
    hide Archive, Locals, Centrals, LastEndRecord, At, EndPart;
    ArchiveParts(es, format);
    hide WritableArchive;
    assert |es| <= 2048 && |Archive(es)| <= MAX_EXPORT_BYTES by { WritableBounds(es, format); }
    EndReadsBack(Archive(es), |Locals(es)| + |Centrals(es, 0)|, |es|, |Centrals(es, 0)|, |Locals(es)|);
  }

  lemma WritableBounds(es: seq<Entry>, format: Format)
    requires WritableArchive(es, format)
    ensures |es| <= 2048 && |Archive(es)| <= MAX_EXPORT_BYTES
  {
  }

  lemma MayWriteIsWritable(e: Entry)
    requires MayWrite(e)
    ensures Writable(e)
  {
    AdmissibleExactly(e.name);
    hide AdmissibleName, NameFits;
  }

  lemma PartsAmong(es: seq<Entry>, format: Format)
    requires HoldsParts(set e | e in es :: e.name, format)
    ensures forall name :: name in RequiredNames(format) ==> exists e :: e in es && e.name == name
  {
    PartsRequired(set e | e in es :: e.name, format);
    hide RequiredNames, HoldsParts;
    forall name | name in RequiredNames(format) ensures exists e :: e in es && e.name == name {
      assert name in (set e | e in es :: e.name);
    }
  }

  lemma FittingIsWritable(es: seq<Entry>, format: Format)
    requires 3 <= |es| <= 2048 && (forall e :: e in es ==> MayWrite(e))
    requires forall i, j :: 0 <= i < j < |es| ==> es[i].name != es[j].name
    requires HoldsParts(set e | e in es :: e.name, format)
    requires Expanded(es) <= 83_886_080 && |Archive(es)| <= 20_971_520
    ensures WritableArchive(es, format)
  {
    hide Archive, Expanded, Writable, MayWrite, RequiredNames, HoldsParts;
    forall e | e in es ensures Writable(e) {
      MayWriteIsWritable(e);
    }
    PartsAmong(es, format);
  }
}
