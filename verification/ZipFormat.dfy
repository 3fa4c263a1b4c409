/**
 * The part of the ZIP container format the export check reads
 * (PKWARE APPNOTE.TXT, sections 4.3.7, 4.3.12 and 4.3.16), and when a buffer
 * is an acceptable office archive.
 */
module ZipFormat {
  import opened Wrappers

  type Byte = b: int | 0 <= b < 0x100
  type Bytes = seq<Byte>

  datatype Format = Docx | Pptx

  const MAX_EXPORT_BYTES := 20 * 1024 * 1024
  const MAX_UNCOMPRESSED_BYTES := 80 * 1024 * 1024
  const LOCAL := 0x04034b50
  const CENTRAL := 0x02014b50
  const EOCD := 0x06054b50
  const UNKNOWN := 0xffff_ffff

  function U16(b: Bytes, i: nat): nat
    requires i + 2 <= |b|
  {
    (b[i] as int) + 0x100 * (b[i + 1] as int)
  }

  function U32(b: Bytes, i: nat): nat
    requires i + 4 <= |b|
  {
    (b[i] as int) + 0x100 * (b[i + 1] as int) + 0x1_0000 * (b[i + 2] as int) + 0x100_0000 * (b[i + 3] as int)
  }

  // ----- entry names

  function Ascii(s: string): Bytes {
    seq(|s|, i requires 0 <= i < |s| => if s[i] < 128 as char then s[i] as int else 0x3f)
  }

  predicate IsContinuation(b: Byte) { 0x80 <= b < 0xc0 }

  predicate ValidUtf8(s: Bytes) {
    if s == [] then true
    else if s[0] < 0x80 then ValidUtf8(s[1..])
    else if 0xc2 <= s[0] < 0xe0 then |s| >= 2 && IsContinuation(s[1]) && ValidUtf8(s[2..])
    else if 0xe0 <= s[0] < 0xf0 then
      && |s| >= 3 && IsContinuation(s[1]) && IsContinuation(s[2])
      && (s[0] == 0xe0 ==> s[1] >= 0xa0) && (s[0] == 0xed ==> s[1] < 0xa0)
      && ValidUtf8(s[3..])
    else if 0xf0 <= s[0] < 0xf5 then
      && |s| >= 4 && IsContinuation(s[1]) && IsContinuation(s[2]) && IsContinuation(s[3])
      && (s[0] == 0xf0 ==> s[1] >= 0x90) && (s[0] == 0xf4 ==> s[1] < 0x90)
      && ValidUtf8(s[4..])
    else false
  }

  /** The decoded name would contain U+FFFD. */
  predicate HasReplacement(s: Bytes) {
    !ValidUtf8(s) || exists i :: 0 <= i <= |s| - 3 && s[i] == 0xef && s[i + 1] == 0xbf && s[i + 2] == 0xbd
  }

  const SLASH: Byte := 0x2f

  function Segments(name: Bytes): (parts: seq<Bytes>)
    ensures parts != []
  {
    if name == [] then [[]]
    else
      var rest := Segments(name[1..]);
      if name[0] == SLASH then [[]] + rest else [[name[0]] + rest[0]] + rest[1..]
  }

  function Lower(s: Bytes): Bytes {
    seq(|s|, i requires 0 <= i < |s| => if 0x41 <= s[i] <= 0x5a then s[i] + 0x20 else s[i])
  }

  predicate EndsWith(s: Bytes, suffix: Bytes) {
    |suffix| <= |s| && s[|s| - |suffix|..] == suffix
  }

  predicate IsActiveContent(name: Bytes) {
    var last := Lower(Segments(name)[|Segments(name)| - 1]);
    last == Ascii("vbaproject.bin") || EndsWith(last, Ascii(".exe")) || EndsWith(last, Ascii(".dll"))
  }

  predicate InEmbeddedFolder(name: Bytes) {
    var folders := Segments(name)[..|Segments(name)| - 1];
    exists f :: f in folders && (Lower(f) == Ascii("activex") || Lower(f) == Ascii("embeddings"))
  }

  predicate AdmissibleName(name: Bytes) {
    && name != []
    && !HasReplacement(name)
    && 0x5c !in name
    && name[0] != SLASH
    && Ascii("..") !in Segments(name) && Ascii(".") !in Segments(name)
    && 0 !in name
    && !IsActiveContent(name)
    && (InEmbeddedFolder(name) ==> name[|name| - 1] == SLASH)
  }

  function RequiredNames(format: Format): set<Bytes> {
    {Ascii("[Content_Types].xml"), Ascii("_rels/.rels"),
     if format.Docx? then Ascii("word/document.xml") else Ascii("ppt/presentation.xml")}
  }

  // ----- the central directory

  datatype Record = Record(
    at: nat, flags: nat, compression: nat, packed: nat, expanded: nat,
    disk: nat, localOffset: nat, name: Bytes, next: nat)

  /** The central record at `offset`, if one fits before `end`. */
  function CentralAt(b: Bytes, offset: nat, end: nat): (r: Option<Record>)
    requires end <= |b|
    ensures r.Some? ==> r.value.at == offset && offset + 46 <= r.value.next <= end
  {
    if offset + 46 > end || U32(b, offset) != CENTRAL then None
    else
      var nameLength := U16(b, offset + 28);
      var next := offset + 46 + nameLength + U16(b, offset + 30) + U16(b, offset + 32);
      if next > end then None
      else Some(Record(offset, U16(b, offset + 8), U16(b, offset + 10), U32(b, offset + 20), U32(b, offset + 24),
                       U16(b, offset + 34), U32(b, offset + 42), b[offset + 46..offset + 46 + nameLength], next))
  }

  /** `count` central records that fill [offset, end) exactly. */
  function Records(b: Bytes, offset: nat, end: nat, count: nat): Option<seq<Record>>
    requires end <= |b|
    decreases count
  {
    if count == 0 then if offset == end then Some([]) else None
    else
      match CentralAt(b, offset, end)
      case None => None
      case Some(r) =>
        match Records(b, r.next, end, count - 1)
        case None => None
        case Some(rest) => Some([r] + rest)
  }

  predicate SizesOk(r: Record) {
    && r.packed <= MAX_EXPORT_BYTES && r.packed != UNKNOWN
    && r.expanded <= MAX_UNCOMPRESSED_BYTES && r.expanded != UNKNOWN
    && (r.packed == 0 ==> r.expanded == 0)
    && (r.packed > 0 ==> r.expanded <= r.packed * 2000)
  }

  /** The local header the record points to agrees with it, and its data ends before `start`. */
  predicate LocalOk(b: Bytes, r: Record, start: nat)
    requires start <= |b|
  {
    var at := r.localOffset;
    && at + 30 <= start
    && U32(b, at) == LOCAL
    && U16(b, at + 8) == r.compression
    && U16(b, at + 6) % 2 == 0
    && at + 30 + U16(b, at + 26) + U16(b, at + 28) + r.packed <= start
    && b[at + 30..at + 30 + U16(b, at + 26)] == r.name
  }

  predicate RecordOk(b: Bytes, r: Record, start: nat)
    requires start <= |b|
  {
    && r.disk == 0
    && r.flags % 2 == 0
    && (r.compression == 0 || r.compression == 8)
    && SizesOk(r)
    && AdmissibleName(r.name)
    && LocalOk(b, r, start)
  }

  function TotalExpanded(rs: seq<Record>): nat {
    if rs == [] then 0 else TotalExpanded(rs[..|rs| - 1]) + rs[|rs| - 1].expanded
  }

  function Names(rs: seq<Record>): set<Bytes> {
    set r | r in rs :: r.name
  }

  predicate DistinctNames(rs: seq<Record>) {
    forall i, j :: 0 <= i < j < |rs| ==> rs[i].name != rs[j].name
  }

  // ----- the whole archive

  /** An end record whose comment finishes exactly at the end of the buffer. */
  predicate IsEndRecord(b: Bytes, i: nat) {
    i + 22 <= |b| && U32(b, i) == EOCD && i + 22 + U16(b, i + 20) == |b|
  }

  /** The end record nearest to the end of the buffer. */
  ghost predicate LastEndRecord(b: Bytes, end: nat) {
    IsEndRecord(b, end) && forall j :: end < j <= |b| - 22 ==> !IsEndRecord(b, j)
  }

  function Count(b: Bytes, end: nat): nat requires end + 22 <= |b| { U16(b, end + 10) }

  function Start(b: Bytes, end: nat): nat requires end + 22 <= |b| { U32(b, end + 16) }

  predicate EndFieldsOk(b: Bytes, end: nat)
    requires end + 22 <= |b|
  {
    && U16(b, end + 4) == 0 && U16(b, end + 6) == 0
    && U16(b, end + 8) == Count(b, end)
    && 3 <= Count(b, end) <= 2048
    && U32(b, end + 12) <= MAX_EXPORT_BYTES
    && Start(b, end) < end
    && Start(b, end) + U32(b, end + 12) == end
  }

  predicate DirectoryOk(b: Bytes, rs: seq<Record>, start: nat, format: Format)
    requires start <= |b|
  {
    && (forall r :: r in rs ==> RecordOk(b, r, start))
    && DistinctNames(rs)
    && TotalExpanded(rs) <= MAX_UNCOMPRESSED_BYTES
    && RequiredNames(format) <= Names(rs)
  }

  predicate ArchiveOkAt(b: Bytes, end: nat, format: Format)
    requires end + 22 <= |b|
  {
    && EndFieldsOk(b, end)
    && var rs := Records(b, Start(b, end), end, Count(b, end));
       rs.Some? && DirectoryOk(b, rs.value, Start(b, end), format)
  }

  ghost predicate ValidArchive(b: Bytes, format: Format) {
    && |b| >= 22 && U32(b, 0) == LOCAL
    && exists end :: LastEndRecord(b, end) && ArchiveOkAt(b, end, format)
  }

  /** Consecutive records touch, from the first byte of the directory to its last. */
  predicate Tiles(rs: seq<Record>, start: nat, end: nat) {
    && rs != [] && rs[0].at == start && rs[|rs| - 1].next == end
    && (forall i :: 0 <= i < |rs| - 1 ==> rs[i].next == rs[i + 1].at)
    && (forall i :: 0 <= i < |rs| ==> rs[i].at + 46 + |rs[i].name| <= rs[i].next)
  }

  lemma {:induction false} RecordsTile(b: Bytes, offset: nat, end: nat, count: nat)
    requires end <= |b| && count > 0 && Records(b, offset, end, count).Some?
    ensures |Records(b, offset, end, count).value| == count
    ensures Tiles(Records(b, offset, end, count).value, offset, end)
    decreases count
  {
    var r := CentralAt(b, offset, end).value;
    var rs := Records(b, offset, end, count).value;
    if count > 1 {
      RecordsTile(b, r.next, end, count - 1);
      assert forall i :: 0 < i < |rs| ==> rs[i] == rs[1..][i - 1];
    }
  }

  /** The record's local header and data lie in front of the directory and carry its name. */
  predicate LocalBefore(b: Bytes, r: Record, start: nat)
    requires start <= |b|
  {
    && r.localOffset + 30 + |r.name| + r.packed <= start
    && U32(b, r.localOffset) == LOCAL
    && b[r.localOffset + 30..r.localOffset + 30 + |r.name|] == r.name
  }

  /**
   * An end record closing the buffer, a directory tiled by its records, distinct
   * admissible names, local headers and data in front of it, bounded expansion.
   */
  ghost predicate WellStructured(b: Bytes, start: nat, end: nat, rs: seq<Record>, format: Format)
  {
    && IsEndRecord(b, end)
    && start < end
    && 3 <= |rs| <= 2048 && Tiles(rs, start, end)
    && (forall i, j :: 0 <= i < j < |rs| ==> rs[i].name != rs[j].name)
    && (forall r :: r in rs ==> AdmissibleName(r.name) && LocalBefore(b, r, start))
    && TotalExpanded(rs) <= MAX_UNCOMPRESSED_BYTES
    && RequiredNames(format) <= Names(rs)
  }

  lemma LocalOkBefore(b: Bytes, r: Record, start: nat)
    requires start <= |b| && LocalOk(b, r, start)
    ensures LocalBefore(b, r, start)
  {
  }

  lemma AcceptedDirectoryStructure(b: Bytes, end: nat, format: Format)
    requires IsEndRecord(b, end) && ArchiveOkAt(b, end, format)
    ensures WellStructured(b, Start(b, end), end, Records(b, Start(b, end), end, Count(b, end)).value, format)
  {
    hide AdmissibleName, LocalOk, LocalBefore, SizesOk, Tiles;
    var start := Start(b, end);
    var rs := Records(b, start, end, Count(b, end)).value;
    RecordsTile(b, start, end, Count(b, end));
    forall r | r in rs ensures AdmissibleName(r.name) && LocalBefore(b, r, start) {
      assert RecordOk(b, r, start);
      LocalOkBefore(b, r, start);
    }
  }

  lemma AcceptedArchiveStructure(b: Bytes, format: Format)
    requires ValidArchive(b, format)
    ensures exists start, end, rs :: WellStructured(b, start, end, rs, format)
  {
    hide ArchiveOkAt, WellStructured;
    var end :| LastEndRecord(b, end) && ArchiveOkAt(b, end, format);
    AcceptedStructureAt(b, end, format);
  }

  lemma AcceptedStructureAt(b: Bytes, end: nat, format: Format)
    requires LastEndRecord(b, end) && ArchiveOkAt(b, end, format)
    ensures exists start, end, rs :: WellStructured(b, start, end, rs, format)
  {
    hide WellStructured;
    AcceptedDirectoryStructure(b, end, format);
  }

  lemma LastEndRecordUnique(b: Bytes, end: nat, end': nat)
    requires LastEndRecord(b, end) && LastEndRecord(b, end')
    ensures end == end'
  {
  }
}
