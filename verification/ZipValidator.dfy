/** The export check itself: a backward scan and a walk over the directory. */
module ZipValidator {
  import opened Wrappers
  import opened ZipFormat

  datatype ExportFormat = Pdf | Office(format: Format) | Unknown

  function ReadU16(a: array<Byte>, i: nat): (n: nat)
    requires i + 2 <= a.Length
    reads a
    ensures n == U16(a[..], i)
  {
    (a[i] as int) + 0x100 * (a[i + 1] as int)
  }

  function ReadU32(a: array<Byte>, i: nat): (n: nat)
    requires i + 4 <= a.Length
    reads a
    ensures n == U32(a[..], i)
  {
    (a[i] as int) + 0x100 * (a[i + 1] as int) + 0x1_0000 * (a[i + 2] as int) + 0x100_0000 * (a[i + 3] as int)
  }

  /** Scans backwards for the end record, no further than the longest comment allows. */
  method FindEndRecord(bytes: array<Byte>) returns (end: int)
    requires bytes.Length >= 22
    ensures end >= 0 ==> end + 22 <= bytes.Length && LastEndRecord(bytes[..], end)
    ensures end < 0 ==> forall i: nat :: !IsEndRecord(bytes[..], i)
  {
    var lower := if bytes.Length - 22 - 65535 > 0 then bytes.Length - 22 - 65535 else 0;
    var i := bytes.Length - 22;
    while i >= lower
      invariant lower - 1 <= i <= bytes.Length - 22
      invariant forall j: nat :: i < j <= bytes.Length - 22 ==> !IsEndRecord(bytes[..], j)
    {
      if ReadU32(bytes, i) == EOCD && i + 22 + ReadU16(bytes, i + 20) == bytes.Length {
        return i;
      }
      i := i - 1;
    }
    end := -1;
    EndRecordInRange(bytes[..]);
  }

  lemma EndRecordInRange(b: Bytes)
    ensures forall i: nat :: IsEndRecord(b, i) ==> |b| - 22 - 65535 <= i <= |b| - 22
  {
  }

  method ReadCentral(bytes: array<Byte>, offset: nat, end: nat) returns (r: Option<Record>)
    requires end <= bytes.Length
    ensures r == CentralAt(bytes[..], offset, end)
  {
    if offset + 46 > end || ReadU32(bytes, offset) != CENTRAL {
      return None;
    }
    var nameLength, extraLength, commentLength :=
      ReadU16(bytes, offset + 28), ReadU16(bytes, offset + 30), ReadU16(bytes, offset + 32);
    var next := offset + 46 + nameLength + extraLength + commentLength;
    if next > end {
      return None;
    }
    var name := bytes[offset + 46..offset + 46 + nameLength];
    assert bytes[..][offset + 46..offset + 46 + nameLength] == name;
    r := Some(Record(
      offset, ReadU16(bytes, offset + 8), ReadU16(bytes, offset + 10), ReadU32(bytes, offset + 20),
      ReadU32(bytes, offset + 24), ReadU16(bytes, offset + 34), ReadU32(bytes, offset + 42), name, next));
  }

  /** Compares the local header with its central record. */
  method MatchesLocal(bytes: array<Byte>, r: Record, start: nat) returns (ok: bool)
    requires start <= bytes.Length
    ensures ok <==> LocalOk(bytes[..], r, start)
  {
    var at := r.localOffset;
    if at + 30 > start || ReadU32(bytes, at) != LOCAL || ReadU16(bytes, at + 8) != r.compression
       || ReadU16(bytes, at + 6) % 2 != 0
    {
      return false;
    }
    var nameLength, extraLength := ReadU16(bytes, at + 26), ReadU16(bytes, at + 28);
    if at + 30 + nameLength + extraLength + r.packed > start {
      return false;
    }
    var name := bytes[at + 30..at + 30 + nameLength];
    assert bytes[..][at + 30..at + 30 + nameLength] == name;
    ok := name == r.name;
  }

  /** The checks on one central record and the local header it points to. */
  method CheckRecord(bytes: array<Byte>, offset: nat, start: nat, end: nat) returns (r: Option<Record>)
    requires start <= end <= bytes.Length
    ensures r.Some? ==> CentralAt(bytes[..], offset, end) == r && RecordOk(bytes[..], r.value, start)
    ensures r.None? ==>
      var central := CentralAt(bytes[..], offset, end);
      central.None? || !RecordOk(bytes[..], central.value, start)
  {
    hide AdmissibleName, LocalOk, CentralAt;
    r := ReadCentral(bytes, offset, end);
    if r.Some? {
      var record := r.value;
      var matches := MatchesLocal(bytes, record, start);
      if record.disk != 0 || record.flags % 2 != 0 || (record.compression != 0 && record.compression != 8)
         || !SizesOk(record) || !AdmissibleName(record.name) || !matches
      {
        return None;
      }
    }
  }

  /** Walks `count` records, accumulating the names met and the total expanded size. */
  method WalkDirectory(bytes: array<Byte>, start: nat, end: nat, count: nat, format: Format) returns (ok: bool)
    requires start <= end <= bytes.Length
    ensures ok <==> Records(bytes[..], start, end, count).Some?
                    && DirectoryOk(bytes[..], Records(bytes[..], start, end, count).value, start, format)
  {
    hide RecordOk, CentralAt, Records, RequiredNames, TotalExpanded, Names, DistinctNames;
    ghost var b := bytes[..];
    var entries: set<Bytes> := {};
    var offset, total := start, 0;
    ghost var done: seq<Record> := [];
    WalkStarts(b, start, end, count);
    for i := 0 to count
      invariant |done| == i
      invariant Extends(Records(b, start, end, count), done, Records(b, offset, end, count - i))
      invariant (forall r :: r in done ==> RecordOk(b, r, start)) && DistinctNames(done)
      invariant entries == Names(done)
      invariant total == TotalExpanded(done) <= MAX_UNCOMPRESSED_BYTES
    {
      var checked := CheckRecord(bytes, offset, start, end);
      if checked.None? {
        RejectedRecord(b, start, end, count, offset, i, done, format);
        return false;
      }
      var r := checked.value;
      total := total + r.expanded;
      NextRecord(b, start, end, count, offset, i, done, r);
      ghost var soFar := done + [r];
      Accumulate(done, r);
      if total > MAX_UNCOMPRESSED_BYTES {
        TooLarge(Records(b, start, end, count), soFar, Records(b, r.next, end, count - i - 1));
        return false;
      }
      if r.name in entries {
        Repeated(Records(b, start, end, count), done, r, Records(b, r.next, end, count - i - 1));
        return false;
      }
      entries := entries + {r.name};
      done := soFar;
      offset := r.next;
    }
    WalkEnds(b, start, end, count, offset, done);
    ok := offset == end && RequiredNames(format) <= entries;
  }

  /** `all` is `done` followed by `rest`, when there is a rest. */
  ghost predicate Extends(all: Option<seq<Record>>, done: seq<Record>, rest: Option<seq<Record>>) {
    if rest.None? then all.None? else all == Some(done + rest.value)
  }

  lemma WalkStarts(b: Bytes, start: nat, end: nat, count: nat)
    requires end <= |b|
    ensures Extends(Records(b, start, end, count), [], Records(b, start, end, count))
    ensures TotalExpanded([]) == 0 && Names([]) == {} && DistinctNames([])
  {
    assert forall rest: seq<Record> :: [] + rest == rest;
  }

  lemma WalkEnds(b: Bytes, start: nat, end: nat, count: nat, offset: nat, done: seq<Record>)
    requires end <= |b| && Extends(Records(b, start, end, count), done, Records(b, offset, end, 0))
    ensures Records(b, start, end, count) == if offset == end then Some(done) else None
  {
    assert done + [] == done;
  }

  lemma Accumulate(done: seq<Record>, r: Record)
    ensures TotalExpanded(done + [r]) == TotalExpanded(done) + r.expanded
    ensures Names(done + [r]) == Names(done) + {r.name}
    ensures DistinctNames(done) && r.name !in Names(done) ==> DistinctNames(done + [r])
  {
    assert (done + [r])[..|done|] == done;
    assert forall k :: 0 <= k < |done| ==> done[k].name in Names(done);
  }

  lemma NextRecord(b: Bytes, start: nat, end: nat, count: nat, offset: nat, i: nat, done: seq<Record>, r: Record)
    requires end <= |b| && i < count
    requires Extends(Records(b, start, end, count), done, Records(b, offset, end, count - i))
    requires CentralAt(b, offset, end) == Some(r)
    ensures Extends(Records(b, start, end, count), done + [r], Records(b, r.next, end, count - i - 1))
  {
    var rest := Records(b, r.next, end, count - i - 1);
    if rest.Some? {
      assert done + ([r] + rest.value) == done + [r] + rest.value;
    }
  }

  lemma RejectedRecord(b: Bytes, start: nat, end: nat, count: nat, offset: nat, i: nat, done: seq<Record>, format: Format)
    requires start <= end <= |b| && i < count
    requires Extends(Records(b, start, end, count), done, Records(b, offset, end, count - i))
    requires CentralAt(b, offset, end).None? || !RecordOk(b, CentralAt(b, offset, end).value, start)
    ensures Records(b, start, end, count).Some? ==> !DirectoryOk(b, Records(b, start, end, count).value, start, format)
  {
    if Records(b, start, end, count).Some? {
      var all := Records(b, start, end, count).value;
      assert all[|done|] == CentralAt(b, offset, end).value;
      assert all[|done|] in all;
    }
  }

  lemma {:induction false} TotalGrows(rs: seq<Record>, n: nat)
    requires n <= |rs|
    ensures TotalExpanded(rs[..n]) <= TotalExpanded(rs)
    decreases |rs|
  {
    if n < |rs| {
      TotalGrows(rs[..|rs| - 1], n);
      assert rs[..|rs| - 1][..n] == rs[..n];
    } else {
      assert rs[..n] == rs;
    }
  }

  lemma TooLarge(all: Option<seq<Record>>, soFar: seq<Record>, rest: Option<seq<Record>>)
    requires Extends(all, soFar, rest) && TotalExpanded(soFar) > MAX_UNCOMPRESSED_BYTES
    ensures all.Some? ==> TotalExpanded(all.value) > MAX_UNCOMPRESSED_BYTES
  {
    if all.Some? {
      assert all.value[..|soFar|] == soFar;
      TotalGrows(all.value, |soFar|);
    }
  }

  lemma Repeated(all: Option<seq<Record>>, done: seq<Record>, r: Record, rest: Option<seq<Record>>)
    requires Extends(all, done + [r], rest) && r.name in Names(done)
    ensures all.Some? ==> !DistinctNames(all.value)
  {
    if all.Some? {
      var k :| 0 <= k < |done| && done[k].name == r.name;
      assert all.value[k] == done[k] && all.value[|done|] == r;
    }
  }

  /** The checks on the end record, then the directory it describes. */
  method CheckDirectory(bytes: array<Byte>, end: nat, format: Format) returns (ok: bool)
    requires end + 22 <= bytes.Length
    ensures ok <==> ArchiveOkAt(bytes[..], end, format)
  {
    hide Records, DirectoryOk;
    if ReadU16(bytes, end + 4) != 0 || ReadU16(bytes, end + 6) != 0
       || ReadU16(bytes, end + 8) != ReadU16(bytes, end + 10)
    {
      return false;
    }
    var count, size, start := ReadU16(bytes, end + 10), ReadU32(bytes, end + 12), ReadU32(bytes, end + 16);
    if count < 3 || count > 2048 || size > MAX_EXPORT_BYTES || start >= end || start + size != end {
      return false;
    }
    ok := WalkDirectory(bytes, start, end, count, format);
  }

  method ValidOfficeArchive(bytes: array<Byte>, format: Format) returns (ok: bool)
    ensures ok <==> ValidArchive(bytes[..], format)
  {
    hide ArchiveOkAt;
    if bytes.Length < 22 || ReadU32(bytes, 0) != LOCAL {
      return false;
    }
    var end := FindEndRecord(bytes);
    if end < 0 {
      return false;
    }
    OnlyLastEndRecordMatters(bytes[..], end, format);
    ok := CheckDirectory(bytes, end, format);
  }

  lemma OnlyLastEndRecordMatters(b: Bytes, end: nat, format: Format)
    requires |b| >= 22 && U32(b, 0) == LOCAL && LastEndRecord(b, end)
    ensures ValidArchive(b, format) <==> ArchiveOkAt(b, end, format)
  {
    hide ArchiveOkAt;
    if ValidArchive(b, format) {
      var end' :| LastEndRecord(b, end') && ArchiveOkAt(b, end', format);
      LastEndRecordUnique(b, end, end');
    }
  }

  predicate IsPdf(b: Bytes) {
    |b| >= 5 && b[..5] == [0x25, 0x50, 0x44, 0x46, 0x2d]
  }

  ghost predicate Accepted(b: Bytes, format: ExportFormat) {
    && 8 <= |b| <= MAX_EXPORT_BYTES
    && match format
       case Pdf => IsPdf(b)
       case Office(f) => ValidArchive(b, f)
       case Unknown => false
  }

  method HasExpectedSignature(bytes: array<Byte>, format: ExportFormat) returns (ok: bool)
    ensures ok <==> Accepted(bytes[..], format)
  {
    if bytes.Length < 8 || bytes.Length > MAX_EXPORT_BYTES {
      return false;
    }
    match format {
      case Pdf => ok := IsPdf(bytes[..]);
      case Office(f) => ok := ValidOfficeArchive(bytes, f);
      case Unknown => ok := false;
    }
  }

  /** A buffer is never accepted both as a PDF and as an office archive. */
  lemma SignaturesExclusive(b: Bytes, f: Format)
    ensures !(Accepted(b, Pdf) && Accepted(b, Office(f)))
  {
    hide ArchiveOkAt, LastEndRecord;
    if IsPdf(b) {
      assert b[..5][0] == 0x25;
    }
  }
}
