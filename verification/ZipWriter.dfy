/** A reference writer of ZIP archives, and the proof that the export check accepts what it writes. */
module ZipWriter {
  import opened Wrappers
  import opened ZipFormat

  /**
   * One file to archive. `stamp` is the modification time, date and checksum;
   * both headers may carry extra fields and the central one a comment.
   */
  datatype Entry = Entry(
    name: Bytes, flags: nat, compression: nat, stamp: Bytes, data: Bytes, expanded: nat,
    localExtra: Bytes, centralExtra: Bytes, comment: Bytes)

  function Le16(n: nat): (r: Bytes)
    ensures |r| == 2
  {
    [n % 0x100, n / 0x100 % 0x100]
  }

  function Le32(n: nat): (r: Bytes)
    ensures |r| == 4
  {
    [n % 0x100, n / 0x100 % 0x100, n / 0x1_0000 % 0x100, n / 0x100_0000 % 0x100]
  }

  function LocalPart(e: Entry): Bytes {
    Le32(LOCAL) + (Le16(20) + (Le16(e.flags) + (Le16(e.compression) + (e.stamp + (
    Le32(|e.data|) + (Le32(e.expanded) + (Le16(|e.name|) + (Le16(|e.localExtra|) + (
    e.name + (e.localExtra + e.data))))))))))
  }

  function CentralPart(e: Entry, localOffset: nat): Bytes {
    Le32(CENTRAL) + (Le16(20) + (Le16(20) + (Le16(e.flags) + (Le16(e.compression) + (e.stamp + (
    Le32(|e.data|) + (Le32(e.expanded) + CentralTail(e, localOffset))))))))
  }

  function CentralTail(e: Entry, localOffset: nat): Bytes {
    Le16(|e.name|) + (Le16(|e.centralExtra|) + (Le16(|e.comment|) + (
    Le16(0) + (Le16(0) + (Le32(0) + (Le32(localOffset) + (
    e.name + (e.centralExtra + e.comment))))))))
  }

  function Locals(es: seq<Entry>): Bytes {
    if es == [] then [] else LocalPart(es[0]) + Locals(es[1..])
  }

  function Centrals(es: seq<Entry>, localOffset: nat): Bytes {
    if es == [] then []
    else CentralPart(es[0], localOffset) + Centrals(es[1..], localOffset + |LocalPart(es[0])|)
  }

  function EndPart(count: nat, size: nat, start: nat): Bytes {
    Le32(EOCD) + (Le16(0) + (Le16(0) + (Le16(count) + (Le16(count) + (Le32(size) + (Le32(start) + Le16(0)))))))
  }

  function Archive(es: seq<Entry>): Bytes {
    Locals(es) + (Centrals(es, 0) + EndPart(|es|, |Centrals(es, 0)|, |Locals(es)|))
  }

  /** Within the format's field widths and the check's own limits. */
  predicate Writable(e: Entry) {
    && AdmissibleName(e.name) && |e.name| < 0x1_0000
    && e.flags % 2 == 0 && e.flags < 0x1_0000
    && (e.compression == 0 || e.compression == 8)
    && |e.stamp| == 8
    && |e.data| <= MAX_EXPORT_BYTES
    && e.expanded <= MAX_UNCOMPRESSED_BYTES
    && (if e.data == [] then e.expanded == 0 else e.expanded <= |e.data| * 2000)
    && |e.localExtra| < 0x1_0000 && |e.centralExtra| < 0x1_0000 && |e.comment| < 0x1_0000
  }

  function Expanded(es: seq<Entry>): nat {
    if es == [] then 0 else es[0].expanded + Expanded(es[1..])
  }

  predicate WritableArchive(es: seq<Entry>, format: Format) {
    && 3 <= |es| <= 2048
    && (forall e :: e in es ==> Writable(e))
    && (forall i, j :: 0 <= i < j < |es| ==> es[i].name != es[j].name)
    && (forall name :: name in RequiredNames(format) ==> exists e :: e in es && e.name == name)
    && Expanded(es) <= MAX_UNCOMPRESSED_BYTES
    && |Archive(es)| <= MAX_EXPORT_BYTES
  }

  // ----- reading fields back

  lemma U16InvertsLe16(n: nat)
    requires n < 0x1_0000
    ensures U16(Le16(n), 0) == n
  {
  }

  lemma U32InvertsLe32(n: nat)
    requires n < 0x1_0000_0000
    ensures U32(Le32(n), 0) == n
  {
    var a, b, c := n / 0x100, n / 0x1_0000, n / 0x100_0000;
    assert b == a / 0x100 && c == b / 0x100;
  }

  /** `x` is found in `b` at offset `o`. */
  predicate At(b: Bytes, o: nat, x: Bytes) {
    o + |x| <= |b| && b[o..o + |x|] == x
  }

  lemma AtSplit(b: Bytes, o: nat, x: Bytes, y: Bytes)
    requires At(b, o, x + y)
    ensures At(b, o, x) && At(b, o + |x|, y)
  {
    var z := b[o..o + |x + y|];
    assert b[o..o + |x|] == z[..|x|] == x;
    assert b[o + |x|..o + |x| + |y|] == z[|x|..] == y;
  }

  lemma AtU16(b: Bytes, o: nat, n: nat, rest: Bytes)
    requires n < 0x1_0000 && At(b, o, Le16(n) + rest)
    ensures U16(b, o) == n && At(b, o + 2, rest)
  {
    AtSplit(b, o, Le16(n), rest);
    U16InvertsLe16(n);
    var x := b[o..o + 2];
    assert b[o] == x[0] && b[o + 1] == x[1];
  }

  lemma AtU32(b: Bytes, o: nat, n: nat, rest: Bytes)
    requires n < 0x1_0000_0000 && At(b, o, Le32(n) + rest)
    ensures U32(b, o) == n && At(b, o + 4, rest)
  {
    AtSplit(b, o, Le32(n), rest);
    U32InvertsLe32(n);
    var x := b[o..o + 4];
    assert b[o] == x[0] && b[o + 1] == x[1] && b[o + 2] == x[2] && b[o + 3] == x[3];
  }

  /** The record the check reads for an entry whose parts start at `o` and `localOffset`. */
  function RecordOf(e: Entry, o: nat, localOffset: nat): Record {
    Record(o, e.flags, e.compression, |e.data|, e.expanded, 0, localOffset, e.name, o + |CentralPart(e, localOffset)|)
  }

  lemma CentralPartLength(e: Entry, localOffset: nat)
    requires |e.stamp| == 8
    ensures |CentralPart(e, localOffset)| == 46 + |e.name| + |e.centralExtra| + |e.comment|
  {
  }

  lemma LocalPartLength(e: Entry)
    requires |e.stamp| == 8
    ensures |LocalPart(e)| == 30 + |e.name| + |e.localExtra| + |e.data|
  {
  }

  /** The first half of the central header, and what follows it. */
  lemma CentralSizesReadBack(b: Bytes, o: nat, e: Entry, localOffset: nat)
    requires Writable(e) && At(b, o, CentralPart(e, localOffset))
    ensures o + 28 <= |b|
    ensures U32(b, o) == CENTRAL && U16(b, o + 8) == e.flags && U16(b, o + 10) == e.compression
    ensures U32(b, o + 20) == |e.data| && U32(b, o + 24) == e.expanded
    ensures At(b, o + 28, CentralTail(e, localOffset))
  {
    hide AdmissibleName, At, U16, U32, Le16, Le32;
    var h := CentralTail(e, localOffset);
    var g := Le32(|e.data|) + (Le32(e.expanded) + h);
    var f := Le16(e.flags) + (Le16(e.compression) + (e.stamp + g));
    AtU32(b, o, CENTRAL, Le16(20) + (Le16(20) + f));
    AtU16(b, o + 4, 20, Le16(20) + f);
    AtU16(b, o + 6, 20, f);
    AtU16(b, o + 8, e.flags, Le16(e.compression) + (e.stamp + g));
    AtU16(b, o + 10, e.compression, e.stamp + g);
    AtSplit(b, o + 12, e.stamp, g);
    AtU32(b, o + 20, |e.data|, Le32(e.expanded) + h);
    AtU32(b, o + 24, e.expanded, h);
    AtSlice(b, o + 28, h);
  }

  lemma CentralLengthsReadBack(b: Bytes, o: nat, e: Entry, localOffset: nat)
    requires Writable(e) && localOffset < 0x1_0000_0000 && At(b, o + 28, CentralTail(e, localOffset))
    ensures o + 46 + |e.name| <= |b|
    ensures U16(b, o + 28) == |e.name| && U16(b, o + 30) == |e.centralExtra| && U16(b, o + 32) == |e.comment|
    ensures U16(b, o + 34) == 0 && U32(b, o + 42) == localOffset
    ensures b[o + 46..o + 46 + |e.name|] == e.name
  {
    hide AdmissibleName, At, U16, U32, Le16, Le32;
    var tail := e.name + (e.centralExtra + e.comment);
    var i := Le16(0) + (Le16(0) + (Le32(0) + (Le32(localOffset) + tail)));
    AtU16(b, o + 28, |e.name|, Le16(|e.centralExtra|) + (Le16(|e.comment|) + i));
    AtU16(b, o + 30, |e.centralExtra|, Le16(|e.comment|) + i);
    AtU16(b, o + 32, |e.comment|, i);
    AtU16(b, o + 34, 0, Le16(0) + (Le32(0) + (Le32(localOffset) + tail)));
    AtU16(b, o + 36, 0, Le32(0) + (Le32(localOffset) + tail));
    AtU32(b, o + 38, 0, Le32(localOffset) + tail);
    AtU32(b, o + 42, localOffset, tail);
    AtSplit(b, o + 46, e.name, e.centralExtra + e.comment);
    AtSlice(b, o + 46, e.name);
  }

  lemma CentralReadsBack(b: Bytes, o: nat, e: Entry, localOffset: nat, end: nat)
    requires Writable(e) && localOffset < 0x1_0000_0000
    requires At(b, o, CentralPart(e, localOffset)) && o + |CentralPart(e, localOffset)| <= end <= |b|
    ensures CentralAt(b, o, end) == Some(RecordOf(e, o, localOffset))
  {
    CentralPartLength(e, localOffset);
    CentralSizesReadBack(b, o, e, localOffset);
    CentralLengthsReadBack(b, o, e, localOffset);
    hide AdmissibleName, At, CentralPart, CentralTail, U16, U32, Le16, Le32;
  }

  lemma AtSlice(b: Bytes, o: nat, x: Bytes)
    requires At(b, o, x)
    ensures o + |x| <= |b| && b[o..o + |x|] == x
  {
  }

  lemma LocalFieldsReadBack(b: Bytes, o: nat, e: Entry)
    requires Writable(e) && At(b, o, LocalPart(e))
    ensures o + 30 + |e.name| <= |b|
    ensures U32(b, o) == LOCAL && U16(b, o + 6) == e.flags && U16(b, o + 8) == e.compression
    ensures U16(b, o + 26) == |e.name| && U16(b, o + 28) == |e.localExtra|
    ensures b[o + 30..o + 30 + |e.name|] == e.name
  {
    hide AdmissibleName, At, U16, U32, Le16, Le32;
    var tail := e.name + (e.localExtra + e.data);
    var h := Le16(|e.name|) + (Le16(|e.localExtra|) + tail);
    var g := Le32(|e.data|) + (Le32(e.expanded) + h);
    AtU32(b, o, LOCAL, Le16(20) + (Le16(e.flags) + (Le16(e.compression) + (e.stamp + g))));
    AtU16(b, o + 4, 20, Le16(e.flags) + (Le16(e.compression) + (e.stamp + g)));
    AtU16(b, o + 6, e.flags, Le16(e.compression) + (e.stamp + g));
    AtU16(b, o + 8, e.compression, e.stamp + g);
    AtSplit(b, o + 10, e.stamp, g);
    AtU32(b, o + 18, |e.data|, Le32(e.expanded) + h);
    AtU32(b, o + 22, e.expanded, h);
    AtU16(b, o + 26, |e.name|, Le16(|e.localExtra|) + tail);
    AtU16(b, o + 28, |e.localExtra|, tail);
    AtSplit(b, o + 30, e.name, e.localExtra + e.data);
    AtSlice(b, o + 30, e.name);
  }

  lemma LocalReadsBack(b: Bytes, o: nat, e: Entry, at: nat, start: nat)
    requires Writable(e) && At(b, o, LocalPart(e)) && o + |LocalPart(e)| <= start <= |b|
    ensures LocalOk(b, RecordOf(e, at, o), start)
  {
    hide AdmissibleName, At, LocalPart, CentralPart, U16, U32;
    LocalPartLength(e);
    LocalFieldsReadBack(b, o, e);
  }

  // ----- the whole directory

  function RecordsOf(es: seq<Entry>, o: nat, localOffset: nat): (rs: seq<Record>)
    ensures |rs| == |es|
  {
    if es == [] then []
    else
      [RecordOf(es[0], o, localOffset)]
      + RecordsOf(es[1..], o + |CentralPart(es[0], localOffset)|, localOffset + |LocalPart(es[0])|)
  }

  lemma {:induction false} RecordsReadBack(b: Bytes, es: seq<Entry>, o: nat, localOffset: nat, end: nat)
    requires forall e :: e in es ==> Writable(e)
    requires localOffset + |Locals(es)| < 0x1_0000_0000
    requires At(b, o, Centrals(es, localOffset)) && o + |Centrals(es, localOffset)| == end <= |b|
    ensures Records(b, o, end, |es|) == Some(RecordsOf(es, o, localOffset))
  {
    hide Writable, CentralAt, At, CentralPart, LocalPart;
    if es != [] {
      var e := es[0];
      var o', localOffset' := o + |CentralPart(e, localOffset)|, localOffset + |LocalPart(e)|;
      AtSplit(b, o, CentralPart(e, localOffset), Centrals(es[1..], localOffset'));
      CentralReadsBack(b, o, e, localOffset, end);
      RecordsReadBack(b, es[1..], o', localOffset', end);
    }
  }

  lemma {:induction false} RecordsAcceptable(b: Bytes, es: seq<Entry>, o: nat, localOffset: nat, start: nat)
    requires forall e :: e in es ==> Writable(e)
    requires At(b, localOffset, Locals(es)) && localOffset + |Locals(es)| <= start <= |b|
    ensures forall r :: r in RecordsOf(es, o, localOffset) ==> RecordOk(b, r, start)
  {
    hide AdmissibleName, LocalOk, At, CentralPart, LocalPart;
    if es != [] {
      var e := es[0];
      AtSplit(b, localOffset, LocalPart(e), Locals(es[1..]));
      LocalReadsBack(b, localOffset, e, o, start);
      assert RecordOk(b, RecordOf(e, o, localOffset), start);
      RecordsAcceptable(b, es[1..], o + |CentralPart(e, localOffset)|, localOffset + |LocalPart(e)|, start);
    }
  }

  lemma {:induction false} RecordsCarry(es: seq<Entry>, o: nat, localOffset: nat)
    ensures forall i :: 0 <= i < |es| ==> RecordsOf(es, o, localOffset)[i].name == es[i].name
    ensures TotalExpanded(RecordsOf(es, o, localOffset)) == Expanded(es)
  {
    hide CentralPart, LocalPart;
    if es != [] {
      var o', localOffset' := o + |CentralPart(es[0], localOffset)|, localOffset + |LocalPart(es[0])|;
      RecordsCarry(es[1..], o', localOffset');
      TotalFromFront(RecordOf(es[0], o, localOffset), RecordsOf(es[1..], o', localOffset'));
    }
  }

  lemma {:induction false} TotalFromFront(r: Record, rs: seq<Record>)
    ensures TotalExpanded([r] + rs) == r.expanded + TotalExpanded(rs)
  {
    var all := [r] + rs;
    if rs == [] {
      assert all == [r] && all[..0] == [];
    } else {
      TotalFromFront(r, rs[..|rs| - 1]);
      assert all[..|all| - 1] == [r] + rs[..|rs| - 1];
    }
  }

  lemma EndReadsBack(b: Bytes, end: nat, count: nat, size: nat, start: nat)
    requires count < 0x1_0000 && size < 0x1_0000_0000 && start < 0x1_0000_0000
    requires At(b, end, EndPart(count, size, start)) && end + 22 == |b|
    ensures LastEndRecord(b, end)
    ensures U16(b, end + 4) == 0 && U16(b, end + 6) == 0 && U16(b, end + 8) == count
    ensures Count(b, end) == count && U32(b, end + 12) == size && Start(b, end) == start
  {
    hide At;
    var f := Le32(size) + (Le32(start) + Le16(0));
    AtU32(b, end, EOCD, Le16(0) + (Le16(0) + (Le16(count) + (Le16(count) + f))));
    AtU16(b, end + 4, 0, Le16(0) + (Le16(count) + (Le16(count) + f)));
    AtU16(b, end + 6, 0, Le16(count) + (Le16(count) + f));
    AtU16(b, end + 8, count, Le16(count) + f);
    AtU16(b, end + 10, count, f);
    AtU32(b, end + 12, size, Le32(start) + Le16(0));
    AtU32(b, end + 16, start, Le16(0));
    assert Le16(0) + [] == Le16(0);
    AtU16(b, end + 20, 0, []);
  }

  lemma ArchiveParts(es: seq<Entry>, format: Format)
    requires WritableArchive(es, format)
    ensures var start, end := |Locals(es)|, |Locals(es)| + |Centrals(es, 0)|;
            && At(Archive(es), 0, Locals(es))
            && At(Archive(es), start, Centrals(es, 0))
            && At(Archive(es), end, EndPart(|es|, |Centrals(es, 0)|, start))
            && |Archive(es)| == end + 22 && start < end
  {
    hide WritableArchive, Centrals, Locals;
    var b := Archive(es);
    var tail := Centrals(es, 0) + EndPart(|es|, |Centrals(es, 0)|, |Locals(es)|);
    assert b[0..|b|] == b;
    AtSplit(b, 0, Locals(es), tail);
    AtSplit(b, |Locals(es)|, Centrals(es, 0), EndPart(|es|, |Centrals(es, 0)|, |Locals(es)|));
    CentralsNonEmpty(es, format);
  }

  lemma CentralsNonEmpty(es: seq<Entry>, format: Format)
    requires WritableArchive(es, format)
    ensures |Centrals(es, 0)| > 0
  {
  }

  lemma StartsWithLocal(es: seq<Entry>, format: Format)
    requires WritableArchive(es, format)
    ensures |Archive(es)| >= 4 && U32(Archive(es), 0) == LOCAL
  {
    hide AdmissibleName;
    ArchiveParts(es, format);
    var b, e := Archive(es), es[0];
    AtSplit(b, 0, LocalPart(e), Locals(es[1..]));
    AtU32(b, 0, LOCAL, LocalPart(e)[4..]);
  }

  /**
   * Every archive the writer makes within the limits is accepted, and the
   * directory the check walks is exactly the entries written, in order.
   */
  lemma WrittenArchiveAccepted(es: seq<Entry>, format: Format)
    requires WritableArchive(es, format)
    ensures ValidArchive(Archive(es), format)
    ensures var start, end := |Locals(es)|, |Locals(es)| + |Centrals(es, 0)|;
            && end + 22 == |Archive(es)|
            && Start(Archive(es), end) == start
            && Records(Archive(es), start, end, Count(Archive(es), end)) == Some(RecordsOf(es, start, 0))
  {
    hide Records, RecordOk, Centrals, Locals, Archive, At, Writable, EndPart, U16, U32, RecordsOf, RequiredNames;
    var b, start := Archive(es), |Locals(es)|;
    var end := start + |Centrals(es, 0)|;
    var rs := RecordsOf(es, start, 0);
    ArchiveParts(es, format);
    StartsWithLocal(es, format);
    EndReadsBack(b, end, |es|, |Centrals(es, 0)|, start);
    RecordsReadBack(b, es, start, 0, end);
    WrittenDirectoryOk(es, format);
    hide DirectoryOk, WritableArchive;
    assert ArchiveOkAt(b, end, format);
  }

  lemma WrittenDirectoryOk(es: seq<Entry>, format: Format)
    requires WritableArchive(es, format)
    ensures |Locals(es)| <= |Archive(es)|
    ensures DirectoryOk(Archive(es), RecordsOf(es, |Locals(es)|, 0), |Locals(es)|, format)
  {
    hide RecordOk, Centrals, Locals, Archive, At, Writable, EndPart, RequiredNames, RecordsOf, TotalExpanded;
    var start := |Locals(es)|;
    ArchiveParts(es, format);
    RecordsAcceptable(Archive(es), es, start, 0, start);
    RecordsCarry(es, start, 0);
    RequiredPresent(es, RecordsOf(es, start, 0), format);
  }

  lemma RequiredPresent(es: seq<Entry>, rs: seq<Record>, format: Format)
    requires |rs| == |es| && forall i :: 0 <= i < |es| ==> rs[i].name == es[i].name
    requires forall name :: name in RequiredNames(format) ==> exists e :: e in es && e.name == name
    ensures RequiredNames(format) <= Names(rs)
  {
    forall name | name in RequiredNames(format) ensures name in Names(rs) {
      var e :| e in es && e.name == name;
      var i :| 0 <= i < |es| && es[i] == e;
      assert rs[i] in rs;
    }
  }
}
