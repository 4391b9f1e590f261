/**
 The per-resource statistics accumulator and its report. A `Summary` is made
 once for a traced resource; every read or write the trace shows for it is
 added in place; `Show` decides whether the resource is reported at all and
 produces its report lines, the read line before the write line.
 */
module Summaries {
  import opened Descriptor
  import opened Histogram
  import Filter
  import Decimal

  datatype Direction = Read | Write

  /** The fields of one report line, before formatting. */
  datatype ReportLine = ReportLine(
    direction: Direction,
    totalBytes: nat,   // bytes actually transferred in this direction
    nOps: nat,         // number of calls in this direction
    opSize: nat,       // the representative operation size
    descriptor: GenericFileDescriptor)

  /** What `Show` does for one resource: nothing, one diagnostic, or report lines. */
  datatype Outcome =
    | Suppressed
    | NoIo(diagnostic: string)
    | Report(lines: seq<ReportLine>)

  /** The report line for one non-empty histogram. */
  function DirectionLine(dir: Direction, bytes: nat, freq: Hist, d: GenericFileDescriptor): (l: ReportLine)
    requires freq != map[]
    ensures l.direction == dir && l.totalBytes == bytes && l.descriptor == d
    ensures l.nOps == SumValues(freq)
    ensures l.opSize in freq && forall k :: k in freq ==> k <= l.opSize
  {
    var (opSize, _) := MaxEntry(freq);
    ReportLine(dir, bytes, SumValues(freq), opSize, d)
  }

  function DirectionWord(dir: Direction): string {
    match dir
    case Read => "read"
    case Write => "write"
  }

  /** The part of a printed line before the call count. */
  function CountOffset(l: ReportLine, humanize: nat -> string): string {
    DirectionWord(l.direction) + " " + humanize(l.totalBytes) + " with "
  }

  /**
   The printed form of a report line,
   "<read|write> <total> with <n> ops (<size> / op) <descriptor>", where
   `humanize` renders a byte count and <n> is the decimal call count.
   */
  function LineText(l: ReportLine, humanize: nat -> string): (s: string)
    ensures DirectionWord(l.direction) + " " <= s
    ensures CountOffset(l, humanize) <= s
    ensures var head, count := CountOffset(l, humanize), Decimal.FromNat(l.nOps);
      && |head| + |count| + |" ops ("| + |" / op)"| + 1 + |l.descriptor.ToString()| <= |s|
      && s[|head|..|head| + |count|] == count
      && s[|head| + |count|..|head| + |count| + |" ops ("|] == " ops ("
      && s[|head| + |count| + |" ops ("|..|s| - |l.descriptor.ToString()| - 1] == humanize(l.opSize) + " / op)"
    ensures |s| >= |l.descriptor.ToString()| + 1
    ensures s[|s| - |l.descriptor.ToString()| - 1..] == " " + l.descriptor.ToString()
  {
    var head := CountOffset(l, humanize);
    var count := Decimal.FromNat(l.nOps);
    var size := humanize(l.opSize) + " / op)";
    var tail := " " + l.descriptor.ToString();
    var s := head + count + " ops (" + size + tail;
    FiveParts(head, count, " ops (", size, tail);
    assert DirectionWord(l.direction) + " " <= head;
    s
  }

  /** Where each of five concatenated parts sits in the whole. */
  lemma FiveParts(a: string, b: string, c: string, d: string, e: string)
    ensures var s := a + b + c + d + e;
      && a <= s
      && s[|a|..|a| + |b|] == b
      && s[|a| + |b|..|a| + |b| + |c|] == c
      && s[|a| + |b| + |c|..|s| - |e|] == d
      && s[|s| - |e|..] == e
  {
    var s := a + b + c + d + e;
    assert s == a + (b + (c + (d + e)));
    assert s[|a|..] == b + (c + (d + e));
    assert s[|a| + |b|..] == c + (d + e);
    assert s[|a| + |b| + |c|..] == d + e;
  }

  /** The call count of a printed line reads back as the number of calls. */
  lemma LineTextCount(l: ReportLine, humanize: nat -> string)
    ensures var s, head := LineText(l, humanize), |CountOffset(l, humanize)|;
      exists n :: head <= n <= |s| && Decimal.IsDigits(s[head..n]) && Decimal.ToNat(s[head..n]) == l.nOps
  {
    var s, head := LineText(l, humanize), |CountOffset(l, humanize)|;
    var count := Decimal.FromNat(l.nOps);
    Decimal.ToNatFromNat(l.nOps);
    assert s[head..head + |count|] == count;
  }

  /** The diagnostic for a resource that saw no I/O. */
  function NoIoMessage(d: GenericFileDescriptor): (s: string)
    ensures "no I/O with " <= s && s[|"no I/O with "|..] == d.ToString()
  {
    "no I/O with " + d.ToString()
  }

  class Summary {
    var descriptor: GenericFileDescriptor
    var readFreq: Hist
    var writeFreq: Hist
    var readBytes: nat
    var writeBytes: nat
    // calls of `UpdateRead` and `UpdateWrite` since construction or the last `Reset`
    ghost var readCalls: nat
    ghost var writeCalls: nat

    /** Every bucket holds a call, and the buckets add up to the calls made. */
    ghost predicate Valid()
      reads this
    {
      && Positive(readFreq) && SumValues(readFreq) == readCalls
      && Positive(writeFreq) && SumValues(writeFreq) == writeCalls
    }

    /** No statistics: empty histograms, zero totals, no calls. */
    ghost predicate IsClear()
      reads this
    {
      && readFreq == map[] && writeFreq == map[]
      && readBytes == 0 && writeBytes == 0
      && readCalls == 0 && writeCalls == 0
    }

    /** A summary of `descriptor` with no statistics yet. */
    constructor (descriptor: GenericFileDescriptor)
      ensures Valid() && IsClear()
      ensures this.descriptor == descriptor
    {
      this.descriptor := descriptor;
      readFreq, writeFreq := map[], map[];
      readBytes, writeBytes := 0, 0;
      readCalls, writeCalls := 0, 0;
    }

    /** A summary of the file with path `path`. */
    constructor OfFile(path: string)
      ensures Valid() && IsClear()
      ensures descriptor == File(FileDescription(path))
    {
      descriptor := File(FileDescription(path));
      readFreq, writeFreq := map[], map[];
      readBytes, writeBytes := 0, 0;
      readCalls, writeCalls := 0, 0;
    }

    /** A summary of a pipe. */
    constructor OfPipe()
      ensures Valid() && IsClear()
      ensures descriptor == Pipe
    {
      descriptor := Pipe;
      readFreq, writeFreq := map[], map[];
      readBytes, writeBytes := 0, 0;
      readCalls, writeCalls := 0, 0;
    }

    /** A summary of a socket whose endpoints are not known yet. */
    constructor OfSocket()
      ensures Valid() && IsClear()
      ensures descriptor == Socket(SocketDescription.New())
      ensures descriptor.socket.bind == "" && descriptor.socket.connect == ""
    {
      descriptor := Socket(SocketDescription.New());
      readFreq, writeFreq := map[], map[];
      readBytes, writeBytes := 0, 0;
      readCalls, writeCalls := 0, 0;
    }

    /** Forgets all statistics, keeping the descriptor (the descriptor number was reused). */
    method Reset()
      modifies this
      ensures Valid() && IsClear()
      ensures descriptor == old(descriptor)
    {
      readFreq := map[];
      writeFreq := map[];
      readBytes := 0;
      writeBytes := 0;
      readCalls, writeCalls := 0, 0;
    }

    /**
     Records a read call of requested size `opSize` that transferred `bytes`:
     the bucket of `opSize` gains one call and the read total gains `bytes`.
     */
    method UpdateRead(opSize: nat, bytes: nat)
      requires Valid()
      modifies this
      ensures Valid()
      ensures readFreq == Bump(old(readFreq), opSize)
      ensures readBytes == old(readBytes) + bytes
      ensures readCalls == old(readCalls) + 1
      ensures descriptor == old(descriptor)
      ensures writeFreq == old(writeFreq) && writeBytes == old(writeBytes) && writeCalls == old(writeCalls)
    {
      SumBump(readFreq, opSize);
      var freq := if opSize in readFreq then readFreq[opSize] else 0;
      readFreq := readFreq[opSize := freq + 1];
      readBytes := readBytes + bytes;
      readCalls := readCalls + 1;
    }

    /** The mirror image of `UpdateRead` for a write call. */
    method UpdateWrite(opSize: nat, bytes: nat)
      requires Valid()
      modifies this
      ensures Valid()
      ensures writeFreq == Bump(old(writeFreq), opSize)
      ensures writeBytes == old(writeBytes) + bytes
      ensures writeCalls == old(writeCalls) + 1
      ensures descriptor == old(descriptor)
      ensures readFreq == old(readFreq) && readBytes == old(readBytes) && readCalls == old(readCalls)
    {
      SumBump(writeFreq, opSize);
      var freq := if opSize in writeFreq then writeFreq[opSize] else 0;
      writeFreq := writeFreq[opSize := freq + 1];
      writeBytes := writeBytes + bytes;
      writeCalls := writeCalls + 1;
    }

    /**
     The report of this resource. Left out entirely when the filter suppresses
     it; a single diagnostic when it saw no I/O; otherwise one line per
     direction that saw calls, read first, each giving the total bytes, the
     number of calls and the largest operation size of that direction.
     */
    method Show(verbose: bool) returns (out: Outcome)
      requires Valid()
      ensures out.Suppressed? <==> Filter.IsSuppressed(verbose, descriptor)
      ensures out.NoIo? <==>
        !Filter.IsSuppressed(verbose, descriptor) && readCalls == 0 && writeCalls == 0
      ensures out.NoIo? ==> out.diagnostic == NoIoMessage(descriptor)
      ensures out.Report? ==>
        && 1 <= |out.lines| <= 2
        && |out.lines| == (if readCalls > 0 then 1 else 0) + (if writeCalls > 0 then 1 else 0)
        && (readCalls > 0 ==> out.lines[0] == DirectionLine(Read, readBytes, readFreq, descriptor))
        && (writeCalls > 0 ==>
              out.lines[|out.lines| - 1] == DirectionLine(Write, writeBytes, writeFreq, descriptor))
      ensures out.Report? ==> forall l :: l in out.lines ==>
        && l.descriptor == descriptor
        && l.nOps == (if l.direction == Read then readCalls else writeCalls)
        && l.nOps >= 1
    {
      EmptyIffSumZero(readFreq);
      EmptyIffSumZero(writeFreq);
      if !verbose {
        if descriptor.File? && Filter.IsNoisePath(descriptor.file.path) {
          return Suppressed;
        }
        if descriptor.Pipe? {
          return Suppressed;
        }
      }
      if readFreq == map[] && writeFreq == map[] {
        return NoIo(NoIoMessage(descriptor));
      }
      var lines := [];
      if readFreq != map[] {
        lines := lines + [DirectionLine(Read, readBytes, readFreq, descriptor)];
      }
      if writeFreq != map[] {
        lines := lines + [DirectionLine(Write, writeBytes, writeFreq, descriptor)];
      }
      return Report(lines);
    }
  }

  /** Resetting twice leaves the same state as resetting once. */
  method ResetTwice(s: Summary)
    modifies s
    ensures s.Valid() && s.IsClear() && s.descriptor == old(s.descriptor)
  {
    s.Reset();
    ghost var d, r, w, rb, wb := s.descriptor, s.readFreq, s.writeFreq, s.readBytes, s.writeBytes;
    s.Reset();
    assert s.descriptor == d && s.readFreq == r && s.writeFreq == w;
    assert s.readBytes == rb && s.writeBytes == wb;
  }

  /**
   A user file read three times in blocks of 4096 and once with a request of
   1024 that transferred 500 bytes: one read line of 12788 bytes in 4 calls,
   with 4096 as the size per call.
   */
  method DataFileScenario()
  {
    var s := new Summary.OfFile("/home/user/data.bin");
    s.UpdateRead(4096, 4096);
    assert s.readFreq == map[4096 := 1];
    s.UpdateRead(4096, 4096);
    assert s.readFreq == map[4096 := 2];
    s.UpdateRead(4096, 4096);
    assert s.readFreq == map[4096 := 3];
    s.UpdateRead(1024, 500);
    assert s.readFreq == map[4096 := 3, 1024 := 1];
    Filter.HomeFileShown();
    var out := s.Show(false);
    assert out.Report? && |out.lines| == 1;
    var line := out.lines[0];
    assert line.opSize == 4096 by {
      assert 4096 in s.readFreq && line.opSize in s.readFreq;
    }
    assert line == ReportLine(Read, 12788, 4, 4096, s.descriptor);
  }

  /**
   A file under /etc is left out, even with I/O, unless verbose; verbose, it
   gets its read line.
   */
  method SystemFileScenario()
  {
    var s := new Summary.OfFile("/etc/passwd");
    s.UpdateRead(4096, 1200);
    var quiet := s.Show(false);
    assert "/etc/" <= "/etc/passwd";
    assert quiet == Suppressed;
    var loud := s.Show(true);
    assert loud.Report? && |loud.lines| == 1 && loud.lines[0].direction == Read;
  }

  /** A pipe never shows when not verbose; a fresh socket reports only its lack of I/O. */
  method PipeAndSocketScenario()
  {
    var p := new Summary.OfPipe();
    p.UpdateWrite(512, 512);
    var out := p.Show(false);
    assert out == Suppressed;

    var k := new Summary.OfSocket();
    out := k.Show(false);
    assert out.NoIo? && out.diagnostic == NoIoMessage(k.descriptor);
    NewSocketToString();
    assert out.diagnostic == "no I/O with " + "SOCKET Bind: Connect:";
  }
}
