# strace-analyzer: per-resource I/O summaries

This project models, in Dafny, the statistics engine of strace-analyzer
(`src/summary.rs`). Every resource seen in a system-call trace gets a
`Summary`. A resource is a file, a socket or a pipe. The summary counts the
read and write calls by requested operation size, in two histograms, and adds
up the bytes actually transferred in each direction. At the end of the trace it
prints at most one line per direction. Noise is hidden unless verbose output is
asked for: pipes, and files under system directories or with pseudo-names
such as `STDOUT`.

Modules, leaf first:

- `Decimal` (`decimal.dfy`): the decimal text Rust prints for the call count, with its inverse.
- `Descriptor` (`descriptor.dfy`): `FileDescription`, `SocketDescription` and `GenericFileDescriptor`.
  Each has its `Display` text as `ToString`. Functions read the kind and the path back from that text.
- `Histogram` (`histogram.dfy`): the histogram type. It has the `entry(..).or_insert(0); += 1` update
  (`Bump`), `values().sum()` (`SumValues`) and `iter().max()` over `(size, count)` pairs (`MaxEntry`).
- `Filter` (`filter.dfy`): the noise test on paths and the suppression rule of `show`.
- `Summaries` (`summary.dfy`): the `Summary` class with fields updated in place.
  It has constructors for `new`, `file`, `pipe` and `socket`, the methods `Reset`, `UpdateRead` and
  `UpdateWrite`, and `Show`. `Show` returns what `show` would print or log, as an `Outcome` value.
  Three client methods (`DataFileScenario`, `SystemFileScenario`, `PipeAndSocketScenario`) work
  through example traces against the contracts alone.

The class carries two ghost counters, `readCalls` and `writeCalls`. They count the update calls since
construction or the last reset. `Valid()` ties each counter to the sum of its histogram and keeps every
bucket at least 1. So the `n_ops` of a report line is the number of update calls in that direction.
A histogram is empty exactly when no call was made in that direction.

## Model

| member | source | states |
|---|---|---|
| `Descriptor.FileDescription.ToString` | src/summary.rs:45-49 | a file renders as "FILE Path:" followed by exactly its path |
| `Descriptor.SocketDescription.New` | src/summary.rs:57-63 | a new socket description has empty bind and connect endpoints |
| `Descriptor.SocketDescription.ToString` | src/summary.rs:66-70 | a socket renders as "SOCKET Bind:", then the bind text, then " Connect:", then the connect text, each at its position and nothing else |
| `Descriptor.GenericFileDescriptor.ToString` | src/summary.rs:79-89 | a file or socket renders as its description does, and a pipe renders as "PIPE" |
| `Descriptor.KindOfTextToString` | src/summary.rs:79-89 | the rendering of any descriptor tells its kind: File texts, Socket texts and "PIPE" never coincide |
| `Descriptor.PathOfTextToString` | src/summary.rs:47 | the path is recovered from the rendering of a file |
| `Descriptor.ToStringDistinguishesFiles` | src/summary.rs:79-89 | two descriptors with the same text are equal when either is a file or their kinds differ |
| `Descriptor.SocketToStringAmbiguous` | src/summary.rs:68 | two different sockets can share one text, when a bind address contains " Connect:" |
| `Descriptor.NewSocketToString` | src/summary.rs:58-63 | a new socket renders as "SOCKET Bind: Connect:" |
| `Histogram.Bump` | src/summary.rs:131-132 | one more call of a size: its bucket is created at 0 if missing, then raised by exactly 1; every other bucket and the key set otherwise are unchanged |
| `Histogram.SumValues` | src/summary.rs:178 | the sum of counts is 0 for an empty histogram and no smaller than any single count |
| `Histogram.SumRemove` | src/summary.rs:178 | the sum of counts does not depend on the order buckets are visited: any bucket may be taken out first |
| `Histogram.SumBump` | src/summary.rs:130-134 | one more call raises the sum of counts by exactly 1 |
| `Histogram.SumAtLeastSize` | src/summary.rs:178 | with positive buckets, the sum of counts is at least the number of distinct sizes |
| `Histogram.EmptyIffSumZero` | src/summary.rs:171 | with positive buckets, a histogram is empty exactly when its count sum is 0 |
| `Histogram.SumSingle` | src/summary.rs:178 | a histogram with one size sums to that size's count |
| `Histogram.MaxKey` | src/summary.rs:177 | a non-empty histogram has a recorded size that no other size exceeds |
| `Histogram.MaxEntry` | src/summary.rs:177 | the result is an entry of the histogram, and no entry is greater in the (size, count) order |
| `Histogram.MaxEntryUnique` | src/summary.rs:177 | only one entry is the (size, count) maximum, so the HashMap's visiting order cannot change it |
| `Histogram.MaxEntryIsLargestSize` | src/summary.rs:177 | the size of the maximum entry is the largest size recorded, whatever the counts |
| `Histogram.MaxEntryNotMostFrequent` | src/summary.rs:177 | for {64 -> 10, 4096 -> 1} the maximum entry is (4096, 1), not the most frequent size |
| `Filter.IsNoisePath` | src/summary.rs:145-160 | the written-out disjunction, in source order, holds exactly when the path starts with one of the eleven listed prefixes or equals one of the five listed names |
| `Filter.IsSuppressed` | src/summary.rs:143-169 | suppressed exactly when not verbose and the resource is a pipe or a file matching the noise rules; a socket never |
| `Filter.VerboseShowsEverything` | src/summary.rs:143 | with verbose set, no descriptor is suppressed |
| `Filter.SocketNeverSuppressed` | src/summary.rs:143-169 | a socket is never suppressed, under either setting |
| `Filter.PrefixNeedsTrailingSlash` | src/summary.rs:147 | "/etc/passwd" is suppressed; "/etc" and "/etcetera" are not |
| `Filter.NamesMatchExactly` | src/summary.rs:146-160 | "STDOUT" and "/dev/null" are suppressed; "STDOUT2" and "/dev/null.bak" are not |
| `Filter.HomeFileShown` | src/summary.rs:145-160 | a file under /home is not suppressed |
| `Decimal.FromNat` | src/summary.rs:183 | the printed call count is a non-empty string of digits, starting with '0' only for zero, which is "0" |
| `Decimal.ToNatFromNat` | src/summary.rs:183 | reading the printed count back gives the count |
| `Decimal.FromNatInjective` | src/summary.rs:183 | different counts are printed differently |
| `Summaries.DirectionLine` | src/summary.rs:176-191 | a line of one direction carries that direction's byte total, the sum of its counts as the number of ops, and the largest size recorded as the size per op |
| `Summaries.LineText` | src/summary.rs:180-199 | the printed line is, piece by piece: "<read\|write> <humanized total> with ", the decimal call count, " ops (", the humanized size, " / op)", a space and the descriptor text |
| `Summaries.LineTextCount` | src/summary.rs:181-183 | the digits at the count position of a printed line read back as the line's number of ops |
| `Summaries.NoIoMessage` | src/summary.rs:172 | the diagnostic is "no I/O with " followed by the descriptor text |
| `Summaries.Summary.constructor` | src/summary.rs:101-109 | a new summary keeps the given descriptor and has empty histograms, zero totals and no calls |
| `Summaries.Summary.OfFile` | src/summary.rs:111-113 | a file summary has descriptor File(path) and no statistics |
| `Summaries.Summary.OfPipe` | src/summary.rs:115-117 | a pipe summary has descriptor Pipe and no statistics |
| `Summaries.Summary.OfSocket` | src/summary.rs:119-121 | a socket summary has a Socket descriptor with empty bind and connect, and no statistics |
| `Summaries.Summary.Reset` | src/summary.rs:123-128 | both histograms empty, both totals 0, the call counters 0, the descriptor unchanged |
| `Summaries.ResetTwice` | src/summary.rs:123-128 | a second reset leaves every field as the first one left it |
| `Summaries.Summary.UpdateRead` | src/summary.rs:130-134 | the read histogram is bumped at the size, the read total grows by the bytes, the read call count grows by 1; descriptor and all write state unchanged; the invariant is kept |
| `Summaries.Summary.UpdateWrite` | src/summary.rs:136-140 | the mirror image for writes; descriptor and all read state unchanged |
| `Summaries.Summary.Show` | src/summary.rs:142-201 | suppressed exactly as the filter says. Otherwise one "no I/O with" diagnostic exactly when no call was made. Otherwise one line per direction with calls, read before write, each with n_ops equal to the number of calls in that direction |

## Left out

- `humanize` (src/summary.rs:204-210) formats with the `bytesize` crate, which uses floating point and is foreign code. It is a parameter `humanize: nat -> string` of `Summaries.LineText` and is never defined.
- `println!` and `debug` are output. `Show` returns an `Outcome` instead: `Suppressed`, `NoIo(diagnostic)` or `Report(lines)`. The model does not say whether the logger actually emits the diagnostic at its configured level.
- `Config` is not modelled. Its `verbose` field is the boolean parameter of `Show`.
- Summaries.Summary.UpdateRead: sizes, byte totals and counts are unbounded `nat`. The model does not capture the `u64` overflow of `+=` (a panic in debug builds, wrap-around in release builds).
- Summaries.Summary.UpdateWrite: the same unbounded `nat` choice as `UpdateRead`.
- Histogram.SumValues: unbounded, so the `u64` overflow of `values().sum()` is not modelled.
- The `HashMap` iteration order is not modelled. Only the sum and the maximum of the map are used, and `SumRemove` and `MaxEntryUnique` show that neither depends on the order.
- The `bind` and `connect` fields of a socket are never set by this file. The model has no setter for them either.
- The `Clone` and `Debug` derives, and the `FileDescription::new` wrapper, are not modelled. The datatype constructor `FileDescription(path)` plays the part of `FileDescription::new`.
