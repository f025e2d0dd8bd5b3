/** Report assembly: the host line list, the text of the log file and the
    timestamped base name shared by the log and JSON files. */
module Formatters {
  import opened Wrappers
  import opened Text
  import opened Sorting
  import opened Models
  import opened Sequences

  const Banner: seq<string> := ["", "Finished! Here are the results:"]
  const ResolutionHeader: seq<string> := ["", "Ordered by resolution:", "----------------------"]
  const NameHeader: seq<string> := ["", "Ordered by name:", "----------------"]
  const ResultsHeader: seq<string> := ["", "Resolution  Size (Mb)   File", "----------  ---------   ----"]

  // ---------------------------------------------------------------------
  // The two orderings

  /** Comparer<int?>.Default on Width: an absent width before every width,
      widths by numeric order. */
  predicate WidthLe(a: VideoInfo, b: VideoInfo)
  {
    match (a.width, b.width)
    case (None, _) => true
    case (Some(_), None) => false
    case (Some(x), Some(y)) => x <= y
  }

  lemma WidthLeTotalPreorder()
    ensures TotalPreorder(WidthLe)
  {
  }

  /** The order of records by File under the host's string comparer `compare`. */
  function NameLe(compare: (string, string) -> bool): (VideoInfo, VideoInfo) -> bool
  {
    (a: VideoInfo, b: VideoInfo) => compare(a.file, b.file)
  }

  lemma NameLeTotalPreorder(compare: (string, string) -> bool)
    requires TotalPreorder(compare)
    ensures TotalPreorder(NameLe(compare))
  {
    var le := NameLe(compare);
    forall x, y ensures le(x, y) || le(y, x) {
      assert le(x, y) == compare(x.file, y.file) && le(y, x) == compare(y.file, x.file);
    }
    forall x, y, z | le(x, y) && le(y, z) ensures le(x, z) {
      assert compare(x.file, y.file) && compare(y.file, z.file);
    }
  }

  /** results.OrderBy(r => r.Width) */
  function ByWidth(results: seq<VideoInfo>): (r: seq<VideoInfo>)
    ensures |r| == |results| && multiset(r) == multiset(results)
  {
    SortBy(results, WidthLe)
  }

  /** results.OrderBy(r => r.File), under the host's string comparer. */
  function ByName(results: seq<VideoInfo>, compare: (string, string) -> bool): (r: seq<VideoInfo>)
    ensures |r| == |results| && multiset(r) == multiset(results)
  {
    SortBy(results, NameLe(compare))
  }

  /** The width-ordered view is sorted by width with absent widths first and
      keeps records of equal width in input order. */
  lemma ByWidthOrder(results: seq<VideoInfo>)
    ensures var r := ByWidth(results);
      && Sorted(r, WidthLe)
      && (forall i, j :: 0 <= i < j < |r| && r[j].width.None? ==> r[i].width.None?)
      && (forall z :: KeyClass(r, z, WidthLe) == KeyClass(results, z, WidthLe))
  {
    WidthLeTotalPreorder();
    SortBySorted(results, WidthLe);
    SortByStable(results, WidthLe);
  }

  /** ... and it is the only sequence with those two properties. */
  lemma ByWidthUnique(results: seq<VideoInfo>, r: seq<VideoInfo>)
    requires Sorted(r, WidthLe)
    requires forall z :: KeyClass(r, z, WidthLe) == KeyClass(results, z, WidthLe)
    ensures r == ByWidth(results)
  {
    WidthLeTotalPreorder();
    SortByIsTheStableSort(results, r, WidthLe);
  }

  /** With a comparer that is a total preorder, the name-ordered view is sorted
      by file and keeps records whose files compare equal in input order. */
  lemma ByNameOrder(results: seq<VideoInfo>, compare: (string, string) -> bool)
    requires TotalPreorder(compare)
    ensures var r, le := ByName(results, compare), NameLe(compare);
      && Sorted(r, le)
      && (forall z :: KeyClass(r, z, le) == KeyClass(results, z, le))
  {
    NameLeTotalPreorder(compare);
    SortBySorted(results, NameLe(compare));
    SortByStable(results, NameLe(compare));
  }

  /** ... and it is the only sequence with those two properties. */
  lemma ByNameUnique(results: seq<VideoInfo>, compare: (string, string) -> bool, r: seq<VideoInfo>)
    requires TotalPreorder(compare)
    requires Sorted(r, NameLe(compare))
    requires forall z :: KeyClass(r, z, NameLe(compare)) == KeyClass(results, z, NameLe(compare))
    ensures r == ByName(results, compare)
  {
    NameLeTotalPreorder(compare);
    SortByIsTheStableSort(results, r, NameLe(compare));
  }

  /** Two records by width: swapped exactly when the second has the smaller key. */
  lemma ByWidthTwo(results: seq<VideoInfo>)
    requires |results| == 2
    ensures ByWidth(results) == if WidthLe(results[0], results[1]) then results else [results[1], results[0]]
  {
    var a, b := results[0], results[1];
    assert results[1..][1..] == [];
    assert SortBy(results[1..], WidthLe) == [b];
    assert ByWidth(results) == Insert(a, [b], WidthLe);
    assert !WidthLe(a, b) ==> Insert(a, [b], WidthLe) == [b] + Insert(a, [], WidthLe);
  }

  /** Two records by name: swapped exactly when the first file does not compare
      at or below the second. */
  lemma ByNameTwo(results: seq<VideoInfo>, compare: (string, string) -> bool)
    requires |results| == 2
    ensures ByName(results, compare)
         == if compare(results[0].file, results[1].file) then results else [results[1], results[0]]
  {
    var a, b, le := results[0], results[1], NameLe(compare);
    assert results[1..][1..] == [];
    assert SortBy(results[1..], le) == [b];
    assert ByName(results, compare) == Insert(a, [b], le);
    assert le(a, b) == compare(a.file, b.file);
    assert !le(a, b) ==> Insert(a, [b], le) == [b] + Insert(a, [], le);
  }

  /** .Select(r => r.ResultLine()) */
  function ResultLines(results: seq<VideoInfo>, megabytes: Int64 -> string): seq<string>
  {
    seq(|results|, i requires 0 <= i < |results| => ResultLine(results[i], megabytes))
  }

  // ---------------------------------------------------------------------
  // Host output

  /** The line list GetHostOutput returns. */
  function HostOutput(results: seq<VideoInfo>, megabytes: Int64 -> string,
                      compare: (string, string) -> bool): seq<string>
  {
    if |results| == 1 then
      Banner + ResultsHeader + ResultLines(results, megabytes) + [""]
    else
      Banner + ResolutionHeader + ResultsHeader + ResultLines(ByWidth(results), megabytes)
      + NameHeader + ResultsHeader + ResultLines(ByName(results, compare), megabytes) + [""]
  }

  /** GetHostOutput: grows the line list with Add/AddRange, returning early for
      a single record. */
  method GetHostOutput(results: seq<VideoInfo>, megabytes: Int64 -> string,
                       compare: (string, string) -> bool) returns (output: seq<string>)
    ensures output == HostOutput(results, megabytes, compare)
  {
    output := Banner;
    if |results| == 1 {
      output := output + ResultsHeader;
      output := output + ResultLines(results, megabytes);
      output := output + [""];
      return;
    }
    output := output + ResolutionHeader;
    output := output + ResultsHeader;
    output := output + ResultLines(ByWidth(results), megabytes);
    output := output + NameHeader;
    output := output + ResultsHeader;
    output := output + ResultLines(ByName(results, compare), megabytes);
    output := output + [""];
  }

  /** The host output opens with a blank line and the banner and closes with a blank line. */
  lemma HostOutputFraming(results: seq<VideoInfo>, megabytes: Int64 -> string,
                          compare: (string, string) -> bool)
    ensures var o := HostOutput(results, megabytes, compare);
      |o| >= 7 && o[..2] == Banner && o[|o| - 1] == ""
  {
    if |results| == 1 {
      HostOutputSingle(results, megabytes, compare);
      var o := HostOutput(results, megabytes, compare);
      assert o[..2] == o[..5][..2];
    } else {
      HostOutputLayout(results, megabytes, compare);
    }
  }

  lemma HostOutputSingleLines(results: seq<VideoInfo>, megabytes: Int64 -> string,
                              compare: (string, string) -> bool)
    requires |results| == 1
    ensures HostOutput(results, megabytes, compare)
         == Banner + ResultsHeader + [ResultLine(results[0], megabytes)] + [""]
  {
    assert ResultLines(results, megabytes) == [ResultLine(results[0], megabytes)];
  }

  /** One record: seven lines, the record at index 5. */
  lemma HostOutputSingle(results: seq<VideoInfo>, megabytes: Int64 -> string,
                         compare: (string, string) -> bool)
    requires |results| == 1
    ensures var o := HostOutput(results, megabytes, compare);
      && |o| == 7 && o[..5] == Banner + ResultsHeader
      && o[5] == ResultLine(results[0], megabytes) && o[6] == ""
  {
    HostOutputSingleLines(results, megabytes, compare);
    LineBetween(Banner + ResultsHeader, ResultLine(results[0], megabytes), "");
  }

  /** ... and no "Ordered by" line: a single record gets no sections. */
  lemma HostOutputSingleUnsectioned(results: seq<VideoInfo>, megabytes: Int64 -> string,
                                    compare: (string, string) -> bool)
    requires |results| == 1
    ensures var o := HostOutput(results, megabytes, compare);
      ResolutionHeader[1] !in o && NameHeader[1] !in o
  {
    var line := ResultLine(results[0], megabytes);
    HostOutputSingleLines(results, megabytes, compare);
    HeaderLengths();
    ShortLineAbsent(Banner + ResultsHeader, line, ResolutionHeader[1]);
    ShortLineAbsent(Banner + ResultsHeader, line, NameHeader[1]);
  }

  /** The "Ordered by" lines are shorter than any result line, and the banner
      and column header lines are empty or not shorter than one. */
  lemma HeaderLengths()
    ensures |ResolutionHeader[1]| == 22 && |NameHeader[1]| == 16
    ensures forall i :: 0 <= i < |Banner + ResultsHeader| ==>
      |(Banner + ResultsHeader)[i]| == 0 || |(Banner + ResultsHeader)[i]| >= 24
  {
  }

  lemma ShortLineAbsent(pre: seq<string>, line: string, x: string)
    requires forall i :: 0 <= i < |pre| ==> |pre[i]| == 0 || |pre[i]| >= 24
    requires |line| >= 24 && 0 < |x| < 24
    ensures x !in pre + [line] + [""]
  {
  }

  lemma HostOutputLines(results: seq<VideoInfo>, megabytes: Int64 -> string,
                        compare: (string, string) -> bool)
    requires |results| != 1
    ensures HostOutput(results, megabytes, compare)
         == Banner + ResolutionHeader + ResultsHeader + ResultLines(ByWidth(results), megabytes)
            + NameHeader + ResultsHeader + ResultLines(ByName(results, compare), megabytes) + [""]
  {
  }

  /** Any other count n (zero included): 15 + 2n lines; the width-ordered records
      from index 8, the name-ordered records from index 14 + n. */
  lemma HostOutputLayout(results: seq<VideoInfo>, megabytes: Int64 -> string,
                         compare: (string, string) -> bool)
    requires |results| != 1
    ensures var o, n := HostOutput(results, megabytes, compare), |results|;
      && |o| == 15 + 2 * n
      && o[..2] == Banner && o[2..5] == ResolutionHeader && o[5..8] == ResultsHeader
      && o[8..8 + n] == ResultLines(ByWidth(results), megabytes)
      && o[8 + n..11 + n] == NameHeader && o[11 + n..14 + n] == ResultsHeader
      && o[14 + n..14 + 2 * n] == ResultLines(ByName(results, compare), megabytes)
      && o[14 + 2 * n] == ""
  {
    HostOutputLines(results, megabytes, compare);
    SectionSlices(Banner + ResolutionHeader + ResultsHeader, ResultLines(ByWidth(results), megabytes),
                  NameHeader, ResultsHeader, ResultLines(ByName(results, compare), megabytes), "");
    ThreeSlices(Banner, ResolutionHeader, ResultsHeader);
  }

  // ---------------------------------------------------------------------
  // Log file

  /** What a sequence of StreamWriter.WriteLine calls writes. */
  function WriteLines(lines: seq<string>): string
  {
    if lines == [] then "" else WriteLines(lines[..|lines| - 1]) + lines[|lines| - 1] + NewLine
  }

  /** What a sequence of StreamWriter.Write calls writes. */
  function WriteAll(pieces: seq<string>): string
  {
    if pieces == [] then "" else WriteAll(pieces[..|pieces| - 1]) + pieces[|pieces| - 1]
  }

  /** The log text: the resolution header written line by line, the
      width-ordered records written with no terminator, the name header line by
      line, and the name-ordered records line by line. */
  function LogText(results: seq<VideoInfo>, megabytes: Int64 -> string,
                   compare: (string, string) -> bool): string
  {
    WriteLines(ResolutionHeader)
    + WriteAll(ResultLines(ByWidth(results), megabytes))
    + WriteLines(NameHeader)
    + WriteLines(ResultLines(ByName(results, compare), megabytes))
  }

  /** The two files written to the output directory: the log path and text,
      and the JSON path with the records it serializes. */
  datatype OutputFiles = OutputFiles(logPath: string, logText: string, jsonPath: string, records: seq<VideoInfo>)

  /** WriteOutputFiles: the four foreach loops into the log writer, and the
      file names built from the timestamp. `combine` is Path.Combine. */
  method WriteOutputFiles(results: seq<VideoInfo>, outputDirectory: string, now: Timestamp,
                          megabytes: Int64 -> string, compare: (string, string) -> bool,
                          combine: (string, string) -> string) returns (files: OutputFiles)
    requires ValidTimestamp(now)
    ensures files.logPath == combine(outputDirectory, BaseFileName(now) + ".log")
    ensures files.jsonPath == combine(outputDirectory, BaseFileName(now) + ".json")
    ensures files.logText == LogText(results, megabytes, compare)
    ensures files.records == results
  {
    var baseFileName := BaseFileName(now);
    var log := WriteLinesTo("", ResolutionHeader);
    assert log == WriteLines(ResolutionHeader);
    log := WriteAllTo(log, ResultLines(ByWidth(results), megabytes));
    log := WriteLinesTo(log, NameHeader);
    log := WriteLinesTo(log, ResultLines(ByName(results, compare), megabytes));
    files := OutputFiles(combine(outputDirectory, baseFileName + ".log"), log,
                         combine(outputDirectory, baseFileName + ".json"), results);
  }

  /** `foreach (var line in lines) writer.WriteLine(line)` on a writer holding `log`. */
  method WriteLinesTo(log: string, lines: seq<string>) returns (r: string)
    ensures r == log + WriteLines(lines)
  {
    r := log;
    for i := 0 to |lines|
      invariant r == log + WriteLines(lines[..i])
    {
      WriteLinesSnoc(lines, i);
      r := r + lines[i] + NewLine;
    }
    assert lines[..|lines|] == lines;
  }

  /** `foreach (var piece in pieces) writer.Write(piece)` on a writer holding `log`. */
  method WriteAllTo(log: string, pieces: seq<string>) returns (r: string)
    ensures r == log + WriteAll(pieces)
  {
    r := log;
    for i := 0 to |pieces|
      invariant r == log + WriteAll(pieces[..i])
    {
      WriteAllSnoc(pieces, i);
      r := r + pieces[i];
    }
    assert pieces[..|pieces|] == pieces;
  }

  lemma WriteLinesSnoc(lines: seq<string>, i: nat)
    requires i < |lines|
    ensures WriteLines(lines[..i + 1]) == WriteLines(lines[..i]) + lines[i] + NewLine
  {
    assert lines[..i + 1][..i] == lines[..i];
  }

  lemma WriteAllSnoc(pieces: seq<string>, i: nat)
    requires i < |pieces|
    ensures WriteAll(pieces[..i + 1]) == WriteAll(pieces[..i]) + pieces[i]
  {
    assert pieces[..i + 1][..i] == pieces[..i];
  }

  lemma {:induction false} WriteLinesCons(a: string, lines: seq<string>)
    ensures WriteLines([a] + lines) == a + NewLine + WriteLines(lines)
    decreases |lines|
  {
    if lines != [] {
      var all := [a] + lines;
      assert all[|all| - 1] == lines[|lines| - 1];
      assert all[..|all| - 1] == [a] + lines[..|lines| - 1];
      WriteLinesCons(a, lines[..|lines| - 1]);
    }
  }

  lemma {:induction false} SplitWriteLines(lines: seq<string>, rest: string)
    requires forall i :: 0 <= i < |lines| ==> NoNewLine(lines[i])
    ensures SplitLines(WriteLines(lines) + rest) == lines + SplitLines(rest)
    decreases |lines|
  {
    if lines == [] {
      assert WriteLines(lines) + rest == rest;
    } else {
      var init, last := lines[..|lines| - 1], lines[|lines| - 1];
      assert forall i :: 0 <= i < |init| ==> init[i] == lines[i];
      assert NoNewLine(last);
      var tail := last + NewLine + rest;
      assert WriteLines(lines) == WriteLines(init) + last + NewLine;
      Regroup(WriteLines(init), last, NewLine, rest);
      SplitWriteLines(init, tail);
      SplitLinesAfter(last, rest);
      assert lines == init + [last];
      Assoc(init, [last], SplitLines(rest));
    }
  }

  lemma {:induction false} WriteAllNoNewLine(pieces: seq<string>)
    requires forall i :: 0 <= i < |pieces| ==> NoNewLine(pieces[i])
    ensures NoNewLine(WriteAll(pieces))
    decreases |pieces|
  {
    if pieces != [] {
      WriteAllNoNewLine(pieces[..|pieces| - 1]);
    }
  }

  /** No file name and no size text of `results` holds a line break. */
  predicate Printable(results: seq<VideoInfo>, megabytes: Int64 -> string)
  {
    forall i :: 0 <= i < |results| ==> NoNewLine(results[i].file) && NoNewLine(megabytes(results[i].sizeInBytes))
  }

  lemma PrintablePermutation(a: seq<VideoInfo>, b: seq<VideoInfo>, megabytes: Int64 -> string)
    requires multiset(a) == multiset(b) && Printable(a, megabytes)
    ensures Printable(b, megabytes)
  {
    forall i | 0 <= i < |b| ensures NoNewLine(b[i].file) && NoNewLine(megabytes(b[i].sizeInBytes)) {
      assert b[i] in multiset(b);
      var j :| 0 <= j < |a| && a[j] == b[i];
    }
  }

  lemma ResultLinesNoNewLine(results: seq<VideoInfo>, megabytes: Int64 -> string)
    requires Printable(results, megabytes)
    ensures forall i :: 0 <= i < |results| ==> NoNewLine(ResultLines(results, megabytes)[i])
  {
    forall i | 0 <= i < |results| ensures NoNewLine(ResultLines(results, megabytes)[i]) {
      ResultLineNoNewLine(results[i], megabytes);
    }
  }

  /** The line structure of a text written as: header lines, an unterminated
      section `w`, a second header whose first line is empty, and the
      terminated `names` lines. */
  lemma {:induction false} SectionsLayout(first: seq<string>, w: string, second: seq<string>, names: seq<string>)
    requires forall i :: 0 <= i < |first| ==> NoNewLine(first[i])
    requires forall i :: 0 <= i < |second| ==> NoNewLine(second[i])
    requires forall i :: 0 <= i < |names| ==> NoNewLine(names[i])
    requires NoNewLine(w) && second != [] && second[0] == ""
    ensures SplitLines(WriteLines(first) + w + WriteLines(second) + WriteLines(names))
         == first + [w] + second[1..] + names + [""]
  {
    var s1 := WriteLines(second[1..]);
    var tail := s1 + WriteLines(names);
    WriteLinesCons(second[0], second[1..]);
    assert second == [second[0]] + second[1..];
    assert WriteLines(second) == NewLine + s1;
    var x := w + NewLine + tail;
    RegroupAround(WriteLines(first), w, NewLine, s1, WriteLines(names));
    SplitWriteLines(first, x);
    SplitLinesAfter(w, tail);
    TerminatedLines(second[1..], names);
    Regroup5(first, [w], second[1..], names, [""]);
  }

  lemma TerminatedLines(a: seq<string>, b: seq<string>)
    requires forall i :: 0 <= i < |a| ==> NoNewLine(a[i])
    requires forall i :: 0 <= i < |b| ==> NoNewLine(b[i])
    ensures SplitLines(WriteLines(a) + WriteLines(b)) == a + (b + [""])
  {
    SplitWriteLines(a, WriteLines(b));
    assert WriteLines(b) == WriteLines(b) + "";
    SplitWriteLines(b, "");
    assert SplitLines("") == [""];
  }

  /** The line structure of the log for any width section `w` and name lines. */
  lemma LogLayout(w: string, names: seq<string>)
    requires NoNewLine(w)
    requires forall i :: 0 <= i < |names| ==> NoNewLine(names[i])
    ensures SplitLines(WriteLines(ResolutionHeader) + w + WriteLines(NameHeader) + WriteLines(names))
         == ResolutionHeader + [w] + NameHeader[1..] + names + [""]
  {
    SectionsLayout(ResolutionHeader, w, NameHeader, names);
  }

  /** Read as lines, the log always holds both sections and never the column
      header: the resolution header, ALL width-ordered records run together on
      one line (they are written without terminator), the name header without
      its leading blank line (that WriteLine ends the record line), one line
      per name-ordered record, and a final empty line. */
  lemma LogLines(results: seq<VideoInfo>, megabytes: Int64 -> string, compare: (string, string) -> bool)
    requires Printable(results, megabytes)
    ensures SplitLines(LogText(results, megabytes, compare))
         == ResolutionHeader + [WriteAll(ResultLines(ByWidth(results), megabytes))] + NameHeader[1..]
            + ResultLines(ByName(results, compare), megabytes) + [""]
  {
    var byWidth, byName := ByWidth(results), ByName(results, compare);
    PrintablePermutation(results, byWidth, megabytes);
    PrintablePermutation(results, byName, megabytes);
    ResultLinesNoNewLine(byWidth, megabytes);
    ResultLinesNoNewLine(byName, megabytes);
    WriteAllNoNewLine(ResultLines(byWidth, megabytes));
    LogLayout(WriteAll(ResultLines(byWidth, megabytes)), ResultLines(byName, megabytes));
  }

  /** Even for a single record the log has both sections and no column header. */
  lemma LogSingleRecord(v: VideoInfo, megabytes: Int64 -> string, compare: (string, string) -> bool)
    requires NoNewLine(v.file) && NoNewLine(megabytes(v.sizeInBytes))
    ensures SplitLines(LogText([v], megabytes, compare))
         == ResolutionHeader + [ResultLine(v, megabytes)] + NameHeader[1..] + [ResultLine(v, megabytes), ""]
  {
    assert Printable([v], megabytes);
    LogLines([v], megabytes, compare);
    assert ByWidth([v]) == [v] && ByName([v], compare) == [v];
    assert ResultLines([v], megabytes) == [ResultLine(v, megabytes)];
    assert WriteAll([ResultLine(v, megabytes)]) == ResultLine(v, megabytes);
  }

  // ---------------------------------------------------------------------
  // File names

  /** The fields of DateTime.Now that the format yyyyMMdd_HHmmss reads. */
  datatype Timestamp = Timestamp(year: int, month: int, day: int, hour: int, minute: int, second: int)

  predicate ValidTimestamp(t: Timestamp)
  {
    && 1 <= t.year <= 9999 && 1 <= t.month <= 12 && 1 <= t.day <= 31
    && 0 <= t.hour < 24 && 0 <= t.minute < 60 && 0 <= t.second < 60
  }

  function Pow10(n: nat): nat
  {
    if n == 0 then 1 else 10 * Pow10(n - 1)
  }

  /** `n` in exactly `width` digits, zero-padded on the left. */
  function FixedDigits(n: nat, width: nat): (r: string)
    ensures |r| == width && AllDigits(r)
  {
    if width == 0 then "" else FixedDigits(n / 10, width - 1) + [DigitChar(n % 10)]
  }

  lemma {:induction false} FixedDigitsValue(n: nat, width: nat)
    requires n < Pow10(width)
    ensures DigitsValue(FixedDigits(n, width)) == n
  {
    if width > 0 {
      FixedDigitsValue(n / 10, width - 1);
      var r := FixedDigits(n, width);
      assert r[..|r| - 1] == FixedDigits(n / 10, width - 1);
    }
  }

  /** `{now:yyyyMMdd_HHmmss}` */
  function Stamp(t: Timestamp): string
    requires ValidTimestamp(t)
  {
    FixedDigits(t.year, 4) + FixedDigits(t.month, 2) + FixedDigits(t.day, 2) + "_"
    + FixedDigits(t.hour, 2) + FixedDigits(t.minute, 2) + FixedDigits(t.second, 2)
  }

  /** "VideoResolution_" + yyyyMMdd_HHmmss: 31 characters, shared by the .log and .json files. */
  function BaseFileName(t: Timestamp): (r: string)
    requires ValidTimestamp(t)
    ensures |r| == 31 && r[..16] == "VideoResolution_" && r[24] == '_'
    ensures AllDigits(r[16..24]) && AllDigits(r[25..])
  {
    var r := "VideoResolution_" + Stamp(t);
    assert r[16..24] == FixedDigits(t.year, 4) + FixedDigits(t.month, 2) + FixedDigits(t.day, 2);
    assert r[25..] == FixedDigits(t.hour, 2) + FixedDigits(t.minute, 2) + FixedDigits(t.second, 2);
    r
  }

  /** Reads the timestamp back out of a base file name. */
  function ParseBaseFileName(s: string): Option<Timestamp>
  {
    if |s| == 31 && s[..16] == "VideoResolution_" && s[24] == '_'
       && AllDigits(s[16..20]) && AllDigits(s[20..22]) && AllDigits(s[22..24])
       && AllDigits(s[25..27]) && AllDigits(s[27..29]) && AllDigits(s[29..31])
    then Some(Timestamp(DigitsValue(s[16..20]), DigitsValue(s[20..22]), DigitsValue(s[22..24]),
                        DigitsValue(s[25..27]), DigitsValue(s[27..29]), DigitsValue(s[29..31])))
    else None
  }

  lemma BaseFileNameRoundTrip(t: Timestamp)
    requires ValidTimestamp(t)
    ensures ParseBaseFileName(BaseFileName(t)) == Some(t)
  {
    var r := BaseFileName(t);
    assert r[16..20] == FixedDigits(t.year, 4);
    assert r[20..22] == FixedDigits(t.month, 2);
    assert r[22..24] == FixedDigits(t.day, 2);
    assert r[25..27] == FixedDigits(t.hour, 2);
    assert r[27..29] == FixedDigits(t.minute, 2);
    assert r[29..31] == FixedDigits(t.second, 2);
    FixedDigitsValue(t.year, 4);
    FixedDigitsValue(t.month, 2);
    FixedDigitsValue(t.day, 2);
    FixedDigitsValue(t.hour, 2);
    FixedDigitsValue(t.minute, 2);
    FixedDigitsValue(t.second, 2);
  }

  /** Two runs get the same file names exactly when they write their files in the same second. */
  lemma BaseFileNameInjective(t1: Timestamp, t2: Timestamp)
    requires ValidTimestamp(t1) && ValidTimestamp(t2)
    ensures BaseFileName(t1) == BaseFileName(t2) <==> t1 == t2
  {
    BaseFileNameRoundTrip(t1);
    BaseFileNameRoundTrip(t2);
  }
}
