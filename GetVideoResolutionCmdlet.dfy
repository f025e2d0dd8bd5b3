/** Get-VideoResolution: resolving the input parameters to a list of files,
    probing each file, and writing the results to the host, as a PowerShell
    object, as JSON, and to log files. */
module Cmdlet {
  import opened Wrappers
  import opened Text
  import opened Paths
  import opened Models
  import opened Formatters
  import opened Sequences

  // ---------------------------------------------------------------------
  // The world outside the cmdlet

  /** What the media prober does with one file: returns its media info, fails
      because the ffmpeg executables are missing, or fails in any other way. */
  datatype ProbeOutcome = Probed(info: MediaInfo) | ProberMissing(message: string) | ProbeFailed(message: string)

  /** What Directory.CreateDirectory does: succeeds or throws with a message. */
  datatype CreateOutcome = Created | CreateFailed(message: string)

  /** The collaborators of the cmdlet: File.Exists, Directory.Exists,
      Directory.GetFiles(dir, "*.*", recursive ? AllDirectories : TopDirectoryOnly),
      Path.Combine, Directory.CreateDirectory, the media prober, the megabyte
      text of a size, the current culture's string order and DateTime.Now. */
  datatype Platform = Platform(
    fileExists: string -> bool,
    directoryExists: string -> bool,
    getFiles: (string, bool) -> seq<string>,
    combine: (string, string) -> string,
    createDirectory: string -> CreateOutcome,
    probe: string -> ProbeOutcome,
    megabytes: Int64 -> string,
    compare: (string, string) -> bool,
    now: Timestamp)

  // ---------------------------------------------------------------------
  // What the cmdlet hands to the PowerShell runtime

  datatype ErrorCategory = InvalidArgument | ResourceUnavailable | InvalidOperation

  /** The one object written to the pipeline: the host lines, the record list
      itself (-PSObject), or the JSON document of the records (-Json). */
  datatype Output = HostLines(lines: seq<string>) | Records(records: seq<VideoInfo>) | JsonDocument(records: seq<VideoInfo>)

  /** The exception of an error record: one the cmdlet raises for bad input,
      or one thrown by a collaborator, with its message. */
  datatype Failure = InvalidInput(error: InputError) | Thrown(message: string)

  /** ThrowTerminatingError, WriteError, WriteWarning, the two output files, WriteObject. */
  datatype Event =
    | Terminated(category: ErrorCategory, failure: Failure)
    | NonTerminatingError(category: ErrorCategory, failure: Failure)
    | Warning(message: string)
    | FilesWritten(files: OutputFiles)
    | WroteObject(output: Output)

  /** Why the input parameters name no files to process. */
  datatype InputError = FilesNotFound | FileNotFound(file: string) | DirectoryNotFound(directory: string) | NoValidInput

  /** Why probing stopped: the prober is missing, or a file could not be probed. */
  datatype ProbeError = ProberNotFound(message: string) | ProbeException(message: string)

  function ErrorMessage(e: InputError): string
  {
    match e
    case FilesNotFound => "One or more files not found, terminating."
    case FileNotFound(file) => "File not found: " + file + ", terminating."
    case DirectoryNotFound(directory) => "Directory not found: " + directory + ", terminating."
    case NoValidInput =>
      "No valid input parameters found. You must supply either Files, File, Input Directory, or File and InputDirectory. Terminating."
  }

  /** The message of an error record's exception. */
  function FailureMessage(f: Failure): string
  {
    match f
    case InvalidInput(e) => ErrorMessage(e)
    case Thrown(m) => m
  }

  function WarningMessage(outputDirectory: string, exceptionMessage: string): string
  {
    "Output directory: " + outputDirectory + " does not exist and unable to create. Exception: " + exceptionMessage
  }

  /** The messages name what was not found. */
  lemma ErrorMessageNames(e: InputError)
    ensures e.FileNotFound? ==> ErrorMessage(e)[..16] == "File not found: " && ErrorMessage(e)[16..16 + |e.file|] == e.file
    ensures e.DirectoryNotFound? ==>
      ErrorMessage(e)[..21] == "Directory not found: " && ErrorMessage(e)[21..21 + |e.directory|] == e.directory
  {
  }

  /** Two "not found" errors of the same kind have the same message exactly
      when they name the same path. */
  lemma NotFoundMessageInjective(e1: InputError, e2: InputError)
    requires (e1.FileNotFound? && e2.FileNotFound?) || (e1.DirectoryNotFound? && e2.DirectoryNotFound?)
    ensures ErrorMessage(e1) == ErrorMessage(e2) <==> e1 == e2
  {
    if ErrorMessage(e1) == ErrorMessage(e2) {
      ErrorMessageNames(e1);
      ErrorMessageNames(e2);
      if e1.FileNotFound? {
        assert |e1.file| == |e2.file|;
      } else {
        assert |e1.directory| == |e2.directory|;
      }
    }
  }

  /** The warning names the output directory and ends with the exception's message. */
  lemma WarningMessageNames(outputDirectory: string, exceptionMessage: string)
    ensures var w := WarningMessage(outputDirectory, exceptionMessage);
      && w[18..18 + |outputDirectory|] == outputDirectory
      && w[|w| - |exceptionMessage|..] == exceptionMessage
  {
  }

  // ---------------------------------------------------------------------
  // Selecting the files of a directory

  const VideoExtensions: seq<string> := [".avi", ".divx", ".iso", ".m2ts", ".m4v", ".mkv", ".mp4", ".mpg", ".x265", ".wmv"]

  /** The path's extension equals one of the video extensions, ignoring case. */
  predicate IsVideoFile(path: string)
  {
    exists i :: 0 <= i < |VideoExtensions| && EqualsOrdinalIgnoreCase(VideoExtensions[i], GetExtension(path))
  }

  /** The listed files that are video files, in listing order. */
  function VideoFiles(listing: seq<string>): (r: seq<string>)
    ensures |r| <= |listing|
    ensures forall f :: f in r <==> f in listing && IsVideoFile(f)
  {
    if listing == [] then []
    else (if IsVideoFile(listing[0]) then [listing[0]] else []) + VideoFiles(listing[1..])
  }

  /** The selection keeps the listing's order: selecting from a concatenation
      concatenates the selections. */
  lemma {:induction false} VideoFilesAppend(a: seq<string>, b: seq<string>)
    ensures VideoFiles(a + b) == VideoFiles(a) + VideoFiles(b)
    decreases |a|
  {
    if a != [] {
      assert (a + b)[0] == a[0] && (a + b)[1..] == a[1..] + b;
      VideoFilesAppend(a[1..], b);
    } else {
      assert a + b == b;
    }
  }

  /** A file name ending in "." + tail is selected exactly when "." + tail is a
      video extension up to case. */
  lemma IsVideoFileBySuffix(stem: string, tail: string)
    requires |tail| >= 1 && PlainTail(tail)
    ensures IsVideoFile(stem + "." + tail) <==> exists e :: e in VideoExtensions && EqualsOrdinalIgnoreCase(e, "." + tail)
  {
    ExtensionOfSuffix(stem, tail);
  }

  /** Upper-case extensions are selected. */
  lemma UpperCaseExtensionSelected()
    ensures IsVideoFile("C:\\Videos\\Film.MP4")
  {
    ExtensionOfSuffix("C:\\Videos\\Film", "MP4");
    assert "C:\\Videos\\Film" + "." + "MP4" == "C:\\Videos\\Film.MP4";
    assert VideoExtensions[6] == ".mp4";
    assert EqualsOrdinalIgnoreCase(VideoExtensions[6], ".MP4");
  }

  /** A file whose name (the segment after the last separator) has no '.' is
      not selected. */
  lemma NoExtensionNotSelected(stem: string, segment: string)
    requires stem == [] || IsDirectorySeparator(stem[|stem| - 1])
    requires forall i :: 0 <= i < |segment| ==> segment[i] != '.'
    ensures !IsVideoFile(stem + segment)
  {
    ExtensionAbsent(stem, segment);
  }

  /** A path ending in '.' has no extension and is not selected. */
  lemma TrailingDotNotSelected(path: string)
    ensures !IsVideoFile(path + ".")
  {
  }

  /** Only the last extension counts: a partial download is not selected. */
  lemma LastExtensionCounts()
    ensures !IsVideoFile("holiday.mkv.part")
  {
    ExtensionOfSuffix("holiday.mkv", "part");
    assert "holiday.mkv" + "." + "part" == "holiday.mkv.part";
    forall i | 0 <= i < |VideoExtensions|
      ensures !EqualsOrdinalIgnoreCase(VideoExtensions[i], ".part")
    {
      var e := VideoExtensions[i];
      assert |e| == 4 || e[1] in "dmx";
    }
  }

  // ---------------------------------------------------------------------
  // ProcessRecord, as a function of the parameters

  /** Every file of the list exists. */
  predicate AllExist(files: seq<string>, p: Platform)
  {
    forall i :: 0 <= i < |files| ==> p.fileExists(files[i])
  }

  /** The files ProcessRecord adds, or the error it terminates with: a
      non-empty file list first, then a single file (by itself, then joined to
      the input directory), then the video files of the input directory. */
  function ResolveInput(files: Option<seq<string>>, file: Option<string>, inputDirectory: Option<string>,
                        recursive: bool, p: Platform): Result<seq<string>, InputError>
  {
    if files.Some? && |files.value| > 0 then
      if AllExist(files.value, p) then Ok(files.value) else Err(FilesNotFound)
    else if !IsNullOrWhiteSpace(file) then
      if p.fileExists(file.value) then Ok([file.value])
      else if IsNullOrWhiteSpace(inputDirectory) then Err(FileNotFound(file.value))
      else
        var joined := p.combine(inputDirectory.value, file.value);
        if p.fileExists(joined) then Ok([joined]) else Err(FileNotFound(file.value))
    else if !IsNullOrWhiteSpace(inputDirectory) then
      if p.directoryExists(inputDirectory.value)
      then Ok(VideoFiles(p.getFiles(inputDirectory.value, recursive)))
      else Err(DirectoryNotFound(inputDirectory.value))
    else Err(NoValidInput)
  }

  /** A non-empty file list is taken as it is, order and duplicates included,
      when every file exists, and rejected as a whole otherwise; the single
      file and the input directory are then ignored. */
  lemma ResolveFileList(files: seq<string>, file: Option<string>, inputDirectory: Option<string>,
                        recursive: bool, p: Platform)
    requires |files| > 0
    ensures var r := ResolveInput(Some(files), file, inputDirectory, recursive, p);
      && (r == Ok(files) <==> AllExist(files, p))
      && (r == Err(FilesNotFound) <==> !AllExist(files, p))
  {
  }

  /** A single file is never searched for in a directory listing: an existing
      file is taken as it is, the file joined to the input directory is tried
      only when it does not exist, and otherwise the error is FileNotFound
      naming the file as supplied. */
  lemma ResolveSingleFile(files: Option<seq<string>>, file: string, inputDirectory: Option<string>,
                          recursive: bool, p: Platform)
    requires files.None? || files.value == []
    requires !IsNullOrWhiteSpace(Some(file))
    ensures var r := ResolveInput(files, Some(file), inputDirectory, recursive, p);
      && (p.fileExists(file) ==> r == Ok([file]))
      && (!p.fileExists(file) && r.Ok? ==>
            !IsNullOrWhiteSpace(inputDirectory) && r.value == [p.combine(inputDirectory.value, file)])
      && (r.Ok? ==> |r.value| == 1 && p.fileExists(r.value[0]))
      && (r.Ok? <==> p.fileExists(file)
                     || (!IsNullOrWhiteSpace(inputDirectory) && p.fileExists(p.combine(inputDirectory.value, file))))
      && (r.Err? ==> r.error == FileNotFound(file))
  {
  }

  /** With no non-empty file list and no non-blank file, the result is the
      video files of the input directory's listing (possibly none), or
      DirectoryNotFound when it does not exist. */
  lemma ResolveDirectory(files: Option<seq<string>>, file: Option<string>, inputDirectory: string,
                         recursive: bool, p: Platform)
    requires (files.None? || files.value == []) && IsNullOrWhiteSpace(file)
    requires !IsNullOrWhiteSpace(Some(inputDirectory))
    ensures var r := ResolveInput(files, file, Some(inputDirectory), recursive, p);
      && (p.directoryExists(inputDirectory) ==> r == Ok(VideoFiles(p.getFiles(inputDirectory, recursive))))
      && (!p.directoryExists(inputDirectory) ==> r == Err(DirectoryNotFound(inputDirectory)))
  {
  }

  /** Without a non-empty list, a non-blank file or a non-blank directory there
      is nothing to do, and that is an error. */
  lemma ResolveNothing(files: Option<seq<string>>, file: Option<string>, inputDirectory: Option<string>,
                       recursive: bool, p: Platform)
    ensures ResolveInput(files, file, inputDirectory, recursive, p) == Err(NoValidInput)
        <==> (files.None? || files.value == []) && IsNullOrWhiteSpace(file) && IsNullOrWhiteSpace(inputDirectory)
  {
  }

  /** Every resolved file either exists or is a video file of the input
      directory's listing. */
  lemma ResolvedFilesExist(files: Option<seq<string>>, file: Option<string>, inputDirectory: Option<string>,
                           recursive: bool, p: Platform)
    ensures var r := ResolveInput(files, file, inputDirectory, recursive, p);
      r.Ok? ==> forall f :: f in r.value ==>
        p.fileExists(f) || (f in p.getFiles(inputDirectory.value, recursive) && IsVideoFile(f))
  {
    var r := ResolveInput(files, file, inputDirectory, recursive, p);
    if r.Ok? && files.Some? && |files.value| > 0 {
      forall f | f in r.value ensures p.fileExists(f) {
        var i :| 0 <= i < |files.value| && files.value[i] == f;
      }
    }
  }

  // ---------------------------------------------------------------------
  // EndProcessing, as a function of the files to process

  /** Probes the files in order, stopping at the first failure. */
  function ProbeAll(paths: seq<string>, probe: string -> ProbeOutcome): Result<seq<VideoInfo>, ProbeError>
    decreases |paths|
  {
    if paths == [] then Ok([])
    else
      var last := paths[|paths| - 1];
      match ProbeAll(paths[..|paths| - 1], probe)
      case Err(e) => Err(e)
      case Ok(results) =>
        match probe(last)
        case Probed(info) => Ok(results + [FromMediaInfo(info, last)])
        case ProberMissing(m) => Err(ProberNotFound(m))
        case ProbeFailed(m) => Err(ProbeException(m))
  }

  /** Probing succeeds exactly when every file probes, and then yields one
      record per file, in order, built from that file's media info. */
  lemma {:induction false} ProbeAllSucceeds(paths: seq<string>, probe: string -> ProbeOutcome)
    ensures ProbeAll(paths, probe).Ok? <==> forall i :: 0 <= i < |paths| ==> probe(paths[i]).Probed?
    ensures ProbeAll(paths, probe).Ok? ==>
      var r := ProbeAll(paths, probe).value;
      |r| == |paths| && forall i :: 0 <= i < |paths| ==> r[i] == FromMediaInfo(probe(paths[i]).info, paths[i])
    decreases |paths|
  {
    if paths != [] {
      var init := paths[..|paths| - 1];
      ProbeAllSucceeds(init, probe);
      assert forall i :: 0 <= i < |init| ==> init[i] == paths[i];
    }
  }

  /** A failed probe reports the first file that failed: every file before
      it probed, and the error carries that file's message. */
  lemma {:induction false} ProbeAllFirstFailure(paths: seq<string>, probe: string -> ProbeOutcome)
    requires ProbeAll(paths, probe).Err?
    ensures exists k ::
      && 0 <= k < |paths| && !probe(paths[k]).Probed?
      && (forall i :: 0 <= i < k ==> probe(paths[i]).Probed?)
      && ProbeAll(paths, probe).error == ProbeErrorOf(probe(paths[k]))
    decreases |paths|
  {
    var init := paths[..|paths| - 1];
    assert forall i :: 0 <= i < |init| ==> init[i] == paths[i];
    if ProbeAll(init, probe).Err? {
      ProbeAllFirstFailure(init, probe);
      var k :| 0 <= k < |init| && !probe(init[k]).Probed?
        && (forall i :: 0 <= i < k ==> probe(init[i]).Probed?)
        && ProbeAll(init, probe).error == ProbeErrorOf(probe(init[k]));
      assert paths[k] == init[k];
    } else {
      ProbeAllSucceeds(init, probe);
      var k := |paths| - 1;
      assert !probe(paths[k]).Probed? && forall i :: 0 <= i < k ==> probe(paths[i]).Probed?;
    }
  }

  /** The error a failed probe outcome stands for. */
  function ProbeErrorOf(o: ProbeOutcome): ProbeError
    requires !o.Probed?
  {
    if o.ProberMissing? then ProberNotFound(o.message) else ProbeException(o.message)
  }

  /** Once probing has failed on a prefix, the later files do not change the outcome. */
  lemma {:induction false} ProbeAllStops(paths: seq<string>, k: nat, probe: string -> ProbeOutcome)
    requires k <= |paths| && ProbeAll(paths[..k], probe).Err?
    ensures ProbeAll(paths, probe) == ProbeAll(paths[..k], probe)
    decreases |paths| - k
  {
    if k < |paths| {
      assert paths[..k + 1][..k] == paths[..k];
      ProbeAllStops(paths, k + 1, probe);
    } else {
      assert paths[..k] == paths;
    }
  }

  /** The object WriteOutput writes: -PSObject wins over -Json, and the host
      lines are the default. */
  function OutputObject(results: seq<VideoInfo>, json: bool, psObject: bool, p: Platform): Output
  {
    if psObject then Records(results)
    else if json then JsonDocument(results)
    else HostLines(HostOutput(results, p.megabytes, p.compare))
  }

  /** The log and JSON files written to `outputDirectory`. */
  function LogFiles(results: seq<VideoInfo>, outputDirectory: string, p: Platform): (f: OutputFiles)
    requires ValidTimestamp(p.now)
  {
    var baseFileName := BaseFileName(p.now);
    OutputFiles(p.combine(outputDirectory, baseFileName + ".log"), LogText(results, p.megabytes, p.compare),
                p.combine(outputDirectory, baseFileName + ".json"), results)
  }

  /** The output directory is set, missing and cannot be created. */
  predicate CreateFails(outputDirectory: Option<string>, p: Platform)
  {
    && !IsNullOrWhiteSpace(outputDirectory)
    && !p.directoryExists(outputDirectory.value)
    && p.createDirectory(outputDirectory.value).CreateFailed?
  }

  /** What WriteOutput hands to the runtime. */
  function OutputEvents(results: seq<VideoInfo>, outputDirectory: Option<string>, json: bool, psObject: bool,
                        p: Platform): seq<Event>
    requires ValidTimestamp(p.now)
  {
    if CreateFails(outputDirectory, p) then
      [Warning(WarningMessage(outputDirectory.value, p.createDirectory(outputDirectory.value).message))]
    else
      (if IsNullOrWhiteSpace(outputDirectory) then [] else [FilesWritten(LogFiles(results, outputDirectory.value, p))])
      + [WroteObject(OutputObject(results, json, psObject, p))]
  }

  /** What EndProcessing hands to the runtime once the input is valid. */
  function EndEvents(paths: seq<string>, outputDirectory: Option<string>, json: bool, psObject: bool,
                     p: Platform): seq<Event>
    requires ValidTimestamp(p.now)
  {
    match ProbeAll(paths, p.probe)
    case Ok(results) => OutputEvents(results, outputDirectory, json, psObject, p)
    case Err(ProberNotFound(m)) => [Terminated(ResourceUnavailable, Thrown(m))]
    case Err(ProbeException(m)) => [NonTerminatingError(InvalidOperation, Thrown(m))]
  }

  /** What one invocation hands to the runtime. */
  function RunEvents(files: Option<seq<string>>, file: Option<string>, inputDirectory: Option<string>,
                     recursive: bool, outputDirectory: Option<string>, json: bool, psObject: bool,
                     p: Platform): seq<Event>
    requires ValidTimestamp(p.now)
  {
    match ResolveInput(files, file, inputDirectory, recursive, p)
    case Err(e) => [Terminated(InvalidArgument, InvalidInput(e))]
    case Ok(paths) => EndEvents(paths, outputDirectory, json, psObject, p)
  }

  // ---------------------------------------------------------------------
  // Properties of the output

  /** The number of objects written to the pipeline. */
  function ObjectCount(events: seq<Event>): nat
  {
    if events == [] then 0
    else ObjectCount(events[..|events| - 1]) + (if events[|events| - 1].WroteObject? then 1 else 0)
  }

  lemma {:induction false} ObjectCountAppend(a: seq<Event>, b: seq<Event>)
    ensures ObjectCount(a + b) == ObjectCount(a) + ObjectCount(b)
    decreases |b|
  {
    if b == [] {
      assert a + b == a;
    } else {
      assert (a + b)[..|a + b| - 1] == a + b[..|b| - 1];
      ObjectCountAppend(a, b[..|b| - 1]);
    }
  }

  /** WriteOutput either warns and writes nothing else, or writes exactly one
      object, preceded by the two files exactly when an output directory is set. */
  lemma OutputShape(results: seq<VideoInfo>, outputDirectory: Option<string>, json: bool, psObject: bool,
                    p: Platform)
    requires ValidTimestamp(p.now)
    ensures var ev := OutputEvents(results, outputDirectory, json, psObject, p);
      && (CreateFails(outputDirectory, p) ==> |ev| == 1 && ev[0].Warning? && ObjectCount(ev) == 0)
      && (!CreateFails(outputDirectory, p) ==>
            && ObjectCount(ev) == 1
            && ev[|ev| - 1] == WroteObject(OutputObject(results, json, psObject, p))
            && (|ev| == 2 <==> !IsNullOrWhiteSpace(outputDirectory))
            && (|ev| == 2 ==> ev[0] == FilesWritten(LogFiles(results, outputDirectory.value, p))))
  {
    var ev := OutputEvents(results, outputDirectory, json, psObject, p);
    if !CreateFails(outputDirectory, p) {
      var files: seq<Event> := if IsNullOrWhiteSpace(outputDirectory) then [] else [FilesWritten(LogFiles(results, outputDirectory.value, p))];
      var obj := [WroteObject(OutputObject(results, json, psObject, p))];
      ObjectCountAppend(files, obj);
      assert ObjectCount(files) == 0 by {
        if files != [] { assert files[..0] == []; }
      }
      assert ObjectCount(obj) == 1 by { assert obj[..0] == []; }
    } else {
      assert ev[..0] == [];
    }
  }

  /** Every invocation writes at most one object, and writes one exactly when
      the input resolves, every file probes, and the output directory (if
      any) is usable. */
  lemma RunWritesOneObject(files: Option<seq<string>>, file: Option<string>, inputDirectory: Option<string>,
                           recursive: bool, outputDirectory: Option<string>, json: bool, psObject: bool,
                           p: Platform)
    requires ValidTimestamp(p.now)
    ensures var ev := RunEvents(files, file, inputDirectory, recursive, outputDirectory, json, psObject, p);
      var r := ResolveInput(files, file, inputDirectory, recursive, p);
      && ObjectCount(ev) <= 1
      && (ObjectCount(ev) == 1 <==> r.Ok? && ProbeAll(r.value, p.probe).Ok? && !CreateFails(outputDirectory, p))
  {
    var ev := RunEvents(files, file, inputDirectory, recursive, outputDirectory, json, psObject, p);
    var r := ResolveInput(files, file, inputDirectory, recursive, p);
    if r.Err? || ProbeAll(r.value, p.probe).Err? {
      assert |ev| == 1 && !ev[0].WroteObject?;
      assert ev[..0] == [];
    } else {
      OutputShape(ProbeAll(r.value, p.probe).value, outputDirectory, json, psObject, p);
    }
  }

  /** An input error terminates the invocation with InvalidArgument before any
      file is probed; the error record's message is that error's message. */
  lemma RunInputError(files: Option<seq<string>>, file: Option<string>, inputDirectory: Option<string>,
                      recursive: bool, outputDirectory: Option<string>, json: bool, psObject: bool,
                      p: Platform)
    requires ValidTimestamp(p.now)
    requires ResolveInput(files, file, inputDirectory, recursive, p).Err?
    ensures RunEvents(files, file, inputDirectory, recursive, outputDirectory, json, psObject, p)
         == [Terminated(InvalidArgument, InvalidInput(ResolveInput(files, file, inputDirectory, recursive, p).error))]
    ensures FailureMessage(RunEvents(files, file, inputDirectory, recursive, outputDirectory, json, psObject, p)[0].failure)
         == ErrorMessage(ResolveInput(files, file, inputDirectory, recursive, p).error)
  {
  }

  /** A single existing file with a size and one video stream, no output
      directory and no switches: the host sees seven lines with the file's
      result line at index 5. */
  lemma RunSingleFile(file: string, info: MediaInfo, p: Platform)
    requires ValidTimestamp(p.now)
    requires !IsNullOrWhiteSpace(Some(file)) && p.fileExists(file) && p.probe(file) == Probed(info)
    ensures var ev := RunEvents(None, Some(file), None, false, None, false, false, p);
      && |ev| == 1 && ev[0].WroteObject? && ev[0].output.HostLines?
      && |ev[0].output.lines| == 7
      && ev[0].output.lines[5] == ResultLine(FromMediaInfo(info, file), p.megabytes)
  {
    ProbeOne(file, info, p.probe);
    HostOutputSingle([FromMediaInfo(info, file)], p.megabytes, p.compare);
  }

  lemma ProbeOne(file: string, info: MediaInfo, probe: string -> ProbeOutcome)
    requires probe(file) == Probed(info)
    ensures ProbeAll([file], probe) == Ok([FromMediaInfo(info, file)])
  {
    assert [file][..0] == [];
    assert [] + [FromMediaInfo(info, file)] == [FromMediaInfo(info, file)];
  }

  /** With a list of existing files that all probe, no output directory and
      no switches, the host sees the host output of one record per file, each
      built from its own file's probe, in the order of the list. */
  lemma RunFileList(paths: seq<string>, p: Platform)
    requires ValidTimestamp(p.now)
    requires |paths| > 0 && AllExist(paths, p)
    requires forall i :: 0 <= i < |paths| ==> p.probe(paths[i]).Probed?
    ensures var rs := seq(|paths|, i requires 0 <= i < |paths| => FromMediaInfo(p.probe(paths[i]).info, paths[i]));
      RunEvents(Some(paths), None, None, false, None, false, false, p)
        == [WroteObject(HostLines(HostOutput(rs, p.megabytes, p.compare)))]
  {
    ProbeAllSucceeds(paths, p.probe);
    var rs := seq(|paths|, i requires 0 <= i < |paths| => FromMediaInfo(p.probe(paths[i]).info, paths[i]));
    assert ProbeAll(paths, p.probe).value == rs;
  }

  // ---------------------------------------------------------------------
  // The cmdlet

  class GetVideoResolutionCmdlet {
    // Parameters
    var inputDirectory: Option<string>
    var outputDirectory: Option<string>
    var file: Option<string>
    var files: Option<seq<string>>
    var recursive: bool
    var json: bool
    var psObject: bool

    // State
    var isValid: bool
    var filesToProcess: seq<string>

    /** Everything handed to the PowerShell runtime so far. */
    var emitted: seq<Event>

    constructor (inputDirectory: Option<string>, outputDirectory: Option<string>, file: Option<string>,
                 files: Option<seq<string>>, recursive: bool, json: bool, psObject: bool)
      ensures this.inputDirectory == inputDirectory && this.outputDirectory == outputDirectory
      ensures this.file == file && this.files == files
      ensures this.recursive == recursive && this.json == json && this.psObject == psObject
      ensures !isValid && filesToProcess == [] && emitted == []
    {
      this.inputDirectory := inputDirectory;
      this.outputDirectory := outputDirectory;
      this.file := file;
      this.files := files;
      this.recursive := recursive;
      this.json := json;
      this.psObject := psObject;
      isValid := false;
      filesToProcess := [];
      emitted := [];
    }

    /** Runs the three stages; a terminating error ends the invocation. */
    method ProcessInternal(p: Platform)
      requires ValidTimestamp(p.now)
      modifies this`isValid, this`filesToProcess, this`emitted
      ensures emitted == old(emitted) + RunEvents(files, file, inputDirectory, recursive, outputDirectory, json, psObject, p)
    {
      BeginProcessing();
      var terminated := ProcessRecord(p);
      ghost var r := ResolveInput(files, file, inputDirectory, recursive, p);
      if terminated {
        return;
      }
      assert filesToProcess == r.value by {
        assert [] + r.value == r.value;
      }
      EndProcessing(p);
    }

    /** Resets the list of files and the validity flag. */
    method BeginProcessing()
      modifies this`isValid, this`filesToProcess
      ensures isValid && filesToProcess == []
    {
      filesToProcess := [];
      isValid := true;
    }

    /** Adds the files named by the parameters, or marks the invocation invalid
        and terminates with InvalidArgument. */
    method ProcessRecord(p: Platform) returns (terminated: bool)
      modifies this`isValid, this`filesToProcess, this`emitted
      ensures var r := ResolveInput(files, file, inputDirectory, recursive, p);
        && (r.Ok? ==> !terminated && isValid == old(isValid) && filesToProcess == old(filesToProcess) + r.value
                      && emitted == old(emitted))
        && (r.Err? ==> terminated && !isValid && filesToProcess == old(filesToProcess)
                       && emitted == old(emitted) + [Terminated(InvalidArgument, InvalidInput(r.error))])
    {
      if files.Some? && |files.value| > 0 {
        if !AllExist(files.value, p) {
          terminated := Terminate(FilesNotFound);
          return;
        }
        filesToProcess := filesToProcess + files.value;
        return false;
      }
      if !IsNullOrWhiteSpace(file) {
        if p.fileExists(file.value) {
          filesToProcess := filesToProcess + [file.value];
          return false;
        }
        if IsNullOrWhiteSpace(inputDirectory) {
          terminated := Terminate(FileNotFound(file.value));
          return;
        }
        var joined := p.combine(inputDirectory.value, file.value);
        if p.fileExists(joined) {
          filesToProcess := filesToProcess + [joined];
          return false;
        }
        terminated := Terminate(FileNotFound(file.value));
        return;
      }
      if !IsNullOrWhiteSpace(inputDirectory) {
        if p.directoryExists(inputDirectory.value) {
          filesToProcess := filesToProcess + VideoFiles(p.getFiles(inputDirectory.value, recursive));
          return false;
        }
        terminated := Terminate(DirectoryNotFound(inputDirectory.value));
        return;
      }
      terminated := Terminate(NoValidInput);
    }

    /** Marks the invocation invalid and throws the terminating error. */
    method Terminate(e: InputError) returns (terminated: bool)
      modifies this`isValid, this`emitted
      ensures terminated && !isValid
      ensures emitted == old(emitted) + [Terminated(InvalidArgument, InvalidInput(e))]
    {
      isValid := false;
      emitted := emitted + [Terminated(InvalidArgument, InvalidInput(e))];
      terminated := true;
    }

    /** Probes every file in order and writes the output; the first failed
        probe ends the loop with a terminating error (prober missing) or a
        non-terminating one (anything else), and nothing is written. */
    method EndProcessing(p: Platform)
      requires ValidTimestamp(p.now)
      modifies this`emitted
      ensures !isValid ==> emitted == old(emitted)
      ensures isValid ==> emitted == old(emitted) + EndEvents(filesToProcess, outputDirectory, json, psObject, p)
    {
      if !isValid {
        return;
      }
      var results: seq<VideoInfo> := [];
      for i := 0 to |filesToProcess|
        invariant ProbeAll(filesToProcess[..i], p.probe) == Ok(results)
        invariant emitted == old(emitted)
      {
        var path := filesToProcess[i];
        assert filesToProcess[..i + 1][..i] == filesToProcess[..i];
        match p.probe(path)
        case Probed(info) =>
          results := results + [FromMediaInfo(info, path)];
        case ProberMissing(m) =>
          ProbeAllStops(filesToProcess, i + 1, p.probe);
          emitted := emitted + [Terminated(ResourceUnavailable, Thrown(m))];
          return;
        case ProbeFailed(m) =>
          ProbeAllStops(filesToProcess, i + 1, p.probe);
          emitted := emitted + [NonTerminatingError(InvalidOperation, Thrown(m))];
          return;
      }
      assert filesToProcess[..|filesToProcess|] == filesToProcess;
      WriteOutput(results, p);
    }

    /** Writes the output files when an output directory is set (creating it
        if needed, or warning and stopping when that fails), then the one
        output object. */
    method WriteOutput(results: seq<VideoInfo>, p: Platform)
      requires ValidTimestamp(p.now)
      modifies this`emitted
      ensures emitted == old(emitted) + OutputEvents(results, outputDirectory, json, psObject, p)
    {
      ghost var before := emitted;
      if !IsNullOrWhiteSpace(outputDirectory) {
        var directory := outputDirectory.value;
        if !p.directoryExists(directory) {
          var created := p.createDirectory(directory);
          if created.CreateFailed? {
            emitted := emitted + [Warning(WarningMessage(directory, created.message))];
            return;
          }
        }
        var written := WriteOutputFiles(results, directory, p.now, p.megabytes, p.compare, p.combine);
        assert written == LogFiles(results, directory, p);
        emitted := emitted + [FilesWritten(written)];
      }
      WriteResultObject(results, p);
      if !IsNullOrWhiteSpace(outputDirectory) {
        Assoc(before, [FilesWritten(LogFiles(results, outputDirectory.value, p))],
              [WroteObject(OutputObject(results, json, psObject, p))]);
      } else {
        assert [] + [WroteObject(OutputObject(results, json, psObject, p))]
            == [WroteObject(OutputObject(results, json, psObject, p))];
      }
    }

    /** The tail of WriteOutput: the record list for -PSObject, else the JSON
        document for -Json, else the host lines. */
    method WriteResultObject(results: seq<VideoInfo>, p: Platform)
      modifies this`emitted
      ensures emitted == old(emitted) + [WroteObject(OutputObject(results, json, psObject, p))]
    {
      if psObject {
        emitted := emitted + [WroteObject(Records(results))];
        return;
      }
      if json {
        emitted := emitted + [WroteObject(JsonDocument(results))];
        return;
      }
      var lines := GetHostOutput(results, p.megabytes, p.compare);
      emitted := emitted + [WroteObject(HostLines(lines))];
    }
  }
}
