# Get-VideoResolution, modelled in Dafny

`Get-VideoResolution` is a PowerShell cmdlet. It probes video files with ffprobe
and reports each file's resolution (`{Width}x{Height}` of its first video stream)
and size. It works in three steps:

1. **Which files.** `ProcessRecord` picks the files to probe from its parameters,
   in this order of preference:
   - a non-empty `-Files` list;
   - else a single `-File`, either on its own or joined to `-InputDirectory`;
   - else the video files of `-InputDirectory`, found by extension, optionally `-Recursive`.

   It throws a terminating error when a `-Files` list has any entry that does not
   exist, when `-File` exists neither on its own nor joined to `-InputDirectory`,
   when `-InputDirectory` does not exist, or when none of the three is given. An
   existing input directory without video files is not an error: there is then
   nothing to probe.
2. **Probing.** `EndProcessing` probes the files in order into `VideoInfo` records.
3. **Output.** `WriteOutput`:
   - when `-OutputDirectory` is set, first writes two files there: a `.log` and a
     `.json`, both named `VideoResolution_yyyyMMdd_HHmmss`;
   - then writes exactly one object, which is the record list (`-PSObject`), else a
     JSON document (`-Json`), else the host lines.

   The host lines are a banner, then the records ordered by width and again by file
   name. For a single record there is one unsectioned table instead.

The project has these modules:

| module | contents |
|---|---|
| `Models` | the `VideoInfo` record, its construction from a probe result, `Resolution()` and `ResultLine()` |
| `Formatters` | the two orderings (LINQ `OrderBy`, a stable sort), the host line list, the log text and the timestamped file name |
| `Cmdlet` | the cmdlet as a class, whose fields are its parameters, `_isValid`, `_filesToProcess` and everything it has handed to the PowerShell runtime (`emitted`); each stage is also specified by a function of the parameters and the outside world |
| `Text`, `Paths`, `Sorting`, `Sequences`, `Wrappers` | the .NET library behaviour the core relies on: `PadRight`, `string.IsNullOrWhiteSpace`, `Path.GetExtension`, ordinal ignore-case comparison, integer formatting, `OrderBy`, and line splitting used to read the log back |

The outside world is one `Platform` value. It bundles:
- the file system queries (`File.Exists`, `Directory.Exists`, `Directory.GetFiles`, `Directory.CreateDirectory`);
- `Path.Combine`;
- the prober;
- the megabyte text of a size;
- the current culture's string order;
- `DateTime.Now`.

The width-ordered records are written to the log with `Write` rather than `WriteLine`. The model keeps that. `Formatters.LogLines` states the consequence: read as lines, the log holds all width-ordered records run together on one line, and that line absorbs the blank first line of the name header.

## Model

| member | source | states |
|---|---|---|
| Models.FromMediaInfo | src/PsVideoResolution.Core/Models/VideoInfo.cs:39-45 | File is the supplied path and SizeInBytes the probed size. Width and Height are present exactly when there is a video stream, and then come from the first stream. |
| Models.Resolution | src/PsVideoResolution.Core/Models/VideoInfo.cs:17 | The label is never empty and reads back (`ParseResolution`) to exactly the record's Width and Height, absent dimensions included. |
| Models.NoVideoStreamResolution | src/PsVideoResolution.Core/Models/VideoInfo.cs:17 | A file probed without a video stream is labelled "x". |
| Models.ResolutionOfDimensions | src/PsVideoResolution.Core/Models/VideoInfo.cs:17 | With both dimensions the label is width, 'x', height in decimal, and is at least 3 characters long. |
| Text.IntText | src/PsVideoResolution.Core/Models/VideoInfo.cs:17 | The decimal text of an int is non-empty, consists of digits with an optional leading '-', and parses back to the same number. It is in normal form: a leading '0' only for "0" itself, and no "-0" or "-07". |
| Text.PadRight | src/PsVideoResolution.Core/Models/VideoInfo.cs:21-22 | The result is never shorter than the input or the width. It starts with the input unchanged and is spaces after it, so nothing is truncated. |
| Models.ResultLine | src/PsVideoResolution.Core/Models/VideoInfo.cs:19-25 | The line starts with the whole resolution label (even one longer than 10, e.g. 10000x10000) and ends with the whole file path. Its length is max(10,\|res\|)+2+max(10,\|size\|)+2+\|file\|. |
| Models.ResultLineColumns | src/PsVideoResolution.Core/Models/VideoInfo.cs:19-25 | The size text (megabytes + "Mb") starts at column max(10,\|res\|)+2. Spaces fill the gaps between the label, the size text and the file, which starts after the size column's own max(10,·)+2. |
| Models.ResultLineNoNewLine | src/PsVideoResolution.Core/Models/VideoInfo.cs:19-25 | A result line contains a line break only if the file path or the size text does. |
| Paths.GetExtension | src/PsVideoResolutionCmdlet/GetVideoResolutionCmdlet.cs:224 | The extension is empty, or it is a suffix of the path that starts with '.' and whose remainder has no '.' and no separator. |
| Paths.ExtensionOfSuffix | src/PsVideoResolutionCmdlet/GetVideoResolutionCmdlet.cs:224 | The extension of stem + "." + tail is "." + tail whenever the tail is non-empty and has no '.' or separator. |
| Paths.ExtensionAbsent | src/PsVideoResolutionCmdlet/GetVideoResolutionCmdlet.cs:224 | A last path segment without '.' has an empty extension. |
| Cmdlet.VideoFiles | src/PsVideoResolutionCmdlet/GetVideoResolutionCmdlet.cs:220-225 | A file is selected exactly when it is in the listing and its extension matches one of the ten video extensions, ignoring case. The selection is never longer than the listing. |
| Cmdlet.VideoFilesAppend | src/PsVideoResolutionCmdlet/GetVideoResolutionCmdlet.cs:222-225 | Selection keeps listing order: selecting from a concatenation is the concatenation of the selections. |
| Cmdlet.IsVideoFileBySuffix | src/PsVideoResolutionCmdlet/GetVideoResolutionCmdlet.cs:220-224 | A name ending in "." + tail is a video file exactly when "." + tail equals a listed extension, ignoring case. |
| Cmdlet.UpperCaseExtensionSelected | src/PsVideoResolutionCmdlet/GetVideoResolutionCmdlet.cs:224 | "C:\Videos\Film.MP4" is selected: the extension comparison ignores case. |
| Cmdlet.NoExtensionNotSelected | src/PsVideoResolutionCmdlet/GetVideoResolutionCmdlet.cs:224 | Any path whose last segment (after the last separator) contains no '.' is not selected. |
| Cmdlet.TrailingDotNotSelected | src/PsVideoResolutionCmdlet/GetVideoResolutionCmdlet.cs:224 | Any path ending in '.' has an empty extension and is not selected. |
| Cmdlet.LastExtensionCounts | src/PsVideoResolutionCmdlet/GetVideoResolutionCmdlet.cs:224 | "holiday.mkv.part" is not selected: only the last extension counts. |
| Cmdlet.ResolveFileList | src/PsVideoResolutionCmdlet/GetVideoResolutionCmdlet.cs:163-177 | A non-empty file list is accepted as given (order and duplicates kept) exactly when every file exists. Otherwise it is rejected as a whole with "one or more files not found". -File and -InputDirectory are ignored either way. |
| Cmdlet.ResolveSingleFile | src/PsVideoResolutionCmdlet/GetVideoResolutionCmdlet.cs:180-210 | An existing file is taken as it is, and the input directory is then ignored. Only when the file does not exist is the joined path tried and, if it exists, taken instead. A single file succeeds exactly in those two cases. On failure the error names the file as supplied. |
| Cmdlet.ResolveDirectory | src/PsVideoResolutionCmdlet/GetVideoResolutionCmdlet.cs:213-233 | With the file list absent or empty and the file absent or blank, an existing input directory yields the video files of its listing. That listing may be empty, which is not an error. A missing directory yields DirectoryNotFound naming it. |
| Cmdlet.ResolveNothing | src/PsVideoResolutionCmdlet/GetVideoResolutionCmdlet.cs:235-237 | The "no valid input parameters" error happens exactly when there is no non-empty list, no non-blank file and no non-blank directory. |
| Cmdlet.ResolvedFilesExist | src/PsVideoResolutionCmdlet/GetVideoResolutionCmdlet.cs:160-238 | Every file accepted for probing either exists or is a video file from the input directory's listing. |
| Cmdlet.ProbeAllSucceeds | src/PsVideoResolutionCmdlet/GetVideoResolutionCmdlet.cs:255-268 | Probing succeeds exactly when every file probes. It then yields one record per path, in order, each built from that path's own media info with File equal to the path. |
| Cmdlet.ProbeAllFirstFailure | src/PsVideoResolutionCmdlet/GetVideoResolutionCmdlet.cs:253-279 | A failed run reports the first file that failed to probe: every earlier file probed, and the error carries that file's failure. |
| Cmdlet.ProbeAllStops | src/PsVideoResolutionCmdlet/GetVideoResolutionCmdlet.cs:253-279 | Once a prefix has failed, the remaining files do not change the outcome: they are not probed. |
| Cmdlet.OutputShape | src/PsVideoResolutionCmdlet/GetVideoResolutionCmdlet.cs:282-320 | If the output directory cannot be created, there is a single warning and no object. Otherwise exactly one object is written, and it comes last. The output files precede it exactly when an output directory is set. |
| Cmdlet.RunWritesOneObject | src/PsVideoResolutionCmdlet/GetVideoResolutionCmdlet.cs:139-144 | An invocation writes at most one object. It writes one exactly when the input resolves, every file probes, and any output directory is usable. |
| Cmdlet.RunInputError | src/PsVideoResolutionCmdlet/GetVideoResolutionCmdlet.cs:139-144 | An input error ends the invocation with a single InvalidArgument terminating error, before anything is probed or written. The error record's message is the message of that input error. |
| Cmdlet.ErrorMessageNames | src/PsVideoResolutionCmdlet/GetVideoResolutionCmdlet.cs:194-232 | The file-not-found message starts "File not found: " followed by the file as supplied. The directory-not-found message starts "Directory not found: " followed by the directory. |
| Cmdlet.NotFoundMessageInjective | src/PsVideoResolutionCmdlet/GetVideoResolutionCmdlet.cs:194-232 | Two not-found errors of the same kind have the same message exactly when they name the same path. |
| Cmdlet.WarningMessageNames | src/PsVideoResolutionCmdlet/GetVideoResolutionCmdlet.cs:294 | The warning for an output directory that cannot be created names that directory and ends with the exception's message. |
| Cmdlet.RunSingleFile | src/PsVideoResolutionCmdlet.Tests/GetVideoResolutionCmdletTests.cs:50-52 | With one existing file and no switches, the host receives 7 lines, and line 5 is that file's result line (resolution, size and path). |
| Cmdlet.RunFileList | src/PsVideoResolutionCmdlet/GetVideoResolutionCmdlet.cs:139-144 | With a list of existing files that all probe, the only event is the host output over one record per file, in list order. |
| Cmdlet.GetVideoResolutionCmdlet.constructor | src/PsVideoResolutionCmdlet/GetVideoResolutionCmdlet.cs:80-137 | The parameters are as supplied, nothing is queued and nothing has been emitted. |
| Cmdlet.GetVideoResolutionCmdlet.ProcessInternal | src/PsVideoResolutionCmdlet/GetVideoResolutionCmdlet.cs:139-144 | The three stages together append exactly the invocation's events (`RunEvents`) to what was emitted. |
| Cmdlet.GetVideoResolutionCmdlet.BeginProcessing | src/PsVideoResolutionCmdlet/GetVideoResolutionCmdlet.cs:150-154 | The invocation becomes valid with an empty file list. |
| Cmdlet.GetVideoResolutionCmdlet.ProcessRecord | src/PsVideoResolutionCmdlet/GetVideoResolutionCmdlet.cs:160-238 | The file list only grows, by the resolved files, and nothing is emitted. Or, on an input error, validity is only ever cleared, the list is unchanged and one InvalidArgument terminating error naming the cause is emitted. |
| Cmdlet.GetVideoResolutionCmdlet.Terminate | src/PsVideoResolutionCmdlet/GetVideoResolutionCmdlet.cs:168-170 | Clears validity and emits one InvalidArgument terminating error carrying the input error. |
| Cmdlet.GetVideoResolutionCmdlet.EndProcessing | src/PsVideoResolutionCmdlet/GetVideoResolutionCmdlet.cs:244-280 | On an invalid invocation it does nothing. Otherwise it emits the output of the probed records, a ResourceUnavailable terminating error when the prober is missing, or an InvalidOperation error for any other probe failure. |
| Cmdlet.GetVideoResolutionCmdlet.WriteOutput | src/PsVideoResolutionCmdlet/GetVideoResolutionCmdlet.cs:282-320 | Emits the output events for the records: a warning alone, or the output files when a directory is set, followed by the one result object. |
| Cmdlet.GetVideoResolutionCmdlet.WriteResultObject | src/PsVideoResolutionCmdlet/GetVideoResolutionCmdlet.cs:303-319 | Emits one object: the record list under -PSObject (which wins over -Json), else the JSON document, else the host lines. |
| Sorting.SortBy | src/PsVideoResolution.Core/Formatters/OutputFormatter.cs:83 | Ordering is a permutation: same length, same multiset of records. |
| Sorting.SortBySorted | src/PsVideoResolution.Core/Formatters/OutputFormatter.cs:83 | Under a total preorder the result is sorted. |
| Sorting.SortByStable | src/PsVideoResolution.Core/Formatters/OutputFormatter.cs:83 | Under a total preorder, records with equal keys keep their input order. |
| Sorting.SortByIsTheStableSort | src/PsVideoResolution.Core/Formatters/OutputFormatter.cs:83 | Any sorted sequence that keeps each class of equal keys in input order is the sort's result, so the stable sort is unique. |
| Formatters.WidthLeTotalPreorder | src/PsVideoResolution.Core/Formatters/OutputFormatter.cs:83 | The nullable-int order on Width (absent first) is total and transitive. |
| Formatters.NameLeTotalPreorder | src/PsVideoResolution.Core/Formatters/OutputFormatter.cs:89 | Ordering records by File under a total preorder on strings is itself a total preorder. |
| Formatters.ByWidth | src/PsVideoResolution.Core/Formatters/OutputFormatter.cs:83 | The width-ordered view is a permutation of the records. |
| Formatters.ByName | src/PsVideoResolution.Core/Formatters/OutputFormatter.cs:89 | The name-ordered view is a permutation of the records. |
| Formatters.ByWidthOrder | src/PsVideoResolution.Core/Formatters/OutputFormatter.cs:83 | The view is sorted by Width, records without a width come first, and records of equal width keep input order. |
| Formatters.ByWidthUnique | src/PsVideoResolution.Core/Formatters/OutputFormatter.cs:83 | Any sequence sorted by Width that keeps equal widths in input order is the width-ordered view. |
| Formatters.ByNameOrder | src/PsVideoResolution.Core/Formatters/OutputFormatter.cs:89 | Under a total preorder comparer the view is sorted by File, and files that compare equal keep input order. |
| Formatters.ByNameUnique | src/PsVideoResolution.Core/Formatters/OutputFormatter.cs:89 | Any sequence sorted by File that keeps equal files in input order is the name-ordered view. |
| Formatters.ByWidthTwo | src/PsVideoResolution.Core/Formatters/OutputFormatter.cs:83 | Two records are swapped exactly when the first's width does not order at or below the second's. |
| Formatters.ByNameTwo | src/PsVideoResolution.Core/Formatters/OutputFormatter.cs:89 | Two records are swapped exactly when the first file does not compare at or below the second. |
| Formatters.GetHostOutput | src/PsVideoResolution.Core/Formatters/OutputFormatter.cs:64-94 | The list grown by Add/AddRange is the host line list whose layout the lemmas below describe. |
| Formatters.HostOutputFraming | src/PsVideoResolution.Core/Formatters/OutputFormatter.cs:64-94 | Every host output has at least 7 lines, opens with the blank line and "Finished! Here are the results:", and ends with a blank line. |
| Formatters.HostOutputSingle | src/PsVideoResolution.Core/Formatters/OutputFormatter.cs:68-77 | One record gives exactly 7 lines: banner, column header, the record's line at index 5, and a blank line. |
| Formatters.HostOutputSingleUnsectioned | src/PsVideoResolution.Core/Formatters/OutputFormatter.cs:68-77 | One record gives neither "Ordered by resolution:" nor "Ordered by name:". |
| Formatters.HostOutputLayout | src/PsVideoResolution.Core/Formatters/OutputFormatter.cs:79-93 | Any other count n, zero included, gives 15+2n lines. The width-ordered records are at indices 8..8+n and the name header at 8+n. The name-ordered records are at 14+n..14+2n, so for two records at 8, 9, 16 and 17. |
| Formatters.WriteOutputFiles | src/PsVideoResolution.Core/Formatters/OutputFormatter.cs:17-57 | The log and JSON files share the base name and sit in the output directory. The log holds the log text, and the JSON file serializes exactly the records. |
| Formatters.WriteLinesTo | src/PsVideoResolution.Core/Formatters/OutputFormatter.cs:27-30 | The WriteLine loop appends each line followed by a line break to the writer's contents. |
| Formatters.WriteAllTo | src/PsVideoResolution.Core/Formatters/OutputFormatter.cs:32-35 | The Write loop appends the pieces with no separator. |
| Formatters.LogLines | src/PsVideoResolution.Core/Formatters/OutputFormatter.cs:24-45 | Read as lines, the log always has both sections and never the column header. It holds the resolution header, then all width-ordered records on one line, then "Ordered by name:" and its rule, one line per name-ordered record, and a final empty line. |
| Formatters.LogSingleRecord | src/PsVideoResolution.Core/Formatters/OutputFormatter.cs:24-45 | Even for one record the log has both sections: the record's line appears once under each. |
| Formatters.BaseFileName | src/PsVideoResolution.Core/Formatters/OutputFormatter.cs:22 | The base name is 31 characters: "VideoResolution_", eight digits, '_', six digits. |
| Formatters.BaseFileNameRoundTrip | src/PsVideoResolution.Core/Formatters/OutputFormatter.cs:22 | The timestamp reads back out of the base name unchanged. |
| Formatters.BaseFileNameInjective | src/PsVideoResolution.Core/Formatters/OutputFormatter.cs:20-22 | Two runs get the same file names exactly when they write their files in the same second. The clock is read when the files are written, after all probing. |

## Left out

- Progress reporting: `WriteProgress` while probing more than one file (GetVideoResolutionCmdlet.cs:251-262) has no effect on results or output, so it is not modelled.
- JSON serialization: the `.json` file and the `-Json` object are modelled as the record list they serialize (`OutputFiles.records`, `JsonDocument`). Their text is not modelled.
- The `VideoInfo(string json, string file)` constructor (VideoInfo.cs:29-37) is not used by the cmdlet and is not part of this model. `SizeInGb` is not read by the code; it only appears in the JSON text, which is left out.
- `SizeInMb` is floating-point ByteSize arithmetic, and `{SizeInMb}` is culture-dependent double formatting. The megabyte text is the `megabytes` parameter, a function of the size in bytes.
- `Path.Combine`, `File.Exists`, `Directory.Exists`, `Directory.GetFiles`, `Directory.CreateDirectory` and the ffprobe call are parameters of `Platform`. The model takes their answers as given.
- `DateTime.Now` is the `Timestamp` parameter.
- The current culture's string comparison used by `OrderBy(r => r.File)` is the `compare` parameter. The ordering lemmas assume it is a total preorder.
- Text.EqualsOrdinalIgnoreCase: folds ASCII letters only. .NET's ordinal ignore-case also folds other letters, which no video extension contains.
- Paths.GetExtension: treats both '/' and '\' as directory separators, as on Windows. No volume separator handling.
- Line breaks are "\n". On Windows `StreamWriter.WriteLine` writes "\r\n".
- Cmdlet.GetVideoResolutionCmdlet.EndProcessing: every prober failure is a result of the probe. A missing-ffmpeg failure arrives at the ResourceUnavailable catch directly, although `.Result` may wrap it in an AggregateException, which the general catch would take.
- `Directory.GetFiles` can throw, e.g. UnauthorizedAccessException on an unreadable subdirectory under `-Recursive`. That exception escapes ProcessRecord uncaught (GetVideoResolutionCmdlet.cs:223). The model's `getFiles` always returns a listing, so this path is not modelled.
- Formatters.WriteOutputFiles: cannot fail. An I/O error while writing the files would propagate to EndProcessing's general catch as an InvalidOperation error; that path is not modelled.
- Pipeline input: `ProcessRecord` runs once per invocation, as in `ProcessInternal`.
- Code followed over the prose description in two places:
  - a probe failure aborts the whole loop, because the try block encloses it, and nothing is written;
  - a failed creation of the output directory returns before any object is written.
