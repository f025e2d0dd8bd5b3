/** The probe record of one video file (VideoInfo) and its two text renderings. */
module Models {
  import opened Wrappers
  import opened Text

  /** C# `int` and `long`. */
  type Int32 = x: int | -0x8000_0000 <= x < 0x8000_0000
  type Int64 = x: int | -0x8000_0000_0000_0000 <= x < 0x8000_0000_0000_0000

  /** One probed file: the path as given, the dimensions of its first video
      stream (absent without one), and its size. */
  datatype VideoInfo = VideoInfo(file: string, width: Option<Int32>, height: Option<Int32>, sizeInBytes: Int64)

  /** What the media prober reports about a file, reduced to the parts the record uses. */
  datatype VideoStream = VideoStream(width: Int32, height: Int32)
  datatype MediaInfo = MediaInfo(videoStreams: seq<VideoStream>, size: Int64)

  /** The record built from a probe result: File is the supplied path, Width and
      Height come from the first video stream (absent when there is none), and
      SizeInBytes is the probed size. */
  function FromMediaInfo(info: MediaInfo, file: string): (v: VideoInfo)
    ensures v.file == file && v.sizeInBytes == info.size
    ensures v.width.Some? <==> |info.videoStreams| > 0
    ensures v.height.Some? <==> |info.videoStreams| > 0
    ensures |info.videoStreams| > 0 ==>
      v.width.value == info.videoStreams[0].width && v.height.value == info.videoStreams[0].height
  {
    var first := if |info.videoStreams| > 0 then Some(info.videoStreams[0]) else None;
    VideoInfo(file,
              if first.Some? then Some(first.value.width) else None,
              if first.Some? then Some(first.value.height) else None,
              info.size)
  }

  /** `{x}` interpolation of a nullable int: null renders as the empty string. */
  function DimensionText(d: Option<Int32>): string
  {
    if d.Some? then IntText(d.value) else ""
  }

  /** Resolution(): `{Width}x{Height}`. */
  function Resolution(v: VideoInfo): (r: string)
    ensures |r| >= 1
    ensures ParseResolution(r) == Some((v.width, v.height))
  {
    var w := DimensionText(v.width);
    var r := w + "x" + DimensionText(v.height);
    assert 'x' !in w;
    assert r[|w|] == 'x' && r[..|w|] == w && r[|w| + 1..] == DimensionText(v.height);
    FirstIndexOfPrefix(w, DimensionText(v.height), 'x');
    r
  }

  /** Index of the first occurrence of `c` in `s`. */
  function FirstIndex(s: string, c: char): (i: nat)
    requires c in s
    ensures i < |s| && s[i] == c && c !in s[..i]
  {
    if s[0] == c then 0
    else
      var i := FirstIndex(s[1..], c) + 1;
      assert s[..i] == [s[0]] + s[1..][..i - 1];
      i
  }

  lemma FirstIndexOfPrefix(a: string, b: string, c: char)
    requires c !in a
    ensures FirstIndex(a + [c] + b, c) == |a|
  {
    var s := a + [c] + b;
    assert s[|a|] == c && s[..|a|] == a;
  }

  /** One side of a resolution label: empty for an absent dimension, otherwise an Int32 in decimal. */
  function ParseDimension(s: string): Option<Option<Int32>>
  {
    if s == [] then Some(None)
    else match ParseInt(s)
      case Some(n) => if -0x8000_0000 <= n < 0x8000_0000 then Some(Some(n as Int32)) else None
      case None => None
  }

  /** Reads a resolution label back into Width and Height, splitting at the first 'x'. */
  function ParseResolution(s: string): Option<(Option<Int32>, Option<Int32>)>
  {
    if 'x' !in s then None
    else
      var i := FirstIndex(s, 'x');
      match (ParseDimension(s[..i]), ParseDimension(s[i + 1..]))
      case (Some(w), Some(h)) => Some((w, h))
      case _ => None
  }

  function Max(a: int, b: int): int { if a < b then b else a }

  /** ResultLine(): the resolution padded to 10, two spaces, the size in
      megabytes followed by "Mb" padded to 10, two spaces, and the file.
      `megabytes` renders SizeInMb for a size in bytes. Neither column is
      truncated: the line starts with the whole resolution and ends with the file. */
  function ResultLine(v: VideoInfo, megabytes: Int64 -> string): (r: string)
    ensures |r| == Max(10, |Resolution(v)|) + 2 + Max(10, |megabytes(v.sizeInBytes)| + 2) + 2 + |v.file|
    ensures r[..|Resolution(v)|] == Resolution(v)
    ensures r[|r| - |v.file|..] == v.file
  {
    var res := PadRight(Resolution(v), 10);
    var mb := PadRight(megabytes(v.sizeInBytes) + "Mb", 10);
    var r := res + "  " + mb + "  " + v.file;
    assert r[..|res|] == res;
    r
  }

  /** The columns of a result line: the resolution, spaces up to column
      max(10, |resolution|) + 2, the size text, spaces up to the next column,
      and the file. */
  lemma ResultLineColumns(v: VideoInfo, megabytes: Int64 -> string)
    ensures var r, res, size := ResultLine(v, megabytes), Resolution(v), megabytes(v.sizeInBytes) + "Mb";
      var sizeAt := Max(10, |res|) + 2;
      var fileAt := sizeAt + Max(10, |size|) + 2;
      && fileAt + |v.file| == |r|
      && (forall i :: |res| <= i < sizeAt ==> r[i] == ' ')
      && r[sizeAt..sizeAt + |size|] == size
      && (forall i :: sizeAt + |size| <= i < fileAt ==> r[i] == ' ')
  {
    PaddedColumns(Resolution(v), megabytes(v.sizeInBytes) + "Mb", v.file);
  }

  lemma PaddedColumns(x: string, y: string, f: string)
    ensures var r := PadRight(x, 10) + "  " + PadRight(y, 10) + "  " + f;
      var yAt := Max(10, |x|) + 2;
      var fAt := yAt + Max(10, |y|) + 2;
      && fAt + |f| == |r|
      && (forall i :: |x| <= i < yAt ==> r[i] == ' ')
      && r[yAt..yAt + |y|] == y
      && (forall i :: yAt + |y| <= i < fAt ==> r[i] == ' ')
  {
    var left, right := PaddedGap(x), PaddedGap(y);
    var r := left + right + f;
    assert r == PadRight(x, 10) + "  " + PadRight(y, 10) + "  " + f;
    assert forall i :: 0 <= i < |left| ==> r[i] == left[i];
    assert forall i :: 0 <= i < |right| ==> r[|left| + i] == right[i];
    assert r[|left|..|left| + |y|] == right[..|y|];
  }

  /** A column: the text padded to 10, then two spaces. */
  function PaddedGap(x: string): (r: string)
    ensures |r| == Max(10, |x|) + 2 && r[..|x|] == x
    ensures forall i :: |x| <= i < |r| ==> r[i] == ' '
  {
    var r := PadRight(x, 10) + "  ";
    assert r[..|x|] == PadRight(x, 10)[..|x|];
    r
  }

  /** A record without a video stream renders its resolution as "x". */
  lemma NoVideoStreamResolution(info: MediaInfo, file: string)
    requires info.videoStreams == []
    ensures Resolution(FromMediaInfo(info, file)) == "x"
  {
  }

  /** The resolution label of a record with both dimensions is never shorter than 3. */
  lemma ResolutionOfDimensions(v: VideoInfo)
    requires v.width.Some? && v.height.Some?
    ensures Resolution(v) == IntText(v.width.value) + "x" + IntText(v.height.value)
    ensures |Resolution(v)| >= 3
  {
  }

  /** A result line has no line break unless its file name or size text has one. */
  lemma ResultLineNoNewLine(v: VideoInfo, megabytes: Int64 -> string)
    requires NoNewLine(v.file) && NoNewLine(megabytes(v.sizeInBytes))
    ensures NoNewLine(ResultLine(v, megabytes))
  {
    var w, h := DimensionText(v.width), DimensionText(v.height);
    assert NoNewLine(w) && NoNewLine(h);
    NoNewLineAppend(w, "x");
    NoNewLineAppend(w + "x", h);
    var res := Resolution(v);
    var size := megabytes(v.sizeInBytes) + "Mb";
    NoNewLineAppend(megabytes(v.sizeInBytes), "Mb");
    NoNewLinePadRight(res, 10);
    NoNewLinePadRight(size, 10);
    var left := PadRight(res, 10) + "  ";
    NoNewLineAppend(PadRight(res, 10), "  ");
    NoNewLineAppend(left, PadRight(size, 10));
    NoNewLineAppend(left + PadRight(size, 10), "  ");
    NoNewLineAppend(left + PadRight(size, 10) + "  ", v.file);
    assert left + PadRight(size, 10) + "  " + v.file == ResultLine(v, megabytes);
  }
}
