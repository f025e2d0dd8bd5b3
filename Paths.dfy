/** Path.GetExtension as the .NET runtime defines it on Windows: the text from
    the last '.' of the final path segment to the end, or empty when that
    segment has no '.' or the path ends with one. */
module Paths {

  predicate IsDirectorySeparator(c: char) { c == '/' || c == '\\' }

  /** No '.' and no directory separator in `s`. */
  predicate PlainTail(s: string)
  {
    forall i :: 0 <= i < |s| ==> s[i] != '.' && !IsDirectorySeparator(s[i])
  }

  /** Scans `path[..k]` backwards for the '.' that starts the extension. */
  function ExtensionScan(path: string, k: nat): (r: string)
    requires k <= |path|
    ensures r == [] || (r[0] == '.' && |path| - k < |r| <= |path| && r == path[|path| - |r|..])
  {
    if k == 0 then ""
    else if path[k - 1] == '.' then path[k - 1..]
    else if IsDirectorySeparator(path[k - 1]) then ""
    else ExtensionScan(path, k - 1)
  }

  /** The extension, if there is one, is a '.' followed by at least one character
      that is neither '.' nor a separator, and it ends the path. */
  function GetExtension(path: string): (r: string)
    ensures r == [] || (|r| >= 2 && r[0] == '.' && PlainTail(r[1..]) && |r| <= |path| && r == path[|path| - |r|..])
  {
    if |path| > 0 && path[|path| - 1] == '.' then ""
    else
      var r := ExtensionScan(path, |path|);
      ExtensionScanPlain(path, |path|);
      r
  }

  lemma {:induction false} ExtensionScanPlain(path: string, k: nat)
    requires k <= |path|
    requires PlainTail(path[k..])
    ensures var r := ExtensionScan(path, k); r == [] || PlainTail(r[1..])
    decreases k
  {
    if k > 0 && path[k - 1] != '.' && !IsDirectorySeparator(path[k - 1]) {
      assert path[k - 1..] == [path[k - 1]] + path[k..];
      ExtensionScanPlain(path, k - 1);
    } else if k > 0 && path[k - 1] == '.' {
      assert path[k - 1..][1..] == path[k..];
    }
  }

  lemma {:induction false} ExtensionScanFinds(stem: string, tail: string, k: nat)
    requires PlainTail(tail)
    requires |stem| + 1 <= k <= |stem| + 1 + |tail|
    ensures ExtensionScan(stem + "." + tail, k) == "." + tail
    decreases k
  {
    var path := stem + "." + tail;
    if k > |stem| + 1 {
      assert path[k - 1] == tail[k - 1 - |stem| - 1];
      ExtensionScanFinds(stem, tail, k - 1);
    } else {
      assert path[k - 1..] == "." + tail;
    }
  }

  lemma {:induction false} ExtensionScanNone(stem: string, segment: string, k: nat)
    requires stem == [] || IsDirectorySeparator(stem[|stem| - 1])
    requires forall i :: 0 <= i < |segment| ==> segment[i] != '.'
    requires |stem| <= k <= |stem| + |segment|
    ensures ExtensionScan(stem + segment, k) == ""
    decreases k
  {
    var path := stem + segment;
    if k > |stem| {
      assert path[k - 1] == segment[k - 1 - |stem|];
      if !IsDirectorySeparator(path[k - 1]) {
        ExtensionScanNone(stem, segment, k - 1);
      }
    } else if k > 0 {
      assert path[k - 1] == stem[|stem| - 1];
    }
  }

  /** A path whose final segment ends in "." + tail has exactly that extension. */
  lemma ExtensionOfSuffix(stem: string, tail: string)
    requires |tail| >= 1 && PlainTail(tail)
    ensures GetExtension(stem + "." + tail) == "." + tail
  {
    var path := stem + "." + tail;
    assert path[|path| - 1] == tail[|tail| - 1];
    ExtensionScanFinds(stem, tail, |path|);
  }

  /** A final segment without a '.' has no extension. */
  lemma ExtensionAbsent(stem: string, segment: string)
    requires stem == [] || IsDirectorySeparator(stem[|stem| - 1])
    requires forall i :: 0 <= i < |segment| ==> segment[i] != '.'
    ensures GetExtension(stem + segment) == ""
  {
    var path := stem + segment;
    if |path| > 0 && path[|path| - 1] == '.' {
      assert segment == [];
    } else {
      ExtensionScanNone(stem, segment, |path|);
    }
  }
}
