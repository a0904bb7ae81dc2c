/**
 * `imageFilter` of routes/campgrounds.js, the multer file filter: an upload
 * is accepted iff its original name matches `/\.(jpg|jpeg|png|gif)$/i`.
 */
module ImageFilter {
  import opened Http

  const Extensions: seq<string> := ["jpg", "jpeg", "png", "gif"]
  const OnlyImages := "Only image files are allowed!"

  datatype Verdict = Accept | Reject(error: string)

  /** Case folding of the `i` flag without `u`: only ASCII letters fold, since
      a character outside ASCII never folds to an ASCII one. */
  function Lower(c: char): char
  {
    if 'A' <= c <= 'Z' then (c as int + 32) as char else c
  }

  function LowerAll(s: string): (r: string)
    ensures |r| == |s|
    ensures forall i :: 0 <= i < |s| ==> r[i] == Lower(s[i])
  {
    if s == [] then [] else [Lower(s[0])] + LowerAll(s[1..])
  }

  /** The reading of the regular expression: the name ends with a dot and
      one of the extensions, letters compared without case. */
  predicate EndsWithExtension(name: string, ext: string)
  {
    |name| > |ext| && name[|name| - |ext| - 1] == '.' && LowerAll(name[|name| - |ext|..]) == ext
  }

  /** Position of the last dot of a name. */
  function LastDot(s: string): (r: Option<nat>)
    ensures r.Some? ==> r.value < |s| && s[r.value] == '.' &&
                        forall j :: r.value < j < |s| ==> s[j] != '.'
    ensures r.None? ==> forall j :: 0 <= j < |s| ==> s[j] != '.'
  {
    if s == [] then None
    else if s[|s| - 1] == '.' then Some(|s| - 1)
    else LastDot(s[..|s| - 1])
  }

  /** The filter as the multer callback answers: the text after the last dot,
      folded, must be one of the extensions. */
  function Filter(originalName: string): (v: Verdict)
    ensures v == Accept || v == Reject(OnlyImages)
  {
    match LastDot(originalName)
    case Some(k) => if LowerAll(originalName[k + 1..]) in Extensions then Accept else Reject(OnlyImages)
    case None => Reject(OnlyImages)
  }

  lemma ExtensionsHaveNoDot(ext: string, i: int)
    requires ext in Extensions && 0 <= i < |ext|
    ensures ext[i] != '.' && ext[i] != Lower('.')
  {
  }

  /** An accepted name ends in a dot and an extension. */
  lemma AcceptedHasExtension(name: string)
    requires Filter(name) == Accept
    ensures exists ext :: ext in Extensions && EndsWithExtension(name, ext)
  {
    var k := LastDot(name).value;
    var ext := LowerAll(name[k + 1..]);
    assert name[|name| - |ext|..] == name[k + 1..];
    assert ext in Extensions && EndsWithExtension(name, ext);
  }

  /** A name ending in a dot and an extension has its last dot there. */
  lemma ExtensionIsAccepted(name: string, ext: string)
    requires ext in Extensions && EndsWithExtension(name, ext)
    ensures Filter(name) == Accept
  {
    var p := |name| - |ext| - 1;
    var tail := name[p + 1..];
    assert tail == name[|name| - |ext|..];
    forall j | p < j < |name| ensures name[j] != '.' {
      assert LowerAll(tail)[j - p - 1] == Lower(name[j]);
      ExtensionsHaveNoDot(ext, j - p - 1);
    }
    var r := LastDot(name);
    assert r.Some? by {
      assert name[p] == '.';
    }
    assert r.value == p;
    assert LowerAll(tail) == ext;
  }

  /** The filter accepts a name iff it ends, case-insensitively, in `.jpg`,
      `.jpeg`, `.png` or `.gif`. */
  lemma FilterAcceptsImages(name: string)
    ensures Filter(name) == Accept <==> exists ext :: ext in Extensions && EndsWithExtension(name, ext)
  {
    if Filter(name) == Accept {
      AcceptedHasExtension(name);
    }
    if ext :| ext in Extensions && EndsWithExtension(name, ext) {
      ExtensionIsAccepted(name, ext);
    }
  }
}
