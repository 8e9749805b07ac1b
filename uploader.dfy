/** The file-selection handler of the image picker
    (components/ImageUploader.tsx, `handleFileChange`). Reading the file as a
    data URL is a browser API; its outcome is a parameter. */
module ImageUploader {
  import opened Wrappers

  /** The size ceiling: 2 MiB. */
  const MaxFileBytes: nat := 2 * 1024 * 1024

  /** The file the picker hands over. `mimeType` is carried but never inspected. */
  datatype File = File(name: string, size: nat, mimeType: string)

  /** What one change event leads to: nothing (no file, or a failed read that
      throws inside the reader's callback), a rejection with an alert, or the
      `onImageSelect` callback with the stripped payload and the same file. */
  datatype Selection = NoFile | TooLarge | ReadFailed | Selected(base64: string, file: File)

  const DataImage: string := "data:image/"
  const Base64Marker: string := ";base64,"

  /** `\w` in a JavaScript regular expression without the `u` flag. */
  predicate IsWordChar(c: char)
  {
    ('a' <= c <= 'z') || ('A' <= c <= 'Z') || ('0' <= c <= '9') || c == '_'
  }

  /** A whole string matching `data:image\/\w+;base64,`. */
  predicate IsDataUriPrefix(p: string)
  {
    |p| >= |DataImage| + 1 + |Base64Marker|
    && p[..|DataImage|] == DataImage
    && p[|p| - |Base64Marker|..] == Base64Marker
    && forall i :: |DataImage| <= i < |p| - |Base64Marker| ==> IsWordChar(p[i])
  }

  /** Length of the longest run of word characters in `s` starting at `from`. */
  function WordRun(s: string, from: nat): (n: nat)
    requires from <= |s|
    ensures from + n <= |s|
    ensures forall i :: from <= i < from + n ==> IsWordChar(s[i])
    ensures from + n == |s| || !IsWordChar(s[from + n])
    decreases |s| - from
  {
    if from < |s| && IsWordChar(s[from]) then 1 + WordRun(s, from + 1) else 0
  }

  /** The greedy run starting at `from` ends exactly at the first non-word character. */
  lemma {:induction false} WordRunStops(s: string, from: nat, end: nat)
    requires from <= end < |s| && !IsWordChar(s[end])
    requires forall i :: from <= i < end ==> IsWordChar(s[i])
    ensures WordRun(s, from) == end - from
    decreases end - from
  {
    if from < end {
      WordRunStops(s, from + 1, end);
    }
  }

  /** Length of the match of `^data:image\/\w+;base64,` in `s`, or 0 when there is none.
      `\w+` is greedy and `;` is not a word character, so the run of word
      characters after `data:image/` is the only candidate. */
  function DataUriPrefixLength(s: string): (n: nat)
    ensures n <= |s|
    ensures n != 0 ==> IsDataUriPrefix(s[..n])
  {
    if |s| >= |DataImage| && s[..|DataImage|] == DataImage then
      var k := WordRun(s, |DataImage|);
      if k >= 1 && |DataImage| + k + |Base64Marker| <= |s|
         && s[|DataImage| + k..|DataImage| + k + |Base64Marker|] == Base64Marker
      then
        var n := |DataImage| + k + |Base64Marker|;
        assert s[..n][..|DataImage|] == DataImage;
        assert s[..n][n - |Base64Marker|..] == Base64Marker;
        n
      else 0
    else 0
  }

  /** `result.replace(/^data:image\/\w+;base64,/, "")`: the result is a suffix of
      the input, and what was removed, if anything, is a data-URI prefix. */
  function StripDataUriPrefix(s: string): (r: string)
    ensures |r| <= |s| && r == s[|s| - |r|..]
    ensures r != s ==> IsDataUriPrefix(s[..|s| - |r|])
  {
    s[DataUriPrefixLength(s)..]
  }

  /** A data-URI prefix at position 0 is removed exactly, and all that follows it is kept. */
  lemma StripRemovesPrefix(s: string, n: nat)
    requires n <= |s| && IsDataUriPrefix(s[..n])
    ensures StripDataUriPrefix(s) == s[n..]
  {
    var p := s[..n];
    assert s[..|DataImage|] == p[..|DataImage|];
    var k := WordRun(s, |DataImage|);
    assert s[n - |Base64Marker|] == p[n - |Base64Marker|] == Base64Marker[0];
    WordRunStops(s, |DataImage|, n - |Base64Marker|);
    assert s[|DataImage| + k..|DataImage| + k + |Base64Marker|] == p[n - |Base64Marker|..];
  }

  /** A string that does not start with a data-URI prefix passes through unchanged. */
  lemma StripKeepsUnprefixed(s: string)
    requires forall n :: 0 <= n <= |s| ==> !IsDataUriPrefix(s[..n])
    ensures StripDataUriPrefix(s) == s
  {
  }

  /** `handleFileChange`: no file means no effect; a file above 2 MiB is rejected;
      otherwise the data URL read from the file (`dataUrl`, `None` when the read
      fails) is stripped and handed to the callback with the same file. */
  function HandleFileChange(file: Option<File>, dataUrl: Option<string>): (sel: Selection)
    ensures file.None? ==> sel == NoFile
    ensures sel == TooLarge <==> file.Some? && file.value.size > MaxFileBytes
    ensures sel == ReadFailed <==> file.Some? && file.value.size <= MaxFileBytes && dataUrl.None?
    ensures sel.Selected? <==> file.Some? && file.value.size <= MaxFileBytes && dataUrl.Some?
    ensures sel.Selected? ==> sel.file == file.value && sel.base64 == StripDataUriPrefix(dataUrl.value)
  {
    match file
    case None => NoFile
    case Some(f) =>
      if f.size > MaxFileBytes then TooLarge
      else match dataUrl
        case None => ReadFailed
        case Some(url) => Selected(StripDataUriPrefix(url), f)
  }

  /** The boundary is inclusive: exactly 2 MiB is accepted, one byte more is not. */
  lemma SizeBoundary(name: string, mimeType: string, url: string)
    ensures HandleFileChange(Some(File(name, 2097152, mimeType)), Some(url)).Selected?
    ensures HandleFileChange(Some(File(name, 2097153, mimeType)), Some(url)) == TooLarge
  {
  }

  /** For the same read result, the declared MIME type plays no part in the
      decision: only the size does. */
  lemma MimeTypeNotChecked(f: File, otherType: string, dataUrl: Option<string>)
    ensures var g := f.(mimeType := otherType);
            match HandleFileChange(Some(f), dataUrl)
            case Selected(b, _) => HandleFileChange(Some(g), dataUrl) == Selected(b, g)
            case other => HandleFileChange(Some(g), dataUrl) == other
  {
  }

  /** A media type whose subtype is not all word characters, such as
      `image/svg+xml`, does not match the pattern, so the data URL keeps its prefix. */
  lemma SvgKeepsPrefix()
    ensures StripDataUriPrefix("data:image/svg+xml;base64,QQ==") == "data:image/svg+xml;base64,QQ=="
  {
    var s := "data:image/svg+xml;base64,QQ==";
    assert s[..|DataImage|] == DataImage;
    WordRunStops(s, |DataImage|, |DataImage| + 3);
  }
}
