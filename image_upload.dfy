/** The checks and names of the image upload route: the `data:image`
    prefix test, the pattern `^data:image\/(\w+);base64,(.+)$`, and the
    stored file name `<timestamp>-<name>.<ext>` with its public URL. */
module ImageUpload {

  import opened Values
  import opened Decimal
  import opened Http

  const ImagePrefix := "data:image"
  const MimePrefix := "data:image/"
  const Base64Marker := ";base64,"
  const UploadsPath := "/uploads/"

  /** `\w`: an ASCII letter, digit or underscore. */
  predicate IsWordChar(c: char)
  {
    'a' <= c <= 'z' || 'A' <= c <= 'Z' || '0' <= c <= '9' || c == '_'
  }

  predicate IsWord(s: string)
  {
    forall i :: 0 <= i < |s| ==> IsWordChar(s[i])
  }

  /** The characters `.` does not match: the line terminators. */
  predicate IsLineTerminator(c: char)
  {
    c == '\n' || c == '\r' || c == '\U{2028}' || c == '\U{2029}'
  }

  /** What `(.+)$` accepts: one or more characters, none a line terminator. */
  predicate IsPayload(s: string)
  {
    s != [] && forall i :: 0 <= i < |s| ==> !IsLineTerminator(s[i])
  }

  /** The two groups of the pattern: the image type and the base64 text. */
  datatype ImageParts = ImageParts(ext: string, payload: string)

  /** The data URI with the given groups. */
  function DataUri(parts: ImageParts): string
  {
    MimePrefix + parts.ext + Base64Marker + parts.payload
  }

  /** How many word characters `s` starts with: what the greedy `\w+` takes. */
  function WordRun(s: string): (n: nat)
    ensures n <= |s| && IsWord(s[..n])
    ensures n < |s| ==> !IsWordChar(s[n])
  {
    if s == [] || !IsWordChar(s[0]) then 0
    else
      var k := WordRun(s[1..]);
      assert s[..k + 1] == [s[0]] + s[1..][..k];
      k + 1
  }

  /** `s.match(/^data:image\/(\w+);base64,(.+)$/)`. Since `;` is not a word
      character, the greedy `\w+` never has to give characters back. */
  function MatchImageUri(s: string): (r: Option<ImageParts>)
    ensures r.Some? ==> s == DataUri(r.value) && r.value.ext != [] && IsWord(r.value.ext)
                        && IsPayload(r.value.payload)
  {
    if !(MimePrefix <= s) then None
    else
      var rest := s[|MimePrefix|..];
      var n := WordRun(rest);
      var tail := rest[n..];
      if n == 0 || !(Base64Marker <= tail) then None
      else
        var payload := tail[|Base64Marker|..];
        if !IsPayload(payload) then None
        else
          assert rest == rest[..n] + Base64Marker + payload;
          Some(ImageParts(rest[..n], payload))
  }

  /** The pattern accepts every data URI built from a word and a payload,
      and gives those parts back. */
  lemma MatchDataUri(parts: ImageParts)
    requires parts.ext != [] && IsWord(parts.ext) && IsPayload(parts.payload)
    ensures MatchImageUri(DataUri(parts)) == Some(parts)
  {
    var s := DataUri(parts);
    assert MimePrefix <= s;
    var rest := s[|MimePrefix|..];
    assert rest == parts.ext + Base64Marker + parts.payload;
    var n := WordRun(rest);
    assert rest[|parts.ext|] == ';' && !IsWordChar(';');
    assert n == |parts.ext|;
    assert rest[..n] == parts.ext;
    var tail := rest[n..];
    assert tail == Base64Marker + parts.payload;
    assert Base64Marker <= tail;
    assert tail[|Base64Marker|..] == parts.payload;
  }

  /** The first checks of the upload route: `!imageData` and the
      `startsWith('data:image')` test give 'Image invalide'; a pattern miss
      gives 'Format image invalide'; `startsWith` on a truthy value that is
      not a string throws. */
  function CheckImageData(imageData: Option<Value>): (r: Result<ImageParts>)
    ensures r.Ok? <==> imageData.Some? && imageData.value.Str?
                       && MatchImageUri(imageData.value.s).Some?
    ensures r.Ok? ==> imageData.value.s == DataUri(r.value)
    ensures r.Err? && !Truthy(imageData) ==> r.failure == InvalidImage
    ensures r.Err? && Truthy(imageData) && !imageData.value.Str? ==> r.failure == Crashed
    ensures r.Err? && imageData.Some? && imageData.value.Str? ==>
              r.failure == (if ImagePrefix <= imageData.value.s then InvalidImageFormat else InvalidImage)
  {
    if !Truthy(imageData) then Err(InvalidImage)
    else if !imageData.value.Str? then Err(Crashed)
    else if !(ImagePrefix <= imageData.value.s) then Err(InvalidImage)
    else match MatchImageUri(imageData.value.s)
      case None => Err(InvalidImageFormat)
      case Some(parts) => Ok(parts)
  }

  /** `${value}` of a JSON value taken from a request body. */
  function Display(v: Value): string
  {
    match v
    case Null => "null"
    case Bool(b) => if b then "true" else "false"
    case Num(n) => IntToString(n)
    case Str(s) => s
    case Time(ms) => IntToString(ms)  // never in a request body
    case Other(text) => text
  }

  /** `filename || uuidv4()`. */
  function FileStem(filename: Option<Value>, uuid: string): (stem: string)
    ensures !Truthy(filename) ==> stem == uuid
    ensures filename.Some? && filename.value.Str? && filename.value.s != "" ==> stem == filename.value.s
  {
    if Truthy(filename) then Display(filename.value) else uuid
  }

  /** `${Date.now()}-${stem}.${ext}`. */
  function UploadName(now: nat, stem: string, ext: string): string
  {
    NatToString(now) + "-" + stem + "." + ext
  }

  /** The public URL of a stored image. */
  function ImageUrl(name: string): string
  {
    UploadsPath + name
  }

  /** A numeral followed by `-` can be split off again: the first `-` ends it. */
  lemma NumeralPrefixUnique(a: nat, b: nat, x: string, y: string)
    requires NatToString(a) + "-" + x == NatToString(b) + "-" + y
    ensures a == b && x == y
  {
    var da, db := NatToString(a), NatToString(b);
    var s := da + "-" + x;
    assert s[|da|] == '-' && (db + "-" + y)[|db|] == '-';
    assert |da| == |db|;
    assert da == s[..|da|] == db;
    NatToStringInjective(a, b);
    assert x == s[|da| + 1..] == y;
  }

  /** A word after the last `.` can be split off again. */
  lemma ExtensionSuffixUnique(x: string, e: string, y: string, f: string)
    requires IsWord(e) && IsWord(f)
    requires x + "." + e == y + "." + f
    ensures x == y && e == f
  {
    var s := x + "." + e;
    var t := y + "." + f;
    assert s[|s| - 1 - |e|] == '.' && t[|t| - 1 - |f|] == '.' && !IsWordChar('.');
    assert |e| == |f|;
    assert e == s[|s| - |e|..] == f;
    assert x == s[..|x|] == y;
  }

  /** Distinct (instant, name, type) triples never share a stored file name:
      the timestamp, the name and the type can all be read back. */
  lemma UploadNameInjective(t1: nat, stem1: string, ext1: string, t2: nat, stem2: string, ext2: string)
    requires IsWord(ext1) && IsWord(ext2)
    requires UploadName(t1, stem1, ext1) == UploadName(t2, stem2, ext2)
    ensures t1 == t2 && stem1 == stem2 && ext1 == ext2
  {
    assert UploadName(t1, stem1, ext1) == NatToString(t1) + "-" + (stem1 + "." + ext1);
    assert UploadName(t2, stem2, ext2) == NatToString(t2) + "-" + (stem2 + "." + ext2);
    NumeralPrefixUnique(t1, t2, stem1 + "." + ext1, stem2 + "." + ext2);
    ExtensionSuffixUnique(stem1, ext1, stem2, ext2);
  }
}
