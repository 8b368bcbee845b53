/** Base64 image uploads: recognising a `data:image/…;base64,…` URI,
    choosing the file extension from its MIME type, and the public path of
    the stored file. */
module ImageStore {
  import opened Common

  const DataUriPrefix := "data:image/"
  const Base64Marker := ";base64,"
  const InvalidDataUriMessage := "Invalid data URI"

  /** `mimeToExtension[mime] ?? 'bin'`. */
  function ExtensionFor(mime: string): (ext: string)
    ensures ext in {"jpg", "png", "webp", "gif", "bmp", "svg", "bin"}
    ensures ext == "bin" <==> mime !in {"image/jpeg", "image/png", "image/webp", "image/gif", "image/bmp", "image/svg+xml"}
  {
    if mime == "image/jpeg" then "jpg"
    else if mime == "image/png" then "png"
    else if mime == "image/webp" then "webp"
    else if mime == "image/gif" then "gif"
    else if mime == "image/bmp" then "bmp"
    else if mime == "image/svg+xml" then "svg"
    else "bin"
  }

  /** `[a-zA-Z0-9.+-]`, the characters of a MIME subtype. */
  predicate IsSubtypeChar(c: char) {
    ('a' <= c <= 'z') || ('A' <= c <= 'Z') || ('0' <= c <= '9') || c == '.' || c == '+' || c == '-'
  }

  /** `[A-Za-z0-9+/=\r\n]`, the characters of the base64 payload. */
  predicate IsPayloadChar(c: char) {
    ('a' <= c <= 'z') || ('A' <= c <= 'Z') || ('0' <= c <= '9') || c == '+' || c == '/' || c == '=' ||
    c == '\r' || c == '\n'
  }

  /** `s` is `data:image/<subtype>;base64,<payload>` with a non-empty
      subtype and payload drawn from their character classes. */
  predicate IsDataUri(s: string, subtype: string, payload: string) {
    && s == DataUriPrefix + subtype + Base64Marker + payload
    && subtype != [] && (forall k :: 0 <= k < |subtype| ==> IsSubtypeChar(subtype[k]))
    && payload != [] && (forall k :: 0 <= k < |payload| ==> IsPayloadChar(payload[k]))
  }

  /** The match of the anchored data-URI pattern: the subtype and the
      payload, or None when the text does not match. */
  function MatchDataUri(s: string): (r: Option<(string, string)>)
    ensures r.Some? ==> IsDataUri(s, r.value.0, r.value.1)
  {
    if !StartsWith(s, DataUriPrefix) then
      None
    else
      var rest := s[|DataUriPrefix|..];
      var k := IndexOfChar(rest, ';', 0);
      if k <= 0 then
        None
      else
        var subtype := rest[..k];
        var tail := rest[k..];
        if !(forall j :: 0 <= j < |subtype| ==> IsSubtypeChar(subtype[j])) || !StartsWith(tail, Base64Marker) then
          None
        else
          var payload := tail[|Base64Marker|..];
          if payload == [] || !(forall j :: 0 <= j < |payload| ==> IsPayloadChar(payload[j])) then None
          else
            assert s == DataUriPrefix + subtype + Base64Marker + payload;
            Some((subtype, payload))
  }

  /** The matcher accepts every data URI and splits it as written; with
      the contract of `MatchDataUri`, the match is unique. */
  lemma MatchDataUriComplete(s: string, subtype: string, payload: string)
    requires IsDataUri(s, subtype, payload)
    ensures MatchDataUri(s) == Some((subtype, payload))
  {
    assert s[..|DataUriPrefix|] == DataUriPrefix;
    var rest := s[|DataUriPrefix|..];
    assert rest == subtype + Base64Marker + payload;
    assert rest[|subtype|] == ';';
    assert forall j :: 0 <= j < |subtype| ==> rest[j] == subtype[j] && rest[j] != ';';
    var k := IndexOfChar(rest, ';', 0);
    assert k == |subtype|;
    assert rest[..k] == subtype;
    assert rest[k..] == Base64Marker + payload;
    assert rest[k..][..|Base64Marker|] == Base64Marker;
    assert rest[k..][|Base64Marker|..] == payload;
  }

  /** `isDataUriImage()`: the trimmed text is a data URI. */
  predicate IsDataUriImage(value: string) {
    MatchDataUri(Trim(value)).Some?
  }

  /** `data.replace(/\s+/g, '')`: the payload without white space. */
  function StripWhitespace(s: string): (r: string)
    ensures |r| <= |s|
    ensures forall k :: 0 <= k < |r| ==> !IsJsSpace(r[k])
    ensures forall c :: c in r <==> c in s && !IsJsSpace(c)
    ensures (forall k :: 0 <= k < |s| ==> !IsJsSpace(s[k])) ==> r == s
  {
    if s == [] then []
    else Kept(s[0]) + StripWhitespace(s[1..])
  }

  /** What one character contributes: nothing for white space, otherwise
      itself. */
  function Kept(c: char): string {
    if IsJsSpace(c) then [] else [c]
  }

  /** Stripping works character by character, keeping order and
      multiplicity: it distributes over concatenation. */
  lemma {:induction false} StripWhitespaceAppend(a: string, b: string)
    ensures StripWhitespace(a + b) == StripWhitespace(a) + StripWhitespace(b)
  {
    if a != [] {
      calc {
        StripWhitespace(a + b);
      == { assert (a + b)[0] == a[0] && (a + b)[1..] == a[1..] + b; }
        Kept(a[0]) + StripWhitespace(a[1..] + b);
      == { StripWhitespaceAppend(a[1..], b); }
        Kept(a[0]) + (StripWhitespace(a[1..]) + StripWhitespace(b));
      == { AppendAssoc(Kept(a[0]), StripWhitespace(a[1..]), StripWhitespace(b)); }
        StripWhitespace(a) + StripWhitespace(b);
      }
    } else {
      assert a + b == b;
    }
  }

  /** What `saveDataUriImage()` hands to the file system and returns: the
      file name, the base64 text to decode, and the public path. */
  datatype SavedImage = SavedImage(fileName: string, base64: string, path: string)

  /** `saveDataUriImage()` without the write: `id` stands for the random
      12-character identifier. */
  function SaveDataUriImage(value: string, id: string): (r: Result<SavedImage, string>)
    ensures r.Failure? <==> !IsDataUriImage(value)
    ensures r.Failure? ==> r.error == InvalidDataUriMessage
    ensures r.Success? ==>
      var m := MatchDataUri(Trim(value)).value;
      && r.value.fileName == id + "." + ExtensionFor("image/" + m.0)
      && r.value.path == "/img/" + r.value.fileName
      && r.value.base64 == StripWhitespace(m.1)
  {
    match MatchDataUri(Trim(value))
    case None => Failure(InvalidDataUriMessage)
    case Some((subtype, payload)) =>
      var fileName := id + "." + ExtensionFor("image/" + subtype);
      Success(SavedImage(fileName, StripWhitespace(payload), "/img/" + fileName))
  }
}
