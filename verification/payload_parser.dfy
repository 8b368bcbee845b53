/** The proxy request body: the render mode and its synonyms, message
    normalisation, the numeric message slots in ascending order, image
    classification, and the payload handed to the rest of the gateway. */
module PayloadParser {
  import opened Common
  import opened Json
  import opened ImageStore

  datatype RenderMode = TextMode | InlineHtml | HostedPage

  datatype ParsedUserMessage = TextMessage(text: string) | ImageMessage(url: string)

  datatype ParsedPayload = ParsedPayload(
    model: string,
    system: Option<string>,
    renderMode: RenderMode,
    messages: seq<ParsedUserMessage>)

  const MissingMessagesError := "缺少用户消息，请至少提供一条数字键的内容"

  /** The render strings that ask for inline HTML, a hosted page, or text. */
  predicate IsInlineSynonym(s: string) {
    s == "html" || s == "inline" || s == "inline-html"
  }

  predicate IsHostedSynonym(s: string) {
    s == "page" || s == "hosted" || s == "url" || s == "link" || s == "view"
  }

  predicate IsTextSynonym(s: string) {
    s == "markdown" || s == "md" || s == "text" || s == "plain"
  }
  const ImageExtensions := ["png", "jpg", "jpeg", "gif", "webp", "bmp", "svg", "heic", "heif"]

  /** The form a render string is compared in: trimmed and lower-cased. */
  function NormalizedMode(s: string): string {
    ToLowerAscii(Trim(s))
  }

  /** `parseRenderMode()`: `true` and the inline synonyms give inline HTML,
      the page synonyms give a hosted page, and everything else (`false`,
      a missing value, `null`, the text synonyms, unknown strings, other
      values) gives text. */
  function ParseRenderMode(value: Option<Json>): (m: RenderMode)
    ensures m == InlineHtml <==>
      value == Some(JBool(true)) ||
      (value.Some? && value.value.JStr? && IsInlineSynonym(NormalizedMode(value.value.s)))
    ensures m == HostedPage <==>
      value.Some? && value.value.JStr? && IsHostedSynonym(NormalizedMode(value.value.s))
  {
    if value == Some(JBool(true)) then InlineHtml
    else if value == Some(JBool(false)) || value.None? || value == Some(JNull) then TextMode
    else if value.value.JStr? && IsInlineSynonym(NormalizedMode(value.value.s)) then InlineHtml
    else if value.value.JStr? && IsHostedSynonym(NormalizedMode(value.value.s)) then HostedPage
    else if value.value.JStr? && IsTextSynonym(NormalizedMode(value.value.s)) then TextMode
    else TextMode
  }

  predicate IsImageExtension(ext: string) {
    ext in ImageExtensions
  }

  lemma ImageExtensionsHaveNoDot(ext: string)
    requires IsImageExtension(ext)
    ensures '.' !in ext
  {
  }

  /** `isStandaloneImageUrl()`: an `http://` or `https://` address whose
      last `.`-separated part is an image extension in any letter case. */
  function IsStandaloneImageUrl(value: string): (r: bool)
    ensures r <==>
      (StartsWith(value, "http://") || StartsWith(value, "https://")) &&
      exists ext :: IsImageExtension(ext) && EndsWith(ToLowerAscii(value), "." + ext)
  {
    var lower := ToLowerAscii(value);
    var dot := LastIndexOf(lower, ".");
    var hasExtension := dot >= 0 && IsImageExtension(lower[dot + 1..]);
    ImageExtensionSuffix(lower);
    (StartsWith(value, "http://") || StartsWith(value, "https://")) && hasExtension
  }

  /** The part after the last `.` is an image extension exactly when the
      text ends with `.` and one of them. */
  lemma ImageExtensionSuffix(lower: string)
    ensures (LastIndexOf(lower, ".") >= 0 && IsImageExtension(lower[LastIndexOf(lower, ".") + 1..])) <==>
      exists ext :: IsImageExtension(ext) && EndsWith(lower, "." + ext)
  {
    var dot := LastIndexOf(lower, ".");
    if dot >= 0 && IsImageExtension(lower[dot + 1..]) {
      LastDotSuffix(lower, lower[dot + 1..]);
    }
    if ext :| IsImageExtension(ext) && EndsWith(lower, "." + ext) {
      ImageExtensionsHaveNoDot(ext);
      LastDotSuffix(lower, ext);
    }
  }

  /** For a dot-free `ext`, a text ends with `.` and `ext` exactly when
      `ext` is what follows its last `.`. */
  lemma LastDotSuffix(lower: string, ext: string)
    requires '.' !in ext
    ensures EndsWith(lower, "." + ext) <==>
      LastIndexOf(lower, ".") >= 0 && lower[LastIndexOf(lower, ".") + 1..] == ext
  {
    var dot := LastIndexOf(lower, ".");
    if dot >= 0 && lower[dot + 1..] == ext {
      assert lower[dot..dot + 1] == ".";
      SuffixAfterMark(lower, '.', ext, dot);
    }
    if EndsWith(lower, "." + ext) {
      var p := |lower| - |ext| - 1;
      MarkBeforeSuffix(lower, '.', ext);
      assert lower[p..p + 1] == ".";
      assert OccursAt(lower, ".", p);
      if dot > p {
        assert false;
      }
    }
  }

  /** The text a value of an array message contributes: a string trimmed,
      anything else nothing. */
  function EntryText(entry: Json): string {
    if entry.JStr? then Trim(entry.s) else []
  }

  function EntryTexts(items: seq<Json>): (r: seq<string>)
    ensures |r| == |items|
    ensures forall i :: 0 <= i < |items| ==> r[i] == EntryText(items[i])
  {
    seq(|items|, i requires 0 <= i < |items| => EntryText(items[i]))
  }

  /** The entry texts that survive the filter are trimmed and non-empty,
      and so is their join. */
  lemma ArrayTextTrimmed(items: seq<Json>)
    ensures IsTrimmed(Join(NonEmpty(EntryTexts(items)), "\n"))
  {
    var texts := EntryTexts(items);
    forall i | 0 <= i < |texts| ensures IsTrimmed(texts[i]) {
      assert texts[i] == EntryText(items[i]);
    }
    var parts := NonEmpty(texts);
    forall i | 0 <= i < |parts| ensures IsTrimmed(parts[i]) {
      assert parts[i] in texts;
    }
    JoinTrimmed(parts, "\n");
  }

  /** `normalizeMessageValue()`: a string trimmed (None when blank); an
      array's non-empty trimmed strings joined by newlines; an object's
      string `content` trimmed; None for anything else. */
  function NormalizeMessageValue(value: Option<Json>): (r: Option<string>)
    ensures r.Some? ==> IsTrimmed(r.value)
    ensures value.Some? && value.value.JStr? ==>
      r == if NonBlank(value.value.s) then Some(Trim(value.value.s)) else None
    ensures value.Some? && value.value.JArr? ==>
      r == Some(Join(NonEmpty(EntryTexts(value.value.items)), "\n"))
    ensures value.Some? && value.value.JObj? ==>
      var content := Get(value.value.fields, "content");
      r == if content.Some? && content.value.JStr? then Some(Trim(content.value.s)) else None
    ensures value.None? || value.value.JNull? || value.value.JBool? || value.value.JNum? ==> r.None?
  {
    if value.None? then None
    else match value.value
      case JStr(s) =>
        var trimmed := Trim(s);
        if |trimmed| > 0 then Some(trimmed) else None
      case JArr(items) =>
        ArrayTextTrimmed(items);
        Some(Join(NonEmpty(EntryTexts(items)), "\n"))
      case JObj(fields) =>
        if Get(fields, "content").Some? then
          var possible := Get(fields, "content").value;
          if possible.JStr? then Some(Trim(possible.s)) else None
        else None
      case _ => None
  }

  /** An array of trimmed, non-empty, single-line strings is joined line by
      line: splitting the value at line breaks gives the strings back. */
  lemma NormalizeArrayLines(items: seq<Json>)
    requires items != []
    requires forall i :: 0 <= i < |items| ==>
      items[i].JStr? && items[i].s != [] && IsTrimmed(items[i].s) && '\n' !in items[i].s
    ensures var r := NormalizeMessageValue(Some(JArr(items)));
      r.Some? && |Split(r.value, '\n')| == |items| &&
      forall i :: 0 <= i < |items| ==> Split(r.value, '\n')[i] == items[i].s
  {
    var texts := EntryTexts(items);
    NonEmptyOfNonEmpty(texts);
    SplitJoin(texts, '\n');
  }

  /** An array with no non-blank string, such as one of numbers, gives the
      empty text rather than nothing. */
  lemma NormalizeArrayBlank(items: seq<Json>)
    requires forall i :: 0 <= i < |items| ==> !(items[i].JStr? && NonBlank(items[i].s))
    ensures NormalizeMessageValue(Some(JArr(items))) == Some("")
  {
    NonEmptyOfEmpty(EntryTexts(items));
  }

  /** The array value is built entry by entry: the entries of `a + b` give
      the non-empty texts of `a` followed by those of `b`. */
  lemma NormalizeArrayAppend(a: seq<Json>, b: seq<Json>)
    ensures NonEmpty(EntryTexts(a + b)) == NonEmpty(EntryTexts(a)) + NonEmpty(EntryTexts(b))
  {
    EntryTextsAppend(a, b);
    NonEmptyAppend(EntryTexts(a), EntryTexts(b));
  }

  lemma EntryTextsAppend(a: seq<Json>, b: seq<Json>)
    ensures EntryTexts(a + b) == EntryTexts(a) + EntryTexts(b)
  {
    var l, r := EntryTexts(a + b), EntryTexts(a) + EntryTexts(b);
    forall i | 0 <= i < |l| ensures l[i] == r[i] {
      if i < |a| {
        assert (a + b)[i] == a[i];
      } else {
        assert (a + b)[i] == b[i - |a|];
      }
    }
  }

  /** A key of the form `^\d+$`. */
  predicate IsDigitKey(key: string) {
    key != [] && forall k :: 0 <= k < |key| ==> '0' <= key[k] <= '9'
  }

  /** `Number(key)` for a digit key. */
  function DigitsValue(key: string): nat {
    if key == [] then 0
    else
      var d := key[|key| - 1] as int - '0' as int;
      DigitsValue(key[..|key| - 1]) * 10 + (if 0 <= d < 10 then d else 0)
  }

  /** The keys of the body that are digit strings, in property order. */
  function DigitKeys(fields: seq<(string, Json)>): (keys: seq<string>)
    ensures forall key :: key in keys <==> IsDigitKey(key) && exists i :: 0 <= i < |fields| && fields[i].0 == key
    ensures |keys| <= |fields|
  {
    if fields == [] then []
    else
      var init := fields[..|fields| - 1];
      var last := fields[|fields| - 1].0;
      assert forall i :: 0 <= i < |init| ==> init[i] == fields[i];
      DigitKeys(init) + (if IsDigitKey(last) then [last] else [])
  }

  predicate SortedByValue(keys: seq<string>) {
    forall i, j :: 0 <= i < j < |keys| ==> DigitsValue(keys[i]) <= DigitsValue(keys[j])
  }

  /** Putting back a larger last key after inserting below it keeps the
      list sorted and adds exactly `key`. */
  lemma InsertStep(key: string, init: seq<string>, last: string, r: seq<string>)
    requires SortedByValue(init + [last]) && SortedByValue(r)
    requires DigitsValue(key) < DigitsValue(last)
    requires multiset(r) == multiset(init) + multiset{key}
    requires forall x :: x in r ==> x in init || x == key
    ensures SortedByValue(r + [last])
    ensures multiset(r + [last]) == multiset(init + [last]) + multiset{key}
    ensures forall x :: x in r + [last] ==> x in init + [last] || x == key
  {
    forall x | x in init ensures DigitsValue(x) <= DigitsValue(last) {
      var i :| 0 <= i < |init| && init[i] == x;
      var all := init + [last];
      assert all[i] == x && all[|init|] == last;
      assert DigitsValue(all[i]) <= DigitsValue(all[|init|]);
    }
  }

  /** Inserts `key` after every key of no larger value. */
  function Insert(key: string, sorted: seq<string>): (r: seq<string>)
    requires SortedByValue(sorted)
    ensures SortedByValue(r)
    ensures multiset(r) == multiset(sorted) + multiset{key}
    ensures forall x :: x in r ==> x in sorted || x == key
  {
    if sorted == [] then [key]
    else
      var last := sorted[|sorted| - 1];
      if DigitsValue(last) <= DigitsValue(key) then sorted + [key]
      else
        var init := sorted[..|sorted| - 1];
        InitLast(sorted);
        var r := Insert(key, init);
        InsertStep(key, init, last, r);
        r + [last]
  }

  /** `sort((a, b) => Number(a) - Number(b))`, stable like the source's sort. */
  function SortByValue(keys: seq<string>): (r: seq<string>)
    ensures SortedByValue(r)
    ensures multiset(r) == multiset(keys)
  {
    if keys == [] then []
    else
      var init := keys[..|keys| - 1];
      assert keys == init + [keys[|keys| - 1]];
      Insert(keys[|keys| - 1], SortByValue(init))
  }

  /** The keys of `xs` whose numeric value is `v`, in their order in `xs`. */
  function KeysOfValue(xs: seq<string>, v: nat): (r: seq<string>)
    ensures |r| <= |xs|
  {
    if xs == [] then []
    else KeysOfValue(xs[..|xs| - 1], v) + (if DigitsValue(xs[|xs| - 1]) == v then [xs[|xs| - 1]] else [])
  }

  lemma KeysOfValueAppendOne(xs: seq<string>, x: string, v: nat)
    ensures KeysOfValue(xs + [x], v) == KeysOfValue(xs, v) + (if DigitsValue(x) == v then [x] else [])
  {
    assert (xs + [x])[..|xs|] == xs;
  }

  /** Inserting puts the key after the keys of equal value. */
  lemma {:induction false} InsertAfterEqualKeys(key: string, sorted: seq<string>, v: nat)
    requires SortedByValue(sorted)
    ensures KeysOfValue(Insert(key, sorted), v) ==
      KeysOfValue(sorted, v) + (if DigitsValue(key) == v then [key] else [])
  {
    if sorted != [] {
      var last := sorted[|sorted| - 1];
      var init := sorted[..|sorted| - 1];
      var k := if DigitsValue(key) == v then [key] else [];
      if DigitsValue(last) <= DigitsValue(key) {
        KeysOfValueAppendOne(sorted, key, v);
      } else {
        InitLast(sorted);
        var r := Insert(key, init);
        var l := if DigitsValue(last) == v then [last] else [];
        calc {
          KeysOfValue(Insert(key, sorted), v);
          KeysOfValue(r + [last], v);
        == { KeysOfValueAppendOne(r, last, v); }
          KeysOfValue(r, v) + l;
        == { InsertAfterEqualKeys(key, init, v); }
          KeysOfValue(init, v) + k + l;
        == { assert k == [] || l == []; }
          KeysOfValue(init, v) + l + k;
        == { KeysOfValueAppendOne(init, last, v); }
          KeysOfValue(sorted, v) + k;
        }
      }
    }
  }

  /** The sort is stable: for every value, the keys of that value keep the
      order they have in the input, as `Array.prototype.sort` keeps them. */
  lemma {:induction false} SortByValueStable(keys: seq<string>, v: nat)
    ensures KeysOfValue(SortByValue(keys), v) == KeysOfValue(keys, v)
  {
    if keys != [] {
      var init := keys[..|keys| - 1];
      SortByValueStable(init, v);
      InsertAfterEqualKeys(keys[|keys| - 1], SortByValue(init), v);
    }
  }

  /** The message slots, in ascending numeric order: exactly the digit
      keys of the body. */
  function NumericKeys(fields: seq<(string, Json)>): (keys: seq<string>)
    ensures SortedByValue(keys)
    ensures multiset(keys) == multiset(DigitKeys(fields))
    ensures forall key :: key in keys <==> IsDigitKey(key) && exists i :: 0 <= i < |fields| && fields[i].0 == key
  {
    var keys := SortByValue(DigitKeys(fields));
    assert forall key :: key in keys <==> key in multiset(keys);
    assert forall key :: key in DigitKeys(fields) <==> key in multiset(DigitKeys(fields));
    keys
  }

  /** A slot gives a message exactly when its normalised value is a
      non-empty text. */
  predicate HasMessage(fields: seq<(string, Json)>, key: string) {
    var normalized := NormalizeMessageValue(Get(fields, key));
    normalized.Some? && normalized.value != []
  }

  /** The message for a non-empty slot value: an uploaded image's path for
      a data URI (`id` stands for the random file name), an image for an
      image address, and text otherwise. */
  function Classify(value: string, id: string): (m: ParsedUserMessage)
    ensures m.TextMessage? ==> m.text == value && !IsDataUriImage(value) && !IsStandaloneImageUrl(value)
    ensures m.ImageMessage? && IsDataUriImage(value) ==> m.url == SaveDataUriImage(value, id).value.path
    ensures m.ImageMessage? && !IsDataUriImage(value) ==> m.url == value && IsStandaloneImageUrl(value)
    ensures m.ImageMessage? ==> IsStandaloneImageUrl(m.url) || StartsWith(m.url, "/img/")
  {
    if IsDataUriImage(value) then
      var saved := SaveDataUriImage(value, id);
      assert saved.value.path[..5] == "/img/";
      ImageMessage(saved.value.path)
    else if IsStandaloneImageUrl(value) then ImageMessage(value)
    else TextMessage(value)
  }

  /** The message one slot gives, if any. */
  function SlotMessage(fields: seq<(string, Json)>, key: string, newId: string -> string): (r: seq<ParsedUserMessage>)
    ensures |r| == (if HasMessage(fields, key) then 1 else 0)
    ensures r != [] ==> r[0] == Classify(NormalizeMessageValue(Get(fields, key)).value, newId(key))
  {
    var normalized := NormalizeMessageValue(Get(fields, key));
    if normalized.None? || normalized.value == [] then []
    else [Classify(normalized.value, newId(key))]
  }

  /** The messages of the slots `keys`, in order. */
  function SlotMessages(fields: seq<(string, Json)>, keys: seq<string>, newId: string -> string): (r: seq<ParsedUserMessage>)
    ensures |r| <= |keys|
  {
    if keys == [] then []
    else SlotMessages(fields, keys[..|keys| - 1], newId) + SlotMessage(fields, keys[|keys| - 1], newId)
  }

  lemma SlotMessagesStep(fields: seq<(string, Json)>, keys: seq<string>, i: nat, newId: string -> string)
    requires i < |keys|
    ensures SlotMessages(fields, keys[..i + 1], newId) == SlotMessages(fields, keys[..i], newId) + SlotMessage(fields, keys[i], newId)
  {
    assert keys[..i + 1][..i] == keys[..i];
  }

  /** No message at all exactly when no slot has a non-empty value. */
  lemma {:induction false} SlotMessagesEmpty(fields: seq<(string, Json)>, keys: seq<string>, newId: string -> string)
    ensures SlotMessages(fields, keys, newId) == [] <==> forall k :: 0 <= k < |keys| ==> !HasMessage(fields, keys[k])
  {
    if keys != [] {
      var init := keys[..|keys| - 1];
      var last := keys[|keys| - 1];
      SlotMessagesEmpty(fields, init, newId);
      assert SlotMessages(fields, keys, newId) == SlotMessages(fields, init, newId) + SlotMessage(fields, last, newId);
      assert keys == init + [last];
    }
  }

  /** Every message comes from a slot with a non-empty value: a text
      message carries that trimmed value and is neither a data URI nor an
      image address, and an image message is an image address or the
      stored path of an uploaded image. */
  lemma {:induction false} SlotMessagesKinds(fields: seq<(string, Json)>, keys: seq<string>, newId: string -> string)
    ensures forall m :: m in SlotMessages(fields, keys, newId) && m.TextMessage? ==>
      m.text != [] && IsTrimmed(m.text) && !IsDataUriImage(m.text) && !IsStandaloneImageUrl(m.text)
    ensures forall m :: m in SlotMessages(fields, keys, newId) && m.ImageMessage? ==>
      IsStandaloneImageUrl(m.url) || StartsWith(m.url, "/img/")
  {
    if keys != [] {
      SlotMessagesKinds(fields, keys[..|keys| - 1], newId);
    }
  }

  /** The model: the body's model when it is a non-blank string, else the
      default. */
  function ModelOf(fields: seq<(string, Json)>, defaultModel: string): (model: string)
    ensures var v := Get(fields, "model");
      && (v.Some? && v.value.JStr? && NonBlank(v.value.s) ==> model == v.value.s)
      && (!(v.Some? && v.value.JStr? && NonBlank(v.value.s)) ==> model == defaultModel)
  {
    var v := Get(fields, "model");
    if v.Some? && v.value.JStr? && |Trim(v.value.s)| > 0 then v.value.s else defaultModel
  }

  /** The system prompt: set exactly when the body's system is a non-blank
      string, and then trimmed and non-empty. */
  function SystemOf(fields: seq<(string, Json)>): (system: Option<string>)
    ensures var v := Get(fields, "system");
      && (system.Some? <==> v.Some? && v.value.JStr? && NonBlank(v.value.s))
      && (system.Some? ==> system.value == Trim(v.value.s) && system.value != [] && IsTrimmed(system.value))
  {
    var v := Get(fields, "system");
    if v.Some? && v.value.JStr? && |Trim(v.value.s)| > 0 then Some(Trim(v.value.s)) else None
  }

  /** `parseProxyPayload()` as a value: an error exactly when no slot has a
      message, and otherwise at least one message. */
  function ProxyPayload(fields: seq<(string, Json)>, defaultModel: string, newId: string -> string): (r: Result<ParsedPayload, string>)
    ensures r.Failure? <==> forall k :: 0 <= k < |NumericKeys(fields)| ==> !HasMessage(fields, NumericKeys(fields)[k])
    ensures r.Failure? ==> r.error == MissingMessagesError
    ensures r.Success? ==> r.value.messages != []
  {
    var messages := SlotMessages(fields, NumericKeys(fields), newId);
    SlotMessagesEmpty(fields, NumericKeys(fields), newId);
    if messages == [] then Failure(MissingMessagesError)
    else Success(ParsedPayload(ModelOf(fields, defaultModel), SystemOf(fields), ParseRenderMode(Get(fields, "render")), messages))
  }

  /** The loop of `parseProxyPayload()`: reads the slots in order and pushes
      one message per non-empty slot. */
  method CollectMessages(fields: seq<(string, Json)>, numericKeys: seq<string>, newId: string -> string)
    returns (messages: seq<ParsedUserMessage>)
    ensures messages == SlotMessages(fields, numericKeys, newId)
  {
    messages := [];
    var i := 0;
    while i < |numericKeys|
      invariant 0 <= i <= |numericKeys|
      invariant messages == SlotMessages(fields, numericKeys[..i], newId)
    {
      var key := numericKeys[i];
      SlotMessagesStep(fields, numericKeys, i, newId);
      var normalized := NormalizeMessageValue(Get(fields, key));
      if normalized.Some? && normalized.value != [] {
        var value := normalized.value;
        var message;
        if IsDataUriImage(value) {
          var saved := SaveDataUriImage(value, newId(key));
          message := ImageMessage(saved.value.path);
        } else if IsStandaloneImageUrl(value) {
          message := ImageMessage(value);
        } else {
          message := TextMessage(value);
        }
        assert [message] == SlotMessage(fields, key, newId);
        messages := messages + [message];
      } else {
        assert SlotMessage(fields, key, newId) == [];
      }
      i := i + 1;
    }
    assert numericKeys[..i] == numericKeys;
  }

  /** `parseProxyPayload()`: the model, the system prompt, the render mode
      and the messages of the slots in ascending order. */
  method ParseProxyPayload(fields: seq<(string, Json)>, defaultModel: string, newId: string -> string)
    returns (r: Result<ParsedPayload, string>)
    ensures r == ProxyPayload(fields, defaultModel, newId)
  {
    var modelValue := Get(fields, "model");
    var model := if modelValue.Some? && modelValue.value.JStr? && |Trim(modelValue.value.s)| > 0 then modelValue.value.s else defaultModel;
    assert model == ModelOf(fields, defaultModel);
    var systemValue := Get(fields, "system");
    var system: Option<string> := None;
    if systemValue.Some? && systemValue.value.JStr? && |Trim(systemValue.value.s)| > 0 {
      system := Some(Trim(systemValue.value.s));
    }
    assert system == SystemOf(fields);
    var renderMode := ParseRenderMode(Get(fields, "render"));
    var messages := CollectMessages(fields, NumericKeys(fields), newId);
    if |messages| == 0 {
      return Failure(MissingMessagesError);
    }
    var parsed := ParsedPayload(model, None, renderMode, messages);
    if system.Some? {
      parsed := parsed.(system := system);
    }
    return Success(parsed);
  }
}
