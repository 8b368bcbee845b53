/** The assistant's answer text taken from an upstream chat completion. */
module MessageExtractor {
  import opened Common

  /** One part of a multi-part answer; `text` may be missing. */
  datatype ContentPart = ContentPart(kind: string, text: Option<string>)

  /** The `content` of the answer: null or missing, a text, or a list of
      parts. */
  datatype AssistantContent = NoContent | TextContent(text: string) | PartsContent(parts: seq<ContentPart>)

  /** The texts of the parts, a missing one read as empty. */
  function PartTexts(parts: seq<ContentPart>): (r: seq<string>)
    ensures |r| == |parts|
    ensures forall i :: 0 <= i < |parts| ==> r[i] == parts[i].text.GetOr("")
  {
    seq(|parts|, i requires 0 <= i < |parts| => parts[i].text.GetOr(""))
  }

  /** `extractAssistantMessage()`: empty for missing content and for an
      empty text, the trimmed text, or the non-empty part texts joined by
      blank lines and trimmed. */
  function ExtractAssistantMessage(content: AssistantContent): (r: string)
    ensures IsTrimmed(r)
    ensures content.NoContent? ==> r == []
    ensures content.TextContent? ==> r == Trim(content.text)
    ensures content.PartsContent? ==> r == Trim(Join(NonEmpty(PartTexts(content.parts)), "\n\n"))
  {
    match content
    case NoContent => ""
    case TextContent(text) => if text == [] then "" else Trim(text)
    case PartsContent(parts) => Trim(Join(NonEmpty(PartTexts(parts)), "\n\n"))
  }

  /** Every character of the answer comes from the part texts or the
      blank-line separators. */
  lemma PartsAnswerChars(parts: seq<ContentPart>)
    ensures forall c :: c in ExtractAssistantMessage(PartsContent(parts)) ==>
      c == '\n' || exists i :: 0 <= i < |parts| && parts[i].text.Some? && c in parts[i].text.value
  {
    var texts := NonEmpty(PartTexts(parts));
    var joined := Join(texts, "\n\n");
    TrimKeepsChars(joined);
    JoinChars(texts, "\n\n");
    forall c | c in joined && c != '\n'
      ensures exists i :: 0 <= i < |parts| && parts[i].text.Some? && c in parts[i].text.value
    {
      var k :| 0 <= k < |texts| && c in texts[k];
      assert texts[k] in PartTexts(parts);
      var i :| 0 <= i < |parts| && PartTexts(parts)[i] == texts[k];
      assert parts[i].text.Some?;
    }
  }

  /** A character of a join lies in a piece or in the separator. */
  lemma {:induction false} JoinChars(parts: seq<string>, sep: string)
    ensures forall c :: c in Join(parts, sep) ==> c in sep || exists k :: 0 <= k < |parts| && c in parts[k]
  {
    if |parts| > 1 {
      JoinChars(parts[1..], sep);
      forall c | c in Join(parts, sep) && c !in sep
        ensures exists k :: 0 <= k < |parts| && c in parts[k]
      {
        if c !in parts[0] {
          assert c in Join(parts[1..], sep);
          var k :| 0 <= k < |parts[1..]| && c in parts[1..][k];
          assert c in parts[k + 1];
        }
      }
    }
  }

  /** When every non-empty part text is already trimmed the answer is their
      plain join, and a single text part answers like the same plain text. */
  lemma PartsAnswerOfTrimmedTexts(parts: seq<ContentPart>)
    requires forall i :: 0 <= i < |parts| ==> IsTrimmed(parts[i].text.GetOr(""))
    ensures ExtractAssistantMessage(PartsContent(parts)) == Join(NonEmpty(PartTexts(parts)), "\n\n")
  {
    var texts := NonEmpty(PartTexts(parts));
    forall k | 0 <= k < |texts| ensures texts[k] != [] && IsTrimmed(texts[k]) {
      assert texts[k] in PartTexts(parts);
      var i :| 0 <= i < |parts| && PartTexts(parts)[i] == texts[k];
    }
    JoinTrimmed(texts, "\n\n");
  }

  /** A single part with text answers like that text given as a string. */
  lemma SinglePartAnswer(kind: string, text: string)
    ensures ExtractAssistantMessage(PartsContent([ContentPart(kind, Some(text))])) ==
      ExtractAssistantMessage(TextContent(text))
  {
    var texts := NonEmpty(PartTexts([ContentPart(kind, Some(text))]));
    assert PartTexts([ContentPart(kind, Some(text))]) == [text];
    if text == [] {
      assert texts == [];
    } else {
      assert texts == [text];
    }
  }
}
