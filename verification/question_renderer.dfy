/** The HTML panel that shows the user's question on a shared page. */
module QuestionRenderer {
  import opened Common
  import opened PayloadParser

  /** `value.replace(/c/g, rep)`: every occurrence of `c` replaced. */
  function ReplaceChar(s: string, c: char, rep: string): (r: string)
    ensures c !in rep ==> c !in r
  {
    if s == [] then []
    else (if s[0] == c then rep else [s[0]]) + ReplaceChar(s[1..], c, rep)
  }

  /** `escapeHtml()`: `&` first, then `<`, `>`, `"` and `'`, each replaced
      by its character reference. */
  function EscapeHtml(s: string): string {
    ReplaceChar(ReplaceChar(ReplaceChar(ReplaceChar(ReplaceChar(s, '&', "&amp;"), '<', "&lt;"), '>', "&gt;"),
      '"', "&quot;"), '\'', "&#39;")
  }

  /** The reference each special character stands for; any other character
      stands for itself. */
  function EscapeChar(c: char): string {
    if c == '&' then "&amp;"
    else if c == '<' then "&lt;"
    else if c == '>' then "&gt;"
    else if c == '"' then "&quot;"
    else if c == '\'' then "&#39;"
    else [c]
  }

  /** Escaping in one pass, character by character. */
  function EscapeAll(s: string): string {
    if s == [] then [] else EscapeChar(s[0]) + EscapeAll(s[1..])
  }

  /** Replacing distributes over concatenation. */
  lemma {:induction false} ReplaceCharAppend(a: string, b: string, c: char, rep: string)
    ensures ReplaceChar(a + b, c, rep) == ReplaceChar(a, c, rep) + ReplaceChar(b, c, rep)
  {
    if a != [] {
      ReplaceCharAppend(a[1..], b, c, rep);
      assert (a + b)[1..] == a[1..] + b;
    } else {
      assert a + b == b;
    }
  }

  /** A text without the character is left as it is. */
  lemma {:induction false} ReplaceCharAbsent(s: string, c: char, rep: string)
    requires c !in s
    ensures ReplaceChar(s, c, rep) == s
  {
    if s != [] {
      assert forall d :: d in s[1..] ==> d in s;
      ReplaceCharAbsent(s[1..], c, rep);
    }
  }

  /** The five passes on one character give its reference. */
  lemma EscapeHtmlChar(c: char)
    ensures EscapeHtml([c]) == EscapeChar(c)
  {
    OnePassOnChar(c, '&', "&amp;");
    if c == '&' {
      LaterPassesKeep("&amp;", 1);
    } else {
      OnePassOnChar(c, '<', "&lt;");
      if c == '<' {
        LaterPassesKeep("&lt;", 2);
      } else {
        OnePassOnChar(c, '>', "&gt;");
        if c == '>' {
          LaterPassesKeep("&gt;", 3);
        } else {
          OnePassOnChar(c, '"', "&quot;");
          if c == '"' {
            LaterPassesKeep("&quot;", 4);
          } else {
            OnePassOnChar(c, '\'', "&#39;");
          }
        }
      }
    }
  }

  /** One pass on a one-character text. */
  lemma OnePassOnChar(c: char, d: char, rep: string)
    ensures ReplaceChar([c], d, rep) == if c == d then rep else [c]
  {
    assert [c][1..] == [];
  }

  /** The passes after the `done`-th leave a text alone when it has none of
      the characters they replace. */
  lemma LaterPassesKeep(s: string, done: nat)
    requires 1 <= done <= 4
    requires done < 2 ==> '<' !in s
    requires done < 3 ==> '>' !in s
    requires done < 4 ==> '"' !in s
    requires '\'' !in s
    ensures done == 1 ==> ReplaceChar(ReplaceChar(ReplaceChar(ReplaceChar(s, '<', "&lt;"), '>', "&gt;"), '"', "&quot;"), '\'', "&#39;") == s
    ensures done == 2 ==> ReplaceChar(ReplaceChar(ReplaceChar(s, '>', "&gt;"), '"', "&quot;"), '\'', "&#39;") == s
    ensures done == 3 ==> ReplaceChar(ReplaceChar(s, '"', "&quot;"), '\'', "&#39;") == s
    ensures done == 4 ==> ReplaceChar(s, '\'', "&#39;") == s
  {
    if done < 2 { ReplaceCharAbsent(s, '<', "&lt;"); }
    if done < 3 { ReplaceCharAbsent(s, '>', "&gt;"); }
    if done < 4 { ReplaceCharAbsent(s, '"', "&quot;"); }
    ReplaceCharAbsent(s, '\'', "&#39;");
  }

  /** The chained replacements agree with the one-pass escape: replacing `&`
      first means no reference is escaped a second time. */
  lemma {:induction false} EscapeHtmlIsEscapeAll(s: string)
    ensures EscapeHtml(s) == EscapeAll(s)
  {
    if s != [] {
      EscapeHtmlIsEscapeAll(s[1..]);
      EscapeHtmlChar(s[0]);
      assert s == [s[0]] + s[1..];
      ReplaceCharAppend([s[0]], s[1..], '&', "&amp;");
      var a1 := ReplaceChar([s[0]], '&', "&amp;");
      var b1 := ReplaceChar(s[1..], '&', "&amp;");
      ReplaceCharAppend(a1, b1, '<', "&lt;");
      var a2 := ReplaceChar(a1, '<', "&lt;");
      var b2 := ReplaceChar(b1, '<', "&lt;");
      ReplaceCharAppend(a2, b2, '>', "&gt;");
      var a3 := ReplaceChar(a2, '>', "&gt;");
      var b3 := ReplaceChar(b2, '>', "&gt;");
      ReplaceCharAppend(a3, b3, '"', "&quot;");
      var a4 := ReplaceChar(a3, '"', "&quot;");
      var b4 := ReplaceChar(b3, '"', "&quot;");
      ReplaceCharAppend(a4, b4, '\'', "&#39;");
    }
  }

  /** The one-pass escape holds no raw `<`, `>`, `"` or `'`. */
  lemma {:induction false} EscapeAllSafe(s: string)
    ensures '<' !in EscapeAll(s) && '>' !in EscapeAll(s) && '"' !in EscapeAll(s) && '\'' !in EscapeAll(s)
  {
    if s != [] {
      EscapeAllSafe(s[1..]);
      EscapeCharSafe(s[0]);
      var head, tail := EscapeChar(s[0]), EscapeAll(s[1..]);
      assert EscapeAll(s) == head + tail;
      assert forall d :: d in head + tail ==> d in head || d in tail;
    }
  }

  lemma EscapeCharSafe(c: char)
    ensures '<' !in EscapeChar(c) && '>' !in EscapeChar(c) && '"' !in EscapeChar(c) && '\'' !in EscapeChar(c)
  {
  }

  /** The escaped text holds no raw `<`, `>`, `"` or `'`, and a text without
      `&`, `<`, `>`, `"` and `'` is left as it is. */
  lemma EscapeHtmlSafe(s: string)
    ensures '<' !in EscapeHtml(s) && '>' !in EscapeHtml(s) && '"' !in EscapeHtml(s) && '\'' !in EscapeHtml(s)
    ensures '&' !in s && '<' !in s && '>' !in s && '"' !in s && '\'' !in s ==> EscapeHtml(s) == s
  {
    EscapeHtmlIsEscapeAll(s);
    EscapeAllSafe(s);
    if '&' !in s && '<' !in s && '>' !in s && '"' !in s && '\'' !in s {
      ReplaceCharAbsent(s, '&', "&amp;");
      ReplaceCharAbsent(s, '<', "&lt;");
      ReplaceCharAbsent(s, '>', "&gt;");
      ReplaceCharAbsent(s, '"', "&quot;");
      ReplaceCharAbsent(s, '\'', "&#39;");
    }
  }

  const EmptyQuestion := "<p>（暂无提问内容）</p>"

  /** The label of the message at `index`: its position counted from one. */
  function Label(index: nat): string {
    "内容 " + NatToString(index + 1)
  }

  /** How every section begins. */
  const SectionOpen := "<section class=\"question-block\"><header>"

  /** What precedes the rendered markdown of a text section. */
  function TextHead(index: nat): string {
    SectionOpen + "✍️ " + Label(index) + "</header>"
  }

  /** What precedes the escaped URL of an image section, up to the opening
      quote of `src`. */
  function ImageHead(index: nat): string {
    SectionOpen + "🖼️ " + Label(index) + "</header>" + SrcOpen
  }

  /** The start of an `img` element, up to the opening quote of `src`. */
  const SrcOpen := "<img src=\""

  /** What follows the escaped URL of an image section, from the closing
      quote of `src`. */
  function ImageTail(index: nat): string {
    "\" alt=\"用户图片 " + NatToString(index + 1) + "\" loading=\"lazy\" /></section>"
  }

  /** The section for one message: a text is rendered as markdown, an image
      becomes an `img` element whose `src` is the escaped URL. */
  function Section(message: ParsedUserMessage, index: nat, render: string -> string): string {
    match message
    case TextMessage(text) => TextHead(index) + render(text) + "</section>"
    case ImageMessage(url) => ImageHead(index) + EscapeHtml(url) + ImageTail(index)
  }

  /** The sections of the messages, one per message, in order. */
  function Sections(messages: seq<ParsedUserMessage>, render: string -> string): (r: seq<string>)
    ensures |r| == |messages|
    ensures forall i :: 0 <= i < |r| ==> r[i] == Section(messages[i], i, render)
  {
    seq(|messages|, i requires 0 <= i < |messages| => Section(messages[i], i, render))
  }

  lemma SectionOpens(message: ParsedUserMessage, index: nat, render: string -> string)
    ensures StartsWith(Section(message, index, render), SectionOpen)
  {
    match message
    case TextMessage(text) =>
      PrefixOfAppend(SectionOpen, "✍️ " + Label(index) + "</header>", SectionOpen);
      AppendAssoc(SectionOpen, "✍️ " + Label(index), "</header>");
      AppendAssoc(SectionOpen, "✍️ ", Label(index));
      PrefixOfAppend(TextHead(index), render(text) + "</section>", SectionOpen);
      AppendAssoc(TextHead(index), render(text), "</section>");
    case ImageMessage(url) =>
      PrefixOfAppend(SectionOpen, "🖼️ " + Label(index) + "</header>" + SrcOpen, SectionOpen);
      AppendAssoc(SectionOpen, "🖼️ " + Label(index) + "</header>", SrcOpen);
      AppendAssoc(SectionOpen, "🖼️ " + Label(index), "</header>");
      AppendAssoc(SectionOpen, "🖼️ ", Label(index));
      PrefixOfAppend(ImageHead(index), EscapeHtml(url) + ImageTail(index), SectionOpen);
      AppendAssoc(ImageHead(index), EscapeHtml(url), ImageTail(index));
  }

  /** A panel with messages opens with the first section. */
  lemma PanelOpens(messages: seq<ParsedUserMessage>, render: string -> string)
    requires messages != []
    ensures StartsWith(Join(Sections(messages, render), "\n"), SectionOpen)
  {
    var sections := Sections(messages, render);
    JoinAround(sections, "\n", 0);
    SectionOpens(messages[0], 0, render);
    var rest := if |sections| == 1 then [] else "\n" + Join(sections[1..], "\n");
    assert (sections[0] + rest)[..|SectionOpen|] == sections[0][..|SectionOpen|];
  }

  /** `buildQuestionHtml()`: a fixed paragraph for no messages, otherwise one
      section per message, in order, joined by line breaks. The paragraph
      appears exactly when there are no messages: any other panel opens
      with a section. */
  function BuildQuestionHtml(messages: seq<ParsedUserMessage>, render: string -> string): (r: string)
    ensures r == EmptyQuestion <==> messages == []
    ensures messages != [] ==> StartsWith(r, SectionOpen)
  {
    if |messages| == 0 then EmptyQuestion
    else
      PanelOpens(messages, render);
      var r := Join(Sections(messages, render), "\n");
      assert r[1] == SectionOpen[1] != EmptyQuestion[1];
      r
  }

  /** The `src` attribute of an image section holds the escaped URL and no
      raw quote can end the attribute early. */
  lemma ImageSectionShape(url: string, index: nat, render: string -> string)
    ensures StartsWith(Section(ImageMessage(url), index, render), ImageHead(index) + EscapeHtml(url) + "\"")
    ensures EndsWith(ImageHead(index), SrcOpen)
    ensures '"' !in EscapeHtml(url)
  {
    EscapeHtmlSafe(url);
    var head := "\" alt=\"用户图片 ";
    PrefixOfAppend(head, NatToString(index + 1), "\"");
    PrefixOfAppend(head + NatToString(index + 1), "\" loading=\"lazy\" /></section>", "\"");
    PrefixAfter(ImageHead(index) + EscapeHtml(url), ImageTail(index), "\"");
    SuffixOfAppend(SectionOpen + "🖼️ " + Label(index) + "</header>", SrcOpen);
  }

  /** Whatever the sections hold, line breaks included, the section of
      message `i` sits in the panel right after the sections before it and
      a line break, and right before a line break and the sections after
      it. */
  lemma QuestionSectionAt(messages: seq<ParsedUserMessage>, render: string -> string, i: nat)
    requires i < |messages|
    ensures var sections := Sections(messages, render);
      BuildQuestionHtml(messages, render) ==
        (if i == 0 then [] else Join(sections[..i], "\n") + "\n") + Section(messages[i], i, render) +
        (if i == |messages| - 1 then [] else "\n" + Join(sections[i + 1..], "\n"))
  {
    JoinAround(Sections(messages, render), "\n", i);
  }
}
