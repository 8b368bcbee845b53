/** The `$ … $` inline rule and the `$$ … $$` block rule that find math
    in Markdown source before it is rendered: delimiter validity, escaped
    closers, the plain-text fallback and the line bookkeeping of a block. */
module MarkdownKatex {
  import opened Common

  /** `text` is the token markdown-it makes of pending plain text. */
  datatype TokenKind = InlineMath | BlockMath | Text

  /** A token pushed by a rule; `lines` is the line range (`map`) of a
      block token. */
  datatype Token = Token(kind: TokenKind, markup: string, content: string, lines: Option<(int, int)>)

  datatype DelimiterInfo = DelimiterInfo(canOpen: bool, canClose: bool)

  /** `charCodeAt(k)`; an index outside the text gives NaN in the source,
      which fails every comparison just like -1 does here. */
  function CodeAt(src: string, k: int): int {
    if 0 <= k < |src| then src[k] as int else -1
  }

  /** `isValidDelim()`: a `$` cannot close after a space or tab or before a
      digit, and cannot open before a space or tab; the character after it
      only counts when it lies within `posMax`. */
  function IsValidDelim(src: string, posMax: int, pos: nat): (d: DelimiterInfo)
    ensures d.canOpen <==> !(pos + 1 <= posMax && pos + 1 < |src| && src[pos + 1] in {' ', '\t'})
    ensures pos <= |src| ==>
      (d.canClose <==>
        !((0 < pos && src[pos - 1] in {' ', '\t'}) ||
          (pos + 1 <= posMax && pos + 1 < |src| && '0' <= src[pos + 1] <= '9')))
  {
    var prevChar := if pos > 0 then CodeAt(src, pos - 1) else -1;
    var nextChar := if pos + 1 <= posMax then CodeAt(src, pos + 1) else -1;
    DelimiterInfo(
      !(nextChar == 0x20 || nextChar == 0x09),
      !(prevChar == 0x20 || prevChar == 0x09 || (0x30 <= nextChar <= 0x39)))
  }

  /** The number of backslashes immediately before index `k`. */
  function BackslashRun(src: string, k: nat): nat
    requires k <= |src|
  {
    if k > 0 && src[k - 1] == '\\' then 1 + BackslashRun(src, k - 1) else 0
  }

  /** A `$` that is not escaped: the backslashes before it pair up. */
  predicate IsCloser(src: string, k: nat)
    requires k < |src|
  {
    src[k] == '$' && BackslashRun(src, k) % 2 == 0
  }

  /** The first unescaped `$` at or after `from`, or -1. */
  function ClosingFrom(src: string, from: nat): (m: int)
    ensures m == -1 || (from <= m < |src| && IsCloser(src, m))
    ensures forall k :: from <= k < |src| && (m == -1 || k < m) ==> !IsCloser(src, k)
    decreases |src| - from
  {
    if from >= |src| then -1
    else if IsCloser(src, from) then from
    else ClosingFrom(src, from + 1)
  }

  /** Skipping a stretch free of `$` does not change the closer found. */
  lemma {:induction false} ClosingSkip(src: string, from: nat, found: nat)
    requires from <= found <= |src|
    requires forall k :: from <= k < found ==> src[k] != '$'
    ensures ClosingFrom(src, from) == ClosingFrom(src, found)
    decreases found - from
  {
    if from < found {
      ClosingSkip(src, from + 1, found);
    }
  }

  /** The closer search of the inline rule: repeated `indexOf('$')`, each
      candidate with an odd run of backslashes before it skipped. */
  method FindCloser(src: string, start: nat) returns (closer: int)
    ensures closer == ClosingFrom(src, start)
  {
    var from: nat := start;
    closer := IndexOfChar(src, '$', from);
    while closer != -1
      invariant closer == IndexOfChar(src, '$', from)
      invariant ClosingFrom(src, from) == ClosingFrom(src, start)
      decreases |src| - from
    {
      var escCount := 0;
      var cursor := closer - 1;
      while cursor >= 0 && src[cursor] == '\\'
        invariant -1 <= cursor < closer
        invariant BackslashRun(src, closer) == escCount + BackslashRun(src, cursor + 1)
        decreases cursor
      {
        cursor := cursor - 1;
        escCount := escCount + 1;
      }
      ClosingSkip(src, from, closer);
      if escCount % 2 == 0 {
        return;
      }
      from := closer + 1;
      closer := IndexOfChar(src, '$', from);
    }
    if from < |src| {
      ClosingSkip(src, from, |src|);
    }
  }

  /** What the inline rule does at `pos`: no match, plain text moved to the
      pending buffer, or a math span. */
  datatype InlineStep = NoMatch | Literal(text: string, newPos: nat) | Math(content: string, newPos: nat)

  /** `mathInlineRule()` as a value: it matches exactly at a `$`, and
      every match moves the cursor forward without passing the end of the
      text. */
  function InlineRule(src: string, posMax: int, pos: nat): (step: InlineStep)
    ensures step.NoMatch? <==> !(pos < |src| && src[pos] == '$')
    ensures !step.NoMatch? ==> pos < step.newPos <= |src|
  {
    if pos >= |src| || src[pos] != '$' then NoMatch
    else
      var start := pos + 1;
      if !IsValidDelim(src, posMax, pos).canOpen then Literal("$", pos + 1)
      else
        var m := ClosingFrom(src, start);
        if m == -1 then Literal("$", start)
        else if m - start == 0 then Literal("$$", start + 1)
        else if !IsValidDelim(src, posMax, m).canClose then Literal("$", start)
        else Math(src[start..m], m + 1)
  }

  /** Nothing is lost or invented: plain text is exactly the characters
      consumed, and a math span consumes its two delimiters around a
      non-empty content that holds no unescaped `$`. */
  lemma InlineRuleConsumes(src: string, posMax: int, pos: nat)
    ensures InlineRule(src, posMax, pos).Literal? ==>
      src[pos..InlineRule(src, posMax, pos).newPos] == InlineRule(src, posMax, pos).text
    ensures InlineRule(src, posMax, pos).Math? ==>
      var step := InlineRule(src, posMax, pos);
      step.content != [] &&
      src[pos..step.newPos] == "$" + step.content + "$" &&
      IsCloser(src, step.newPos - 1) &&
      forall k :: pos + 1 <= k < step.newPos - 1 ==> !IsCloser(src, k)
  {
    var step := InlineRule(src, posMax, pos);
    if step.Literal? {
      var m := ClosingFrom(src, pos + 1);
      if step.text == "$$" {
        assert src[pos..pos + 2] == [src[pos], src[pos + 1]];
      }
    } else if step.Math? {
      var m := step.newPos - 1;
      assert src[pos..m + 1] == [src[pos]] + src[pos + 1..m] + [src[m]];
    }
  }

  /** The tokens pending plain text turns into when a token is pushed: one
      `text` token holding it, or none when nothing is pending. */
  function Flushed(pending: string): (r: seq<Token>)
    ensures |r| <= 1
    ensures r == [] <==> pending == []
    ensures r != [] ==> r[0].kind == Text && r[0].content == pending
  {
    if pending == [] then [] else [Token(Text, "", pending, None)]
  }

  /** The inline state a rule works on: the source and its end, the cursor,
      the pending plain text and the token list. */
  class InlineState {
    const src: string
    const posMax: int
    var pos: nat
    var pending: string
    var tokens: seq<Token>

    constructor(src: string, posMax: int, pos: nat)
      ensures this.src == src && this.posMax == posMax && this.pos == pos
      ensures pending == [] && tokens == []
    {
      this.src := src;
      this.posMax := posMax;
      this.pos := pos;
      pending := [];
      tokens := [];
    }

    /** `mathInlineRule()`: silent mode moves the cursor in the same way
        but adds neither pending text nor a token. */
    method MathInline(silent: bool) returns (matched: bool)
      modifies this`pos, this`pending, this`tokens
      ensures var step := InlineRule(src, posMax, old(pos));
        && matched == !step.NoMatch?
        && (step.NoMatch? ==> pos == old(pos) && pending == old(pending) && tokens == old(tokens))
        && (step.Literal? ==>
              pos == step.newPos && tokens == old(tokens) &&
              pending == old(pending) + (if silent then [] else step.text))
        && (step.Math? && silent ==> pos == step.newPos && pending == old(pending) && tokens == old(tokens))
        && (step.Math? && !silent ==>
              pos == step.newPos && pending == [] &&
              tokens == old(tokens) + Flushed(old(pending)) + [Token(InlineMath, "$", step.content, None)])
    {
      if pos >= |src| || src[pos] != '$' {
        return false;
      }
      var start := pos + 1;
      var initialDelim := IsValidDelim(src, posMax, pos);
      if !initialDelim.canOpen {
        if !silent {
          pending := pending + "$";
        }
        pos := pos + 1;
        return true;
      }
      var closer := FindCloser(src, start);
      if closer == -1 {
        if !silent {
          pending := pending + "$";
        }
        pos := start;
        return true;
      }
      if closer - start == 0 {
        if !silent {
          pending := pending + "$$";
        }
        pos := start + 1;
        return true;
      }
      var finalDelim := IsValidDelim(src, posMax, closer);
      if !finalDelim.canClose {
        if !silent {
          pending := pending + "$";
        }
        pos := start;
        return true;
      }
      if !silent {
        Push(Token(InlineMath, "$", src[start..closer], None));
      }
      pos := closer + 1;
      return true;
    }

    /** `state.push()`: pending text first becomes a `text` token, then the
        new token follows it. */
    method Push(token: Token)
      modifies this`pending, this`tokens
      ensures pending == [] && tokens == old(tokens) + Flushed(old(pending)) + [token]
    {
      if pending != [] {
        tokens := tokens + [Token(Text, "", pending, None)];
        pending := [];
      }
      tokens := tokens + [token];
    }
  }

  /** A line mark, or None past the end of the mark array. */
  function Mark(marks: seq<int>, i: int): Option<int> {
    if 0 <= i < |marks| then Some(marks[i]) else None
  }

  /** `t.slice(-2) === '$$'`. */
  predicate EndsWithDollars(t: string)
    ensures EndsWithDollars(t) <==> EndsWith(t, "$$")
  {
    Slice(t, -2, |t|) == "$$"
  }

  /** A math block's content: the non-blank rest of the opening line, the
      lines in between, and the non-blank text of the closing line before
      its `$$`. */
  function BlockContent(firstLine: string, middle: string, lastLine: string): string {
    (if Trim(firstLine) != [] then firstLine + "\n" else []) + middle + (if Trim(lastLine) != [] then lastLine else [])
  }

  /** What the block rule does at `start`: reject, or a block ending on
      `line` with its token. */
  datatype BlockStep = Rejected | Block(line: int, token: Token)

  /** The block state a rule works on: the source, the line marks, the
      current block indent, the current line and the token list. */
  class BlockState {
    const src: string
    const bMarks: seq<int>
    const eMarks: seq<int>
    const tShift: seq<int>
    const blkIndent: int
    var line: int
    var tokens: seq<Token>

    constructor(src: string, bMarks: seq<int>, eMarks: seq<int>, tShift: seq<int>, blkIndent: int, line: int)
      ensures this.src == src && this.bMarks == bMarks && this.eMarks == eMarks && this.tShift == tShift
      ensures this.blkIndent == blkIndent && this.line == line && tokens == []
    {
      this.src := src;
      this.bMarks := bMarks;
      this.eMarks := eMarks;
      this.tShift := tShift;
      this.blkIndent := blkIndent;
      this.line := line;
      tokens := [];
    }

    /** `tShift[i] ?? 0`. */
    function Shift(i: int): int {
      Mark(tShift, i).GetOr(0)
    }

    /** The line `start` has marks and, after its indentation, begins with
        `$$`. */
    predicate Opens(start: int) {
      && Mark(bMarks, start).Some? && Mark(eMarks, start).Some?
      && bMarks[start] + Shift(start) + 2 <= eMarks[start]
      && Slice(src, bMarks[start] + Shift(start), bMarks[start] + Shift(start) + 2) == "$$"
    }

    /** The search for the closing line, from the line after `next`: the
        line where it stops and the text before the closing `$$`, if any. */
    function ScanFrom(next: int, end: int): (r: (int, string))
      ensures next < r.0 && (next < end ==> r.0 <= end)
      decreases end - next
    {
      var n := next + 1;
      if n >= end then (n, [])
      else if Mark(bMarks, n).None? || Mark(eMarks, n).None? then (n, [])
      else
        var pos := bMarks[n] + Shift(n);
        var currentMax := eMarks[n];
        if pos < currentMax && Shift(n) < blkIndent then (n, [])
        else if EndsWithDollars(Trim(Slice(src, pos, currentMax))) then
          (n, Slice(src, pos, LastIndexOf(Slice(src, 0, currentMax), "$$")))
        else ScanFrom(n, end)
    }

    /** The opening line after its `$$`. */
    function RestOfFirstLine(start: int): string
      requires Opens(start)
    {
      Slice(src, bMarks[start] + Shift(start) + 2, eMarks[start])
    }

    /** The block closes on its opening line. */
    predicate ClosesOnFirst(start: int)
      requires Opens(start)
    {
      EndsWithDollars(Trim(RestOfFirstLine(start)))
    }

    /** The content taken from the opening line: the rest of it, or its
        trimmed text before the closing `$$`. */
    function BlockFirstLine(start: int): string
      requires Opens(start)
    {
      if ClosesOnFirst(start) then Slice(Trim(RestOfFirstLine(start)), 0, -2) else RestOfFirstLine(start)
    }

    /** The line where the block stops and the text of its closing line. */
    function BlockScan(start: int, end: int): (int, string)
      requires Opens(start)
    {
      if ClosesOnFirst(start) then (start, []) else ScanFrom(start, end)
    }

    /** `mathBlockRule()` as a value, for a call that is not silent. A block
        is recognised exactly on a line that has marks and begins with `$$`
        after its indentation; it always ends past its first line and no
        further than one line past `end`, and its token's line range runs
        from `start` to the new current line. */
    function BlockRule(start: int, end: int, getLines: (int, int, int, bool) -> string): (b: BlockStep)
      ensures b.Block? <==> Opens(start)
      ensures b.Block? ==>
        && start < b.line
        && (start < end ==> b.line <= end + 1)
        && b.token.kind == BlockMath && b.token.markup == "$$"
        && b.token.lines == Some((start, b.line))
    {
      if !Opens(start) then Rejected
      else
        var scan := BlockScan(start, end);
        Block(scan.0 + 1,
              Token(BlockMath, "$$", BlockContent(BlockFirstLine(start), getLines(start + 1, scan.0, Shift(start), true), scan.1),
                    Some((start, scan.0 + 1))))
    }

    /** The closing-line search of the block rule, line by line. */
    method ScanClosing(start: int, end: int) returns (next: int, lastLine: string)
      ensures (next, lastLine) == ScanFrom(start, end)
    {
      next := start;
      lastLine := [];
      var found := false;
      while !found
        invariant found ==> (next, lastLine) == ScanFrom(start, end)
        invariant !found ==> lastLine == [] && ScanFrom(start, end) == ScanFrom(next, end)
        decreases !found, end - next
      {
        next := next + 1;
        if next >= end {
          break;
        }
        var lineStart := Mark(bMarks, next);
        var shift := Shift(next);
        var currentMax := Mark(eMarks, next);
        if lineStart.None? || currentMax.None? {
          break;
        }
        var pos := lineStart.value + shift;
        if pos < currentMax.value && Shift(next) < blkIndent {
          break;
        }
        var text := Trim(Slice(src, pos, currentMax.value));
        if EndsWithDollars(text) {
          var lastPos := LastIndexOf(Slice(src, 0, currentMax.value), "$$");
          lastLine := Slice(src, pos, lastPos);
          found := true;
        }
      }
    }

    /** The opening test of `mathBlockRule()`: the line has marks and its
        text after the indentation starts with `$$`. */
    method OpensHere(start: int) returns (opens: bool)
      ensures opens == Opens(start)
    {
      var lineStart := Mark(bMarks, start);
      var max := Mark(eMarks, start);
      if lineStart.None? || max.None? {
        return false;
      }
      var pos := lineStart.value + Shift(start);
      if pos + 2 > max.value {
        return false;
      }
      return Slice(src, pos, pos + 2) == "$$";
    }

    /** The content lines of a block that opens at `start`: the rest of the
        opening line (cut at its closing `$$` when the block closes there),
        and otherwise the closing-line search. */
    method BlockLines(start: int, end: int) returns (next: int, firstLine: string, lastLine: string)
      requires Opens(start)
      ensures firstLine == BlockFirstLine(start)
      ensures (next, lastLine) == BlockScan(start, end)
    {
      var pos := bMarks[start] + Shift(start) + 2;
      firstLine := Slice(src, pos, eMarks[start]);
      next := start;
      lastLine := [];
      if EndsWithDollars(Trim(firstLine)) {
        firstLine := Slice(Trim(firstLine), 0, -2);
      } else {
        next, lastLine := ScanClosing(start, end);
      }
    }

    lemma BlockRuleOfLines(start: int, end: int, getLines: (int, int, int, bool) -> string,
                           next: int, firstLine: string, lastLine: string)
      requires Opens(start)
      requires firstLine == BlockFirstLine(start) && (next, lastLine) == BlockScan(start, end)
      ensures BlockRule(start, end, getLines) ==
        Block(next + 1, Token(BlockMath, "$$", BlockContent(firstLine, getLines(start + 1, next, Shift(start), true), lastLine),
                              Some((start, next + 1))))
    {
    }

    /** The token of a block that opens at `start`, and the line it stops at. */
    method BlockToken(start: int, end: int, getLines: (int, int, int, bool) -> string) returns (next: int, token: Token)
      requires Opens(start)
      ensures BlockRule(start, end, getLines) == Block(next + 1, token)
    {
      var firstLine, lastLine;
      next, firstLine, lastLine := BlockLines(start, end);
      BlockRuleOfLines(start, end, getLines, next, firstLine, lastLine);
      token := Token(BlockMath, "$$", BlockContent(firstLine, getLines(start + 1, next, Shift(start), true), lastLine),
                     Some((start, next + 1)));
    }

    /** Moves the current line and pushes the block's token. */
    method PushBlock(newLine: int, token: Token)
      modifies this`line, this`tokens
      ensures line == newLine && tokens == old(tokens) + [token]
    {
      line := newLine;
      tokens := tokens + [token];
    }

    /** `mathBlockRule()`: silent mode only reports whether a block starts
        here; otherwise the current line moves past the block and its token
        is pushed. */
    method MathBlock(start: int, end: int, silent: bool, getLines: (int, int, int, bool) -> string)
      returns (matched: bool)
      modifies this`line, this`tokens
      ensures matched == BlockRule(start, end, getLines).Block?
      ensures silent || !matched ==> line == old(line) && tokens == old(tokens)
      ensures !silent && matched ==>
        line == BlockRule(start, end, getLines).line &&
        tokens == old(tokens) + [BlockRule(start, end, getLines).token]
    {
      var opens := OpensHere(start);
      if !opens {
        return false;
      }
      if silent {
        return true;
      }
      var next, token := BlockToken(start, end, getLines);
      PushBlock(next + 1, token);
      return true;
    }
  }
}
