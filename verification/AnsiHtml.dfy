/**
 * src/ansi2html.ts: terminal output with SGR sequences (section 8.3.117 of ECMA-48) as HTML. The renderer cuts a line
 * into spans; the meaning of a line is one styled glyph per visible character; a reader of the HTML connects the two.
 */
module AnsiHtml {
  import opened Sequences
  import opened Text

  // ---- colours and styles ----

  predicate CssValue(s: string) {
    ';' !in s && '"' !in s && '>' !in s
  }

  type Color = s: string | CssValue(s) witness ""

  const BG: Color := "#1e1e2e"
  const FG: Color := "#cdd6f4"
  const ANSI_16: seq<Color> := [
    "#1e1e2e", "#f38ba8", "#a6e3a1", "#f9e2af", "#89b4fa", "#cba6f7", "#94e2d5", "#cdd6f4",
    "#585b70", "#f38ba8", "#a6e3a1", "#f9e2af", "#89b4fa", "#cba6f7", "#94e2d5", "#ffffff"]

  datatype Style = Style(fg: Color, bg: Color, bold: bool, dim: bool, italic: bool)

  const PLAIN := Style(FG, BG, false, false, false)

  function Rgb(r: nat, g: nat, b: nat): Color {
    DecimalDigits(r);
    DecimalDigits(g);
    DecimalDigits(b);
    "rgb(" + Decimal(r) + "," + Decimal(g) + "," + Decimal(b) + ")"
  }

  /** `ansi256ToHex`. */
  function Palette(n: nat): Color {
    if n < 16 then ANSI_16[n]
    else if n < 232 then Rgb((n - 16) / 36 * 51, (n - 16) % 36 / 6 * 51, (n - 16) % 6 * 51)
    else Rgb((n - 232) * 10 + 8, (n - 232) * 10 + 8, (n - 232) * 10 + 8)
  }

  // ---- SGR ----

  const ESC := '\U{001B}'

  predicate IsParam(c: char) {
    '0' <= c <= '9' || c == ';'
  }

  function ParamsLength(s: string): (n: nat)
    ensures n <= |s|
    ensures forall i :: 0 <= i < n ==> IsParam(s[i])
    ensures n < |s| ==> !IsParam(s[n])
  {
    if s == "" || !IsParam(s[0]) then 0 else 1 + ParamsLength(s[1..])
  }

  /** The parameters of the SGR sequence at the head of s: ESC [, digits and semicolons, m. */
  function SgrAt(s: string): (params: Option<string>)
    ensures params.Some? ==> |s| >= |params.value| + 3
  {
    if |s| < 2 || s[0] != ESC || s[1] != '[' then None
    else
      var n := ParamsLength(s[2..]);
      if 2 + n < |s| && s[2 + n] == 'm' then Some(s[2..2 + n]) else None
  }

  function After(s: string): (rest: string)
    requires SgrAt(s).Some?
    ensures |rest| < |s|
  {
    s[|SgrAt(s).value| + 3..]
  }

  function Split(s: string): (r: seq<string>)
    ensures r != []
  {
    if s == "" then [""]
    else if s[0] == ';' then [""] + Split(s[1..])
    else var r := Split(s[1..]); [[s[0]] + r[0]] + r[1..]
  }

  /** `Number` of digits; the empty string is 0. */
  function Value(digits: string): nat {
    if digits == "" then 0
    else
      var d := digits[|digits| - 1];
      Value(digits[..|digits| - 1]) * 10 + if '0' <= d <= '9' then d as nat - '0' as nat else 0
  }

  function Codes(params: string): seq<nat> {
    var parts := Split(params);
    seq(|parts|, i requires 0 <= i < |parts| => Value(parts[i]))
  }

  /** A missing code counts as 0. */
  function CodeAt(codes: seq<nat>, i: nat): nat {
    if i < |codes| then codes[i] else 0
  }

  /** The colour that follows 38 or 48 at i, and how many codes it uses up. */
  function Extended(codes: seq<nat>, i: nat): Option<(Color, nat)> {
    if i + 1 >= |codes| then None
    else if codes[i + 1] == 5 then Some((Palette(CodeAt(codes, i + 2)), 2))
    else if codes[i + 1] == 2 then Some((Rgb(CodeAt(codes, i + 2), CodeAt(codes, i + 3), CodeAt(codes, i + 4)), 4))
    else None
  }

  function SimpleCode(st: Style, c: nat): Style {
    if c == 0 then PLAIN
    else if c == 1 then st.(bold := true)
    else if c == 2 then st.(dim := true)
    else if c == 3 then st.(italic := true)
    else if c == 22 then st.(bold := false, dim := false)
    else if c == 23 then st.(italic := false)
    else if 30 <= c <= 37 then st.(fg := ANSI_16[c - 30])
    else if c == 39 then st.(fg := FG)
    else if 40 <= c <= 47 then st.(bg := ANSI_16[c - 40])
    else if c == 49 then st.(bg := BG)
    else if 90 <= c <= 97 then st.(fg := ANSI_16[c - 82])
    else st
  }

  /** The codes from i on, one after the other. */
  function Fold(st: Style, codes: seq<nat>, i: nat): Style
    decreases |codes| - i
  {
    if i >= |codes| then st
    else if codes[i] == 38 || codes[i] == 48 then
      match Extended(codes, i)
      case Some((color, used)) =>
        Fold(if codes[i] == 38 then st.(fg := color) else st.(bg := color), codes, i + 1 + used)
      case None => Fold(st, codes, i + 1)
    else Fold(SimpleCode(st, codes[i]), codes, i + 1)
  }

  function Apply(st: Style, params: string): Style {
    Fold(st, Codes(params), 0)
  }

  /** The loop over the codes of one sequence. */
  method ApplyCodes(st: Style, codes: seq<nat>) returns (r: Style)
    ensures r == Fold(st, codes, 0)
  {
    r := st;
    var i := 0;
    while i < |codes|
      invariant Fold(st, codes, 0) == Fold(r, codes, i)
    {
      var c := codes[i];
      if c == 38 || c == 48 {
        var extended := Extended(codes, i);
        if extended.Some? {
          r := if c == 38 then r.(fg := extended.value.0) else r.(bg := extended.value.0);
          i := i + extended.value.1;
        }
      } else {
        r := SimpleCode(r, c);
      }
      i := i + 1;
    }
  }

  // ---- what a line means ----

  datatype Glyph = Glyph(c: char, style: Style)

  /** Every visible character with the style that the sequences before it add up to. */
  function Meaning(s: string, st: Style): seq<Glyph>
    decreases |s|
  {
    if s == "" then []
    else if SgrAt(s).Some? then Meaning(After(s), Apply(st, SgrAt(s).value))
    else [Glyph(s[0], st)] + Meaning(s[1..], st)
  }

  /** The line without its sequences. */
  function Visible(s: string): string
    decreases |s|
  {
    if s == "" then "" else if SgrAt(s).Some? then Visible(After(s)) else [s[0]] + Visible(s[1..])
  }

  ghost predicate HasSgr(s: string) {
    exists i :: 0 <= i < |s| && SgrAt(s[i..]).Some?
  }

  /** What the renderer makes of it: a character that no further sequence follows is never italic. */
  ghost function Drawn(s: string, st: Style): seq<Glyph>
    decreases |s|
  {
    if s == "" then []
    else if SgrAt(s).Some? then Drawn(After(s), Apply(st, SgrAt(s).value))
    else [Glyph(s[0], if HasSgr(s) then st else st.(italic := false))] + Drawn(s[1..], st)
  }

  // ---- writing HTML ----

  function Replace(s: string, c: char, by_: string): string {
    if s == "" then "" else (if s[0] == c then by_ else [s[0]]) + Replace(s[1..], c, by_)
  }

  /** `escapeHtml`: three passes. */
  function EscapeHtml(s: string): string {
    Replace(Replace(Replace(s, '&', "&amp;"), '<', "&lt;"), '>', "&gt;")
  }

  function EscapeChar(c: char): string {
    if c == '&' then "&amp;" else if c == '<' then "&lt;" else if c == '>' then "&gt;" else [c]
  }

  function EscapeEach(s: string): string {
    if s == "" then "" else EscapeChar(s[0]) + EscapeEach(s[1..])
  }

  function Flags(st: Style): string {
    (if st.bold then ";font-weight:bold" else "") + (if st.dim then ";opacity:0.6" else "")
      + (if st.italic then ";font-style:italic" else "")
  }

  function Rest(st: Style): string {
    if st.bg != BG then ";background:" + st.bg + Flags(st) else Flags(st)
  }

  function Css(st: Style): string {
    "color:" + st.fg + Rest(st)
  }

  const OPEN := "<span style=\""
  const SHUT := "\">"
  const END := "</span>"

  function Span(css: string, text: string): string {
    OPEN + css + SHUT + EscapeHtml(text) + END
  }

  // ---- reading HTML ----

  datatype Cell = Cell(c: char, css: string)

  /** The style a tag sets; any other tag ends it. */
  function TagCss(tag: string): string {
    if OPEN <= tag && |tag| > |OPEN| then tag[|OPEN|..|tag| - 1] else ""
  }

  /** The text of an HTML fragment with the style attribute in force: tags dropped, entities decoded. */
  function ReadHtml(h: string, css: string): seq<Cell>
    decreases |h|
  {
    if h == "" then []
    else if h[0] == '<' then
      var n := IndexOf(h, '>');
      if n == |h| then [] else ReadHtml(h[n + 1..], TagCss(h[..n]))
    else if "&amp;" <= h then [Cell('&', css)] + ReadHtml(h[5..], css)
    else if "&lt;" <= h then [Cell('<', css)] + ReadHtml(h[4..], css)
    else if "&gt;" <= h then [Cell('>', css)] + ReadHtml(h[4..], css)
    else [Cell(h[0], css)] + ReadHtml(h[1..], css)
  }

  function Painted(glyphs: seq<Glyph>): (r: seq<Cell>)
    ensures |r| == |glyphs| && forall i :: 0 <= i < |glyphs| ==> r[i] == Cell(glyphs[i].c, Css(glyphs[i].style))
  {
    seq(|glyphs|, i requires 0 <= i < |glyphs| => Cell(glyphs[i].c, Css(glyphs[i].style)))
  }

  function Uniform(text: string, css: string): (r: seq<Cell>)
    ensures |r| == |text| && forall i :: 0 <= i < |text| ==> r[i] == Cell(text[i], css)
  {
    seq(|text|, i requires 0 <= i < |text| => Cell(text[i], css))
  }

  // ---- escaping ----

  lemma ReplaceAppend(s: string, t: string, c: char, r: string)
    ensures Replace(s + t, c, r) == Replace(s, c, r) + Replace(t, c, r)
  {
    if s == "" {
      assert s + t == t;
    } else {
      assert (s + t)[1..] == s[1..] + t;
      ReplaceAppend(s[1..], t, c, r);
    }
  }

  lemma ReplaceOne(x: char, c: char, r: string)
    ensures Replace([x], c, r) == if x == c then r else [x]
  {
    assert [x][1..] == "";
  }

  lemma ReplaceAbsent(s: string, c: char, r: string)
    requires c !in s
    ensures Replace(s, c, r) == s
  {
    if s != "" {
      ReplaceAbsent(s[1..], c, r);
      assert s == [s[0]] + s[1..];
    }
  }

  lemma EscapeOne(x: char)
    ensures EscapeHtml([x]) == EscapeChar(x)
  {
    ReplaceOne(x, '&', "&amp;");
    if x == '&' {
      ReplaceAbsent("&amp;", '<', "&lt;");
      ReplaceAbsent("&amp;", '>', "&gt;");
    } else {
      ReplaceOne(x, '<', "&lt;");
      if x == '<' { ReplaceAbsent("&lt;", '>', "&gt;"); } else { ReplaceOne(x, '>', "&gt;"); }
    }
  }

  lemma EscapeAppend(s: string, t: string)
    ensures EscapeHtml(s + t) == EscapeHtml(s) + EscapeHtml(t)
  {
    ReplaceAppend(s, t, '&', "&amp;");
    var s1, t1 := Replace(s, '&', "&amp;"), Replace(t, '&', "&amp;");
    ReplaceAppend(s1, t1, '<', "&lt;");
    ReplaceAppend(Replace(s1, '<', "&lt;"), Replace(t1, '<', "&lt;"), '>', "&gt;");
  }

  /** The three passes amount to one replacement per character: no pass touches what an earlier one wrote. */
  lemma {:induction false} EscapeIsPerCharacter(s: string)
    ensures EscapeHtml(s) == EscapeEach(s)
  {
    if s != "" {
      EscapeIsPerCharacter(s[1..]);
      EscapeOne(s[0]);
      EscapeAppend([s[0]], s[1..]);
      assert s == [s[0]] + s[1..];
    }
  }

  // ---- reading back what was written ----

  lemma ReadChar(c: char, h: string, css: string)
    ensures ReadHtml(EscapeChar(c) + h, css) == [Cell(c, css)] + ReadHtml(h, css)
  {
    var e := EscapeChar(c) + h;
    if c == '&' {
      assert e[5..] == h;
    } else if c == '<' {
      assert e[..4] == "&lt;" && e[4..] == h && e[1] == 'l';
    } else if c == '>' {
      assert e[..4] == "&gt;" && e[4..] == h && e[1] == 'g';
    } else {
      assert e[1..] == h && e[0] == c;
    }
  }

  lemma {:induction false} ReadText(text: string, h: string, css: string)
    ensures ReadHtml(EscapeEach(text) + h, css) == Uniform(text, css) + ReadHtml(h, css)
  {
    hide ReadHtml;
    if text == "" {
      assert EscapeEach(text) + h == h;
    } else {
      ReadText(text[1..], h, css);
      ReadChar(text[0], EscapeEach(text[1..]) + h, css);
      assert EscapeEach(text) + h == EscapeChar(text[0]) + (EscapeEach(text[1..]) + h);
      assert Uniform(text, css) == [Cell(text[0], css)] + Uniform(text[1..], css);
    }
  }

  lemma {:induction false} IndexIn(s: string, t: string, c: char)
    requires c !in s
    ensures IndexOf(s + [c] + t, c) == |s|
  {
    if s != "" {
      assert (s + [c] + t)[1..] == s[1..] + [c] + t;
      IndexIn(s[1..], t, c);
    }
  }

  lemma ReadTag(tag: string, h: string, css: string)
    requires tag != "" && tag[0] == '<' && '>' !in tag
    ensures ReadHtml(tag + ">" + h, css) == ReadHtml(h, TagCss(tag))
  {
    IndexIn(tag, h, '>');
    var all := tag + ">" + h;
    assert all[..|tag|] == tag && all[|tag| + 1..] == h;
  }

  lemma ReadSpan(css: string, text: string, h: string, before: string)
    requires '>' !in css
    ensures ReadHtml(Span(css, text) + h, before) == Uniform(text, css) + ReadHtml(h, "")
  {
    hide ReadHtml, IndexOf;
    EscapeIsPerCharacter(text);
    var tag, inner, rest := OPEN + css + "\"", EscapeHtml(text), END + h;
    assert Span(css, text) + h == tag + ">" + (inner + rest);
    ReadTag(tag, inner + rest, before);
    assert TagCss(tag) == css;
    ReadText(text, rest, css);
    assert rest == "</span" + ">" + h;
    ReadTag("</span", h, css);
    assert !(OPEN <= "</span");
  }

  lemma CssHasNoBracket(st: Style)
    ensures '>' !in Css(st)
  {
    assert '>' !in st.fg && '>' !in st.bg;
  }

  /** The fragment reads as these cells, whatever follows it. */
  ghost predicate ReadsAs(html: string, cells: seq<Cell>) {
    forall h :: ReadHtml(html + h, "") == cells + ReadHtml(h, "")
  }

  lemma ReadsAppend(html: string, cells: seq<Cell>, css: string, text: string)
    requires ReadsAs(html, cells) && '>' !in css
    ensures ReadsAs(html + Span(css, text), cells + Uniform(text, css))
  {
    hide ReadHtml, Span;
    forall h ensures ReadHtml(html + Span(css, text) + h, "") == cells + Uniform(text, css) + ReadHtml(h, "") {
      assert html + Span(css, text) + h == html + (Span(css, text) + h);
      ReadSpan(css, text, h, "");
    }
  }

  lemma ReadsAll(html: string, cells: seq<Cell>)
    requires ReadsAs(html, cells)
    ensures ReadHtml(html, "") == cells
  {
    assert html + "" == html;
    assert ReadHtml(html + "", "") == cells + ReadHtml("", "");
  }

  lemma NothingReads()
    ensures ReadsAs("", [])
  {
    hide ReadHtml;
    forall h ensures ReadHtml("" + h, "") == [] + ReadHtml(h, "") { assert "" + h == h; }
  }

  // ---- the renderer ----

  /** No sequence starts in the first n characters. */
  predicate NoSgrBefore(s: string, n: nat)
    requires n <= |s|
  {
    forall i :: 0 <= i < n ==> SgrAt(s[i..]).None?
  }

  /** The next match of the pattern from an index on. */
  method FindSgr(line: string, from: nat) returns (at: nat)
    requires from <= |line|
    ensures from <= at <= |line|
    ensures NoSgrBefore(line[from..], at - from)
    ensures at < |line| ==> SgrAt(line[at..]).Some?
  {
    hide SgrAt;
    at := from;
    while at < |line| && SgrAt(line[at..]).None?
      invariant from <= at <= |line|
      invariant NoSgrBefore(line[from..], at - from)
    {
      assert line[from..][at - from..] == line[at..];
      at := at + 1;
    }
  }

  function Styled(text: string, st: Style): (r: seq<Glyph>)
    ensures |r| == |text| && forall i :: 0 <= i < |text| ==> r[i] == Glyph(text[i], st)
  {
    seq(|text|, i requires 0 <= i < |text| => Glyph(text[i], st))
  }

  lemma NoSgrNext(s: string, n: nat)
    requires 0 < n <= |s| && NoSgrBefore(s, n)
    ensures SgrAt(s).None? && NoSgrBefore(s[1..], n - 1)
  {
    hide SgrAt;
    assert s[0..] == s;
    forall i | 0 <= i < n - 1 ensures SgrAt(s[1..][i..]).None? { assert s[1..][i..] == s[i + 1..]; }
  }

  lemma {:induction false} DrawnAhead(s: string, n: nat, st: Style)
    requires n < |s| && NoSgrBefore(s, n) && SgrAt(s[n..]).Some?
    ensures Drawn(s, st) == Styled(s[..n], st) + Drawn(After(s[n..]), Apply(st, SgrAt(s[n..]).value))
  {
    hide SgrAt, Apply, NoSgrBefore, HasSgr;
    if n == 0 {
      assert s[0..] == s;
    } else {
      NoSgrNext(s, n);
      SgrFollows(s, n);
      assert s[1..][n - 1..] == s[n..];
      DrawnAhead(s[1..], n - 1, st);
      assert Styled(s[..n], st) == [Glyph(s[0], st)] + Styled(s[1..][..n - 1], st);
    }
  }

  lemma SgrFollows(s: string, n: nat)
    requires n < |s| && SgrAt(s[n..]).Some?
    ensures HasSgr(s)
  {}

  lemma {:induction false} DrawnTail(s: string, st: Style)
    requires NoSgrBefore(s, |s|)
    ensures Drawn(s, st) == Styled(s, st.(italic := false))
  {
    hide SgrAt;
    if s != "" {
      NoSgrNext(s, |s|);
      DrawnTail(s[1..], st);
    }
  }

  lemma SpanOfGlyphs(text: string, st: Style, before: seq<Glyph>)
    ensures Painted(before + Styled(text, st)) == Painted(before) + Uniform(text, Css(st))
    ensures '>' !in Css(st)
  {
    hide Css;
    CssHasNoBracket(st);
  }

  /**
   * One line of `ansiToHtml`. What the HTML reads back as is the visible text, each character in the style its
   * sequences give it, save that italics are lost behind the last sequence.
   */
  method RenderLine(line: string) returns (html: string)
    ensures Rendered(line, html)
  {
    hide SgrAt, Fold, Codes, Css, Span, ReadHtml, ReadsAs, Drawn, EscapeHtml, Concat, NoSgrBefore, Visible;
    var st, spans: seq<string>, lastIdx: nat := PLAIN, [], 0;
    ghost var done: seq<Glyph> := [];
    NothingReads();
    assert line[0..] == line && Concat([]) == "" by { ConcatNothing(); }
    var at := FindSgr(line, 0);
    while at < |line|
      invariant lastIdx <= at <= |line| && NoSgrBefore(line[lastIdx..], at - lastIdx)
      invariant at < |line| ==> SgrAt(line[at..]).Some?
      invariant ReadsAs(Concat(spans), Painted(done)) && (spans == [] <==> done == [])
      invariant Drawn(line, PLAIN) == done + Drawn(line[lastIdx..], st)
      decreases |line| - at
    {
      assert line[lastIdx..][at - lastIdx..] == line[at..] && line[lastIdx..][..at - lastIdx] == line[lastIdx..at];
      DrawnAhead(line[lastIdx..], at - lastIdx, st);
      if at > lastIdx {
        spans, done := AddSpan(spans, line[lastIdx..at], st, done);
      }
      var params := SgrAt(line[at..]).value;
      assert line[at..][|params| + 3..] == line[at + |params| + 3..];
      lastIdx := at + |params| + 3;
      st := ApplyCodes(st, Codes(params));
      at := FindSgr(line, lastIdx);
    }
    assert line[lastIdx..][..at - lastIdx] == line[lastIdx..];
    DrawnTail(line[lastIdx..], st);
    if lastIdx < |line| {
      spans, done := AddSpan(spans, line[lastIdx..], st.(italic := false), done);
    }
    html := Concat(spans);
    ReadsAll(html, Painted(done));
    DrawnChars(line, PLAIN);
    if spans == [] { html := "&nbsp;"; }
  }

  method AddSpan(spans: seq<string>, text: string, st: Style, ghost done: seq<Glyph>)
    returns (spans': seq<string>, ghost done': seq<Glyph>)
    requires ReadsAs(Concat(spans), Painted(done)) && text != ""
    ensures spans' == spans + [Span(Css(st), text)] && done' == done + Styled(text, st)
    ensures ReadsAs(Concat(spans'), Painted(done'))
  {
    hide Css, Span, ReadsAs, Concat;
    spans', done' := spans + [Span(Css(st), text)], done + Styled(text, st);
    SpanOfGlyphs(text, st, done);
    ConcatSnoc(spans, Span(Css(st), text));
    ReadsAppend(Concat(spans), Painted(done), Css(st), text);
  }

  lemma ConcatNothing()
    ensures Concat([]) == ""
  {}

  /** An empty line keeps its height; any other reads back as drawn. */
  ghost predicate Rendered(line: string, html: string) {
    if Visible(line) == "" then html == "&nbsp;" else ReadHtml(html, "") == Painted(Drawn(line, PLAIN))
  }

  lemma {:induction false} DrawnChars(s: string, st: Style)
    ensures |Drawn(s, st)| == |Visible(s)| == |Meaning(s, st)|
    ensures forall i :: 0 <= i < |Visible(s)| ==> Drawn(s, st)[i].c == Visible(s)[i] == Meaning(s, st)[i].c
    decreases |s|
  {
    hide SgrAt, Apply;
    if s == "" {
    } else if SgrAt(s).Some? {
      DrawnChars(After(s), Apply(st, SgrAt(s).value));
    } else {
      DrawnChars(s[1..], st);
    }
  }

  // ---- the italic tail ----

  /** The text behind the last sequence and the style in force there. */
  ghost function Tail(s: string, st: Style): (string, Style)
    decreases |s|
  {
    if !HasSgr(s) then (s, st)
    else if s == "" then ("", st)
    else if SgrAt(s).Some? then Tail(After(s), Apply(st, SgrAt(s).value))
    else Tail(s[1..], st)
  }

  lemma HasSgrRest(s: string)
    requires s != "" && SgrAt(s).None?
    ensures HasSgr(s) <==> HasSgr(s[1..])
  {
    hide SgrAt;
    assert s[0..] == s;
    forall i | 0 <= i < |s| - 1 ensures s[1..][i..] == s[i + 1..] {}
    if HasSgr(s) {
      var i :| 0 <= i < |s| && SgrAt(s[i..]).Some?;
      assert s[1..][i - 1..] == s[i..];
    }
    if HasSgr(s[1..]) {
      var i :| 0 <= i < |s[1..]| && SgrAt(s[1..][i..]).Some?;
      assert SgrAt(s[i + 1..]).Some?;
    }
  }

  lemma SgrHere(s: string)
    requires SgrAt(s).Some?
    ensures HasSgr(s)
  {
    assert s[0..] == s;
  }

  /** The renderer draws the meaning of a line exactly when no italic text follows its last sequence. */
  lemma {:induction false} DrawnIsMeaning(s: string, st: Style)
    ensures Drawn(s, st) == Meaning(s, st) <==> Tail(s, st).0 == "" || !Tail(s, st).1.italic
    decreases |s|
  {
    hide SgrAt, Apply, HasSgr;
    if s == "" {
    } else if SgrAt(s).Some? {
      SgrHere(s);
      DrawnIsMeaning(After(s), Apply(st, SgrAt(s).value));
    } else {
      HasSgrRest(s);
      DrawnIsMeaning(s[1..], st);
      var plain := st.(italic := false);
      ConsEqual(Glyph(s[0], if HasSgr(s) then st else plain), Drawn(s[1..], st), Glyph(s[0], st), Meaning(s[1..], st));
      assert plain == st <==> !st.italic;
    }
  }

  lemma ConsEqual(a: Glyph, x: seq<Glyph>, b: Glyph, y: seq<Glyph>)
    ensures [a] + x == [b] + y <==> a == b && x == y
  {
    assert ([a] + x)[0] == a && ([b] + y)[0] == b && ([a] + x)[1..] == x && ([b] + y)[1..] == y;
  }

  /** Different styles have different style attributes. */
  lemma CssTellsStyles(a: Style, b: Style)
    requires Css(a) == Css(b)
    ensures a == b
  {
    hide Rest, Flags;
    CssParts(a);
    CssParts(b);
    RestHead(a);
    RestHead(b);
    SplitAtSemicolon(a.fg, Rest(a), b.fg, Rest(b));
    RestTells(a, b);
  }

  lemma CssParts(st: Style)
    ensures Css(st)[6..] == st.fg + Rest(st)
  {
    hide Rest;
  }

  lemma FlagsHead(st: Style)
    ensures Flags(st) == "" || (|Flags(st)| > 1 && Flags(st)[0] == ';' && Flags(st)[1] != 'b')
  {}

  lemma RestHead(st: Style)
    ensures Rest(st) == "" || Rest(st)[0] == ';'
  {
    hide Flags;
    FlagsHead(st);
  }

  lemma RestTells(a: Style, b: Style)
    requires Rest(a) == Rest(b)
    ensures a.bg == b.bg && a.bold == b.bold && a.dim == b.dim && a.italic == b.italic
  {
    hide Flags;
    RestSecond(a);
    RestSecond(b);
    if a.bg != BG {
      assert Rest(a)[12..] == a.bg + Flags(a) && Rest(b)[12..] == b.bg + Flags(b);
      FlagsHead(a);
      FlagsHead(b);
      SplitAtSemicolon(a.bg, Flags(a), b.bg, Flags(b));
    }
    FlagsTell(a, b);
  }

  lemma RestSecond(st: Style)
    ensures st.bg != BG <==> |Rest(st)| > 1 && Rest(st)[1] == 'b'
  {
    hide Flags;
    FlagsHead(st);
  }

  /** The lengths alone tell the flags apart. */
  lemma FlagsTell(a: Style, b: Style)
    requires Flags(a) == Flags(b)
    ensures a.bold == b.bold && a.dim == b.dim && a.italic == b.italic
  {
  }

  lemma SplitAtSemicolon(a: Color, s: string, b: Color, t: string)
    requires a + s == b + t
    requires (s == "" || s[0] == ';') && (t == "" || t[0] == ';')
    ensures a == b && s == t
  {
    IndexOfSemicolon(a, s);
    IndexOfSemicolon(b, t);
    assert (a + s)[..|a|] == a && (b + t)[..|b|] == b && (a + s)[|a|..] == s && (b + t)[|b|..] == t;
  }

  lemma IndexOfSemicolon(a: string, s: string)
    requires ';' !in a && (s == "" || s[0] == ';')
    ensures IndexOf(a + s, ';') == |a|
  {
    if a == "" { assert a + s == s; } else {
      assert (a + s)[1..] == a[1..] + s;
      IndexOfSemicolon(a[1..], s);
    }
  }

  lemma PaintedTells(a: seq<Glyph>, b: seq<Glyph>)
    requires Painted(a) == Painted(b)
    ensures a == b
  {
    hide Css;
    assert |a| == |b|;
    forall i | 0 <= i < |a| ensures a[i] == b[i] {
      assert Painted(a)[i] == Painted(b)[i];
      CssTellsStyles(a[i].style, b[i].style);
    }
  }

  /**
   * A rendered line with something to see reads back as its visible text, without exception; each character also keeps
   * its style exactly when no italic text follows the last sequence.
   */
  lemma LineKeepsMeaning(line: string, html: string)
    requires Rendered(line, html) && Visible(line) != ""
    ensures |ReadHtml(html, "")| == |Visible(line)|
    ensures forall i :: 0 <= i < |Visible(line)| ==> ReadHtml(html, "")[i].c == Visible(line)[i]
    ensures ReadHtml(html, "") == Painted(Meaning(line, PLAIN)) <==>
      Tail(line, PLAIN).0 == "" || !Tail(line, PLAIN).1.italic
  {
    hide ReadHtml, Visible, Meaning, Drawn, Tail, Css;
    DrawnChars(line, PLAIN);
    DrawnIsMeaning(line, PLAIN);
    if Painted(Drawn(line, PLAIN)) == Painted(Meaning(line, PLAIN)) {
      PaintedTells(Drawn(line, PLAIN), Meaning(line, PLAIN));
    }
  }

  const ITALIC: string := [ESC, '[', '3', 'm', 'x']

  /** The shortest line that loses its italics. */
  lemma ItalicTailIsLost()
    ensures Tail(ITALIC, PLAIN) == ("x", PLAIN.(italic := true))
  {
    hide SgrAt, ParamsLength, Split, Value;
    ItalicSequence();
    SgrHere(ITALIC);
    assert After(ITALIC) == "x";
    assert Codes("3") == [3] by { ItalicCode(); }
    assert Fold(PLAIN, [3], 0) == Fold(PLAIN.(italic := true), [3], 1);
    assert !HasSgr("x") by { NoSequence(); }
  }

  lemma ItalicSequence()
    ensures SgrAt(ITALIC) == Some("3")
  {
    assert ITALIC[2..] == "3mx" && "3mx"[1..] == "mx";
    assert ParamsLength("mx") == 0;
    assert ParamsLength("3mx") == 1;
    assert ITALIC[2..3] == "3";
    assert ITALIC[0] == ESC && ITALIC[1] == '[' && ITALIC[3] == 'm' && |ITALIC| == 5;
  }

  lemma ItalicCode()
    ensures Codes("3") == [3]
  {
    assert "3"[1..] == "" && Split("") == [""];
    assert ['3'] + "" == "3" && [""][1..] == [];
    assert Split("3") == ["3"];
    assert "3"[..0] == "" && Value("") == 0;
    assert Value("3") == 3;
  }

  lemma NoSequence()
    ensures !HasSgr("x")
  {
    assert "x"[0..] == "x" && SgrAt("x").None?;
  }

  // ---- grouping of codes ----

  /** From i on the codes are complete: no colour at the end still waits for a component. */
  predicate Complete(codes: seq<nat>, i: nat)
    decreases |codes| - i
  {
    if i >= |codes| then i == |codes|
    else if codes[i] == 38 || codes[i] == 48 then
      i + 1 < |codes| && Complete(codes, i + 1 + match Extended(codes, i) case Some((_, used)) => used case None => 0)
    else Complete(codes, i + 1)
  }

  lemma {:induction false} FoldShift(st: Style, a: seq<nat>, b: seq<nat>, i: nat)
    ensures Fold(st, a + b, |a| + i) == Fold(st, b, i)
    decreases |b| - i
  {
    var all := a + b;
    if i < |b| {
      assert all[|a| + i] == b[i];
      if b[i] == 38 || b[i] == 48 {
        assert i + 1 < |b| ==> all[|a| + i + 1] == b[i + 1];
        assert CodeAt(all, |a| + i + 2) == CodeAt(b, i + 2) && CodeAt(all, |a| + i + 3) == CodeAt(b, i + 3)
          && CodeAt(all, |a| + i + 4) == CodeAt(b, i + 4);
        assert Extended(all, |a| + i) == Extended(b, i);
        match Extended(b, i)
        case Some((color, used)) =>
          FoldShift(if b[i] == 38 then st.(fg := color) else st.(bg := color), a, b, i + 1 + used);
        case None => FoldShift(st, a, b, i + 1);
      } else {
        FoldShift(SimpleCode(st, b[i]), a, b, i + 1);
      }
    }
  }

  /** Codes may be spread over sequences at will, as long as no colour is cut in two. */
  lemma {:induction false} GroupingIsFree(st: Style, a: seq<nat>, b: seq<nat>, i: nat)
    requires Complete(a, i)
    ensures Fold(st, a + b, i) == Fold(Fold(st, a, i), b, 0)
    decreases |a| - i
  {
    hide SimpleCode, Palette, Rgb;
    var all := a + b;
    if i == |a| {
      FoldShift(st, a, b, 0);
    } else {
      assert all[i] == a[i];
      if a[i] == 38 || a[i] == 48 {
        assert all[i + 1] == a[i + 1];
        match Extended(a, i)
        case Some((color, used)) =>
          CompleteFits(a, i + 1 + used);
          assert Extended(all, i) == Extended(a, i);
          GroupingIsFree(if a[i] == 38 then st.(fg := color) else st.(bg := color), a, b, i + 1 + used);
        case None => GroupingIsFree(st, a, b, i + 1);
      } else {
        GroupingIsFree(SimpleCode(st, a[i]), a, b, i + 1);
      }
    }
  }

  lemma SplitHead(c: char, s: string)
    ensures Split([c] + s) == if c == ';' then [""] + Split(s) else [[c] + Split(s)[0]] + Split(s)[1..]
  {
    assert ([c] + s)[1..] == s;
  }

  lemma InFront(head: string, left: seq<string>, right: seq<string>)
    requires left != []
    ensures [head + (left + right)[0]] + (left + right)[1..] == [head + left[0]] + left[1..] + right
    ensures [""] + (left + right) == [""] + left + right
  {
    assert (left + right)[1..] == left[1..] + right;
  }

  lemma {:induction false} SplitJoined(p: string, q: string)
    ensures Split(p + ";" + q) == Split(p) + Split(q)
  {
    if p == "" {
      assert p + ";" + q == [';'] + q;
      SplitHead(';', q);
    } else {
      var tail := p[1..] + ";" + q;
      assert p == [p[0]] + p[1..] && p + ";" + q == [p[0]] + tail;
      SplitJoined(p[1..], q);
      hide Split;
      SplitHead(p[0], p[1..]);
      SplitHead(p[0], tail);
      InFront([p[0]], Split(p[1..]), Split(q));
    }
  }

  lemma JoinedParams(st: Style, p: string, q: string)
    requires Complete(Codes(p), 0)
    ensures Codes(p + ";" + q) == Codes(p) + Codes(q)
    ensures Apply(st, p + ";" + q) == Apply(Apply(st, p), q)
  {
    SplitJoined(p, q);
    GroupingIsFree(st, Codes(p), Codes(q), 0);
  }

  predicate IsParams(p: string) {
    forall i :: 0 <= i < |p| ==> IsParam(p[i])
  }

  /** The sequence with these parameters, as a program writes it. */
  function Sgr(params: string): string {
    [ESC, '['] + params + "m"
  }

  lemma ParamsLengthIs(p: string, s: string)
    requires IsParams(p)
    ensures ParamsLength(p + "m" + s) == |p|
  {
    if p == "" {
      assert ("m" + s)[0] == 'm' && p + "m" + s == "m" + s;
    } else {
      assert (p + "m" + s)[1..] == p[1..] + "m" + s;
      ParamsLengthIs(p[1..], s);
    }
  }

  lemma SgrReads(p: string, s: string)
    requires IsParams(p)
    ensures SgrAt(Sgr(p) + s) == Some(p) && After(Sgr(p) + s) == s
  {
    var line := Sgr(p) + s;
    assert line[2..] == p + "m" + s;
    ParamsLengthIs(p, s);
    assert line[2..2 + |p|] == p && line[|p| + 3..] == s;
  }

  /**
   * So two sequences may be written as one, with a semicolon between their parameters, as long as the first cuts no
   * colour in two.
   */
  lemma JoinedSequences(p: string, q: string, s: string, st: Style)
    requires IsParams(p) && IsParams(q) && Complete(Codes(p), 0)
    ensures Meaning(Sgr(p) + Sgr(q) + s, st) == Meaning(Sgr(p + ";" + q) + s, st)
    ensures Drawn(Sgr(p) + Sgr(q) + s, st) == Drawn(Sgr(p + ";" + q) + s, st)
  {
    hide Sgr, Codes, SgrAt, Complete;
    assert Sgr(p) + Sgr(q) + s == Sgr(p) + (Sgr(q) + s);
    SgrReads(p, Sgr(q) + s);
    SgrReads(q, s);
    SgrReads(p + ";" + q, s);
    JoinedParams(st, p, q);
  }

  lemma CompleteFits(codes: seq<nat>, i: nat)
    requires Complete(codes, i)
    ensures i <= |codes|
  {}

  // ---- writing codes ----

  /** Codes as a program writes them: decimal numerals with semicolons between them. */
  function Params(codes: seq<nat>): string
    requires codes != []
  {
    if |codes| == 1 then Decimal(codes[0]) else Params(codes[..|codes| - 1]) + ";" + Decimal(codes[|codes| - 1])
  }

  lemma {:induction false} ValueOfDecimal(n: nat)
    ensures Value(Decimal(n)) == n
  {
    if n >= 10 {
      ValueOfDecimal(n / 10);
      var digits := Decimal(n);
      assert digits[..|digits| - 1] == Decimal(n / 10) && digits[|digits| - 1] == Digit(n % 10);
    } else {
      assert Decimal(n)[..0] == "";
    }
  }

  lemma CodesOfNumeral(n: nat)
    ensures Codes(Decimal(n)) == [n] && IsParams(Decimal(n))
  {
    DecimalDigits(n);
    OnePart(Decimal(n));
    ValueOfDecimal(n);
    forall i | 0 <= i < |Decimal(n)| ensures IsParam(Decimal(n)[i]) { assert Decimal(n)[i] in Decimal(n); }
  }

  lemma CodesJoined(p: string, q: string)
    ensures Codes(p + ";" + q) == Codes(p) + Codes(q)
  {
    SplitJoined(p, q);
  }

  lemma {:induction false} CodesOfParams(codes: seq<nat>)
    requires codes != []
    ensures Codes(Params(codes)) == codes && IsParams(Params(codes))
  {
    hide Codes;
    var init, last := codes[..|codes| - 1], codes[|codes| - 1];
    CodesOfNumeral(last);
    if init != [] {
      CodesOfParams(init);
      CodesJoined(Params(init), Decimal(last));
      assert codes == init + [last];
    }
  }

  /** Reading a written sequence gives back its codes; what follows is styled by them. No parameters read as code 0. */
  lemma WrittenCodes(codes: seq<nat>, s: string, st: Style)
    ensures codes != [] ==> Meaning(Sgr(Params(codes)) + s, st) == Meaning(s, Fold(st, codes, 0))
    ensures Meaning(Sgr("") + s, st) == Meaning(s, PLAIN)
  {
    hide Sgr, SgrAt, Codes, Params;
    if codes != [] {
      CodesOfParams(codes);
      SgrReads(Params(codes), s);
    }
    SgrReads("", s);
    NoParams();
    assert Sgr("") + s != "";
  }

  lemma NoParams()
    ensures Codes("") == [0] && Fold(PLAIN, [0], 0) == PLAIN && forall st :: Fold(st, [0], 0) == PLAIN
  {
    assert Split("") == [""];
    forall st ensures Fold(st, [0], 0) == PLAIN {
      assert SimpleCode(st, 0) == PLAIN;
      assert Fold(st, [0], 0) == Fold(PLAIN, [0], 1);
    }
  }

  // ---- what the codes mean, one attribute at a time ----

  /** 38 or 48 at i brings a colour along: 5 and an index, or 2 and three components. */
  predicate Introduces(codes: seq<nat>, i: nat) {
    i + 1 < |codes| && codes[i] in {38, 48} && codes[i + 1] in {2, 5}
  }

  /** The last place that belongs to the colour introduced at i. */
  function Reach(codes: seq<nat>, i: nat): nat
    requires Introduces(codes, i)
  {
    if codes[i + 1] == 5 then i + 2 else i + 4
  }

  /** The code at k stands for itself: no colour that stands for itself reaches over it. */
  predicate Own(codes: seq<nat>, k: nat) {
    k < |codes| && forall i | 0 <= i < k :: Introduces(codes, i) && Own(codes, i) ==> Reach(codes, i) < k
  }

  /** The last code that stands for itself and is one of those that settle the attribute. */
  ghost predicate Last(codes: seq<nat>, k: nat, settles: nat -> bool) {
    Own(codes, k) && settles(k) && forall j :: k < j < |codes| && Own(codes, j) ==> !settles(j)
  }

  ghost predicate Unsettled(codes: seq<nat>, settles: nat -> bool) {
    forall k :: 0 <= k < |codes| && Own(codes, k) ==> !settles(k)
  }

  /** The place of the next code of its own. */
  function Next(codes: seq<nat>, i: nat): nat {
    if Introduces(codes, i) then Reach(codes, i) + 1 else i + 1
  }

  lemma OwnNext(codes: seq<nat>, i: nat)
    requires Own(codes, i)
    ensures forall k :: i < k < Next(codes, i) ==> !Own(codes, k)
    ensures Next(codes, i) < |codes| ==> Own(codes, Next(codes, i))
  {
    var n := Next(codes, i);
    forall k | i < k < n ensures !Own(codes, k) { assert Introduces(codes, i) && Reach(codes, i) >= k; }
    if n < |codes| {
      forall j | 0 <= j < n && Introduces(codes, j) && Own(codes, j) ensures Reach(codes, j) < n {
        if j < i { assert Reach(codes, j) < i; }
      }
    }
  }

  /** The effect of one code, an introduced colour included. */
  function Effect(st: Style, codes: seq<nat>, i: nat): Style
    requires i < |codes|
  {
    if codes[i] == 38 || codes[i] == 48 then
      match Extended(codes, i)
      case Some((color, _)) => if codes[i] == 38 then st.(fg := color) else st.(bg := color)
      case None => st
    else SimpleCode(st, codes[i])
  }

  lemma FoldNext(st: Style, codes: seq<nat>, i: nat)
    requires i < |codes|
    ensures Fold(st, codes, i) == Fold(Effect(st, codes, i), codes, Next(codes, i))
  {}

  /**
   * An attribute that only certain codes change, and change to something that depends on nothing but their place, ends
   * as the last of them says, or as it was if there is none.
   */
  lemma {:induction false} LastSettles<T(!new)>(get: Style -> T, settles: nat -> bool, value: nat -> T, st: Style,
      codes: seq<nat>, i: nat)
    requires forall s: Style, k: nat :: k < |codes| ==>
      get(Effect(s, codes, k)) == if settles(k) then value(k) else get(s)
    requires i >= |codes| || Own(codes, i)
    ensures forall k: nat :: i <= k && Last(codes, k, settles) ==> get(Fold(st, codes, i)) == value(k)
    ensures (forall k: nat :: i <= k < |codes| && Own(codes, k) ==> !settles(k)) ==> get(Fold(st, codes, i)) == get(st)
    decreases |codes| - i
  {
    hide Effect, Next, Own, Fold;
    if i < |codes| {
      var n := Next(codes, i);
      NextIsLater(codes, i);
      OwnNext(codes, i);
      FoldNext(st, codes, i);
      LastSettles(get, settles, value, Effect(st, codes, i), codes, n);
      forall k: nat | i <= k && Last(codes, k, settles) ensures get(Fold(st, codes, i)) == value(k) {
        assert k == i || k >= n;
      }
    } else {
      FoldEnds(st, codes, i);
      forall k: nat | i <= k ensures !Own(codes, k) { OwnIsThere(codes, k); }
    }
  }

  lemma NextIsLater(codes: seq<nat>, i: nat)
    ensures Next(codes, i) > i
  {}

  lemma FoldEnds(st: Style, codes: seq<nat>, i: nat)
    requires i >= |codes|
    ensures Fold(st, codes, i) == st
  {}

  lemma OwnIsThere(codes: seq<nat>, k: nat)
    ensures Own(codes, k) ==> k < |codes|
  {}

  function OneOf(codes: seq<nat>, which: set<nat>): nat -> bool {
    (k: nat) => k < |codes| && codes[k] in which
  }

  function Means(codes: seq<nat>, code: nat): nat -> bool {
    (k: nat) => k < |codes| && codes[k] == code
  }

  /**
   * Bold, dim and italic are on exactly if the last code among 0, 1 and 22, or 0, 2 and 22, or 0, 3 and 23, is the one
   * that turns them on, and stay as they were without any.
   */
  lemma FlagsAfter(st: Style, codes: seq<nat>)
    ensures var after := Fold(st, codes, 0);
      && (forall k: nat :: Last(codes, k, OneOf(codes, {0, 1, 22})) ==> (after.bold <==> codes[k] == 1))
      && (Unsettled(codes, OneOf(codes, {0, 1, 22})) ==> after.bold == st.bold)
      && (forall k: nat :: Last(codes, k, OneOf(codes, {0, 2, 22})) ==> (after.dim <==> codes[k] == 2))
      && (Unsettled(codes, OneOf(codes, {0, 2, 22})) ==> after.dim == st.dim)
      && (forall k: nat :: Last(codes, k, OneOf(codes, {0, 3, 23})) ==> (after.italic <==> codes[k] == 3))
      && (Unsettled(codes, OneOf(codes, {0, 3, 23})) ==> after.italic == st.italic)
  {
    hide Own, Fold, Last, Unsettled;
    BoldAfter(st, codes);
    DimAfter(st, codes);
    ItalicAfter(st, codes);
  }

  lemma BoldAfter(st: Style, codes: seq<nat>)
    ensures var after := Fold(st, codes, 0);
      && (forall k: nat :: Last(codes, k, OneOf(codes, {0, 1, 22})) ==> (after.bold <==> codes[k] == 1))
      && (Unsettled(codes, OneOf(codes, {0, 1, 22})) ==> after.bold == st.bold)
  {
    hide Own, Fold;
    FirstIsOwn(codes);
    LastSettles((s: Style) => s.bold, OneOf(codes, {0, 1, 22}), Means(codes, 1), st, codes, 0);
  }

  lemma DimAfter(st: Style, codes: seq<nat>)
    ensures var after := Fold(st, codes, 0);
      && (forall k: nat :: Last(codes, k, OneOf(codes, {0, 2, 22})) ==> (after.dim <==> codes[k] == 2))
      && (Unsettled(codes, OneOf(codes, {0, 2, 22})) ==> after.dim == st.dim)
  {
    hide Own, Fold;
    FirstIsOwn(codes);
    LastSettles((s: Style) => s.dim, OneOf(codes, {0, 2, 22}), Means(codes, 2), st, codes, 0);
  }

  lemma ItalicAfter(st: Style, codes: seq<nat>)
    ensures var after := Fold(st, codes, 0);
      && (forall k: nat :: Last(codes, k, OneOf(codes, {0, 3, 23})) ==> (after.italic <==> codes[k] == 3))
      && (Unsettled(codes, OneOf(codes, {0, 3, 23})) ==> after.italic == st.italic)
  {
    hide Own, Fold;
    FirstIsOwn(codes);
    LastSettles((s: Style) => s.italic, OneOf(codes, {0, 3, 23}), Means(codes, 3), st, codes, 0);
  }

  lemma FirstIsOwn(codes: seq<nat>)
    ensures 0 >= |codes| || Own(codes, 0)
  {}

  /** The codes that settle the colour of the text, whose extended form is introduced by 38: 0, 30-37, 38, 39, 90-97. */
  function SettlesText(codes: seq<nat>): nat -> bool {
    (k: nat) => k < |codes| && (codes[k] in {0, 39} || 30 <= codes[k] <= 37 || 90 <= codes[k] <= 97
                         || (codes[k] == 38 && Introduces(codes, k)))
  }

  /** And those of the background, introduced by 48: 0, 40-47, 48, 49. */
  function SettlesGround(codes: seq<nat>): nat -> bool {
    (k: nat) => k < |codes| && (codes[k] in {0, 49} || 40 <= codes[k] <= 47 || (codes[k] == 48 && Introduces(codes, k)))
  }

  /** The colour introduced at k: an entry of the palette, or three components; what is missing is 0. */
  function Introduced(codes: seq<nat>, k: nat): Color
    requires Introduces(codes, k)
  {
    if codes[k + 1] == 5 then Palette(if k + 2 < |codes| then codes[k + 2] else 0)
    else Rgb(if k + 2 < |codes| then codes[k + 2] else 0, if k + 3 < |codes| then codes[k + 3] else 0,
      if k + 4 < |codes| then codes[k + 4] else 0)
  }

  function TextAt(codes: seq<nat>): nat -> Color {
    (k: nat) =>
      if k >= |codes| || codes[k] in {0, 39} then "#cdd6f4"
      else if 30 <= codes[k] <= 37 then ANSI_16[codes[k] - 30]
      else if 90 <= codes[k] <= 97 then ANSI_16[8 + (codes[k] - 90)]
      else if codes[k] == 38 && Introduces(codes, k) then Introduced(codes, k) else ""
  }

  function GroundAt(codes: seq<nat>): nat -> Color {
    (k: nat) =>
      if k >= |codes| || codes[k] in {0, 49} then "#1e1e2e"
      else if 40 <= codes[k] <= 47 then ANSI_16[codes[k] - 40]
      else if codes[k] == 48 && Introduces(codes, k) then Introduced(codes, k) else ""
  }

  /** The colours are those of the last code that settles them, and stay as they were without any. */
  lemma ColoursAfter(st: Style, codes: seq<nat>)
    ensures var after := Fold(st, codes, 0);
      && (forall k: nat :: Last(codes, k, SettlesText(codes)) ==> after.fg == TextAt(codes)(k))
      && (Unsettled(codes, SettlesText(codes)) ==> after.fg == st.fg)
      && (forall k: nat :: Last(codes, k, SettlesGround(codes)) ==> after.bg == GroundAt(codes)(k))
      && (Unsettled(codes, SettlesGround(codes)) ==> after.bg == st.bg)
  {
    hide Own, Fold, Palette, Rgb;
    FirstIsOwn(codes);
    LastSettles((s: Style) => s.fg, SettlesText(codes), TextAt(codes), st, codes, 0);
    LastSettles((s: Style) => s.bg, SettlesGround(codes), GroundAt(codes), st, codes, 0);
  }

  /** Of the 256 colours, sixteen are named, 216 fill a cube of side six, and the rest is a ramp of greys. */
  lemma PaletteIs(n: nat)
    ensures n < 16 ==> Palette(n) == ANSI_16[n]
    ensures Palette(232 + n) == Rgb(8 + 10 * n, 8 + 10 * n, 8 + 10 * n)
  {
    hide Rgb;
  }

  lemma CubeIs(r: nat, g: nat, b: nat)
    requires r < 6 && g < 6 && b < 6
    ensures Palette(16 + 36 * r + 6 * g + b) == Rgb(51 * r, 51 * g, 51 * b)
  {
    hide Rgb;
    var n := 36 * r + 6 * g + b;
    assert n / 36 == r && n % 36 == 6 * g + b;
    assert (6 * g + b) / 6 == g && n % 6 == b;
  }

  // ---- the style attribute ----

  lemma OnePart(s: string)
    requires ';' !in s
    ensures Split(s) == [s]
  {
    if s != "" { assert s == [s[0]] + s[1..]; }
  }

  function Joined(s: string, on: bool, more: string): string {
    if on then s + ";" + more else s
  }

  lemma SplitMore(s: string, on: bool, more: string, declaration: string)
    requires ';' !in more
    ensures declaration in Split(Joined(s, on, more)) <==> declaration in Split(s) || (on && declaration == more)
  {
    if on {
      SplitJoined(s, more);
      OnePart(more);
    }
  }

  function Mark(on: bool, more: string): string {
    if on then ";" + more else ""
  }

  lemma FlagsAre(st: Style)
    ensures Flags(st) == Mark(st.bold, "font-weight:bold") + Mark(st.dim, "opacity:0.6")
      + Mark(st.italic, "font-style:italic")
  {
    assert ";" + "font-weight:bold" == ";font-weight:bold";
    assert ";" + "opacity:0.6" == ";opacity:0.6";
    assert ";" + "font-style:italic" == ";font-style:italic";
  }

  lemma RestIs(st: Style)
    ensures Rest(st) == Mark(st.bg != BG, "background:" + st.bg) + Flags(st)
  {
    hide Flags;
    assert ";background:" + st.bg == ";" + ("background:" + st.bg);
  }

  lemma JoinedIs(s: string, on: bool, more: string)
    ensures Joined(s, on, more) == s + Mark(on, more)
  {}

  lemma Regroup(s: string, g: string, b: string, d: string, i: string)
    ensures s + (g + (b + d + i)) == s + g + b + d + i
  {}

  /** The attribute holds these declarations and no others. */
  lemma CssDeclares(st: Style, declaration: string)
    ensures declaration in Split(Css(st)) <==>
      || declaration == "color:" + st.fg
      || (st.bg != BG && declaration == "background:" + st.bg)
      || (st.bold && declaration == "font-weight:bold")
      || (st.dim && declaration == "opacity:0.6")
      || (st.italic && declaration == "font-style:italic")
  {
    var ground, bold, dim, italic := "background:" + st.bg, "font-weight:bold", "opacity:0.6", "font-style:italic";
    hide Split, Joined, Mark, Flags, Rest;
    FlagsAre(st);
    RestIs(st);
    var s0 := "color:" + st.fg;
    Regroup(s0, Mark(st.bg != BG, ground), Mark(st.bold, bold), Mark(st.dim, dim), Mark(st.italic, italic));
    OnePart(s0);
    SplitMore(s0, st.bg != BG, ground, declaration);
    JoinedIs(s0, st.bg != BG, ground);
    var s1 := Joined(s0, st.bg != BG, ground);
    SplitMore(s1, st.bold, bold, declaration);
    JoinedIs(s1, st.bold, bold);
    var s2 := Joined(s1, st.bold, bold);
    SplitMore(s2, st.dim, dim, declaration);
    JoinedIs(s2, st.dim, dim);
    var s3 := Joined(s2, st.dim, dim);
    SplitMore(s3, st.italic, italic, declaration);
    JoinedIs(s3, st.italic, italic);
  }

  // ---- the page ----

  function Divs(rows: seq<string>): (r: seq<string>)
    ensures |r| == |rows| && forall i :: 0 <= i < |rows| ==> r[i] == "<div>" + rows[i] + "</div>"
  {
    seq(|rows|, i requires 0 <= i < |rows| => "<div>" + rows[i] + "</div>")
  }

  /** `ansiToHtml`: one `div` per line of the input, in order, between the fixed head and foot of the page. */
  method AnsiToHtml(input: string, head: string, foot: string) returns (rows: seq<string>, page: string)
    ensures |rows| == |Lines(input)|
    ensures forall i :: 0 <= i < |rows| ==> Rendered(Lines(input)[i], rows[i])
    ensures page == head + JoinLines(Divs(rows)) + foot
  {
    hide Rendered, Lines, JoinLines;
    var lines := Lines(input);
    rows := [];
    for n := 0 to |lines|
      invariant |rows| == n && forall i :: 0 <= i < n ==> Rendered(lines[i], rows[i])
    {
      var row := RenderLine(lines[n]);
      rows := rows + [row];
    }
    page := head + JoinLines(Divs(rows)) + foot;
  }
}
