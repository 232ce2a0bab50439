/** legacy/bot.ts: cutting a text into Discord messages, by paragraphs or by fenced lines. */
module Chunker {
  import opened Sequences
  import opened Text

  const MAX := 1900

  // ---- what is kept ----

  /** The chunks lie in the text one after the other, with nothing but white space before, between and behind them. */
  ghost predicate Laid(s: string, chunks: seq<string>)
    decreases |chunks|
  {
    if chunks == [] then Blank(s)
    else
      var last := chunks[|chunks| - 1];
      exists head: string, tail: string :: s == head + last + tail && Blank(tail) && Laid(head, chunks[..|chunks| - 1])
  }

  function Ink(s: string): string {
    if s == "" then "" else (if IsSpace(s[0]) then "" else [s[0]]) + Ink(s[1..])
  }

  lemma {:induction false} InkAppend(s: string, t: string)
    ensures Ink(s + t) == Ink(s) + Ink(t)
  {
    if s == "" {
      assert s + t == t;
    } else {
      assert (s + t)[1..] == s[1..] + t;
      InkAppend(s[1..], t);
    }
  }

  lemma {:induction false} InkBlank(s: string)
    requires Blank(s)
    ensures Ink(s) == ""
  {
    if s != "" { InkBlank(s[1..]); }
  }

  /** Chunks laid out in a text have all its characters but white space, in order. */
  lemma {:induction false} LaidKeepsInk(s: string, chunks: seq<string>)
    requires Laid(s, chunks)
    ensures Ink(Concat(chunks)) == Ink(s)
    decreases |chunks|
  {
    if chunks == [] {
      InkBlank(s);
    } else {
      var init, last := chunks[..|chunks| - 1], chunks[|chunks| - 1];
      var head: string, tail: string :| s == head + last + tail && Blank(tail) && Laid(head, init);
      LaidKeepsInk(head, init);
      InkAppend(Concat(init), last);
      InkAppend(head, last);
      InkAppend(head + last, tail);
      InkBlank(tail);
    }
  }

  lemma LaidSpace(s: string, chunks: seq<string>, space: string)
    requires Laid(s, chunks) && Blank(space)
    ensures Laid(s + space, chunks)
  {
    if chunks != [] {
      var init, last := chunks[..|chunks| - 1], chunks[|chunks| - 1];
      var head: string, tail: string :| s == head + last + tail && Blank(tail) && Laid(head, init);
      assert s + space == head + last + (tail + space);
      assert Blank(tail + space);
    }
  }

  lemma LaidChunk(s: string, chunks: seq<string>, chunk: string)
    requires Laid(s, chunks)
    ensures Laid(s + chunk, chunks + [chunk])
  {
    var all := chunks + [chunk];
    var last := all[|all| - 1];
    assert all[..|all| - 1] == chunks && last == chunk;
    assert s + chunk == s + last + "" && Blank("") && Laid(s, all[..|all| - 1]);
  }

  lemma {:induction false} TrimStartParts(s: string)
    ensures exists space: string :: s == space + TrimStart(s) && Blank(space)
  {
    if s != "" && IsSpace(s[0]) {
      TrimStartParts(s[1..]);
      var space: string :| s[1..] == space + TrimStart(s[1..]) && Blank(space);
      assert s == [s[0]] + space + TrimStart(s) && Blank([s[0]] + space);
    } else {
      assert s == "" + TrimStart(s) && Blank("");
    }
  }

  lemma {:induction false} TrimEndParts(s: string)
    ensures exists space: string :: s == TrimEnd(s) + space && Blank(space)
  {
    if s != "" && IsSpace(s[|s| - 1]) {
      var init := s[..|s| - 1];
      TrimEndParts(init);
      var space: string :| init == TrimEnd(init) + space && Blank(space);
      assert s == TrimEnd(s) + (space + [s[|s| - 1]]) && Blank(space + [s[|s| - 1]]);
    } else {
      assert s == TrimEnd(s) + "" && Blank("");
    }
  }

  lemma TrimParts(s: string)
    ensures exists before: string, after: string :: s == before + Trim(s) + after && Blank(before) && Blank(after)
    ensures |Trim(s)| <= |s|
  {
    TrimStartParts(s);
    TrimEndParts(TrimStart(s));
    var before: string :| s == before + TrimStart(s) && Blank(before);
    var after: string :| TrimStart(s) == Trim(s) + after && Blank(after);
    assert s == before + Trim(s) + after;
  }

  lemma LaidTrimmed(s: string, chunks: seq<string>, piece: string)
    requires Laid(s, chunks)
    ensures Laid(s + piece, chunks + [Trim(piece)]) && |Trim(piece)| <= |piece|
  {
    hide Laid, Blank, Trim;
    TrimParts(piece);
    var before: string, after: string :| piece == before + Trim(piece) + after && Blank(before) && Blank(after);
    LaidSpace(s, chunks, before);
    LaidChunk(s + before, chunks, Trim(piece));
    LaidSpace(s + before + Trim(piece), chunks + [Trim(piece)], after);
    assert s + piece == s + before + Trim(piece) + after;
  }

  lemma LaidNoInk(s: string, chunks: seq<string>, piece: string)
    requires Laid(s, chunks) && Trim(piece) == ""
    ensures Laid(s + piece, chunks)
  {
    hide Laid, Trim;
    TrimParts(piece);
    var before: string, after: string :| piece == before + Trim(piece) + after && Blank(before) && Blank(after);
    assert piece == before + after && Blank(before + after);
    LaidSpace(s, chunks, piece);
  }

  // ---- paragraphs ----

  const BREAK := "\n\n"

  /** `split("\n\n")`. */
  function Paragraphs(s: string): (r: seq<string>)
    ensures r != []
  {
    if s == "" then [""]
    else if BREAK <= s then [""] + Paragraphs(s[2..])
    else var r := Paragraphs(s[1..]); [[s[0]] + r[0]] + r[1..]
  }

  function JoinParagraphs(paras: seq<string>): string {
    if paras == [] then "" else if |paras| == 1 then paras[0]
      else JoinParagraphs(paras[..|paras| - 1]) + BREAK + paras[|paras| - 1]
  }

  lemma {:induction false} JoinHead(head: string, paras: seq<string>)
    requires paras != []
    ensures JoinParagraphs([head + paras[0]] + paras[1..]) == head + JoinParagraphs(paras)
  {
    var all := [head + paras[0]] + paras[1..];
    if |paras| > 1 {
      var init := paras[..|paras| - 1];
      assert all[..|all| - 1] == [head + init[0]] + init[1..];
      JoinHead(head, init);
    }
  }

  lemma {:induction false} JoinEmpty(paras: seq<string>)
    requires paras != []
    ensures JoinParagraphs([""] + paras) == BREAK + JoinParagraphs(paras)
  {
    var all := [""] + paras;
    if |paras| > 1 {
      assert all[..|all| - 1] == [""] + paras[..|paras| - 1];
      JoinEmpty(paras[..|paras| - 1]);
    } else {
      assert all[..1] == [""];
    }
  }

  lemma {:induction false} ParagraphsJoin(s: string)
    ensures JoinParagraphs(Paragraphs(s)) == s
  {
    if s == "" {
    } else if BREAK <= s {
      ParagraphsJoin(s[2..]);
      JoinEmpty(Paragraphs(s[2..]));
    } else {
      ParagraphsJoin(s[1..]);
      JoinHead([s[0]], Paragraphs(s[1..]));
    }
  }

  predicate Short(chunks: seq<string>) {
    forall i :: 0 <= i < |chunks| ==> |chunks[i]| <= 1900
  }

  /** A paragraph that is too long by itself is cut at the limit. */
  method Slices(para: string, chunks: seq<string>, ghost laid: string) returns (r: seq<string>)
    requires Short(chunks) && Laid(laid, chunks)
    ensures Short(r) && Laid(laid + para, r)
  {
    hide Laid;
    r := chunks;
    var i := 0;
    assert laid + para[..0] == laid;
    while i < |para|
      invariant 0 <= i && Short(r) && Laid(laid + para[..if i < |para| then i else |para|], r)
    {
      var end := if i + MAX < |para| then i + MAX else |para|;
      LaidChunk(laid + para[..i], r, para[i..end]);
      assert laid + para[..i] + para[i..end] == laid + para[..end];
      r := r + [para[i..end]];
      i := i + MAX;
    }
    assert para[..|para|] == para;
  }

  /** One step of the loop: the text so far is what is laid out in chunks and what is still held. */
  method AddParagraph(chunks: seq<string>, current: string, para: string, ghost laid: string)
    returns (r: seq<string>, held: string, ghost laid': string)
    requires Short(chunks) && Laid(laid, chunks) && |current| <= MAX
    ensures Short(r) && Laid(laid', r) && |held| <= MAX
    ensures laid' + held == laid + current + BREAK + para || (current == "" && laid' + held == laid + BREAK + para)
  {
    hide Laid, Trim;
    assert Blank(BREAK);
    r, held, laid' := chunks, current, laid;
    if |current + BREAK + para| > MAX {
      if current != "" {
        LaidTrimmed(laid, chunks, current);
        r := r + [Trim(current)];
        laid' := laid' + current;
      }
      LaidSpace(laid', r, BREAK);
      laid' := laid' + BREAK;
      if |para| > MAX {
        r := Slices(para, r, laid');
        laid', held := laid' + para, "";
      } else {
        held := para;
      }
    } else if current != "" {
      held := current + BREAK + para;
    } else {
      LaidSpace(laid, chunks, BREAK);
      laid', held := laid + BREAK, para;
    }
  }

  /** The chunks of a text that is too long for one message. */
  method ParagraphChunks(content: string) returns (chunks: seq<string>)
    ensures Short(chunks) && Laid(content, chunks)
  {
    hide Laid, Trim, JoinParagraphs, Blank;
    var paras := Paragraphs(content);
    var current := "";
    ghost var laid := "";
    chunks := [];
    StartLaid();
    for k := 0 to |paras|
      invariant Short(chunks) && Laid(laid, chunks) && |current| <= MAX
      invariant k == 0 ==> chunks == [] && current == "" && laid == ""
      invariant k > 0 ==> laid + current == JoinParagraphs(paras[..k])
    {
      JoinNext(paras, k);
      if k == 0 {
        if |current + BREAK + paras[0]| > MAX {
          if |paras[0]| > MAX {
            chunks := Slices(paras[0], chunks, laid);
            laid := laid + paras[0];
          } else {
            current := paras[0];
          }
        } else {
          current := paras[0];
        }
      } else {
        chunks, current, laid := AddParagraph(chunks, current, paras[k], laid);
      }
    }
    ParagraphsJoin(content);
    assert paras[..|paras|] == paras;
    if Trim(current) != "" {
      LaidTrimmed(laid, chunks, current);
      chunks := chunks + [Trim(current)];
    } else {
      LaidNoInk(laid, chunks, current);
    }
  }

  lemma StartLaid()
    ensures Laid("", [])
  {}

  lemma JoinNext(paras: seq<string>, k: nat)
    requires k < |paras|
    ensures JoinParagraphs(paras[..k + 1]) == if k == 0 then paras[0] else JoinParagraphs(paras[..k]) + BREAK + paras[k]
  {
    assert paras[..k + 1][..k] == paras[..k];
  }

  /**
   * `sendFormattedResponse`: the messages, none longer than the limit, that carry the whole text but for white space at
   * the cuts.
   */
  method FormattedMessages(content: string) returns (messages: seq<string>)
    ensures Short(messages)
    ensures content == "" ==> messages == ["*(无输出)*"]
    ensures content != "" && |content| <= 1900 ==> messages == [content]
    ensures |content| > 1900 ==> Laid(content, messages)
  {
    if content == "" { return ["*(无输出)*"]; }
    if |content| <= MAX { return [content]; }
    messages := ParagraphChunks(content);
  }

  // ---- fenced lines ----

  const OPEN := "```\n"
  const CLOSE := "```"

  function Fenced(body: string): string {
    OPEN + body + CLOSE
  }

  /** Within the limit, unless the body is one overlong line. */
  predicate Fits(body: string) {
    |Fenced(body)| <= 1900 || (|body| > 1893 && body[|body| - 1] == '\n' && '\n' !in body[..|body| - 1])
  }

  function Fences(bodies: seq<string>): (r: seq<string>)
    ensures |r| == |bodies| && forall i :: 0 <= i < |bodies| ==> r[i] == Fenced(bodies[i])
  {
    seq(|bodies|, i requires 0 <= i < |bodies| => Fenced(bodies[i]))
  }

  /** Every line with its line break. */
  function Unlines(lines: seq<string>): string {
    if lines == [] then "" else Unlines(lines[..|lines| - 1]) + lines[|lines| - 1] + "\n"
  }

  lemma UnlinesSnoc(lines: seq<string>, line: string)
    ensures Unlines(lines + [line]) == Unlines(lines) + line + "\n"
  {
    assert (lines + [line])[..|lines|] == lines;
  }

  lemma {:induction false} UnlinesHead(c: char, lines: seq<string>)
    requires lines != []
    ensures Unlines([[c] + lines[0]] + lines[1..]) == [c] + Unlines(lines)
  {
    hide Unlines;
    var all, init, last := [[c] + lines[0]] + lines[1..], lines[..|lines| - 1], lines[|lines| - 1];
    UnlinesSnoc(init, last);
    assert lines == init + [last];
    if |lines| > 1 {
      UnlinesSnoc([[c] + init[0]] + init[1..], last);
      assert all == [[c] + init[0]] + init[1..] + [last];
      UnlinesHead(c, init);
      assert [c] + (Unlines(init) + last + "\n") == [c] + Unlines(init) + last + "\n";
    } else {
      UnlinesSnoc([], [c] + last);
      assert all == [] + [[c] + last] && init == [];
      assert Unlines([]) == "" by { NoLines(); }
    }
  }

  lemma {:induction false} UnlinesEmpty(lines: seq<string>)
    ensures Unlines([""] + lines) == "\n" + Unlines(lines)
  {
    var all := [""] + lines;
    if lines != [] {
      assert all[..|all| - 1] == [""] + lines[..|lines| - 1];
      UnlinesEmpty(lines[..|lines| - 1]);
    } else {
      assert all == [""] && all[..0] == [];
    }
  }

  lemma {:induction false} LinesUnlines(s: string)
    ensures Unlines(Lines(s)) == s + "\n"
  {
    hide Unlines;
    assert Unlines([]) == "" by { NoLines(); }
    if s == "" {
      UnlinesEmpty([]);
      assert [""] + [] == [""];
    } else if s[0] == '\n' {
      LinesUnlines(s[1..]);
      UnlinesEmpty(Lines(s[1..]));
    } else {
      LinesUnlines(s[1..]);
      UnlinesHead(s[0], Lines(s[1..]));
    }
  }

  lemma FitsLine(line: string)
    requires '\n' !in line
    ensures Fits(line + "\n")
  {
    assert (line + "\n")[..|line|] == line;
  }

  lemma FitsMore(body: string, line: string)
    requires |OPEN + body + line + "\n```"| <= MAX
    ensures Fits(body + line + "\n")
  {}

  predicate AllFit(bodies: seq<string>) {
    forall i :: 0 <= i < |bodies| ==> Fits(bodies[i])
  }

  /** One step of the loop over the lines. */
  method AddLine(bodies: seq<string>, current: string, line: string) returns (r: seq<string>, held: string)
    requires AllFit(bodies) && (current == "" || Fits(current)) && '\n' !in line
    ensures AllFit(r) && Fits(held)
    ensures Concat(r) + held == Concat(bodies) + current + line + "\n"
  {
    hide Fits, Concat;
    if |OPEN + current + line + "\n```"| > MAX {
      r := bodies;
      if current != "" {
        ConcatSnoc(bodies, current);
        r := bodies + [current];
      }
      FitsLine(line);
      held := line + "\n";
    } else {
      FitsMore(current, line);
      r, held := bodies, current + line + "\n";
    }
  }

  /** The bodies of the fenced chunks put together are the text with a final line break, but for a tail without ink. */
  method FencedBodies(content: string) returns (bodies: seq<string>, dropped: string)
    ensures Concat(bodies) + dropped == content + "\n" && Trim(dropped) == ""
    ensures AllFit(bodies)
  {
    hide Fits, Trim, Lines, Unlines, Concat;
    var lines, current := Lines(content), "";
    bodies := [];
    LinesHaveNoNewline(content);
    assert Unlines(lines[..0]) == "" && Concat([]) == "" by { NoLines(); }
    for k := 0 to |lines|
      invariant Concat(bodies) + current == Unlines(lines[..k])
      invariant AllFit(bodies) && (current == "" || Fits(current))
    {
      assert '\n' !in lines[k] by { assert lines[k] in lines; }
      UnlinesNext(lines, k);
      bodies, current := AddLine(bodies, current, lines[k]);
    }
    LinesUnlines(content);
    assert lines[..|lines|] == lines;
    dropped := "";
    if Trim(current) != "" {
      ConcatSnoc(bodies, current);
      bodies := bodies + [current];
      assert Trim("") == "" by { TrimNothing(); }
      assert Concat(bodies) + "" == Concat(bodies);
    } else {
      dropped := current;
    }
  }

  lemma NoLines()
    ensures Unlines([]) == "" && Concat([]) == ""
  {}

  lemma TrimNothing()
    ensures Trim("") == ""
  {}

  lemma UnlinesNext(lines: seq<string>, k: nat)
    requires k < |lines|
    ensures Unlines(lines[..k + 1]) == Unlines(lines[..k]) + lines[k] + "\n"
  {
    assert lines[..k + 1][..k] == lines[..k];
  }

  /** `sendLongMessage`. */
  method FencedMessages(content: string)
    returns (messages: seq<string>, ghost bodies: seq<string>, ghost dropped: string)
    ensures content == "" ==> messages == ["*(worker 无输出)*"]
    ensures content != "" && |Fenced(content + "\n")| <= 1900 ==> messages == [Fenced(content + "\n")]
    ensures content != "" && |Fenced(content + "\n")| > 1900 ==>
      && messages == Fences(bodies) && AllFit(bodies) && Concat(bodies) + dropped == content + "\n"
        && Trim(dropped) == ""
  {
    hide Fits, Trim, Concat;
    bodies, dropped := [], "";
    if content == "" { return ["*(worker 无输出)*"], [], ""; }
    var wrapped := "```\n" + content + "\n```";
    assert wrapped == Fenced(content + "\n");
    if |wrapped| <= MAX { return [wrapped], [], ""; }
    var parts, tail := FencedBodies(content);
    messages, bodies, dropped := Fences(parts), parts, tail;
  }
}
