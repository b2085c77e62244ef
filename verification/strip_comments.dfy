/** The comment and string stripper: blanks everything that is not code, in place. */
module CommentStripper {

  datatype Mode = Code | Single | Double | Template | Line | Block

  /** What a blanked character leaves behind: newlines stay, so that line numbers do. */
  function Blank(c: char): char {
    if c == '\n' then '\n' else ' '
  }

  predicate Closes(mode: Mode, c: char) {
    (mode == Single && c == '\'') || (mode == Double && c == '\"') || (mode == Template && c == '`')
  }

  /** The mode a code character opens; `Code` if it opens none. */
  function Opens(c: char): (m: Mode)
    ensures m != Block
  {
    if c == '\'' then Single else if c == '\"' then Double else if c == '`' then Template else if c ==
        '#' then Line else Code
  }

  /** Two characters that start a comment. */
  function OpensPair(c: char, next: char): (m: Mode)
    ensures m == Code || m == Line || m == Block
  {
    if c == '/' && next == '/' then Line else if c == '/' && next == '*' then Block else Code
  }

  /** What one turn of the scan appends, how many characters it consumes, and how it goes on. */
  datatype Turn = Turn(emit: string, width: nat, mode: Mode, escaped: bool)

  /** One turn on a nonempty rest, in a mode and, inside a string, just after a backslash or not. */
  function TurnOf(s: string, mode: Mode, escaped: bool): (t: Turn)
    requires s != []
    ensures 1 <= t.width <= |s| && |t.emit| == t.width <= 2
  {
    if mode == Line then
      if s[0] == '\n' then Turn("\n", 1, Code, escaped) else Turn(" ", 1, Line, escaped)
    else if mode == Block then
      if s[0] == '*' && |s| > 1 && s[1] == '/' then Turn("  ", 2, Code, escaped)
      else Turn([Blank(s[0])], 1, Block, escaped)
    else if mode != Code then
      if escaped then Turn([Blank(s[0])], 1, mode, false)
      else if s[0] == '\\' then Turn([Blank(s[0])], 1, mode, true)
      else Turn([Blank(s[0])], 1, if Closes(mode, s[0]) then Code else mode, false)
    else if |s| > 1 && OpensPair(s[0], s[1]) != Code then Turn("  ", 2, OpensPair(s[0], s[1]), escaped)
    else if Opens(s[0]) != Code then Turn(" ", 1, Opens(s[0]), escaped)
    else Turn([s[0]], 1, Code, escaped)
  }

  function Strip(s: string, mode: Mode, escaped: bool): (r: string)
    ensures |r| == |s|
    decreases |s|
  {
    if s == [] then []
    else
      var t := TurnOf(s, mode, escaped);
      t.emit + Strip(s[t.width..], t.mode, t.escaped)
  }

  method StripCommentsAndStrings(content: string) returns (result: string)
    ensures result == Strip(content, Code, false)
  {
    hide Strip;
    result := "";
    var state := Code;
    var escaped := false;
    var index := 0;
    assert content[0..] == content;
    while index < |content|
      invariant index <= |content|
      invariant result + Strip(content[index..], state, escaped) == Strip(content, Code, false)
    {
      var emit, nextIndex, nextState, nextEscaped := ScanOne(content, index, state, escaped);
      StripGoesOn(content, index, state, escaped, result, Turn(emit, nextIndex - index, nextState, nextEscaped));
      result := result + emit;
      index, state, escaped := nextIndex, nextState, nextEscaped;
    }
  }

  lemma {:induction false} StripGoesOn(content: string, index: nat, mode: Mode, escaped: bool, result: string, t: Turn)
    requires index < |content| && t == TurnOf(content[index..], mode, escaped)
    ensures index + t.width <= |content|
    ensures result + Strip(content[index..], mode, escaped) == (result + t.emit) + Strip(content[index + t.width..],
        t.mode, t.escaped)
  {
    hide TurnOf;
    assert content[index..][t.width..] == content[index + t.width..];
  }

  /** The loop body. */
  method ScanOne(content: string, index: nat, before: Mode, wasEscaped: bool)
    returns (emit: string, next: nat, state: Mode, escaped: bool)
    requires index < |content|
    ensures index < next <= |content|
    ensures Turn(emit, next - index, state, escaped) == TurnOf(content[index..], before, wasEscaped)
  {
    var c := content[index];
    var hasNext := index + 1 < |content|;
    emit, next, state, escaped := [Blank(c)], index + 1, before, wasEscaped;
    if before == Line {
      if c == '\n' {
        state := Code;
        emit := "\n";
      } else {
        emit := " ";
      }
    } else if before == Block {
      if c == '*' && hasNext && content[index + 1] == '/' {
        emit := "  ";
        next := index + 2;
        state := Code;
      }
    } else if before != Code {
      if wasEscaped {
        escaped := false;
      } else if c == '\\' {
        escaped := true;
      } else if Closes(before, c) {
        state := Code;
      }
    } else if hasNext && OpensPair(c, content[index + 1]) != Code {
      emit := "  ";
      next := index + 2;
      state := OpensPair(c, content[index + 1]);
    } else if Opens(c) != Code {
      emit := " ";
      state := Opens(c);
    } else {
      emit := [c];
    }
  }

  // ---- Positions ------------------------------------------------------------------------

  /** Every character is kept or blanked, and a newline is always kept. */
  ghost predicate Overlay(s: string, r: string) {
    |r| == |s| && forall i :: 0 <= i < |s| ==> (r[i] == s[i] || r[i] == ' ') && (r[i] == '\n' <==> s[i] == '\n')
  }

  lemma {:induction false} TurnOverlays(s: string, mode: Mode, escaped: bool)
    requires s != []
    ensures Overlay(s[..TurnOf(s, mode, escaped).width], TurnOf(s, mode, escaped).emit)
  {
  }

  lemma {:induction false} OverlayJoined(a: string, x: string, b: string, y: string)
    requires Overlay(a, x) && Overlay(b, y)
    ensures Overlay(a + b, x + y)
  {
  }

  /** Length and every newline stay; at each position the output is the input or a space. */
  lemma {:induction false} StripOverlays(s: string, mode: Mode, escaped: bool)
    ensures Overlay(s, Strip(s, mode, escaped))
    decreases |s|
  {
    if s != [] {
      var t := TurnOf(s, mode, escaped);
      TurnOverlays(s, mode, escaped);
      StripOverlays(s[t.width..], t.mode, t.escaped);
      OverlayJoined(s[..t.width], t.emit, s[t.width..], Strip(s[t.width..], t.mode, t.escaped));
      assert s == s[..t.width] + s[t.width..];
    }
  }

  // ---- What is left ---------------------------------------------------------------------

  /** `//` or a slash and a star. */
  predicate StartsComment(c: char, next: char) {
    c == '/' && (next == '/' || next == '*')
  }

  lemma {:induction false} MarkerCharacters(c: char, next: char)
    ensures Opens(c) == Code <==> c !in "'\"`#"
    ensures OpensPair(c, next) == Code <==> !StartsComment(c, next)
  {
  }

  /** No quote, backtick or `#`, and no two characters that start a comment. */
  ghost predicate NoMarkers(s: string) {
    && (forall i :: 0 <= i < |s| ==> s[i] !in "'\"`#")
    && (forall i :: 0 <= i < |s| - 1 ==> !StartsComment(s[i], s[i + 1]))
  }

  /** The output starts with the scan's first character, or with a blank. */
  lemma {:induction false} StripHead(s: string, mode: Mode, escaped: bool)
    requires s != []
    ensures Strip(s, mode, escaped)[0] == s[0] || Strip(s, mode, escaped)[0] == ' '
  {
    StripOverlays(s, mode, escaped);
  }

  lemma {:induction false} NoMarkersJoined(a: string, b: string)
    requires NoMarkers(a) && NoMarkers(b)
    requires a != [] && b != [] ==> OpensPair(a[|a| - 1], b[0]) == Code
    ensures NoMarkers(a + b)
  {
    var ab := a + b;
    forall i | 0 <= i < |ab| - 1 ensures OpensPair(ab[i], ab[i + 1]) == Code {
      if i < |a| - 1 { assert ab[i] == a[i]; } else if i >= |a| { assert ab[i] == b[i - |a|]; }
    }
  }

  /** What a turn emits holds no marker, nor starts one with the character it stops at or a space. */
  lemma {:induction false} TurnLeavesNone(s: string, mode: Mode, escaped: bool)
    requires s != []
    ensures
      var t := TurnOf(s, mode, escaped);
      && NoMarkers(t.emit) && OpensPair(t.emit[t.width - 1], ' ') == Code
      && (t.width < |s| ==> OpensPair(t.emit[t.width - 1], s[t.width]) == Code)
  {
  }

  /** Whatever the mode, nothing the scan would react to is left. */
  lemma {:induction false} StripLeavesNoMarkers(s: string, mode: Mode, escaped: bool)
    ensures NoMarkers(Strip(s, mode, escaped))
    decreases |s|
  {
    if s != [] {
      var t := TurnOf(s, mode, escaped);
      TurnLeavesNone(s, mode, escaped);
      StripLeavesNoMarkers(s[t.width..], t.mode, t.escaped);
      JoinLeavesNone(s, t, Strip(s[t.width..], t.mode, t.escaped));
    }
  }

  lemma {:induction false} JoinLeavesNone(s: string, t: Turn, rest: string)
    requires 1 <= t.width <= |s| && |t.emit| == t.width && NoMarkers(t.emit) && NoMarkers(rest)
    requires rest == Strip(s[t.width..], t.mode, t.escaped) && OpensPair(t.emit[t.width - 1], ' ') == Code
    requires t.width < |s| ==> OpensPair(t.emit[t.width - 1], s[t.width]) == Code
    ensures NoMarkers(t.emit + rest)
  {
    if t.width < |s| { StripHead(s[t.width..], t.mode, t.escaped); }
    NoMarkersJoined(t.emit, rest);
  }

  lemma {:induction false} CleanStays(s: string)
    requires NoMarkers(s)
    ensures Strip(s, Code, false) == s
    decreases |s|
  {
    hide NoMarkers, TurnOf;
    if s != [] {
      CleanHead(s);
      CleanStays(s[1..]);
      assert [s[0]] + s[1..] == s;
    }
  }

  lemma {:induction false} CleanHead(s: string)
    requires NoMarkers(s) && s != []
    ensures TurnOf(s, Code, false) == Turn([s[0]], 1, Code, false) && NoMarkers(s[1..])
  {
    MarkerCharacters(s[0], if |s| > 1 then s[1] else ' ');
  }

  /** The stripper leaves exactly the texts without markers alone; so stripping twice is stripping once. */
  lemma {:induction false} StripFixedPoints(s: string)
    ensures Strip(s, Code, false) == s <==> NoMarkers(s)
    ensures Strip(Strip(s, Code, false), Code, false) == Strip(s, Code, false)
  {
    StripLeavesNoMarkers(s, Code, false);
    CleanStays(Strip(s, Code, false));
    if NoMarkers(s) { CleanStays(s); }
  }

  // ---- Against a grammar ----------------------------------------------------------------

  /** The lexical elements the scan tells apart; quotes and comment markers are not part of a body. */
  datatype Token =
    | Plain(c: char)
    | Literal(quote: char, body: string)
    | LineComment(hash: bool, body: string)
    | BlockComment(body: string)

  function BlankAll(s: string): (r: string)
    ensures |r| == |s| && forall i :: 0 <= i < |s| ==> r[i] == Blank(s[i])
  {
    seq(|s|, i requires 0 <= i < |s| => Blank(s[i]))
  }

  function Text(t: Token): string {
    match t
    case Plain(c) => [c]
    case Literal(quote, body) => [quote] + (body + [quote])
    case LineComment(hash, body) => (if hash then "#" else "//") + body
    case BlockComment(body) => "/*" + (body + "*/")
  }

  /** Only plain characters survive. */
  function Shown(t: Token): string {
    if t.Plain? then [t.c] else BlankAll(Text(t))
  }

  /** No unescaped closing quote inside, and no open escape at the end. */
  predicate BodyFits(body: string, quote: char, escaped: bool) {
    if body == [] then !escaped
    else if escaped then BodyFits(body[1..], quote, false)
    else if body[0] == '\\' then BodyFits(body[1..], quote, true)
    else body[0] != quote && BodyFits(body[1..], quote, false)
  }

  predicate NoBlockEnd(body: string) {
    forall i :: 0 <= i < |body| - 1 ==> !(body[i] == '*' && body[i + 1] == '/')
  }

  /** A token by itself, and what may follow it. */
  predicate Fits(t: Token, rest: string) {
    match t
    case Plain(c) => c !in "'\"`#" && (rest != [] ==> !StartsComment(c, rest[0]))
    case Literal(quote, body) => quote in "'\"`" && BodyFits(body, quote, false)
    case LineComment(_, body) => '\n' !in body && (rest != [] ==> rest[0] == '\n')
    case BlockComment(body) => NoBlockEnd(body)
  }

  function Render(ts: seq<Token>): string {
    if ts == [] then [] else Text(ts[0]) + Render(ts[1..])
  }

  function ShownAll(ts: seq<Token>): string {
    if ts == [] then [] else Shown(ts[0]) + ShownAll(ts[1..])
  }

  predicate WellFormed(ts: seq<Token>) {
    ts == [] || (Fits(ts[0], Render(ts[1..])) && WellFormed(ts[1..]))
  }

  /** A turn that blanks one character, prepended to a scan that blanks the rest of a body. */
  lemma {:induction false} BlankOne(c: char, body: string, rest: string, mode: Mode, escaped: bool, tail: string)
    requires TurnOf([c] + rest, mode, escaped).emit == [Blank(c)]
    requires
      var t := TurnOf([c] + rest, mode, escaped);
      Strip(rest, t.mode, t.escaped) == BlankAll(body) + tail
    ensures Strip([c] + rest, mode, escaped) == BlankAll([c] + body) + tail
  {
    var s := [c] + rest;
    assert s[1..] == rest;
    assert BlankAll([c] + body) == [Blank(c)] + BlankAll(body);
    assert [Blank(c)] + (BlankAll(body) + tail) == BlankAll([c] + body) + tail;
  }

  lemma {:induction false} HeadFirst(body: string, tail: string)
    requires body != []
    ensures body + tail == [body[0]] + (body[1..] + tail)
  {
  }

  lemma {:induction false} LiteralEnds(quote: char, rest: string)
    requires quote in "'\"`"
    ensures Strip([quote] + rest, Opens(quote), false) == BlankAll([quote]) + Strip(rest, Code, false)
  {
    assert ([quote] + rest)[1..] == rest;
  }

  lemma {:induction false} LiteralBody(body: string, quote: char, rest: string, escaped: bool)
    requires quote in "'\"`" && BodyFits(body, quote, escaped)
    ensures Strip(body + ([quote] + rest), Opens(quote), escaped) == BlankAll(body + [quote]) + Strip(rest, Code, false)
    decreases |body|
  {
    if body == [] {
      assert body + ([quote] + rest) == [quote] + rest && body + [quote] == [quote];
      LiteralEnds(quote, rest);
    } else {
      LiteralBody(body[1..], quote, rest, !escaped && body[0] == '\\');
      BlankOne(body[0], body[1..] + [quote], body[1..] + ([quote] + rest), Opens(quote), escaped, Strip(rest, Code,
          false));
      HeadFirst(body, [quote] + rest);
      HeadFirst(body, [quote]);
    }
  }

  lemma {:induction false} LineEnds(rest: string)
    requires rest != [] ==> rest[0] == '\n'
    ensures Strip(rest, Line, false) == Strip(rest, Code, false)
  {
  }

  lemma {:induction false} LineBody(body: string, rest: string)
    requires '\n' !in body && (rest != [] ==> rest[0] == '\n')
    ensures Strip(body + rest, Line, false) == BlankAll(body) + Strip(rest, Code, false)
    decreases |body|
  {
    if body == [] {
      assert body + rest == rest;
      LineEnds(rest);
    } else {
      LineBody(body[1..], rest);
      BlankOne(body[0], body[1..], body[1..] + rest, Line, false, Strip(rest, Code, false));
      HeadFirst(body, rest);
      assert [body[0]] + body[1..] == body;
    }
  }

  lemma {:induction false} BlockEnds(rest: string)
    ensures Strip("*/" + rest, Block, false) == BlankAll("*/") + Strip(rest, Code, false)
  {
    var s := "*/" + rest;
    assert s[2..] == rest && TurnOf(s, Block, false) == Turn("  ", 2, Code, false);
  }

  lemma {:induction false} BlockGoesOn(body: string, rest: string)
    requires body != [] && NoBlockEnd(body)
    ensures TurnOf([body[0]] + (body[1..] + ("*/" + rest)), Block, false) == Turn([Blank(body[0])], 1, Block, false)
  {
    var s := [body[0]] + (body[1..] + ("*/" + rest));
    assert s[1] == if |body| > 1 then body[1] else '*';
  }

  lemma {:induction false} BlockBody(body: string, rest: string)
    requires NoBlockEnd(body)
    ensures Strip(body + ("*/" + rest), Block, false) == BlankAll(body + "*/") + Strip(rest, Code, false)
    decreases |body|
  {
    if body == [] {
      assert [] + ("*/" + rest) == "*/" + rest && [] + "*/" == "*/";
      BlockEnds(rest);
    } else {
      BlockBody(body[1..], rest);
      BlockGoesOn(body, rest);
      BlankOne(body[0], body[1..] + "*/", body[1..] + ("*/" + rest), Block, false, Strip(rest, Code, false));
      HeadFirst(body, "*/" + rest);
      HeadFirst(body, "*/");
    }
  }

  lemma {:induction false} StripOneMore(s: string, w: nat, t: Turn, shown: string, tail: string)
    requires s != [] && t == TurnOf(s, Code, false) && w == t.width
    requires Strip(s[w..], t.mode, t.escaped) == shown + tail
    ensures Strip(s, Code, false) == (t.emit + shown) + tail
  {
  }

  lemma {:induction false} StripLiteral(quote: char, body: string, rest: string)
    requires Fits(Literal(quote, body), rest)
    ensures Strip(Text(Literal(quote, body)) + rest, Code, false) == Shown(Literal(quote, body)) + Strip(rest, Code,
        false)
  {
    hide BlankAll, Strip;
    var s := Text(Literal(quote, body)) + rest;
    assert s[1..] == body + ([quote] + rest) && s[0] == quote;
    LiteralBody(body, quote, rest, false);
    StripOneMore(s, 1, Turn(" ", 1, Opens(quote), false), BlankAll(body + [quote]), Strip(rest, Code, false));
    assert " " + BlankAll(body + [quote]) == BlankAll([quote] + (body + [quote]));
  }

  lemma {:induction false} StripHashComment(body: string, rest: string)
    requires Fits(LineComment(true, body), rest)
    ensures Strip(("#" + body) + rest, Code, false) == BlankAll("#" + body) + Strip(rest, Code, false)
  {
    hide BlankAll, Strip;
    var s := ("#" + body) + rest;
    LineBody(body, rest);
    assert s[1..] == body + rest && s[0] == '#';
    StripOneMore(s, 1, Turn(" ", 1, Line, false), BlankAll(body), Strip(rest, Code, false));
    assert " " + BlankAll(body) == BlankAll("#" + body);
  }

  lemma {:induction false} StripSlashComment(body: string, rest: string)
    requires Fits(LineComment(false, body), rest)
    ensures Strip(("//" + body) + rest, Code, false) == BlankAll("//" + body) + Strip(rest, Code, false)
  {
    hide BlankAll, Strip;
    var s := ("//" + body) + rest;
    LineBody(body, rest);
    assert s[2..] == body + rest && s[0] == '/' && s[1] == '/';
    StripOneMore(s, 2, Turn("  ", 2, Line, false), BlankAll(body), Strip(rest, Code, false));
    assert "  " + BlankAll(body) == BlankAll("//" + body);
  }

  lemma {:induction false} StripBlockComment(body: string, rest: string)
    requires Fits(BlockComment(body), rest)
    ensures Strip(Text(BlockComment(body)) + rest, Code, false) == Shown(BlockComment(body)) + Strip(rest, Code, false)
  {
    hide BlankAll, Strip;
    var s := Text(BlockComment(body)) + rest;
    BlockBody(body, rest);
    assert s[2..] == body + ("*/" + rest) && s[0] == '/' && s[1] == '*';
    StripOneMore(s, 2, Turn("  ", 2, Block, false), BlankAll(body + "*/"), Strip(rest, Code, false));
    assert "  " + BlankAll(body + "*/") == BlankAll("/*" + (body + "*/"));
  }

  lemma {:induction false} StripToken(t: Token, rest: string)
    requires Fits(t, rest)
    ensures Strip(Text(t) + rest, Code, false) == Shown(t) + Strip(rest, Code, false)
  {
    match t
    case Plain(c) =>
      assert (Text(t) + rest)[1..] == rest;
      assert [] + Strip(rest, Code, false) == Strip(rest, Code, false);
      StripOneMore(Text(t) + rest, 1, Turn([c], 1, Code, false), [], Strip(rest, Code, false));
      assert [c] + [] == [c];
    case Literal(quote, body) => StripLiteral(quote, body, rest);
    case LineComment(hash, body) => if hash { StripHashComment(body, rest); } else { StripSlashComment(body, rest); }
    case BlockComment(body) => StripBlockComment(body, rest);
  }

  /** On every text made of well-formed tokens, exactly the plain characters survive, in place. */
  lemma {:induction false} StripBlanksTokens(ts: seq<Token>)
    requires WellFormed(ts)
    ensures Strip(Render(ts), Code, false) == ShownAll(ts)
  {
    if ts != [] {
      StripToken(ts[0], Render(ts[1..]));
      StripBlanksTokens(ts[1..]);
    }
  }
}
