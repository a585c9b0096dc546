/**
  The terminal panel: terminal output with escape sequences becomes rich text, line by line.
 */
module Terminal {
  import opened Prelude

  // ---------------------------------------------------------------- escape sequences

  const ESC := '\U{1B}'

  predicate Digit(c: char) {
    '0' <= c <= '9'
  }

  predicate Letter(c: char) {
    'A' <= c <= 'Z' || 'a' <= c <= 'z'
  }

  predicate Parameter(c: char) {
    Digit(c) || c == ';' || c == '?'
  }

  /** One match of the ESCAPE pattern: where it ends, and for a control sequence what it says. */
  datatype Match = Match(end: nat, params: string, final: char)

  function ParametersEnd(s: string, p: nat): (q: nat)
    requires p <= |s|
    ensures p <= q <= |s| && (forall i :: p <= i < q ==> Parameter(s[i])) && (q < |s| ==> !Parameter(s[q]))
    decreases |s| - p
  {
    if p < |s| && Parameter(s[p]) then ParametersEnd(s, p + 1) else p
  }

  /** The match that starts at p, if there is one. */
  function MatchAt(s: string, p: nat): (m: Option<Match>)
    requires p <= |s|
    ensures m.Some? ==> p < m.value.end <= |s| && s[p] == ESC
  {
    if p + 1 >= |s| || s[p] != ESC then None
    else if s[p + 1] == '[' then
      var q := ParametersEnd(s, p + 2);
      if q < |s| && Letter(s[q]) then Some(Match(q + 1, s[p + 2..q], s[q])) else None
    else if s[p + 1] == '(' || s[p + 1] == ')' then
      if p + 2 < |s| && (Letter(s[p + 2]) || Digit(s[p + 2])) then Some(Match(p + 3, "", s[p + 1])) else None
    else if s[p + 1] == '=' || s[p + 1] == '>' then Some(Match(p + 2, "", s[p + 1]))
    else None
  }

  /** text.rsplit("\r", 1)[-1] */
  function LastRedraw(text: string): (r: string)
    ensures '\r' !in r && |r| <= |text| && r == text[|text| - |r|..]
    ensures |r| < |text| ==> text[|text| - |r| - 1] == '\r'
  {
    var n := |text|;
    if n == 0 || text[n - 1] == '\r' then ""
    else
      var r := LastRedraw(text[..n - 1]);
      assert text[..n - 1][n - 1 - |r|..] + [text[n - 1]] == text[n - 1 - |r|..];
      r + [text[n - 1]]
  }

  /** ESCAPE.sub("", s), from p on. */
  function Stripped(s: string, p: nat): string
    requires p <= |s|
    decreases |s| - p
  {
    if p == |s| then ""
    else
      var m := MatchAt(s, p);
      if m.Some? then Stripped(s, m.value.end) else [s[p]] + Stripped(s, p + 1)
  }

  function StripAnsi(text: string): string {
    Stripped(LastRedraw(text), 0)
  }

  // ---------------------------------------------------------------- colours

  const COLORS: map<nat, string> := map[
    30 := "#5C6B78", 31 := "#FF6B76", 32 := "#5BD08A", 33 := "#E8C468",
    34 := "#6CA7FF", 35 := "#D78BF0", 36 := "#57CAD3", 37 := "#C8D7E0",
    90 := "#7E8F9C", 91 := "#FF8992", 92 := "#7FE3A8", 93 := "#F2D98A",
    94 := "#93BFFF", 95 := "#E3A8F5", 96 := "#8BE3EA", 97 := "#FFFFFF"]

  datatype Style = Style(color: Option<string>, bold: bool)

  const PLAIN := Style(None, false)

  predicate IsColor(c: string) {
    |c| == 7 && forall i :: 0 <= i < 7 ==> c[i] != '"'
  }

  predicate Showable(style: Style) {
    style.color.Some? ==> IsColor(style.color.value)
  }

  lemma ColorsAreColors(n: nat)
    requires n in COLORS
    ensures IsColor(COLORS[n])
  {
  }

  /** What one code at the head of the list does, and how many codes it takes. */
  function Code(codes: seq<nat>, style: Style): (r: (Style, nat))
    requires codes != []
    ensures 1 <= r.1 <= |codes|
  {
    var code := codes[0];
    if code == 0 then (PLAIN, 1)
    else if code == 1 then (style.(bold := true), 1)
    else if code == 22 then (style.(bold := false), 1)
    else if code == 39 then (style.(color := None), 1)
    else if code in COLORS then (style.(color := Some(COLORS[code])), 1)
    else if code == 38 && |codes| > 2 && codes[1] == 5 then
      var n := codes[2];
      (if n < 8 then style.(color := Some(COLORS[30 + n]))
       else if n < 16 then style.(color := Some(COLORS[82 + n]))
       else style, 3)
    else (style, 1)
  }

  function Apply(codes: seq<nat>, style: Style): Style {
    if codes == [] then style
    else
      var r := Code(codes, style);
      Apply(codes[r.1..], r.0)
  }

  lemma {:induction false} ApplyShowable(codes: seq<nat>, style: Style)
    requires Showable(style)
    ensures Showable(Apply(codes, style))
  {
    hide Code, Showable;
    if codes != [] {
      var r := Code(codes, style);
      CodeShowable(codes, style);
      ApplyShowable(codes[r.1..], r.0);
    }
  }

  lemma CodeShowable(codes: seq<nat>, style: Style)
    requires codes != [] && Showable(style)
    ensures Showable(Code(codes, style).0)
  {
    hide IsColor;
    if codes[0] in COLORS {
      ColorsAreColors(codes[0]);
    } else if codes[0] == 38 && |codes| > 2 && codes[2] < 16 {
      ColorsAreColors(if codes[2] < 8 then 30 + codes[2] else 82 + codes[2]);
    }
  }

  lemma ApplyStep(codes: seq<nat>, index: nat, style: Style)
    requires index < |codes|
    ensures var r := Code(codes[index..], style);
      index + r.1 <= |codes| && Apply(codes[index..], style) == Apply(codes[index + r.1..], r.0)
  {
    var r := Code(codes[index..], style);
    assert codes[index..][r.1..] == codes[index + r.1..];
  }

  /** One turn of the loop over the codes. */
  method Turn(codes: seq<nat>, start: nat, style: Style) returns (r: Style, index: nat)
    requires start < |codes|
    ensures (r, index - start) == Code(codes[start..], style) && start < index <= |codes|
  {
    var color, bold := style.color, style.bold;
    index := start;
    var code := codes[index];
    if code == 0 {
      color, bold := None, false;
    } else if code == 1 {
      bold := true;
    } else if code == 22 {
      bold := false;
    } else if code == 39 {
      color := None;
    } else if code in COLORS {
      color := Some(COLORS[code]);
    } else if code == 38 && index + 2 < |codes| && codes[index + 1] == 5 {
      var n := codes[index + 2];
      if n < 8 {
        color := Some(COLORS[30 + n % 8]);
      } else if n < 16 {
        color := Some(COLORS[90 + n - 8]);
      }
      index := index + 2;
    }
    index := index + 1;
    r := Style(color, bold);
  }

  /** The loop over the codes of one sequence. */
  method ApplyCodes(codes: seq<nat>, style: Style) returns (r: Style)
    ensures r == Apply(codes, style)
  {
    hide Code, Apply;
    r := style;
    var index := 0;
    while index < |codes|
      invariant 0 <= index <= |codes|
      invariant Apply(codes[index..], r) == Apply(codes[0..], style)
    {
      ApplyStep(codes, index, r);
      r, index := Turn(codes, index, r);
    }
    assert codes[0..] == codes && codes[index..] == [];
    ApplyNothing(r);
  }

  lemma ApplyNothing(style: Style)
    ensures Apply([], style) == style
  {
  }

  /** params.split(";") */
  function Parts(params: string): (r: seq<string>)
    ensures r != []
  {
    if params == "" then [""]
    else
      var rest := Parts(params[1..]);
      if params[0] == ';' then [""] + rest else [[params[0]] + rest[0]] + rest[1..]
  }

  /** str.isdigit, for the characters that a parameter can have. */
  predicate IsNumber(part: string) {
    part != "" && forall i :: 0 <= i < |part| ==> Digit(part[i])
  }

  function Number(part: string): nat {
    if part == "" || !Digit(part[|part| - 1]) then 0
    else Number(part[..|part| - 1]) * 10 + (part[|part| - 1] as int - '0' as int)
  }

  function Numbers(parts: seq<string>): (r: seq<nat>)
    ensures |r| <= |parts|
  {
    if parts == [] then []
    else (if IsNumber(parts[0]) then [Number(parts[0])] else []) + Numbers(parts[1..])
  }

  /** The codes of a sequence: parts that are not numbers are dropped, and no codes at all mean 0. */
  function Codes(params: string): seq<nat> {
    var codes := Numbers(Parts(if params == "" then "0" else params));
    if codes == [] then [0] else codes
  }

  // ---------------------------------------------------------------- what is shown

  datatype StyledChar = StyledChar(c: char, style: Style)

  /** The style after a match. */
  function After(m: Match, style: Style): Style {
    if m.final == 'm' then Apply(Codes(m.params), style) else style
  }

  /** The characters that s shows from p on, each in the style that the sequences before it set. */
  function Render(s: string, p: nat, style: Style): seq<StyledChar>
    requires p <= |s|
    decreases |s| - p
  {
    if p == |s| then []
    else
      var m := MatchAt(s, p);
      if m.Some? then Render(s, m.value.end, After(m.value, style))
      else [StyledChar(s[p], style)] + Render(s, p + 1, style)
  }

  function Plain(shown: seq<StyledChar>): string {
    seq(|shown|, i requires 0 <= i < |shown| => shown[i].c)
  }

  /** The text alone is what strip_ansi leaves. */
  lemma {:induction false} RenderStripped(s: string, p: nat, style: Style)
    requires p <= |s|
    ensures Plain(Render(s, p, style)) == Stripped(s, p)
    decreases |s| - p
  {
    if p < |s| {
      var m := MatchAt(s, p);
      if m.Some? {
        RenderStripped(s, m.value.end, After(m.value, style));
      } else {
        RenderStripped(s, p + 1, style);
        assert Plain(Render(s, p, style)) == [s[p]] + Plain(Render(s, p + 1, style));
      }
    }
  }

  // ---------------------------------------------------------------- rich text

  /** html.escape for one character. */
  function EscapeChar(c: char): string {
    match c
    case '&' => "&amp;"
    case '<' => "&lt;"
    case '>' => "&gt;"
    case '"' => "&quot;"
    case '\'' => "&#x27;"
    case _ => [c]
  }

  function Escape(text: string): string {
    if text == "" then "" else EscapeChar(text[0]) + Escape(text[1..])
  }

  const FONT := "<font color=\""

  function OpenTags(style: Style): string {
    (if style.color.Some? then FONT + style.color.value + "\">" else "") + if style.bold then "<b>" else ""
  }

  function CloseTags(style: Style): string {
    (if style.bold then "</b>" else "") + if style.color.Some? then "</font>" else ""
  }

  /** An element that is open. */
  datatype Element = Font(color: string) | Bold

  function StyleOf(stack: seq<Element>): Style {
    if stack == [] then PLAIN
    else
      var outer := StyleOf(stack[..|stack| - 1]);
      match stack[|stack| - 1]
      case Font(color) => outer.(color := Some(color))
      case Bold => outer.(bold := true)
  }

  function Add(c: char, style: Style, rest: Option<seq<StyledChar>>): Option<seq<StyledChar>> {
    if rest.None? then None else Some([StyledChar(c, style)] + rest.value)
  }

  /**
    How a reader of rich text sees it: tags must be nested and closed, and the five characters with
    a meaning must be written as entities.
   */
  function Parse(out: string, stack: seq<Element>): Option<seq<StyledChar>>
    decreases |out|
  {
    if out == "" then (if stack == [] then Some([]) else None)
    else if out[0] == '<' then
      if "<b>" <= out then Parse(out[3..], stack + [Bold])
      else if "</b>" <= out then
        if stack != [] && stack[|stack| - 1] == Bold then Parse(out[4..], stack[..|stack| - 1]) else None
      else if "</font>" <= out then
        if stack != [] && stack[|stack| - 1].Font? then Parse(out[7..], stack[..|stack| - 1]) else None
      else if FONT <= out && |out| >= 22 && IsColor(out[13..20]) && out[20] == '"' && out[21] == '>' then
        Parse(out[22..], stack + [Font(out[13..20])])
      else None
    else if out[0] == '&' then
      if "&amp;" <= out then Add('&', StyleOf(stack), Parse(out[5..], stack))
      else if "&lt;" <= out then Add('<', StyleOf(stack), Parse(out[4..], stack))
      else if "&gt;" <= out then Add('>', StyleOf(stack), Parse(out[4..], stack))
      else if "&quot;" <= out then Add('"', StyleOf(stack), Parse(out[6..], stack))
      else if "&#x27;" <= out then Add('\'', StyleOf(stack), Parse(out[6..], stack))
      else None
    else if out[0] in {'>', '"', '\''} then None
    else Add(out[0], StyleOf(stack), Parse(out[1..], stack))
  }

  function StackOf(style: Style): seq<Element> {
    (if style.color.Some? then [Font(style.color.value)] else []) + if style.bold then [Bold] else []
  }

  lemma StackShows(style: Style)
    ensures StyleOf(StackOf(style)) == style
  {
    var stack := StackOf(style);
    if style.bold {
      assert stack[..|stack| - 1] == StackOf(style.(bold := false));
    }
    if style.color.Some? {
      var font := StackOf(style.(bold := false));
      assert font[..0] == [];
    }
  }

  lemma ParseChar(c: char, rest: string, stack: seq<Element>)
    ensures Parse(EscapeChar(c) + rest, stack) == Add(c, StyleOf(stack), Parse(rest, stack))
  {
    var e := EscapeChar(c);
    var out := e + rest;
    assert out[|e|..] == rest && e <= out && out[0] == e[0];
    if |e| > 1 {
      ParseEntity(c, rest, stack);
    }
  }

  lemma ParseEntity(c: char, rest: string, stack: seq<Element>)
    requires c in {'&', '<', '>', '"', '\''}
    ensures Parse(EscapeChar(c) + rest, stack) == Add(c, StyleOf(stack), Parse(rest, stack))
  {
    hide StyleOf;
    var e := EscapeChar(c);
    var out := e + rest;
    assert out[|e|..] == rest && e <= out && out[0] == '&';
    assert c != '&' ==> out[1] == e[1] != 'a';
    assert c != '<' ==> out[1] == e[1] != 'l';
    assert c != '>' ==> out[1] == e[1] != 'g';
    assert c != '"' ==> out[1] == e[1] != 'q';
  }

  lemma ParseFont(color: string, rest: string)
    requires IsColor(color)
    ensures Parse(FONT + color + "\">" + rest, []) == Parse(rest, [Font(color)])
  {
    var out := FONT + color + "\">" + rest;
    assert out[13..20] == color && out[22..] == rest && FONT <= out;
    assert out[20] == '"' && out[21] == '>';
    assert [] + [Font(color)] == [Font(color)];
    assert out[1] == 'f';
  }

  lemma ParseBold(rest: string, stack: seq<Element>)
    ensures Parse("<b>" + rest, stack) == Parse(rest, stack + [Bold])
  {
    assert ("<b>" + rest)[3..] == rest;
  }

  lemma ParseEndBold(rest: string, stack: seq<Element>)
    ensures Parse("</b>" + rest, stack + [Bold]) == Parse(rest, stack)
  {
    var out := "</b>" + rest;
    assert out[4..] == rest && out[1] == '/';
    assert (stack + [Bold])[..|stack|] == stack;
  }

  lemma ParseEndFont(rest: string, stack: seq<Element>, color: string)
    ensures Parse("</font>" + rest, stack + [Font(color)]) == Parse(rest, stack)
  {
    var out := "</font>" + rest;
    assert out[7..] == rest && out[1] == '/' && out[2] == 'f';
    assert (stack + [Font(color)])[..|stack|] == stack;
  }

  lemma ParseOpen(style: Style, rest: string)
    requires Showable(style)
    ensures Parse(OpenTags(style) + rest, []) == Parse(rest, StackOf(style))
  {
    hide Parse;
    var outer := StackOf(style.(bold := false));
    var inner := (if style.bold then "<b>" else "") + rest;
    if style.bold {
      ParseBold(rest, outer);
      assert StackOf(style) == outer + [Bold];
    } else {
      assert inner == rest && StackOf(style) == outer;
    }
    if style.color.Some? {
      ParseFont(style.color.value, inner);
      assert outer == [Font(style.color.value)];
      assert OpenTags(style) + rest == FONT + style.color.value + "\">" + inner;
    } else {
      assert outer == [] && OpenTags(style) + rest == inner;
    }
  }

  lemma ParseClose(style: Style, rest: string)
    ensures Parse(CloseTags(style) + rest, StackOf(style)) == Parse(rest, [])
  {
    hide Parse;
    var outer := StackOf(style.(bold := false));
    var inner := (if style.color.Some? then "</font>" else "") + rest;
    if style.bold {
      ParseEndBold(inner, outer);
      assert StackOf(style) == outer + [Bold];
      assert CloseTags(style) + rest == "</b>" + inner;
    } else {
      assert CloseTags(style) + rest == inner;
    }
    if style.color.Some? {
      ParseEndFont(rest, [], style.color.value);
      assert outer == [] + [Font(style.color.value)];
    } else {
      assert inner == rest;
    }
  }

  // ---------------------------------------------------------------- translation

  /** The rich text from p on, while the tags of style are open. */
  function Styled(s: string, p: nat, style: Style): string
    requires p <= |s|
    decreases |s| - p
  {
    if p == |s| then CloseTags(style)
    else
      var m := MatchAt(s, p);
      if m.None? then EscapeChar(s[p]) + Styled(s, p + 1, style)
      else if m.value.final != 'm' then Styled(s, m.value.end, style)
      else
        var next := After(m.value, style);
        CloseTags(style) + OpenTags(next) + Styled(s, m.value.end, next)
  }

  /** Reading the rich text back gives every character in its style. */
  lemma {:induction false} StyledMeansRendered(s: string, p: nat, style: Style)
    requires p <= |s| && Showable(style)
    ensures Parse(Styled(s, p, style), StackOf(style)) == Some(Render(s, p, style))
    decreases |s| - p
  {
    hide Parse, OpenTags, CloseTags, StackOf, EscapeChar, MatchAt, Apply, Codes;
    StackShows(style);
    if p == |s| {
      ParseClose(style, "");
      assert CloseTags(style) + "" == CloseTags(style);
      ParseEnd();
    } else {
      var m := MatchAt(s, p);
      if m.None? {
        StyledMeansRendered(s, p + 1, style);
        ParseChar(s[p], Styled(s, p + 1, style), StackOf(style));
      } else if m.value.final != 'm' {
        StyledMeansRendered(s, m.value.end, style);
      } else {
        var next := After(m.value, style);
        ApplyShowable(Codes(m.value.params), style);
        var rest := Styled(s, m.value.end, next);
        StyledMeansRendered(s, m.value.end, next);
        ParseOpen(next, rest);
        ParseClose(style, OpenTags(next) + rest);
        assert CloseTags(style) + OpenTags(next) + rest == CloseTags(style) + (OpenTags(next) + rest);
      }
    }
  }

  lemma ParseEnd()
    ensures Parse("", []) == Some([])
  {
  }

  /** ESCAPE.finditer: the first match at or after p; None if there is none. */
  function NextMatch(s: string, p: nat): (r: Option<nat>)
    requires p <= |s|
    ensures r.Some? ==> p <= r.value < |s| && MatchAt(s, r.value).Some?
    ensures forall i :: p <= i < (if r.Some? then r.value else |s|) ==> MatchAt(s, i).None?
    decreases |s| - p
  {
    if p == |s| then None
    else if MatchAt(s, p).Some? then Some(p)
    else NextMatch(s, p + 1)
  }

  lemma StyledAt(s: string, p: nat, style: Style)
    requires p < |s|
    ensures var m := MatchAt(s, p);
      && (m.None? ==> Styled(s, p, style) == EscapeChar(s[p]) + Styled(s, p + 1, style))
      && (m.Some? && m.value.final != 'm' ==> Styled(s, p, style) == Styled(s, m.value.end, style))
      && (m.Some? && m.value.final == 'm' ==>
            var next := Apply(Codes(m.value.params), style);
            Styled(s, p, style) == CloseTags(style) + OpenTags(next) + Styled(s, m.value.end, next))
  {
    hide EscapeChar, Apply, Codes, MatchAt;
  }

  lemma StyledEnd(s: string, style: Style)
    ensures Styled(s, |s|, style) == CloseTags(style)
  {
  }

  lemma EscapeCons(c: char, text: string)
    ensures Escape([c] + text) == EscapeChar(c) + Escape(text)
  {
    assert ([c] + text)[1..] == text;
  }

  /** Text without escape sequences is escaped as a whole. */
  lemma {:induction false} StyledRun(s: string, p: nat, q: nat, style: Style)
    requires p <= q <= |s| && forall i :: p <= i < q ==> MatchAt(s, i).None?
    ensures Styled(s, p, style) == Escape(s[p..q]) + Styled(s, q, style)
    decreases q - p
  {
    if p == q {
      assert Escape(s[p..q]) == "";
    } else {
      hide *;
      StyledRun(s, p + 1, q, style);
      StyledAt(s, p, style);
      EscapeCons(s[p], s[p + 1..q]);
      assert s[p..q] == [s[p]] + s[p + 1..q];
      Assoc(EscapeChar(s[p]), Escape(s[p + 1..q]), Styled(s, q, style));
    }
  }

  lemma Assoc(a: string, b: string, c: string)
    ensures a + (b + c) == a + b + c
  {
  }

  /**
    The translation.  Whatever the text, the result is well-formed, shows exactly the characters that
    strip_ansi leaves, and each of them in the style that the sequences before it set.
   */
  method AnsiToStyled(text: string) returns (out: string)
    ensures out == Styled(LastRedraw(text), 0, PLAIN)
    ensures Parse(out, []) == Some(Render(LastRedraw(text), 0, PLAIN))
    ensures Plain(Render(LastRedraw(text), 0, PLAIN)) == StripAnsi(text)
  {
    hide *;
    var s := LastRedraw(text);
    out := "";
    var style, position := PLAIN, 0;
    var m := NextMatch(s, position);
    Assoc("", "", Styled(s, 0, PLAIN));
    while m.Some?
      invariant position <= |s| && m == NextMatch(s, position)
      invariant out + Styled(s, position, style) == Styled(s, 0, PLAIN)
      decreases |s| - position
    {
      var found := MatchAt(s, m.value).value;
      StyledRun(s, position, m.value, style);
      StyledAt(s, m.value, style);
      Assoc(out, Escape(s[position..m.value]), Styled(s, m.value, style));
      out := out + Escape(s[position..m.value]);
      position := found.end;
      if found.final == 'm' {
        var codes := Codes(found.params);
        var next := ApplyCodes(codes, style);
        Assoc(out, CloseTags(style), OpenTags(next) + Styled(s, position, next));
        Assoc(CloseTags(style), OpenTags(next), Styled(s, position, next));
        Assoc(out + CloseTags(style), OpenTags(next), Styled(s, position, next));
        out := out + CloseTags(style);
        style := next;
        out := out + OpenTags(style);
      }
      m := NextMatch(s, position);
    }
    StyledRun(s, position, |s|, style);
    StyledEnd(s, style);
    assert s[position..|s|] == s[position..];
    Assoc(out, Escape(s[position..]), CloseTags(style));
    out := out + Escape(s[position..]) + CloseTags(style);
    StackPlain();
    StyledMeansRendered(s, 0, PLAIN);
    RenderStripped(s, 0, PLAIN);
    StripAnsiIs(text);
  }

  lemma StripAnsiIs(text: string)
    ensures StripAnsi(text) == Stripped(LastRedraw(text), 0)
  {
  }

  lemma StackPlain()
    ensures StackOf(PLAIN) == [] && Showable(PLAIN)
  {
  }

  // ---------------------------------------------------------------- against the standard

  /** Section 8.3.117 of ECMA-48 with section 5.4.2: an empty parameter stands for its default, 0. */
  function EcmaCodes(parts: seq<string>): (r: seq<nat>)
    ensures |r| == |parts|
  {
    if parts == [] then [] else [Number(parts[0])] + EcmaCodes(parts[1..])
  }

  lemma {:induction false} PartsAreDigits(params: string)
    requires forall i :: 0 <= i < |params| ==> Digit(params[i]) || params[i] == ';'
    ensures forall part :: part in Parts(params) ==> part == "" || IsNumber(part)
    ensures params != "" && params[0] == ';' ==> |Parts(params)| > 1
    ensures params != "" && (forall part :: part in Parts(params) ==> part == "") ==> |Parts(params)| > 1
  {
    if params != "" {
      PartsAreDigits(params[1..]);
      var rest := Parts(params[1..]);
      assert rest[0] in rest;
      if params[0] != ';' {
        var head := [params[0]] + rest[0];
        assert head in Parts(params) && head != "";
      }
    }
  }

  lemma {:induction false} NumbersAre(parts: seq<string>)
    requires forall part :: part in parts ==> part == "" || IsNumber(part)
    ensures "" !in parts ==> Numbers(parts) == EcmaCodes(parts)
    ensures "" in parts ==> |Numbers(parts)| < |parts|
    ensures Numbers(parts) == [] ==> forall part :: part in parts ==> part == ""
  {
    if parts != [] {
      NumbersAre(parts[1..]);
      assert parts[0] in parts;
      assert parts == [parts[0]] + parts[1..];
    }
  }

  /** The codes are those of the standard exactly if no parameter is left empty among others. */
  lemma CodesFollowStandardIff(params: string)
    requires forall i :: 0 <= i < |params| ==> Digit(params[i]) || params[i] == ';'
    ensures Codes(params) == EcmaCodes(Parts(params)) <==> params == "" || "" !in Parts(params)
  {
    if params == "" {
      NoParameters();
    } else {
      hide Parts, Numbers, EcmaCodes;
      PartsAreDigits(params);
      NumbersAre(Parts(params));
    }
  }

  lemma NoParameters()
    ensures Codes("") == [0] == EcmaCodes(Parts(""))
  {
    PartsCons('0', "");
    assert ["0"][1..] == [] && "0"[..0] == "" && [""][1..] == [];
    assert Numbers(["0"]) == [Number("0")] + Numbers([]);
  }

  lemma PartsCons(c: char, rest: string)
    ensures var parts := Parts(rest);
      Parts([c] + rest) == if c == ';' then [""] + parts else [[c] + parts[0]] + parts[1..]
  {
    assert ([c] + rest)[1..] == rest;
  }

  /** "\x1b[;31m" on bold text: the standard resets the bold first, the panel keeps it. */
  lemma EmptyParameterIsDropped()
    ensures Apply(Codes(";31"), Style(None, true)).bold
    ensures !Apply(EcmaCodes(Parts(";31")), Style(None, true)).bold
  {
    hide Codes, EcmaCodes, Parts;
    EmptyParameterCodes();
    assert [31][1..] == [] && [0, 31][1..] == [31];
    assert Apply([31], Style(None, true)) == Style(Some(COLORS[31]), true);
    assert Apply([31], PLAIN) == Style(Some(COLORS[31]), false);
  }

  lemma EmptyParameterCodes()
    ensures Codes(";31") == [31] && EcmaCodes(Parts(";31")) == [0, 31]
  {
    EmptyParameterParts();
    assert "31"[..1] == "3" && "3"[..0] == "";
    assert Number("3") == 3 && Number("31") == 31;
    assert ["", "31"][1..] == ["31"] && ["31"][1..] == [];
    assert Numbers(["31"]) == [31] && EcmaCodes(["31"]) == [31];
  }

  lemma EmptyParameterParts()
    ensures Parts(";31") == ["", "31"]
  {
    PartsCons('1', "");
    PartsCons('3', "1");
    PartsCons(';', "31");
    assert ['1'] + "" == "1" && ['3'] + "1" == "31" && [';'] + "31" == ";31";
  }

  // ---------------------------------------------------------------- styles

  /** What one code does to the style, with its arguments if it takes any. */
  datatype Op = Nothing | Reset | Weight(bold: bool) | Paint(color: Option<string>)

  function Effect(op: Op, style: Style): Style {
    match op
    case Nothing => style
    case Reset => PLAIN
    case Weight(bold) => style.(bold := bold)
    case Paint(color) => style.(color := color)
  }

  function Single(code: nat): Op {
    if code == 0 then Reset
    else if code == 1 then Weight(true)
    else if code == 22 then Weight(false)
    else if code == 39 then Paint(None)
    else if code in COLORS then Paint(Some(COLORS[code]))
    else Nothing
  }

  /** Only the first 16 colours can be shown. */
  function Palette(n: nat): Op {
    if n < 8 then Paint(Some(COLORS[30 + n])) else if n < 16 then Paint(Some(COLORS[82 + n])) else Nothing
  }

  /** The panel takes 38;5;n together and every other code alone. */
  function PanelOps(codes: seq<nat>): seq<Op> {
    if codes == [] then []
    else if codes[0] == 38 && |codes| > 2 && codes[1] == 5 then [Palette(codes[2])] + PanelOps(codes[3..])
    else [Single(codes[0])] + PanelOps(codes[1..])
  }

  /** A foreground or background colour takes 5;n or 2;r;g;b with it, or as much of that as is there. */
  function Taken(codes: seq<nat>): (n: nat)
    requires codes != []
    ensures 1 <= n <= |codes|
  {
    var most := if codes[0] !in {38, 48} || |codes| == 1 then 1
                else if codes[1] == 5 then 3 else if codes[1] == 2 then 5 else 1;
    if |codes| < most then |codes| else most
  }

  /** What a display of 16 foreground colours and bold makes of the codes; it has no other colours and no backgrounds. */
  function StandardOps(codes: seq<nat>): seq<Op> {
    if codes == [] then []
    else
      var n := Taken(codes);
      [if codes[0] == 38 && n == 3 && codes[1] == 5 then Palette(codes[2]) else Single(codes[0])]
      + StandardOps(codes[n..])
  }

  function Fold(ops: seq<Op>, style: Style): Style {
    if ops == [] then style else Fold(ops[1..], Effect(ops[0], style))
  }

  /** The colour that the last operation on the colour leaves; None if there is no such operation. */
  function LastColor(ops: seq<Op>): Option<Option<string>> {
    if ops == [] then None
    else
      var later := LastColor(ops[1..]);
      if later.Some? then later
      else
        match ops[0]
        case Reset => Some(None)
        case Paint(color) => Some(color)
        case _ => None
  }

  function LastWeight(ops: seq<Op>): Option<bool> {
    if ops == [] then None
    else
      var later := LastWeight(ops[1..]);
      if later.Some? then later
      else
        match ops[0]
        case Reset => Some(false)
        case Weight(bold) => Some(bold)
        case _ => None
  }

  lemma {:induction false} PanelFolds(codes: seq<nat>, style: Style)
    ensures Apply(codes, style) == Fold(PanelOps(codes), style)
  {
    if codes != [] {
      var (style', n) := Code(codes, style);
      PanelFolds(codes[n..], style');
      FirstOp(codes, style);
      var ops := PanelOps(codes);
      assert ops[1..] == PanelOps(codes[n..]);
    }
  }

  lemma FirstOp(codes: seq<nat>, style: Style)
    requires codes != []
    ensures PanelOps(codes) != [] && Effect(PanelOps(codes)[0], style) == Code(codes, style).0
    ensures PanelOps(codes)[1..] == PanelOps(codes[Code(codes, style).1..])
  {
  }

  /** Only the last operation on the colour and the last one on the weight matter. */
  lemma {:induction false} FoldIs(ops: seq<Op>, style: Style)
    ensures var color, bold := LastColor(ops), LastWeight(ops);
      Fold(ops, style) == Style(if color.Some? then color.value else style.color, if bold.Some? then bold.value else style.bold)
  {
    if ops != [] {
      FoldIs(ops[1..], Effect(ops[0], style));
    }
  }

  /** Two lists act alike on every style exactly if their last operations on colour and weight agree. */
  lemma ActAlikeIff(ops: seq<Op>, other: seq<Op>)
    ensures (forall style :: Fold(ops, style) == Fold(other, style))
       <==> LastColor(ops) == LastColor(other) && LastWeight(ops) == LastWeight(other)
  {
    hide Fold, LastColor, LastWeight;
    forall style
      ensures LastColor(ops) == LastColor(other) && LastWeight(ops) == LastWeight(other) ==>
        Fold(ops, style) == Fold(other, style)
    {
      FoldIs(ops, style);
      FoldIs(other, style);
    }
    var light, heavy := Style(None, false), Style(Some(""), true);
    FoldIs(ops, light);
    FoldIs(other, light);
    FoldIs(ops, heavy);
    FoldIs(other, heavy);
    if forall style :: Fold(ops, style) == Fold(other, style) {
      assert Fold(ops, light) == Fold(other, light) && Fold(ops, heavy) == Fold(other, heavy);
    }
  }

  /**
    On every style a sequence has the effect that the standard gives it if and only if, by either
    reading of its parameters, the last operation on the colour leaves the same colour and the last
    one on the weight the same weight.
   */
  lemma StylesFollowStandardIff(params: string)
    ensures (forall style :: Apply(Codes(params), style) == Fold(StandardOps(EcmaCodes(Parts(params))), style))
       <==> && LastColor(PanelOps(Codes(params))) == LastColor(StandardOps(EcmaCodes(Parts(params))))
            && LastWeight(PanelOps(Codes(params))) == LastWeight(StandardOps(EcmaCodes(Parts(params))))
  {
    var codes, standard := Codes(params), StandardOps(EcmaCodes(Parts(params)));
    hide *;
    ActAlikeIff(PanelOps(codes), standard);
    forall style
      ensures Apply(codes, style) == Fold(PanelOps(codes), style)
    {
      PanelFolds(codes, style);
    }
    if forall style :: Apply(codes, style) == Fold(standard, style) {
      forall style
        ensures Fold(PanelOps(codes), style) == Fold(standard, style)
      {
        assert Apply(codes, style) == Fold(standard, style);
      }
    }
  }

  /** Without colours that take arguments, both readings of a list are the same. */
  lemma {:induction false} PlainCodesAgree(codes: seq<nat>)
    requires 38 !in codes && 48 !in codes
    ensures PanelOps(codes) == StandardOps(codes)
  {
    if codes != [] {
      assert codes[0] in codes;
      PlainCodesAgree(codes[1..]);
    }
  }

  /** "\x1b[;m" has other codes than the standard's and the same effect. */
  lemma EmptyParametersAgree()
    ensures Codes(";") == [0] && EcmaCodes(Parts(";")) == [0, 0]
    ensures LastColor(PanelOps([0])) == LastColor(StandardOps([0, 0])) == Some(None)
    ensures LastWeight(PanelOps([0])) == LastWeight(StandardOps([0, 0])) == Some(false)
  {
    PartsCons(';', "");
    assert [';'] + "" == ";" && Parts(";") == ["", ""];
    assert ["", ""][1..] == [""] && [""][1..] == [] && [0, 0][1..] == [0] && [0][1..] == [];
    assert Numbers([""]) == [] && Numbers(["", ""]) == [];
  }

  /** By the standard, these parameters are these codes, none of them left empty. */
  ghost predicate Reads(params: string, codes: seq<nat>) {
    && (forall i :: 0 <= i < |params| ==> Digit(params[i]) || params[i] == ';')
    && "" !in Parts(params) && EcmaCodes(Parts(params)) == codes
  }

  lemma ReadsOne(part: string)
    requires IsNumber(part)
    ensures Reads(part, [Number(part)])
  {
    PartsOne(part);
    hide Parts, Number;
    assert [part][1..] == [] && EcmaCodes([]) == [];
    assert EcmaCodes([part]) == [Number(part)] + EcmaCodes([]);
  }

  lemma ReadsMore(part: string, rest: string, codes: seq<nat>)
    requires IsNumber(part) && Reads(rest, codes)
    ensures Reads(part + ";" + rest, [Number(part)] + codes)
  {
    PartsMore(part, rest);
    hide Parts, Number;
    assert ([part] + Parts(rest))[1..] == Parts(rest);
  }

  lemma ReadsAlike(params: string, codes: seq<nat>)
    requires Reads(params, codes)
    ensures Codes(params) == codes == EcmaCodes(Parts(params))
  {
    CodesFollowStandardIff(params);
  }

  lemma OneDigit(n: string)
    requires |n| == 1 && Digit(n[0])
    ensures IsNumber(n) && Number(n) == n[0] as nat - '0' as nat
  {
    assert n[..0] == "";
  }

  lemma TwoDigits(n: string)
    requires |n| == 2 && Digit(n[0]) && Digit(n[1])
    ensures IsNumber(n) && Number(n) == 10 * (n[0] as nat - '0' as nat) + (n[1] as nat - '0' as nat)
  {
    OneDigit(n[..1]);
  }

  lemma NoColor(code: nat)
    requires code < 30 || code == 38 || code == 48
    ensures code !in COLORS
  {
  }

  /** A code that the panel does not know does nothing. */
  lemma Ignored(code: nat, more: seq<nat>, style: Style)
    requires code !in {0, 1, 22, 39} && (code < 30 || code == 38 || code == 48) && (code == 38 ==> more == [] || more[0] != 5)
    ensures Apply([code] + more, style) == Apply(more, style)
  {
    NoColor(code);
    hide COLORS;
    assert ([code] + more)[1..] == more;
  }

  /** "\x1b[48;5;1m", a background of the palette, is bold in the panel. */
  lemma BackgroundIsBold(style: Style)
    ensures Apply(Codes("48;5;1"), style) == style.(bold := true)
    ensures Fold(StandardOps(EcmaCodes(Parts("48;5;1"))), style) == style
  {
    BackgroundCodes();
    PanelBolds(style);
    BackgroundTogether(style);
    hide *;
  }

  lemma PanelBolds(style: Style)
    ensures Apply([48, 5, 1], style) == style.(bold := true)
  {
    assert [1][1..] == [] && Apply([1], style) == style.(bold := true);
    Ignored(48, [5, 1], style);
    Ignored(5, [1], style);
    hide *;
    assert [48] + [5, 1] == [48, 5, 1] && [5] + [1] == [5, 1];
  }

  lemma BackgroundTogether(style: Style)
    ensures Fold(StandardOps([48, 5, 1]), style) == style
  {
    var codes := [48, 5, 1];
    assert codes[3..] == [] && Taken(codes) == 3 && [Nothing][1..] == [];
    NoColor(48);
    hide COLORS;
    assert StandardOps(codes) == [Nothing];
  }

  lemma BackgroundCodes()
    ensures Codes("48;5;1") == [48, 5, 1] == EcmaCodes(Parts("48;5;1"))
  {
    OneDigit("1");
    OneDigit("5");
    TwoDigits("48");
    ReadsOne("1");
    ReadsMore("5", "1", [1]);
    ReadsMore("48", "5" + ";" + "1", [5] + [1]);
    hide *;
    assert "48" + ";" + ("5" + ";" + "1") == "48;5;1" && [48] + ([5] + [1]) == [48, 5, 1];
    ReadsAlike("48;5;1", [48, 5, 1]);
  }

  lemma {:induction false} PartsOne(part: string)
    requires ';' !in part
    ensures Parts(part) == [part]
  {
    if part != "" {
      PartsOne(part[1..]);
      assert part == [part[0]] + part[1..];
      PartsCons(part[0], part[1..]);
    }
  }

  lemma {:induction false} PartsMore(part: string, rest: string)
    requires ';' !in part
    ensures Parts(part + ";" + rest) == [part] + Parts(rest)
  {
    if part == "" {
      assert part + ";" + rest == [';'] + rest;
      PartsCons(';', rest);
    } else {
      PartsMore(part[1..], rest);
      assert part + ";" + rest == [part[0]] + (part[1..] + ";" + rest);
      PartsCons(part[0], part[1..] + ";" + rest);
      assert [part[0]] + part[1..] == part;
    }
  }

  /** "\x1b[38;2;0;0;0m", the foreground black, resets the style in the panel. */
  lemma ForegroundResets(style: Style)
    ensures Apply(Codes("38;2;0;0;0"), style) == PLAIN
    ensures Fold(StandardOps(EcmaCodes(Parts("38;2;0;0;0"))), style) == style
  {
    ForegroundCodes();
    PanelResets(style);
    TakenTogether(style);
    hide *;
  }

  lemma PanelResets(style: Style)
    ensures Apply([38, 2, 0, 0, 0], style) == PLAIN
  {
    hide *;
    Ignored(38, [2, 0, 0, 0], style);
    FaintResets(style);
    assert [38] + [2, 0, 0, 0] == [38, 2, 0, 0, 0];
  }

  lemma FaintResets(style: Style)
    ensures Apply([2, 0, 0, 0], style) == PLAIN
  {
    hide *;
    Ignored(2, [0, 0, 0], style);
    ZerosReset([0, 0], style);
    assert [2] + [0, 0, 0] == [2, 0, 0, 0] && [0] + [0, 0] == [0, 0, 0];
  }

  lemma TakenTogether(style: Style)
    ensures Fold(StandardOps([38, 2, 0, 0, 0]), style) == style
  {
    var codes := [38, 2, 0, 0, 0];
    assert codes[5..] == [] && Taken(codes) == 5 && [Nothing][1..] == [];
    assert StandardOps(codes) == [Nothing];
  }

  lemma {:induction false} ZerosReset(more: seq<nat>, style: Style)
    requires forall i :: 0 <= i < |more| ==> more[i] == 0
    ensures Apply([0] + more, style) == PLAIN
  {
    assert ([0] + more)[1..] == more;
    if more != [] {
      assert more == [0] + more[1..];
      ZerosReset(more[1..], PLAIN);
    }
  }

  lemma ForegroundCodes()
    ensures Codes("38;2;0;0;0") == [38, 2, 0, 0, 0] == EcmaCodes(Parts("38;2;0;0;0"))
  {
    TwoDigits("38");
    hide *;
    ReadsFour();
    ReadsMore("38", "2;0;0;0", [2, 0, 0, 0]);
    ForegroundJoined();
    ReadsAlike("38;2;0;0;0", [38, 2, 0, 0, 0]);
  }

  lemma ForegroundJoined()
    ensures "38" + ";" + "2;0;0;0" == "38;2;0;0;0" && [38] + [2, 0, 0, 0] == [38, 2, 0, 0, 0]
  {
  }

  lemma ReadsFour()
    ensures Reads("2;0;0;0", [2, 0, 0, 0])
  {
    OneDigit("2");
    hide *;
    ThreeZeros();
    ReadsMore("2", "0;0;0", [0, 0, 0]);
    assert "2" + ";" + "0;0;0" == "2;0;0;0";
    assert [2] + [0, 0, 0] == [2, 0, 0, 0];
  }

  lemma ThreeZeros()
    ensures Reads("0;0;0", [0, 0, 0])
  {
    OneDigit("0");
    hide *;
    ReadsOne("0");
    ReadsMore("0", "0", [0]);
    assert "0" + ";" + "0" == "0;0" && [0] + [0] == [0, 0];
    ReadsMore("0", "0;0", [0, 0]);
    assert "0" + ";" + "0;0" == "0;0;0" && [0] + [0, 0] == [0, 0, 0];
  }

  // ---------------------------------------------------------------- rows

  const MAX_LINES: nat := 5000

  /** The characters that \S does not match. */
  predicate Whitespace(c: char) {
    || '\t' <= c <= '\r' || '\U{1C}' <= c <= ' ' || c == '\U{85}' || c == '\U{A0}' || c == '\U{1680}'
    || '\U{2000}' <= c <= '\U{200A}' || c == '\U{2028}' || c == '\U{2029}' || c == '\U{202F}'
    || c == '\U{205F}' || c == '\U{3000}'
  }

  /** YYYY-MM-DDTHH:MM:SS.mmm */
  predicate IsMoment(s: string) {
    && |s| == 23
    && s[4] == '-' && s[7] == '-' && s[10] == 'T' && s[13] == ':' && s[16] == ':' && s[19] == '.'
    && forall i :: 0 <= i < 23 && i !in {4, 7, 10, 13, 16, 19} ==> Digit(s[i])
  }

  function WordEnd(s: string, p: nat): (q: nat)
    requires p <= |s|
    ensures p <= q <= |s| && (forall i :: p <= i < q ==> !Whitespace(s[i])) && (q < |s| ==> Whitespace(s[q]))
    decreases |s| - p
  {
    if p < |s| && !Whitespace(s[p]) then WordEnd(s, p + 1) else p
  }

  /** The time of day and the text of a logged line; a line without a stamp is all text. */
  function SplitLine(line: string): (string, string) {
    if |line| >= 23 && IsMoment(line[..23]) then
      var q := WordEnd(line, 23);
      if q < |line| && line[q] == ' ' then
        var rest := line[q + 1..];
        var text := if rest != "" && rest[|rest| - 1] == '\n' then rest[..|rest| - 1] else rest;
        if '\n' !in text then (line[11..23], text) else ("", line)
      else ("", line)
    else ("", line)
  }

  /** What the log wrapper writes is taken apart again. */
  lemma SplitLineReadsStamp(stamp: string, text: string)
    requires |stamp| >= 23 && IsMoment(stamp[..23]) && '\n' !in text
    requires forall i :: 23 <= i < |stamp| ==> !Whitespace(stamp[i])
    ensures SplitLine(stamp + " " + text) == (stamp[11..23], text)
  {
    var line := stamp + " " + text;
    assert line[..23] == stamp[..23] && line[11..23] == stamp[11..23];
    assert line[|stamp|] == ' ' && line[|stamp| + 1..] == text;
    assert WordEnd(line, 23) == |stamp|;
  }

  datatype Severity = Error | Warning | Info

  const ERROR_HINTS: seq<string> := ["[ERROR]", "[FATAL]", "Traceback", "Error:", "error:", "FAILED", "failed with"]
  const WARNING_HINTS: seq<string> := ["[WARN]", "WARNING", "Warning:"]

  predicate Contains(text: string, hint: string) {
    exists i :: 0 <= i <= |text| && hint <= text[i..]
  }

  function SeverityOf(text: string): Severity {
    if exists h :: h in ERROR_HINTS && Contains(text, h) then Error
    else if exists h :: h in WARNING_HINTS && Contains(text, h) then Warning
    else Info
  }

  datatype Row = Row(time: string, styled: string, severity: Severity)

  /** The row of a line. */
  function RowOf(line: string): Row {
    var parts := SplitLine(line);
    Row(parts.0, Styled(LastRedraw(parts.1), 0, PLAIN), SeverityOf(StripAnsi(parts.1)))
  }

  function RowsOf(lines: seq<string>): (r: seq<Row>)
    ensures |r| == |lines|
  {
    seq(|lines|, i requires 0 <= i < |lines| => RowOf(lines[i]))
  }

  lemma RowsOfSnoc(lines: seq<string>, i: nat)
    requires i < |lines|
    ensures var parts := SplitLine(lines[i]);
      RowsOf(lines)[..i + 1] == RowsOf(lines)[..i] +
        [Row(parts.0, Styled(LastRedraw(parts.1), 0, PLAIN), SeverityOf(StripAnsi(parts.1)))]
  {
    hide SplitLine, Styled, SeverityOf, StripAnsi, LastRedraw;
    assert RowsOf(lines)[i] == RowOf(lines[i]);
  }

  /** The scrollback drops its oldest rows, whether they come in one call or in many. */
  lemma LastConcat<T>(a: seq<T>, b: seq<T>, n: nat)
    ensures Last(a + b, n) == Last(Last(a, n) + b, n)
  {
    if |a| > n {
      var head, kept := a[..|a| - n], a[|a| - n..];
      assert Last(a, n) == kept && |kept| == n;
      hide Last;
      assert a + b == head + (kept + b);
      LastOfSuffix(head, kept + b, n);
    } else {
      assert Last(a, n) == a;
    }
  }

  /** The rows left when the oldest make room for the added ones, which may themselves be too many. */
  lemma LastTogether<T>(a: seq<T>, b: seq<T>, n: nat, drop: nat)
    requires |a| + |b| > n && drop == if |a| + |b| - n < |a| then |a| + |b| - n else |a|
    ensures Last(a + b, n) == a[drop..] + Last(b, n)
    ensures |Last(b, n)| == if |b| > n then n else |b|
  {
    if |b| >= n {
      LastOfSuffix(a, b, n);
      assert a[drop..] == [];
    } else {
      assert a + b == a[..drop] + (a[drop..] + b);
      LastOfSuffix(a[..drop], a[drop..] + b, n);
    }
  }

  /** The rows that a view is told are removed or inserted, both ends included. */
  datatype Span = Span(first: int, last: int)

  class TerminalModel {
    var rows: seq<Row>

    ghost predicate Valid()
      reads this
    {
      |rows| <= MAX_LINES
    }

    constructor ()
      ensures Valid() && rows == []
    {
      rows := [];
    }

    method RowsFor(lines: seq<string>) returns (r: seq<Row>)
      ensures r == RowsOf(lines)
    {
      r := [];
      for i := 0 to |lines|
        invariant r == RowsOf(lines)[..i]
      {
        hide *;
        var parts := SplitLine(lines[i]);
        var styled := AnsiToStyled(parts.1);
        r := r + [Row(parts.0, styled, SeverityOf(StripAnsi(parts.1)))];
        RowsOfSnoc(lines, i);
      }
    }

    /**
      Appends lines and keeps the last 5000 rows.  The spans that the view is told add up to the
      change; a span is empty, with its last row before its first, when no row changes.
     */
    method AppendLines(lines: seq<string>) returns (removed: Option<Span>, inserted: Span)
      requires Valid()
      modifies this
      ensures Valid() && rows == Last(old(rows) + RowsOf(lines), MAX_LINES)
      ensures removed.Some? <==> |old(rows)| + |lines| > MAX_LINES
      ensures var drop := if removed.Some? then removed.value.last + 1 else 0;
        && (removed.Some? ==> removed.value.first == 0)
        && 0 <= drop <= |old(rows)| && inserted.first == |old(rows)| - drop
        && inserted.last + 1 == |rows|
        && old(rows)[drop..] + rows[inserted.first..] == rows
      ensures inserted.first <= inserted.last <==> lines != []
      ensures removed.Some? ==> (removed.value.first <= removed.value.last <==> old(rows) != [])
    {
      var added := RowsFor(lines);
      hide RowsOf;
      removed := None;
      var overflow := |rows| + |added| - MAX_LINES;
      if overflow > 0 {
        hide Last;
        var drop := if overflow < |rows| then overflow else |rows|;
        LastTogether(rows, added, MAX_LINES, drop);
        removed := Some(Span(0, drop - 1));
        rows := rows[drop..];
        added := Last(added, MAX_LINES);
      }
      inserted := Span(|rows|, |rows| + |added| - 1);
      rows := rows + added;
    }

    method Clear()
      modifies this
      ensures Valid() && rows == []
    {
      rows := [];
    }
  }
}
