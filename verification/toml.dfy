/** The part of TOML v1.0.0 that policy snapshots use: comments, pairs, one table, basic strings, integers, floats, arrays. */
module Toml {
  import opened Wrappers

  // ---------------------------------------------------------------- strings

  const BACKSPACE := '\U{0008}'
  const FORM_FEED := '\U{000C}'

  function Replace(s: string, c: char, into: string): string {
    if s == "" then "" else (if s[0] == c then into else [s[0]]) + Replace(s[1..], c, into)
  }

  /** The seven replacements of the original, backslash first. */
  function EscapedInOrder(s: string): string {
    Replace(Replace(Replace(Replace(Replace(Replace(Replace(s,
      '\\', "\\\\"), '"', "\\\""), BACKSPACE, "\\b"), '\t', "\\t"), '\n', "\\n"), FORM_FEED, "\\f"), '\r', "\\r")
  }

  function EscapedChar(c: char): string {
    if c == '\\' then "\\\\" else if c == '"' then "\\\"" else if c == BACKSPACE then "\\b" else if c == '\t' then "\\t"
    else if c == '\n' then "\\n" else if c == FORM_FEED then "\\f" else if c == '\r' then "\\r" else [c]
  }

  /** The same in one pass. */
  function Escaped(s: string): string {
    if s == "" then "" else EscapedChar(s[0]) + Escaped(s[1..])
  }

  predicate Control(c: char) { c < ' ' || c == '\U{007F}' }

  predicate Writable(s: string) {
    forall c <- s :: !Control(c) || c in {BACKSPACE, '\t', '\n', FORM_FEED, '\r'}
  }

  function ShowText(s: string): Result<string, string> {
    var escaped := EscapedInOrder(s);
    if exists c <- escaped :: Control(c) then Err("strategy strings cannot contain control characters")
    else Ok("\"" + escaped + "\"")
  }

  lemma {:induction false} ReplaceConcat(a: string, b: string, c: char, into: string)
    ensures Replace(a + b, c, into) == Replace(a, c, into) + Replace(b, c, into)
  {
    if a == "" {
      assert a + b == b;
    } else {
      assert (a + b)[1..] == a[1..] + b;
      ReplaceConcat(a[1..], b, c, into);
    }
  }

  lemma ReplaceOne(a: char, c: char, into: string)
    ensures Replace([a], c, into) == if a == c then into else [a]
  {
    assert [a][1..] == "";
  }

  lemma ReplaceTwo(a: char, b: char, c: char, into: string)
    requires a != c && b != c
    ensures Replace([a, b], c, into) == [a, b]
  {
    assert [a, b] == [a] + [b];
    ReplaceConcat([a], [b], c, into);
    ReplaceOne(a, c, into);
    ReplaceOne(b, c, into);
  }

  lemma InOrderConcat(a: string, b: string)
    ensures EscapedInOrder(a + b) == EscapedInOrder(a) + EscapedInOrder(b)
  {
    hide Replace;
    ReplaceConcat(a, b, '\\', "\\\\");
    var a1, b1 := Replace(a, '\\', "\\\\"), Replace(b, '\\', "\\\\");
    ReplaceConcat(a1, b1, '"', "\\\"");
    var a2, b2 := Replace(a1, '"', "\\\""), Replace(b1, '"', "\\\"");
    ReplaceConcat(a2, b2, BACKSPACE, "\\b");
    var a3, b3 := Replace(a2, BACKSPACE, "\\b"), Replace(b2, BACKSPACE, "\\b");
    ReplaceConcat(a3, b3, '\t', "\\t");
    var a4, b4 := Replace(a3, '\t', "\\t"), Replace(b3, '\t', "\\t");
    ReplaceConcat(a4, b4, '\n', "\\n");
    var a5, b5 := Replace(a4, '\n', "\\n"), Replace(b4, '\n', "\\n");
    ReplaceConcat(a5, b5, FORM_FEED, "\\f");
    var a6, b6 := Replace(a5, FORM_FEED, "\\f"), Replace(b5, FORM_FEED, "\\f");
    ReplaceConcat(a6, b6, '\r', "\\r");
  }

  lemma OneInOrder(c: char)
    ensures EscapedInOrder([c]) == EscapedChar(c)
  {
    hide Replace;
    ReplaceOne(c, '\\', "\\\\");
    ReplaceOne(c, '"', "\\\"");
    ReplaceOne(c, BACKSPACE, "\\b");
    ReplaceOne(c, '\t', "\\t");
    ReplaceOne(c, '\n', "\\n");
    ReplaceOne(c, FORM_FEED, "\\f");
    ReplaceOne(c, '\r', "\\r");
    if c == '\\' {
      PairInOrder('\\');
      ReplaceTwo('\\', '\\', '"', "\\\"");
    } else if c == '"' {
      PairInOrder('"');
    } else if c == BACKSPACE {
      PairInOrder('b');
    } else if c == '\t' {
      PairInOrder('t');
    } else if c == '\n' {
      PairInOrder('n');
    } else if c == FORM_FEED {
      PairInOrder('f');
    } else if c == '\r' {
      PairInOrder('r');
    }
  }

  /** No later replacement touches a backslash or what follows it. */
  lemma PairInOrder(y: char)
    requires y in {'\\', '"', 'b', 't', 'n', 'f', 'r'}
    ensures Replace(['\\', y], BACKSPACE, "\\b") == ['\\', y]
    ensures Replace(['\\', y], '\t', "\\t") == ['\\', y]
    ensures Replace(['\\', y], '\n', "\\n") == ['\\', y]
    ensures Replace(['\\', y], FORM_FEED, "\\f") == ['\\', y]
    ensures Replace(['\\', y], '\r', "\\r") == ['\\', y]
  {
    hide Replace;
    ReplaceTwo('\\', y, BACKSPACE, "\\b");
    ReplaceTwo('\\', y, '\t', "\\t");
    ReplaceTwo('\\', y, '\n', "\\n");
    ReplaceTwo('\\', y, FORM_FEED, "\\f");
    ReplaceTwo('\\', y, '\r', "\\r");
  }

  /** The chain of replacements is the one-pass escape: no replacement touches what an earlier one wrote. */
  lemma {:induction false} ChainIsOnePass(s: string)
    ensures EscapedInOrder(s) == Escaped(s)
    decreases |s|
  {
    if s != "" {
      assert s == [s[0]] + s[1..];
      InOrderConcat([s[0]], s[1..]);
      OneInOrder(s[0]);
      ChainIsOnePass(s[1..]);
      hide EscapedInOrder;
    }
  }

  // ---------------------------------------------------------------- reading a string

  /** The character an escape sequence stands for; the long forms with code points are not part of this model. */
  function Unescaped(c: char): Option<char> {
    match c
    case '\\' => Some('\\')
    case '"' => Some('"')
    case 'b' => Some(BACKSPACE)
    case 't' => Some('\t')
    case 'n' => Some('\n')
    case 'f' => Some(FORM_FEED)
    case 'r' => Some('\r')
    case _ => None
  }

  /** The text of a basic string after its opening quote, and what follows the closing one. */
  function ReadText(s: string): Result<(string, string), string>
    decreases |s|
  {
    if s == "" then Err("unterminated string")
    else if s[0] == '"' then Ok(("", s[1..]))
    else if s[0] == '\\' then
      if |s| == 1 || Unescaped(s[1]).None? then Err("unknown escape")
      else Prepended(Unescaped(s[1]).value, ReadText(s[2..]))
    else if Control(s[0]) && s[0] != '\t' then Err("illegal character")
    else Prepended(s[0], ReadText(s[1..]))
  }

  function Prepended(c: char, r: Result<(string, string), string>): Result<(string, string), string> {
    match r case Err(e) => Err(e) case Ok((text, rest)) => Ok(([c] + text, rest))
  }

  lemma ReadOneChar(c: char, tail: string)
    requires Writable([c])
    ensures ReadText(EscapedChar(c) + tail) == Prepended(c, ReadText(tail))
  {
    var whole := EscapedChar(c) + tail;
    assert c in [c];
    if |EscapedChar(c)| == 2 {
      assert whole[2..] == tail && Unescaped(whole[1]) == Some(c);
    } else {
      assert whole[1..] == tail && whole[0] == c;
    }
  }

  lemma {:induction false} ReadTextUndoesEscape(s: string, rest: string)
    requires Writable(s)
    ensures ReadText(Escaped(s) + "\"" + rest) == Ok((s, rest))
    decreases |s|
  {
    if s == "" {
      assert ("\"" + rest)[1..] == rest;
      assert Escaped(s) + "\"" + rest == "\"" + rest;
    } else {
      assert s[0] in s && forall c <- s[1..] :: c in s;
      ReadTextUndoesEscape(s[1..], rest);
      ReadOneChar(s[0], Escaped(s[1..]) + "\"" + rest);
      hide ReadText, EscapedChar;
      assert Escaped(s) + "\"" + rest == EscapedChar(s[0]) + (Escaped(s[1..]) + "\"" + rest);
      assert s == [s[0]] + s[1..];
    }
  }

  lemma {:induction false} EscapedHasNoControls(s: string)
    ensures (exists c <- Escaped(s) :: Control(c)) <==> !Writable(s)
    decreases |s|
  {
    if s != "" {
      EscapedHasNoControls(s[1..]);
      assert s == [s[0]] + s[1..];
      assert forall c :: c in Escaped(s) <==> c in EscapedChar(s[0]) || c in Escaped(s[1..]);
    }
  }

  /** A string can be written exactly when its control characters have a short escape, and is then read back. */
  lemma TextRoundTrip(s: string, rest: string)
    ensures ShowText(s).Ok? <==> Writable(s)
    ensures ShowText(s).Ok? ==>
      && ShowText(s).value == "\"" + Escaped(s) + "\""
      && ReadText(Escaped(s) + "\"" + rest) == Ok((s, rest))
      && forall c <- ShowText(s).value :: c != '\n'
  {
    ChainIsOnePass(s);
    EscapedHasNoControls(s);
    if Writable(s) {
      ReadTextUndoesEscape(s, rest);
    }
  }

  // ---------------------------------------------------------------- numbers

  predicate Digit(c: char) { '0' <= c <= '9' }

  function DigitOf(n: nat): char
    requires n < 10
  {
    '0' + n as char
  }

  function ValueOf(c: char): nat
    requires Digit(c)
  {
    (c - '0') as nat
  }

  function ShowNat(n: nat): (r: string)
    ensures r != "" && forall c <- r :: Digit(c)
    ensures r[0] == '0' ==> n == 0 && |r| == 1
  {
    if n < 10 then [DigitOf(n)] else ShowNat(n / 10) + [DigitOf(n % 10)]
  }

  function ShowInt(n: int): string {
    if n < 0 then "-" + ShowNat(-n) else ShowNat(n)
  }

  function NatOf(s: string): nat
    requires forall c <- s :: Digit(c)
  {
    if s == "" then 0 else NatOf(s[..|s| - 1]) * 10 + ValueOf(s[|s| - 1])
  }

  predicate IsNat(s: string) {
    s != "" && (forall c <- s :: Digit(c)) && (s[0] == '0' ==> |s| == 1)
  }

  /** Underscores, other bases and a leading plus are not part of this model. */
  function ReadInt(s: string): Option<int> {
    if IsNat(s) then Some(NatOf(s))
    else if s != "" && s[0] == '-' && IsNat(s[1..]) then Some(0 - NatOf(s[1..]))
    else None
  }

  lemma {:induction false} NatRoundTrip(n: nat)
    ensures NatOf(ShowNat(n)) == n
  {
    if n >= 10 {
      var r := ShowNat(n);
      assert r[..|r| - 1] == ShowNat(n / 10);
      NatRoundTrip(n / 10);
    } else {
      var r := ShowNat(n);
      assert r[..|r| - 1] == "";
    }
  }

  lemma NegativeText(t: string)
    requires IsNat(t)
    ensures ReadInt("-" + t) == Some(0 - NatOf(t))
  {
    var s := "-" + t;
    assert s[0] == '-' && s[0] in s && !Digit('-');
    assert s[1..] == t;
    hide NatOf;
  }

  lemma IntRoundTrip(n: int)
    ensures ReadInt(ShowInt(n)) == Some(n)
  {
    hide NatOf, ShowNat;
    if n < 0 {
      NatRoundTrip(-n);
      NegativeText(ShowNat(-n));
    } else {
      NatRoundTrip(n);
    }
  }

  /** The text of a float: it has a point or an exponent and nothing but digits and signs besides. */
  predicate IsFloat(s: string) {
    && s != "" && (Digit(s[0]) || s[0] == '-') && ('.' in s || 'e' in s)
    && forall c <- s :: Digit(c) || c in {'.', 'e', '+', '-'}
  }

  // ---------------------------------------------------------------- values

  datatype Raw = RInt(number: int) | RFloat(text: string) | RText(content: string) | RTexts(items: seq<string>)

  function SkipSpaces(s: string): (r: string)
    ensures |r| <= |s|
    decreases |s|
  {
    if s != "" && s[0] in {' ', '\t'} then SkipSpaces(s[1..]) else s
  }

  function Join(parts: seq<string>): string
    requires parts != []
    decreases |parts|
  {
    if |parts| == 1 then parts[0] else parts[0] + ", " + Join(parts[1..])
  }

  function ShowAll(texts: seq<string>): Result<seq<string>, string>
    decreases |texts|
  {
    if texts == [] then Ok([])
    else match ShowText(texts[0])
      case Err(e) => Err(e)
      case Ok(first) =>
        match ShowAll(texts[1..])
        case Err(e) => Err(e)
        case Ok(others) => Ok([first] + others)
  }

  function ShowTexts(texts: seq<string>): Result<string, string> {
    match ShowAll(texts)
    case Err(e) => Err(e)
    case Ok(parts) => Ok("[" + (if parts == [] then "" else Join(parts)) + "]")
  }

  function Show(raw: Raw): Result<string, string> {
    match raw
    case RInt(n) => Ok(ShowInt(n))
    case RFloat(t) => Ok(t)
    case RText(t) => ShowText(t)
    case RTexts(ts) => ShowTexts(ts)
  }

  lemma ReadTextShortens(s: string)
    ensures ReadText(s).Ok? ==> |ReadText(s).value.1| < |s|
    decreases |s|
  {
    if s != "" && s[0] != '"' {
      if s[0] == '\\' {
        if |s| > 1 { ReadTextShortens(s[2..]); }
      } else {
        ReadTextShortens(s[1..]);
      }
    }
  }

  /** The elements of an array after its opening bracket or a comma. */
  function ReadElements(s: string): Result<(seq<string>, string), string>
    decreases |s|
  {
    var t := SkipSpaces(s);
    if t == "" then Err("unterminated array")
    else if t[0] == ']' then Ok(([], t[1..]))
    else if t[0] != '"' then Err("only strings")
    else match ReadText(t[1..])
      case Err(e) => Err(e)
      case Ok((text, after)) =>
        ReadTextShortens(t[1..]);
        var rest := SkipSpaces(after);
        if rest == "" then Err("unterminated array")
        else if rest[0] == ']' then Ok(([text], rest[1..]))
        else if rest[0] != ',' then Err("missing comma")
        else match ReadElements(rest[1..])
          case Err(e) => Err(e)
          case Ok((texts, end)) => Ok(([text] + texts, end))
  }

  /** The characters up to the next space, and the rest. */
  function Token(s: string): (string, string)
    decreases |s|
  {
    if s == "" || s[0] in {' ', '\t'} then ("", s)
    else var (token, rest) := Token(s[1..]); ([s[0]] + token, rest)
  }

  function ReadValue(s: string): Result<(Raw, string), string> {
    if s == "" then Err("missing value")
    else if s[0] == '"' then
      match ReadText(s[1..]) case Err(e) => Err(e) case Ok((text, rest)) => Ok((RText(text), rest))
    else if s[0] == '[' then
      match ReadElements(s[1..]) case Err(e) => Err(e) case Ok((texts, rest)) => Ok((RTexts(texts), rest))
    else
      var (token, rest) := Token(s);
      if ReadInt(token).Some? then Ok((RInt(ReadInt(token).value), rest))
      else if IsFloat(token) then Ok((RFloat(token), rest))
      else Err("unknown value")
  }

  predicate Showable(raw: Raw) {
    Show(raw).Ok? && (raw.RFloat? ==> IsFloat(raw.text))
  }

  lemma {:induction false} TokenOfPlain(s: string)
    requires forall c <- s :: c !in {' ', '\t'}
    ensures Token(s) == (s, "")
    decreases |s|
  {
    if s != "" {
      assert s == [s[0]] + s[1..];
      assert forall c <- s[1..] :: c in s;
      assert s[0] in s;
      TokenOfPlain(s[1..]);
    }
  }

  lemma LeadingSpace(s: string)
    requires s != "" && s[0] == '"'
    ensures ReadElements(" " + s) == ReadElements(s)
  {
    assert (" " + s)[1..] == s;
    assert SkipSpaces(" " + s) == SkipSpaces(s) == s;
  }

  lemma LastElement(first: string)
    requires Writable(first)
    ensures ReadElements("\"" + Escaped(first) + "\"" + "]") == Ok(([first], ""))
  {
    hide ReadText, Escaped, Writable;
    var whole := "\"" + Escaped(first) + "\"" + "]";
    TextRoundTrip(first, "]");
    assert SkipSpaces(whole) == whole && whole[1..] == Escaped(first) + "\"" + "]";
    assert SkipSpaces("]") == "]" && "]"[1..] == "";
    hide SkipSpaces;
  }

  lemma OneMoreElement(first: string, tail: string, texts: seq<string>)
    requires Writable(first) && ReadElements(tail) == Ok((texts, ""))
    ensures ReadElements("\"" + Escaped(first) + "\"" + ("," + tail)) == Ok(([first] + texts, ""))
  {
    hide ReadText, Escaped, Writable;
    var rest := "," + tail;
    var whole := "\"" + Escaped(first) + "\"" + rest;
    TextRoundTrip(first, rest);
    assert SkipSpaces(whole) == whole && whole[1..] == Escaped(first) + "\"" + rest;
    assert SkipSpaces(rest) == rest && rest[1..] == tail;
    hide SkipSpaces;
  }

  lemma {:induction false} ElementsRoundTrip(texts: seq<string>)
    requires texts != [] && ShowAll(texts).Ok?
    ensures var parts := ShowAll(texts).value;
      && parts != [] && Join(parts) != "" && Join(parts)[0] == '"'
      && ReadElements(Join(parts) + "]") == Ok((texts, ""))
    decreases |texts|
  {
    hide ReadElements, ShowText, Escaped;
    var parts := ShowAll(texts).value;
    var first := texts[0];
    TextRoundTrip(first, "");
    if |texts| == 1 {
      assert ShowAll(texts[1..]) == Ok([]) && parts == [ShowText(first).value];
      LastElement(first);
      assert texts == [first];
    } else {
      ElementsRoundTrip(texts[1..]);
      var others := ShowAll(texts[1..]).value;
      assert parts == [ShowText(first).value] + others && parts[1..] == others;
      LeadingSpace(Join(others) + "]");
      OneMoreElement(first, " " + (Join(others) + "]"), texts[1..]);
      assert Join(parts) + "]" == "\"" + Escaped(first) + "\"" + ("," + (" " + (Join(others) + "]")));
      assert texts == [first] + texts[1..];
    }
  }

  lemma NumberRoundTrip(t: string, raw: Raw)
    requires t != "" && (Digit(t[0]) || t[0] == '-') && forall c <- t :: c !in {' ', '\t'}
    requires (raw.RInt? && ReadInt(t) == Some(raw.number)) || (raw == RFloat(t) && ReadInt(t).None? && IsFloat(t))
    ensures ReadValue(t) == Ok((raw, ""))
  {
    TokenOfPlain(t);
    hide Token, ReadInt, IsFloat;
  }

  lemma QuotedRoundTrip(t: string)
    requires Writable(t)
    ensures ReadValue("\"" + Escaped(t) + "\"") == Ok((RText(t), ""))
  {
    TextRoundTrip(t, "");
    var s := "\"" + Escaped(t) + "\"";
    assert s[1..] == Escaped(t) + "\"" + "";
    hide ReadText, ReadElements, Token;
  }

  lemma ArrayRoundTrip(ts: seq<string>)
    requires ShowAll(ts).Ok?
    ensures ReadValue(ShowTexts(ts).value) == Ok((RTexts(ts), ""))
  {
    var s := ShowTexts(ts).value;
    if ts == [] {
      assert s[1..] == "]" && "]"[1..] == "";
    } else {
      ElementsRoundTrip(ts);
      hide ReadElements, ReadText, Token;
      assert s[1..] == Join(ShowAll(ts).value) + "]";
    }
  }

  /** Every written value is read back, to its end. */
  lemma ValueRoundTrip(raw: Raw)
    requires Showable(raw)
    ensures ReadValue(Show(raw).value) == Ok((raw, ""))
  {
    hide ReadValue, ReadInt, ShowText, Token;
    match raw {
      case RInt(n) =>
        IntRoundTrip(n);
        NumberRoundTrip(ShowInt(n), raw);
      case RFloat(t) =>
        FloatIsNoInt(t);
        NumberRoundTrip(t, raw);
      case RText(t) =>
        TextRoundTrip(t, "");
        QuotedRoundTrip(t);
      case RTexts(ts) =>
        ArrayRoundTrip(ts);
    }
  }

  lemma FloatIsNoInt(t: string)
    requires IsFloat(t)
    ensures ReadInt(t) == None
  {
    assert !Digit('.') && !Digit('e');
    if t[0] == '-' {
      assert t == "-" + t[1..];
      assert '.' in t[1..] || 'e' in t[1..];
    }
  }

  // ---------------------------------------------------------------- lines

  function Unlines(lines: seq<string>): string
    decreases |lines|
  {
    if lines == [] then "" else lines[0] + "\n" + Unlines(lines[1..])
  }

  /** The characters up to the next line break, and what follows it. */
  function FirstLine(s: string): (r: (string, string))
    ensures |r.1| <= |s| && (s != "" ==> |r.1| < |s|)
    decreases |s|
  {
    if s == "" then ("", "")
    else if s[0] == '\n' then ("", s[1..])
    else var (line, rest) := FirstLine(s[1..]); ([s[0]] + line, rest)
  }

  function Lines(s: string): seq<string>
    decreases |s|
  {
    if s == "" then [] else var (line, rest) := FirstLine(s); [line] + Lines(rest)
  }

  lemma {:induction false} FirstLineOf(line: string, rest: string)
    requires '\n' !in line
    ensures FirstLine(line + "\n" + rest) == (line, rest)
    decreases |line|
  {
    var s := line + "\n" + rest;
    if line == "" {
      assert s[1..] == rest;
    } else {
      assert s[1..] == line[1..] + "\n" + rest;
      assert line[0] in line && forall c <- line[1..] :: c in line;
      FirstLineOf(line[1..], rest);
      assert line == [line[0]] + line[1..];
    }
  }

  lemma {:induction false} LinesRoundTrip(lines: seq<string>)
    requires forall l <- lines :: '\n' !in l
    ensures Lines(Unlines(lines)) == lines
    decreases |lines|
  {
    if lines != [] {
      FirstLineOf(lines[0], Unlines(lines[1..]));
      LinesRoundTrip(lines[1..]);
      hide FirstLine;
      assert lines == [lines[0]] + lines[1..];
    }
  }

  datatype Line = Nothing | Header(name: string) | Pair(key: string, value: Raw)

  predicate KeyChar(c: char) {
    'a' <= c <= 'z' || 'A' <= c <= 'Z' || Digit(c) || c in {'_', '-'}
  }

  predicate BareKey(s: string) {
    s != "" && forall c <- s :: KeyChar(c)
  }

  /** The longest bare key in front, and the rest. */
  function ReadKey(s: string): (string, string)
    decreases |s|
  {
    if s == "" || !KeyChar(s[0]) then ("", s)
    else var (key, rest) := ReadKey(s[1..]); ([s[0]] + key, rest)
  }

  /** One line: blank, comment, table header, or `key = value` with nothing after the value. */
  function ReadLine(line: string): Result<Line, string> {
    var s := SkipSpaces(line);
    if s == "" || s[0] == '#' then Ok(Nothing)
    else if s[0] == '[' then
      var (name, rest) := ReadKey(s[1..]);
      if name != "" && rest == "]" then Ok(Header(name)) else Err("unsupported header")
    else
      var (key, afterKey) := ReadKey(s);
      var equals := SkipSpaces(afterKey);
      if key == "" || equals == "" || equals[0] != '=' then Err("missing key or equals sign")
      else match ReadValue(SkipSpaces(equals[1..]))
        case Err(e) => Err(e)
        case Ok((value, rest)) => if SkipSpaces(rest) == "" then Ok(Pair(key, value)) else Err("text after the value")
  }

  function ShowPair(key: string, shown: string): string {
    key + " = " + shown
  }

  lemma {:induction false} ReadKeyOf(key: string, rest: string)
    requires forall c <- key :: KeyChar(c)
    requires rest == "" || !KeyChar(rest[0])
    ensures ReadKey(key + rest) == (key, rest)
    decreases |key|
  {
    if key == "" {
      assert key + rest == rest;
    } else {
      assert (key + rest)[1..] == key[1..] + rest;
      assert key[0] in key && forall c <- key[1..] :: c in key;
      ReadKeyOf(key[1..], rest);
      assert key == [key[0]] + key[1..];
    }
  }

  /** What a shown value starts with, and that it stays on its line. */
  lemma ShownStart(raw: Raw)
    requires Showable(raw)
    ensures Show(raw).value != "" && Show(raw).value[0] !in {' ', '\t'} && '\n' !in Show(raw).value
  {
    match raw {
      case RInt(n) => assert !Digit('\n') && !Digit(' ') && !Digit('\t');
      case RFloat(t) => assert !Digit('\n');
      case RText(t) => TextRoundTrip(t, "");
      case RTexts(ts) => ShownTextsHaveNoBreak(ts);
    }
  }

  lemma {:induction false} ShownTextsHaveNoBreak(ts: seq<string>)
    requires ShowAll(ts).Ok?
    ensures ShowAll(ts).value != [] ==> '\n' !in Join(ShowAll(ts).value)
    ensures |ShowAll(ts).value| == |ts|
    decreases |ts|
  {
    if ts != [] {
      TextRoundTrip(ts[0], "");
      ShownTextsHaveNoBreak(ts[1..]);
      hide ShowText;
      assert ShowAll(ts).value == [ShowText(ts[0]).value] + ShowAll(ts[1..]).value;
    }
  }

  lemma ReadLineOfPair(key: string, shown: string, raw: Raw)
    requires BareKey(key) && shown != "" && shown[0] !in {' ', '\t'} && ReadValue(shown) == Ok((raw, ""))
    ensures ReadLine(ShowPair(key, shown)) == Ok(Pair(key, raw))
  {
    var s := ShowPair(key, shown);
    var rest := " = " + shown;
    assert s == key + rest && key[0] in key;
    KeyStartsLine(s);
    ReadKeyOf(key, rest);
    EqualsSign(shown);
    hide ReadValue, ReadKey, KeyChar, SkipSpaces;
    assert SkipSpaces("") == "" by { NoSpaces(); }
  }

  lemma NoSpaces()
    ensures SkipSpaces("") == ""
  {
  }

  lemma EqualsSign(shown: string)
    requires shown != "" && shown[0] !in {' ', '\t'}
    ensures SkipSpaces(" = " + shown) == "= " + shown && SkipSpaces(("= " + shown)[1..]) == shown
  {
    assert (" = " + shown)[1..] == "= " + shown;
    assert ("= " + shown)[1..] == " " + shown && (" " + shown)[1..] == shown;
    assert SkipSpaces("= " + shown) == "= " + shown && SkipSpaces(shown) == shown;
  }

  lemma PairRoundTrip(key: string, raw: Raw)
    requires BareKey(key) && Showable(raw)
    ensures ReadLine(ShowPair(key, Show(raw).value)) == Ok(Pair(key, raw))
    ensures '\n' !in ShowPair(key, Show(raw).value)
  {
    hide ReadValue, Show, ReadLine;
    ShownStart(raw);
    ValueRoundTrip(raw);
    ReadLineOfPair(key, Show(raw).value, raw);
    assert !KeyChar('\n') && '\n' !in " = ";
  }

  lemma KeyStartsLine(s: string)
    requires s != "" && KeyChar(s[0])
    ensures SkipSpaces(s) == s && s[0] !in {'#', '['} && !KeyChar(' ')
  {
  }
}
