/**
  JSON texts (RFC 8259), as CPython's `json.loads` reads them: a value with
  optional whitespace around it (section 2), arrays (section 5), objects
  (section 4), numbers (section 6), strings with their escapes (section 7)
  and the literals, plus the `NaN`, `Infinity` and `-Infinity` extensions that
  `json.loads` accepts by default. Numbers are kept as their lexeme.
 */
module Json {
  import opened Wrappers
  import opened Seqs

  datatype Json =
    | JNull
    | JBool(b: bool)
    | JNum(lexeme: string)
    | JStr(s: string)
    | JArr(items: seq<Json>)
    | JObj(members: seq<(string, Json)>)

  /** Python truthiness of a decoded value. */
  predicate Truthy(v: Json)
  {
    match v
    case JNull => false
    case JBool(b) => b
    case JNum(lexeme) => !IsZeroLexeme(lexeme)
    case JStr(s) => s != ""
    case JArr(items) => items != []
    case JObj(members) => members != []
  }

  /** A number lexeme whose value is zero: every mantissa digit is `0`. */
  predicate IsZeroLexeme(lexeme: string)
  {
    lexeme != [] && lexeme[0] != 'N' && lexeme[0] != 'I' && (|lexeme| < 2 || lexeme[1] != 'I')
    && forall k :: 0 <= k < MantissaEnd(lexeme) ==> lexeme[k] in "-0."
  }

  /** Where the exponent of a number lexeme starts (or its length). */
  function MantissaEnd(lexeme: string): (n: nat)
    ensures n <= |lexeme|
  {
    if lexeme == [] || lexeme[0] == 'e' || lexeme[0] == 'E' then 0 else 1 + MantissaEnd(lexeme[1..])
  }

  // ---------------------------------------------------------------------------
  // Scanning helpers

  /** JSON whitespace (section 2): space, tab, line feed, carriage return. */
  predicate IsWs(c: char)
  {
    c == ' ' || c == '\t' || c == '\n' || c == '\r'
  }

  function SkipWs(s: string, i: nat): (j: nat)
    requires i <= |s|
    ensures i <= j <= |s|
    ensures j < |s| ==> !IsWs(s[j])
    decreases |s| - i
  {
    if i < |s| && IsWs(s[i]) then SkipWs(s, i + 1) else i
  }

  predicate IsDigit(c: char)
  {
    '0' <= c <= '9'
  }

  function SkipDigits(s: string, i: nat): (j: nat)
    requires i <= |s|
    ensures i <= j <= |s|
    ensures j < |s| ==> !IsDigit(s[j])
    decreases |s| - i
  {
    if i < |s| && IsDigit(s[i]) then SkipDigits(s, i + 1) else i
  }

  /** `t` stands in `s` at index `i`. */
  predicate IsAt(s: string, i: nat, t: string)
  {
    i + |t| <= |s| && s[i..i + |t|] == t
  }

  /** The value of a hexadecimal digit, either case. */
  function HexValue(c: char): Option<nat>
  {
    if '0' <= c <= '9' then Some(c as int - '0' as int)
    else if 'a' <= c <= 'f' then Some(c as int - 'a' as int + 10)
    else if 'A' <= c <= 'F' then Some(c as int - 'A' as int + 10)
    else None
  }

  /** The four hexadecimal digits at `i`, as a code unit. */
  function Hex4(s: string, i: nat): (r: Option<nat>)
    ensures r.Some? ==> i + 4 <= |s| && r.value < 0x1_0000
  {
    if i + 4 > |s| then None
    else match (HexValue(s[i]), HexValue(s[i + 1]), HexValue(s[i + 2]), HexValue(s[i + 3]))
      case (Some(a), Some(b), Some(c), Some(d)) =>
        if a < 16 && b < 16 && c < 16 && d < 16 then Some(((a * 16 + b) * 16 + c) * 16 + d) else None
      case _ => None
  }

  /** The character a one-letter escape `\e` stands for (section 7). */
  function SimpleEscape(e: char): Option<char>
  {
    match e
    case '"' => Some('"')
    case '\\' => Some('\\')
    case '/' => Some('/')
    case 'b' => Some('\U{8}')
    case 'f' => Some('\U{C}')
    case 'n' => Some('\n')
    case 'r' => Some('\r')
    case 't' => Some('\t')
    case _ => None
  }

  // ---------------------------------------------------------------------------
  // The parser. Each function starts at index `i` of the whole text `s` and
  // returns the value read and the index just after it, or None where
  // `json.loads` raises `JSONDecodeError`.

  /**
    The escape sequence starting with the backslash at `i`: the character it
    stands for and its length. A `\\uXXXX` escape of a high surrogate must be
    followed by one of a low surrogate, and the pair stands for one character.
   */
  function DecodeEscape(s: string, i: nat): (r: Option<(char, nat)>)
    requires i < |s| && s[i] == '\\'
    ensures r.Some? ==> 2 <= r.value.1 && i + r.value.1 <= |s|
  {
    if i + 1 == |s| then None
    else if s[i + 1] == 'u' then
      match Hex4(s, i + 2)
      case None => None
      case Some(cp) =>
        if 0xD800 <= cp < 0xDC00 then
          if IsAt(s, i + 6, "\\u") && Hex4(s, i + 8).Some? && 0xDC00 <= Hex4(s, i + 8).value < 0xE000 then
            var full := 0x1_0000 + (cp - 0xD800) * 0x400 + (Hex4(s, i + 8).value - 0xDC00);
            Some((full as char, 12))
          else None
        else if 0xDC00 <= cp < 0xE000 then None
        else Some((cp as char, 6))
    else
      match SimpleEscape(s[i + 1])
      case None => None
      case Some(c) => Some((c, 2))
  }

  /**
    The characters of a string after its opening quote, up to and including the
    closing quote, appended to `acc`. Control characters must be escaped
    (strict mode).
   */
  function ParseChars(s: string, i: nat, acc: string): (r: Option<(string, nat)>)
    requires i <= |s|
    ensures r.Some? ==> i < r.value.1 <= |s|
    decreases |s| - i
  {
    if i == |s| then None
    else if s[i] == '"' then Some((acc, i + 1))
    else if s[i] == '\\' then
      match DecodeEscape(s, i)
      case None => None
      case Some((c, n)) => ParseChars(s, i + n, acc + [c])
    else if s[i] < ' ' then None
    else ParseChars(s, i + 1, acc + [s[i]])
  }

  /**
    The end of the number at `i`, following the grammar of section 6 as
    `-?(0|[1-9][0-9]*)(\.[0-9]+)?([eE][-+]?[0-9]+)?`, longest match.
   */
  function ScanNumber(s: string, i: nat): (r: Option<nat>)
    requires i <= |s|
    ensures r.Some? ==> i < r.value <= |s|
  {
    var a := if i < |s| && s[i] == '-' then i + 1 else i;
    if a >= |s| || !IsDigit(s[a]) then None
    else
      var b := if s[a] == '0' then a + 1 else SkipDigits(s, a + 1);
      var c := if b + 1 < |s| && s[b] == '.' && IsDigit(s[b + 1]) then SkipDigits(s, b + 2) else b;
      Some(ExponentEnd(s, c))
  }

  function ExponentEnd(s: string, c: nat): (d: nat)
    requires c <= |s|
    ensures c <= d <= |s|
  {
    if c < |s| && (s[c] == 'e' || s[c] == 'E') then
      var e := if c + 1 < |s| && (s[c + 1] == '+' || s[c + 1] == '-') then c + 2 else c + 1;
      if e < |s| && IsDigit(s[e]) then SkipDigits(s, e + 1) else c
    else c
  }

  /**
    One value at `i` (whitespace before it already skipped), tried in the order
    of CPython's scanner. Its first character decides its kind.
   */
  function ParseValue(s: string, i: nat): (r: Option<(Json, nat)>)
    requires i <= |s|
    ensures r.Some? ==> i < r.value.1 <= |s|
    ensures r.Some? ==> (r.value.0.JArr? <==> s[i] == '[')
    ensures r.Some? ==> (r.value.0.JStr? <==> s[i] == '"')
    ensures r.Some? ==> (r.value.0.JObj? <==> s[i] == '{')
    decreases |s| - i, 0
  {
    if i == |s| then None
    else if s[i] == '"' then
      match ParseChars(s, i + 1, "")
      case None => None
      case Some((str, k)) => Some((JStr(str), k))
    else if s[i] == '{' then ParseObject(s, i + 1)
    else if s[i] == '[' then ParseArray(s, i + 1)
    else if IsAt(s, i, "null") then Some((JNull, i + 4))
    else if IsAt(s, i, "true") then Some((JBool(true), i + 4))
    else if IsAt(s, i, "false") then Some((JBool(false), i + 5))
    else if ScanNumber(s, i).Some? then
      var k := ScanNumber(s, i).value;
      Some((JNum(s[i..k]), k))
    else if IsAt(s, i, "NaN") then Some((JNum("NaN"), i + 3))
    else if IsAt(s, i, "Infinity") then Some((JNum("Infinity"), i + 8))
    else if IsAt(s, i, "-Infinity") then Some((JNum("-Infinity"), i + 9))
    else None
  }

  /** An array after its `[`. */
  function ParseArray(s: string, i: nat): (r: Option<(Json, nat)>)
    requires i <= |s|
    ensures r.Some? ==> i < r.value.1 <= |s| && r.value.0.JArr?
    decreases |s| - i, 1
  {
    var j := SkipWs(s, i);
    if j < |s| && s[j] == ']' then Some((JArr([]), j + 1))
    else
      match ParseValue(s, j)
      case None => None
      case Some((v, k)) => ParseArrayTail(s, k, [v])
  }

  /** The rest of an array after its elements `acc`: `]`, or `,` and one more element. */
  function ParseArrayTail(s: string, k: nat, acc: seq<Json>): (r: Option<(Json, nat)>)
    requires k <= |s|
    ensures r.Some? ==> k < r.value.1 <= |s| && r.value.0.JArr?
    decreases |s| - k, 1
  {
    var j := SkipWs(s, k);
    if j == |s| then None
    else if s[j] == ']' then Some((JArr(acc), j + 1))
    else if s[j] == ',' then
      match ParseValue(s, SkipWs(s, j + 1))
      case None => None
      case Some((v, k2)) => ParseArrayTail(s, k2, acc + [v])
    else None
  }

  /** An object after its `{`. */
  function ParseObject(s: string, i: nat): (r: Option<(Json, nat)>)
    requires i <= |s|
    ensures r.Some? ==> i < r.value.1 <= |s| && r.value.0.JObj?
    decreases |s| - i, 2
  {
    var j := SkipWs(s, i);
    if j < |s| && s[j] == '}' then Some((JObj([]), j + 1))
    else ParseMembers(s, j, [])
  }

  /** `"key": value` at `j`, then `}` or `,` and more members. */
  function ParseMembers(s: string, j: nat, acc: seq<(string, Json)>): (r: Option<(Json, nat)>)
    requires j <= |s|
    ensures r.Some? ==> j < r.value.1 <= |s| && r.value.0.JObj?
    decreases |s| - j, 1
  {
    if j < |s| && s[j] == '"' then
      match ParseChars(s, j + 1, "")
      case None => None
      case Some((key, k)) =>
        var c := SkipWs(s, k);
        if c < |s| && s[c] == ':' then
          match ParseValue(s, SkipWs(s, c + 1))
          case None => None
          case Some((v, e)) =>
            var n := SkipWs(s, e);
            if n < |s| && s[n] == '}' then Some((JObj(acc + [(key, v)]), n + 1))
            else if n < |s| && s[n] == ',' then ParseMembers(s, SkipWs(s, n + 1), acc + [(key, v)])
            else None
        else None
    else None
  }

  /**
    `json.loads(s)`: one value with only whitespace around it; a leading byte
    order mark is refused. A text that starts with `[` can only decode to an
    array.
   */
  function Loads(s: string): (r: Option<Json>)
    ensures r.Some? && |s| > 0 && s[0] == '[' ==> r.value.JArr?
  {
    if |s| > 0 && s[0] == '\U{FEFF}' then None
    else
      match ParseValue(s, SkipWs(s, 0))
      case None => None
      case Some((v, k)) => if SkipWs(s, k) == |s| then Some(v) else None
  }

  // ---------------------------------------------------------------------------
  // Serialising an array of strings, in the compact form `["a","b"]`.

  function HexDigit(n: nat): char
    requires n < 16
  {
    if n < 10 then ('0' as int + n) as char else ('a' as int + n - 10) as char
  }

  /** How one character is written inside a JSON string (section 7). */
  function EscapeChar(c: char): string
  {
    if c == '"' then "\\\""
    else if c == '\\' then "\\\\"
    else if c < ' ' then "\\u00" + [HexDigit(c as int / 16), HexDigit(c as int % 16)]
    else [c]
  }

  function Escape(x: string): string
  {
    if x == [] then "" else EscapeChar(x[0]) + Escape(x[1..])
  }

  function Quote(x: string): string
  {
    "\"" + Escape(x) + "\""
  }

  /** The elements after the first one, each after a comma, then the closing `]`. */
  function ArrayTail(a: seq<string>): string
  {
    if a == [] then "]" else "," + Quote(a[0]) + ArrayTail(a[1..])
  }

  /** The JSON text of an array of strings. */
  function Dumps(a: seq<string>): string
  {
    if a == [] then "[]" else "[" + Quote(a[0]) + ArrayTail(a[1..])
  }

  function Strs(a: seq<string>): (r: seq<Json>)
  {
    if a == [] then [] else [JStr(a[0])] + Strs(a[1..])
  }

  // ---------------------------------------------------------------------------
  // Round trip: `Loads(Dumps(a))` gives back the array of strings `a`.

  lemma IsAtFront(t: string, u: string)
    ensures IsAt(t + u, 0, t)
  {
    assert (t + u)[..|t|] == t;
  }

  lemma IsAtSplit(s: string, i: nat, t: string, u: string)
    requires IsAt(s, i, t + u)
    ensures IsAt(s, i, t) && IsAt(s, i + |t|, u)
  {
    assert s[i..i + |t|] == (t + u)[..|t|];
    assert s[i + |t|..i + |t| + |u|] == (t + u)[|t|..];
  }

  lemma IsAtChar(s: string, i: nat, t: string, m: nat)
    requires IsAt(s, i, t) && m < |t|
    ensures s[i + m] == t[m]
  {
    assert s[i..i + |t|][m] == s[i + m];
  }

  lemma HexDigitValue(n: nat)
    requires n < 16
    ensures HexValue(HexDigit(n)) == Some(n)
  {
  }

  /** The escape of a control character reads back as that character. */
  lemma {:induction false} ControlEscapeRoundTrip(s: string, i: nat, c: char)
    requires c < ' ' && IsAt(s, i, EscapeChar(c))
    ensures s[i] == '\\' && s[i + 1] == 'u' && Hex4(s, i + 2) == Some(c as int)
  {
    var hi, lo := c as int / 16, c as int % 16;
    var e := EscapeChar(c);
    assert e == ['\\', 'u', '0', '0', HexDigit(hi), HexDigit(lo)];
    IsAtChar(s, i, e, 0);
    IsAtChar(s, i, e, 1);
    IsAtChar(s, i, e, 2);
    IsAtChar(s, i, e, 3);
    IsAtChar(s, i, e, 4);
    IsAtChar(s, i, e, 5);
    HexDigitValue(hi);
    HexDigitValue(lo);
  }

  // One step of the parser each, so that the proofs below unfold one branch at a time.

  lemma StepPlain(s: string, i: nat, acc: string)
    requires i < |s| && s[i] != '"' && s[i] != '\\' && !(s[i] < ' ')
    ensures ParseChars(s, i, acc) == ParseChars(s, i + 1, acc + [s[i]])
  {
  }

  lemma StepEscape(s: string, i: nat, acc: string)
    requires i + 1 < |s| && s[i] == '\\' && (s[i + 1] == '"' || s[i + 1] == '\\')
    ensures ParseChars(s, i, acc) == ParseChars(s, i + 2, acc + [s[i + 1]])
  {
    assert DecodeEscape(s, i) == Some((s[i + 1], 2));
  }

  lemma StepUnicode(s: string, i: nat, acc: string, cp: nat)
    requires i + 1 < |s| && s[i] == '\\' && s[i + 1] == 'u' && Hex4(s, i + 2) == Some(cp) && cp < 0xD800
    ensures ParseChars(s, i, acc) == ParseChars(s, i + 6, acc + [cp as char])
  {
    assert DecodeEscape(s, i) == Some((cp as char, 6));
  }

  lemma StepQuote(s: string, i: nat, acc: string)
    requires i < |s| && s[i] == '"'
    ensures ParseChars(s, i, acc) == Some((acc, i + 1))
  {
  }

  lemma StepString(s: string, i: nat)
    requires i < |s| && s[i] == '"'
    ensures ParseValue(s, i) == match ParseChars(s, i + 1, "")
                                case None => None
                                case Some((str, k)) => Some((JStr(str), k))
  {
  }

  lemma StepArray(s: string, i: nat)
    requires i < |s| && s[i] == '['
    ensures ParseValue(s, i) == ParseArray(s, i + 1)
  {
  }

  lemma StepEmptyArray(s: string, i: nat)
    requires i < |s| && s[i] == ']'
    ensures ParseArray(s, i) == Some((JArr([]), i + 1))
  {
    assert SkipWs(s, i) == i;
  }

  lemma StepFirstElement(s: string, i: nat, v: Json, k: nat)
    requires i < |s| && s[i] == '"' && ParseValue(s, i) == Some((v, k))
    ensures ParseArray(s, i) == ParseArrayTail(s, k, [v])
  {
    assert SkipWs(s, i) == i;
  }

  lemma StepClose(s: string, k: nat, acc: seq<Json>)
    requires k < |s| && s[k] == ']'
    ensures ParseArrayTail(s, k, acc) == Some((JArr(acc), k + 1))
  {
    assert SkipWs(s, k) == k;
  }

  lemma StepNextElement(s: string, k: nat, acc: seq<Json>, v: Json, k2: nat)
    requires k + 1 < |s| && s[k] == ',' && s[k + 1] == '"' && ParseValue(s, k + 1) == Some((v, k2))
    ensures ParseArrayTail(s, k, acc) == ParseArrayTail(s, k2, acc + [v])
  {
    var j := SkipWs(s, k);
    assert j == k;
    var j1 := SkipWs(s, j + 1);
    assert j1 == k + 1;
  }

  // The proof goes in two halves. The text of `Dumps(a)` at an index is first
  // described character by character (`DumpsAt` and the predicates below it,
  // with the ends of its parts counted by `EscEnd` and the functions after it);
  // the parser is then run over that description. Keeping the concatenations
  // of the serialiser and the parser's unfoldings apart keeps each proof small.

  /** How many characters the escape of `c` takes. */
  function EscWidth(c: char): nat
  {
    if c == '"' || c == '\\' then 2 else if c < ' ' then 6 else 1
  }

  /** Where the escapes of the characters of `x`, starting at `i`, end. */
  function EscEnd(i: nat, x: string): nat
    decreases |x|
  {
    if x == [] then i else EscEnd(i + EscWidth(x[0]), x[1..])
  }

  /** Where the quoted `x`, starting at `i`, ends. */
  function QuoteEnd(i: nat, x: string): nat
  {
    EscEnd(i + 1, x) + 1
  }

  function TailEnd(k: nat, a: seq<string>): nat
    decreases |a|
  {
    if a == [] then k + 1 else TailEnd(QuoteEnd(k + 1, a[0]), a[1..])
  }

  function DumpsEnd(i: nat, a: seq<string>): nat
  {
    if a == [] then i + 2 else TailEnd(QuoteEnd(i + 1, a[0]), a[1..])
  }

  /** The escape of `c` stands at `i`, as the parser reads it. */
  predicate EscapedCharAt(s: string, i: nat, c: char)
  {
    if c == '"' || c == '\\' then i + 1 < |s| && s[i] == '\\' && s[i + 1] == c
    else if c < ' ' then i + 1 < |s| && s[i] == '\\' && s[i + 1] == 'u' && Hex4(s, i + 2) == Some(c as int)
    else i < |s| && s[i] == c
  }

  /** The escapes of the characters of `x`, then the closing quote, stand at `i`. */
  predicate EscapedAt(s: string, i: nat, x: string)
    decreases |x|
  {
    if x == [] then i < |s| && s[i] == '"'
    else EscapedCharAt(s, i, x[0]) && EscapedAt(s, i + EscWidth(x[0]), x[1..])
  }

  predicate QuotedAt(s: string, i: nat, x: string)
  {
    i < |s| && s[i] == '"' && EscapedAt(s, i + 1, x)
  }

  /** `ArrayTail(a)` stands at `k`, element by element. */
  predicate TailAt(s: string, k: nat, a: seq<string>)
    decreases |a|
  {
    if a == [] then k < |s| && s[k] == ']'
    else k < |s| && s[k] == ',' && QuotedAt(s, k + 1, a[0]) && TailAt(s, QuoteEnd(k + 1, a[0]), a[1..])
  }

  /** `Dumps(a)` stands at `i`, element by element. */
  predicate DumpsAt(s: string, i: nat, a: seq<string>)
  {
    && i < |s| && s[i] == '['
    && (a == [] ==> i + 1 < |s| && s[i + 1] == ']')
    && (a != [] ==> QuotedAt(s, i + 1, a[0]) && TailAt(s, QuoteEnd(i + 1, a[0]), a[1..]))
  }

  // The ends, measured on the serialiser's text.

  lemma EscWidthLength(c: char)
    ensures |EscapeChar(c)| == EscWidth(c)
  {
  }

  lemma {:induction false} EscEndLength(i: nat, x: string)
    ensures EscEnd(i, x) == i + |Escape(x)|
    decreases |x|
  {
    if x != [] {
      EscWidthLength(x[0]);
      EscEndLength(i + EscWidth(x[0]), x[1..]);
    }
  }

  lemma QuoteEndLength(i: nat, x: string)
    ensures QuoteEnd(i, x) == i + |Quote(x)|
  {
    EscEndLength(i + 1, x);
  }

  lemma {:induction false} TailEndLength(k: nat, a: seq<string>)
    ensures TailEnd(k, a) == k + |ArrayTail(a)|
    decreases |a|
  {
    if a != [] {
      QuoteEndLength(k + 1, a[0]);
      TailEndLength(QuoteEnd(k + 1, a[0]), a[1..]);
    }
  }

  lemma DumpsEndLength(i: nat, a: seq<string>)
    ensures DumpsEnd(i, a) == i + |Dumps(a)|
  {
    if a != [] {
      QuoteEndLength(i + 1, a[0]);
      TailEndLength(QuoteEnd(i + 1, a[0]), a[1..]);
    }
  }

  // The serialiser's text, described character by character.

  lemma EscapedCharFromText(s: string, i: nat, c: char)
    requires IsAt(s, i, EscapeChar(c))
    ensures EscapedCharAt(s, i, c)
  {
    if c == '"' || c == '\\' {
      IsAtChar(s, i, EscapeChar(c), 0);
      IsAtChar(s, i, EscapeChar(c), 1);
    } else if c < ' ' {
      ControlEscapeRoundTrip(s, i, c);
    } else {
      IsAtChar(s, i, EscapeChar(c), 0);
    }
  }

  lemma EscapeCons(s: string, i: nat, x: string)
    requires x != [] && IsAt(s, i, Escape(x) + "\"")
    ensures IsAt(s, i, EscapeChar(x[0])) && IsAt(s, i + EscWidth(x[0]), Escape(x[1..]) + "\"")
  {
    AppendAssoc(EscapeChar(x[0]), Escape(x[1..]), "\"");
    EscWidthLength(x[0]);
    IsAtSplit(s, i, EscapeChar(x[0]), Escape(x[1..]) + "\"");
  }

  lemma {:induction false} EscapedFromText(s: string, i: nat, x: string)
    requires IsAt(s, i, Escape(x) + "\"")
    ensures EscapedAt(s, i, x)
    decreases |x|
  {
    if x == [] {
      assert Escape(x) + "\"" == "\"";
      IsAtChar(s, i, "\"", 0);
    } else {
      EscapeCons(s, i, x);
      EscapedCharFromText(s, i, x[0]);
      EscapedFromText(s, i + EscWidth(x[0]), x[1..]);
    }
  }

  /** A text that starts with the character `c` at `i`. */
  lemma IsAtHead(s: string, i: nat, c: char, u: string)
    requires IsAt(s, i, [c] + u)
    ensures i < |s| && s[i] == c && IsAt(s, i + 1, u)
  {
    IsAtSplit(s, i, [c], u);
    IsAtChar(s, i, [c], 0);
  }

  lemma QuotedFromText(s: string, i: nat, x: string)
    requires IsAt(s, i, Quote(x))
    ensures QuotedAt(s, i, x)
  {
    AppendAssoc(['"'], Escape(x), "\"");
    IsAtHead(s, i, '"', Escape(x) + "\"");
    EscapedFromText(s, i + 1, x);
  }

  /** A separator `c`, a quoted `x`, then `t`. */
  lemma SeparatedAt(s: string, k: nat, c: char, x: string, t: string)
    requires IsAt(s, k, [c] + (Quote(x) + t))
    ensures k < |s| && s[k] == c && QuotedAt(s, k + 1, x) && IsAt(s, QuoteEnd(k + 1, x), t)
  {
    IsAtHead(s, k, c, Quote(x) + t);
    IsAtSplit(s, k + 1, Quote(x), t);
    QuotedFromText(s, k + 1, x);
    QuoteEndLength(k + 1, x);
  }

  lemma {:induction false} TailFromText(s: string, k: nat, a: seq<string>)
    requires IsAt(s, k, ArrayTail(a))
    ensures TailAt(s, k, a)
    decreases |a|
  {
    if a == [] {
      IsAtChar(s, k, ArrayTail(a), 0);
    } else {
      AppendAssoc([','], Quote(a[0]), ArrayTail(a[1..]));
      SeparatedAt(s, k, ',', a[0], ArrayTail(a[1..]));
      TailFromText(s, QuoteEnd(k + 1, a[0]), a[1..]);
    }
  }

  /** Stated as an implication, so that a caller passes its text on as it is. */
  lemma DumpsFromText(s: string, i: nat, a: seq<string>)
    ensures IsAt(s, i, Dumps(a)) ==> DumpsAt(s, i, a)
  {
    if IsAt(s, i, Dumps(a)) {
      if a == [] {
        IsAtChar(s, i, Dumps(a), 0);
        IsAtChar(s, i, Dumps(a), 1);
      } else {
        AppendAssoc(['['], Quote(a[0]), ArrayTail(a[1..]));
        SeparatedAt(s, i, '[', a[0], ArrayTail(a[1..]));
        TailFromText(s, QuoteEnd(i + 1, a[0]), a[1..]);
      }
    }
  }

  // The parser over that description.

  /** The escape of one character reads back as that character. */
  lemma EscapedCharParses(s: string, i: nat, acc: string, c: char)
    requires EscapedCharAt(s, i, c)
    ensures i + EscWidth(c) <= |s|
    ensures ParseChars(s, i, acc) == ParseChars(s, i + EscWidth(c), acc + [c])
  {
    if c == '"' || c == '\\' {
      StepEscape(s, i, acc);
    } else if c < ' ' {
      StepUnicode(s, i, acc, c as int);
    } else {
      StepPlain(s, i, acc);
    }
  }

  /** The escaped characters of `x` followed by a quote read back as `x`. */
  lemma {:induction false} EscapeRoundTrip(s: string, i: nat, acc: string, x: string)
    requires EscapedAt(s, i, x)
    ensures EscEnd(i, x) < |s|
    ensures ParseChars(s, i, acc) == Some((acc + x, EscEnd(i, x) + 1))
    decreases |x|
  {
    if x == [] {
      StepQuote(s, i, acc);
      assert acc + x == acc;
    } else {
      EscapedCharParses(s, i, acc, x[0]);
      EscapeRoundTrip(s, i + EscWidth(x[0]), acc + [x[0]], x[1..]);
      assert acc + [x[0]] + x[1..] == acc + x;
    }
  }

  lemma QuoteRoundTrip(s: string, i: nat, x: string)
    requires QuotedAt(s, i, x)
    ensures QuoteEnd(i, x) <= |s|
    ensures ParseValue(s, i) == Some((JStr(x), QuoteEnd(i, x)))
  {
    EscapeRoundTrip(s, i + 1, "", x);
    StepString(s, i);
    assert "" + x == x;
  }

  /** A comma, an element, and a tail that reads back. */
  lemma NextElementParses(s: string, k: nat, acc: seq<Json>, x: string, rest: seq<Json>, e: nat)
    requires k < |s| && s[k] == ',' && QuotedAt(s, k + 1, x)
    requires QuoteEnd(k + 1, x) <= |s| && ParseArrayTail(s, QuoteEnd(k + 1, x), acc + [JStr(x)]) == Some((JArr(rest), e))
    ensures ParseArrayTail(s, k, acc) == Some((JArr(rest), e))
  {
    QuoteRoundTrip(s, k + 1, x);
    StepNextElement(s, k, acc, JStr(x), QuoteEnd(k + 1, x));
  }

  lemma {:induction false} ArrayTailRoundTrip(s: string, k: nat, acc: seq<Json>, a: seq<string>)
    requires TailAt(s, k, a)
    ensures TailEnd(k, a) <= |s|
    ensures ParseArrayTail(s, k, acc) == Some((JArr(acc + Strs(a)), TailEnd(k, a)))
    decreases |a|
  {
    if a == [] {
      StepClose(s, k, acc);
      assert acc + Strs(a) == acc;
    } else {
      var k2 := QuoteEnd(k + 1, a[0]);
      ArrayTailRoundTrip(s, k2, acc + [JStr(a[0])], a[1..]);
      assert acc + [JStr(a[0])] + Strs(a[1..]) == acc + Strs(a);
      NextElementParses(s, k, acc, a[0], acc + Strs(a), TailEnd(k, a));
    }
  }

  /** `[`, a first element, and a tail that reads back. */
  lemma FirstElementParses(s: string, i: nat, x: string, rest: seq<Json>, e: nat)
    requires i < |s| && s[i] == '[' && QuotedAt(s, i + 1, x)
    requires QuoteEnd(i + 1, x) <= |s| && ParseArrayTail(s, QuoteEnd(i + 1, x), [JStr(x)]) == Some((JArr(rest), e))
    ensures ParseValue(s, i) == Some((JArr(rest), e))
  {
    QuoteRoundTrip(s, i + 1, x);
    StepArray(s, i);
    StepFirstElement(s, i + 1, JStr(x), QuoteEnd(i + 1, x));
  }

  /**
    A text described by `DumpsAt` reads back as the array. Stated as an
    implication, so that a caller passes the description on as it is.
   */
  lemma DumpsAtParses(s: string, i: nat, a: seq<string>)
    ensures DumpsAt(s, i, a) ==> ParseValue(s, i) == Some((JArr(Strs(a)), DumpsEnd(i, a)))
  {
    if DumpsAt(s, i, a) {
      if a == [] {
        StepArray(s, i);
        StepEmptyArray(s, i + 1);
      } else {
        var k := QuoteEnd(i + 1, a[0]);
        ArrayTailRoundTrip(s, k, [JStr(a[0])], a[1..]);
        assert [JStr(a[0])] + Strs(a[1..]) == Strs(a);
        FirstElementParses(s, i, a[0], Strs(a), DumpsEnd(i, a));
      }
    }
  }

  /** The serialisation of `a`, found anywhere in a text, parses back as `a`. */
  lemma DumpsParsesAt(s: string, i: nat, a: seq<string>)
    requires IsAt(s, i, Dumps(a))
    ensures ParseValue(s, i) == Some((JArr(Strs(a)), i + |Dumps(a)|))
  {
    DumpsFromText(s, i, a);
    DumpsAtParses(s, i, a);
    DumpsEndLength(i, a);
  }

  /** `Strs(a)` holds the strings of `a`, in order. */
  lemma {:induction false} StrsIndex(a: seq<string>)
    ensures |Strs(a)| == |a| && forall k :: 0 <= k < |a| ==> Strs(a)[k] == JStr(a[k])
  {
    if a != [] {
      StrsIndex(a[1..]);
    }
  }

  /** Round trip: decoding the serialisation of an array of strings gives it back. */
  lemma DumpsRoundTrip(a: seq<string>)
    ensures Loads(Dumps(a)) == Some(JArr(Strs(a)))
  {
    var d := Dumps(a);
    assert IsAt(d, 0, d);
    DumpsParsesAt(d, 0, a);
  }

  /** A character a string holds as itself, with no escape. */
  predicate PlainChar(c: char)
  {
    c != '"' && c != '\\' && !(c < ' ')
  }

  /** A two-character string with no escapes parses to those characters. */
  lemma TwoCharString(s: string, i: nat, a: char, b: char)
    requires i + 3 < |s| && s[i] == '"' && s[i + 1] == a && s[i + 2] == b && s[i + 3] == '"'
    requires PlainChar(a) && PlainChar(b)
    ensures ParseValue(s, i) == Some((JStr([a, b]), i + 4))
  {
    assert "" + [a] == [a] && [a] + [b] == [a, b];
    StepPlain(s, i + 1, "");
    StepPlain(s, i + 2, [a]);
    StepQuote(s, i + 3, [a, b]);
    StepString(s, i);
  }

  /** A comma followed by one blank and a string: the parser skips the blank. */
  lemma StepSpacedElement(s: string, k: nat, acc: seq<Json>, v: Json, k2: nat)
    requires k + 2 < |s| && s[k] == ',' && IsWs(s[k + 1]) && s[k + 2] == '"' && ParseValue(s, k + 2) == Some((v, k2))
    ensures ParseArrayTail(s, k, acc) == ParseArrayTail(s, k2, acc + [v])
  {
    assert SkipWs(s, k) == k;
    assert SkipWs(s, k + 1) == SkipWs(s, k + 2) == k + 2;
  }

  /** An array that fills the whole text is what the text loads to. */
  lemma LoadsWholeArray(s: string, v: Json)
    requires |s| > 0 && s[0] == '[' && ParseValue(s, 0) == Some((v, |s|))
    ensures Loads(s) == Some(v)
  {
    assert SkipWs(s, 0) == 0;
  }

  /** `["ab", "cd"]`, with one blank after the comma, loads to its two strings. */
  lemma SpacedPairParses(s: string, a: char, b: char, c: char, d: char)
    requires |s| == 12 && s[0] == '[' && s[5] == ',' && s[6] == ' ' && s[11] == ']'
    requires s[1] == '"' && s[2] == a && s[3] == b && s[4] == '"'
    requires s[7] == '"' && s[8] == c && s[9] == d && s[10] == '"'
    requires PlainChar(a) && PlainChar(b) && PlainChar(c) && PlainChar(d)
    ensures Loads(s) == Some(JArr([JStr([a, b]), JStr([c, d])]))
  {
    TwoCharString(s, 1, a, b);
    TwoCharString(s, 7, c, d);
    StepFirstElement(s, 1, JStr([a, b]), 5);
    var items := [JStr([a, b]), JStr([c, d])];
    assert [JStr([a, b])] + [JStr([c, d])] == items;
    StepSpacedElement(s, 5, [JStr([a, b])], JStr([c, d]), 11);
    StepClose(s, 11, items);
    StepArray(s, 0);
    assert ParseValue(s, 0) == Some((JArr(items), 12));
    LoadsWholeArray(s, JArr(items));
  }

  /**
    The spaced form `json.dumps` writes, with a blank after the comma, loads
    to the same array as the compact form.
   */
  lemma SpacedPairLoads()
    ensures Loads("[\"n3\", \"n5\"]") == Some(JArr([JStr("n3"), JStr("n5")]))
  {
    SpacedPairParses("[\"n3\", \"n5\"]", 'n', '3', 'n', '5');
  }

  /** `Dumps` starts with `[` and ends with `]`. */
  lemma DumpsBrackets(a: seq<string>)
    ensures |Dumps(a)| >= 2 && Dumps(a)[0] == '[' && Dumps(a)[|Dumps(a)| - 1] == ']'
  {
    if a != [] {
      ArrayTailEndsWithBracket(a[1..]);
    }
  }

  lemma {:induction false} ArrayTailEndsWithBracket(a: seq<string>)
    ensures |ArrayTail(a)| >= 1 && ArrayTail(a)[|ArrayTail(a)| - 1] == ']'
  {
    if a != [] {
      ArrayTailEndsWithBracket(a[1..]);
    }
  }
}
