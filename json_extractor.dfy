/**
  Pulling a JSON array out of an LLM reply (helpers/json_extractor.py): the
  text from the first `[` to the last `]`, inclusive, is decoded and must be an
  array.
 */
module JsonExtractor {
  import opened Wrappers
  import opened PyStr
  import opened Json
  import opened Seqs

  /** The three `ValueError`s the extractor can raise; a decode error stands for `json.JSONDecodeError`. */
  datatype ExtractError = NoJsonArrayFound | JsonDecodeError | NotAList

  /** Some `[` stands before some `]`. */
  predicate HasBracketSpan(text: string)
  {
    exists i, j :: 0 <= i < j < |text| && text[i] == '[' && text[j] == ']'
  }

  /** What the extractor makes of a decoded value. */
  function FromDecoded(d: Option<Json>): Result<seq<Json>, ExtractError>
  {
    match d
    case None => Err(JsonDecodeError)
    case Some(JArr(items)) => Ok(items)
    case Some(_) => Err(NotAList)
  }

  function ExtractJsonArray(text: string): (r: Result<seq<Json>, ExtractError>)
    ensures r == Err(NoJsonArrayFound) <==> !HasBracketSpan(text)
    ensures r != Err(NotAList)
  {
    var start := Find(text, '[');
    var end := RFind(text, ']');
    if start == -1 || end == -1 || end < start then
      Err(NoJsonArrayFound)
    else
      assert start != end;
      FromDecoded(Loads(text[start..end + 1]))
  }

  // ---------------------------------------------------------------------------
  // The span and what surrounds it

  /**
    Only the span from the first `[` to the last `]` is decoded: a prefix with
    no `[` and a suffix with no `]` are ignored.
   */
  lemma ExtractReadsSpan(p: string, t: string, q: string)
    requires '[' !in p && ']' !in q
    requires |t| >= 2 && t[0] == '[' && t[|t| - 1] == ']'
    ensures ExtractJsonArray(p + t + q) == FromDecoded(Loads(t))
  {
    var text := p + t + q;
    Concat3Index(p, t, q);
    assert text[|p|] == '[' && text[|p| + |t| - 1] == ']';
    var start := Find(text, '[');
    var end := RFind(text, ']');
    assert forall k :: 0 <= k < |p| ==> p[k] != '[';
    assert forall k :: 0 <= k < |q| ==> q[k] != ']';
    assert start == |p|;
    assert end == |p| + |t| - 1;
    Concat3Middle(p, t, q);
  }

  lemma {:induction false} BracketSpanPadded(p: string, r: string, q: string)
    requires '[' !in p && ']' !in p && '[' !in q && ']' !in q
    ensures HasBracketSpan(p + r + q) <==> HasBracketSpan(r)
  {
    var text := p + r + q;
    Concat3Index(p, r, q);
    if HasBracketSpan(text) {
      var i, j :| 0 <= i < j < |text| && text[i] == '[' && text[j] == ']';
      assert forall k :: 0 <= k < |p| ==> p[k] != '[';
      assert forall k :: 0 <= k < |q| ==> q[k] != ']';
      assert i >= |p|;
      assert j < |p| + |r|;
      assert r[i - |p|] == '[' && r[j - |p|] == ']';
    }
    if HasBracketSpan(r) {
      var i, j :| 0 <= i < j < |r| && r[i] == '[' && r[j] == ']';
      assert text[|p| + i] == '[' && text[|p| + j] == ']';
    }
  }

  /** With a bracket span, the first `[` stands before the last `]`. */
  lemma SpanBounds(r: string)
    requires HasBracketSpan(r)
    ensures 0 <= Find(r, '[') < RFind(r, ']')
  {
    var i, j :| 0 <= i < j < |r| && r[i] == '[' && r[j] == ']';
    assert Find(r, '[') <= i;
    assert j <= RFind(r, ']');
  }

  /** A text split at a `[` with none before it and a `]` with none after it. */
  lemma SplitAt(r: string, a: nat, b: nat) returns (before: string, span: string, after: string)
    requires a < b < |r| && r[a] == '[' && r[b] == ']'
    requires forall k :: 0 <= k < a ==> r[k] != '['
    requires forall k :: b < k < |r| ==> r[k] != ']'
    ensures r == before + span + after && '[' !in before && ']' !in after
    ensures |span| >= 2 && span[0] == '[' && span[|span| - 1] == ']'
  {
    span := r[a..b + 1];
    before := r[..a];
    after := r[b + 1..];
    Split3(r, a, b + 1);
    AbsentFromPrefix(r, '[', a);
    AbsentFromSuffix(r, ']', b + 1);
  }

  /** A text with a bracket span is the span with bracket-free text before and after it. */
  lemma SplitAtSpan(r: string) returns (before: string, span: string, after: string)
    requires HasBracketSpan(r)
    ensures r == before + span + after && '[' !in before && ']' !in after
    ensures |span| >= 2 && span[0] == '[' && span[|span| - 1] == ']'
  {
    SpanBounds(r);
    before, span, after := SplitAt(r, Find(r, '['), RFind(r, ']'));
  }

  /** Text with no brackets around a reply changes nothing. */
  lemma ExtractIgnoresPadding(p: string, r: string, q: string)
    requires '[' !in p && ']' !in p && '[' !in q && ']' !in q
    ensures ExtractJsonArray(p + r + q) == ExtractJsonArray(r)
  {
    BracketSpanPadded(p, r, q);
    if HasBracketSpan(r) {
      var before, span, after := SplitAtSpan(r);
      ExtractReadsSpan(before, span, after);
      PaddedSpan(p, before, span, after, q);
    }
  }

  lemma PaddedSpan(p: string, before: string, span: string, after: string, q: string)
    requires '[' !in p && ']' !in q && '[' !in before && ']' !in after
    requires |span| >= 2 && span[0] == '[' && span[|span| - 1] == ']'
    ensures ExtractJsonArray(p + (before + span + after) + q) == FromDecoded(Loads(span))
  {
    assert p + (before + span + after) + q == (p + before) + span + (after + q);
    ExtractReadsSpan(p + before, span, after + q);
  }

  lemma SpaceHasNoBracket(s: string)
    requires AllSpace(s)
    ensures '[' !in s && ']' !in s
  {
    assert !IsSpace('[') && !IsSpace(']');
  }

  /** Whitespace around a reply changes nothing. */
  lemma SpacePaddingIgnored(p: string, r: string, q: string)
    requires AllSpace(p) && AllSpace(q)
    ensures ExtractJsonArray(p + r + q) == ExtractJsonArray(r)
  {
    SpaceHasNoBracket(p);
    SpaceHasNoBracket(q);
    ExtractIgnoresPadding(p, r, q);
  }

  /** `text.strip()` before extracting changes nothing: whitespace holds no bracket. */
  lemma StripKeepsExtraction(text: string)
    ensures ExtractJsonArray(Strip(text)) == ExtractJsonArray(text)
  {
    var r := Strip(text);
    var i :| 0 <= i <= i + |r| <= |text| && text == text[..i] + r + text[i + |r|..]
             && AllSpace(text[..i]) && AllSpace(text[i + |r|..]);
    SpacePaddingIgnored(text[..i], r, text[i + |r|..]);
  }

  /** Serialised strings come back out, with or without bracket-free prose around them. */
  lemma ExtractRoundTrip(p: string, a: seq<string>, q: string)
    requires '[' !in p && ']' !in q
    ensures ExtractJsonArray(p + Dumps(a) + q) == Ok(Strs(a))
  {
    DumpsBrackets(a);
    ExtractReadsSpan(p, Dumps(a), q);
    DumpsRoundTrip(a);
  }

  lemma DumpsExample()
    ensures Dumps(["a", "c"]) == "[\"a\",\"c\"]" && Strs(["a", "c"]) == [JStr("a"), JStr("c")]
  {
    assert ["a", "c"][1..] == ["c"];
    assert ["c"][1..] == [];
  }

  /** A reply with prose around the array gives the array's strings. */
  lemma ExtractExample()
    ensures ExtractJsonArray("Sure, here you go: " + "[\"a\",\"c\"]" + " Hope that helps!") == Ok([JStr("a"), JStr("c")])
  {
    DumpsExample();
    ExtractRoundTrip("Sure, here you go: ", ["a", "c"], " Hope that helps!");
  }

  /** A reply in the spaced form `json.dumps` writes gives the same ids. */
  lemma ExtractSpacedExample()
    ensures ExtractJsonArray("Relevant: " + "[\"n3\", \"n5\"]" + ".") == Ok([JStr("n3"), JStr("n5")])
  {
    SpacedPairLoads();
    ExtractReadsSpan("Relevant: ", "[\"n3\", \"n5\"]", ".");
  }

  // ---------------------------------------------------------------------------
  // Two arrays in one reply

  lemma {:induction false} SkipWsStopsAt(s: string, i: nat, k: nat)
    requires i <= k < |s| && !IsWs(s[k])
    ensures SkipWs(s, i) <= k
    decreases k - i
  {
    if IsWs(s[i]) {
      SkipWsStopsAt(s, i + 1, k);
    }
  }

  /** A value followed by more than whitespace is not one JSON text. */
  lemma TrailingTextFails(t: string, v: Json, e: nat, k: nat)
    requires |t| > 0 && t[0] == '[' && ParseValue(t, 0) == Some((v, e))
    requires e <= k < |t| && !IsWs(t[k])
    ensures Loads(t) == None
  {
    assert SkipWs(t, 0) == 0;
    SkipWsStopsAt(t, e, k);
  }

  /** The serialisation at the front of a text. */
  lemma DumpsAtFront(a: seq<string>, u: string)
    ensures ParseValue(Dumps(a) + u, 0) == Some((JArr(Strs(a)), |Dumps(a)|))
  {
    IsAtFront(Dumps(a), u);
    DumpsParsesAt(Dumps(a) + u, 0, a);
  }

  /** Two bracketed texts, the first of them a whole value, do not decode as one. */
  lemma TwoSpansFail(da: string, m: string, db: string, v: Json)
    requires |da| > 0 && da[0] == '[' && |db| > 0 && db[0] == '[' && db[|db| - 1] == ']'
    requires ParseValue(da + m + db, 0) == Some((v, |da|))
    ensures var t := da + m + db; |t| >= 2 && t[0] == '[' && t[|t| - 1] == ']' && Loads(t) == None
  {
    var t := da + m + db;
    Concat3Index(da, m, db);
    assert t[0] == '[' && t[|t| - 1] == ']' && t[|da| + |m|] == '[';
    TrailingTextFails(t, v, |da|, |da| + |m|);
  }

  /** A span that does not decode makes the reply fail. */
  lemma SpanFails(p: string, t: string, q: string)
    requires '[' !in p && ']' !in q
    requires |t| >= 2 && t[0] == '[' && t[|t| - 1] == ']' && Loads(t) == None
    ensures ExtractJsonArray(p + t + q) == Err(JsonDecodeError)
  {
    ExtractReadsSpan(p, t, q);
  }

  /**
    A reply with two arrays fails to decode whatever stands between them: the
    span runs from the first array's `[` to the second array's `]`.
   */
  lemma TwoArraysFail(p: string, a: seq<string>, m: string, b: seq<string>, q: string)
    requires '[' !in p && ']' !in q
    ensures ExtractJsonArray(p + Dumps(a) + m + Dumps(b) + q) == Err(JsonDecodeError)
  {
    var t := Dumps(a) + m + Dumps(b);
    DumpsBrackets(a);
    DumpsBrackets(b);
    DumpsAtFront(a, m + Dumps(b));
    AppendAssoc(Dumps(a), m, Dumps(b));
    TwoSpansFail(Dumps(a), m, Dumps(b), JArr(Strs(a)));
    SpanFails(p, t, q);
    Regroup5(p, Dumps(a), m, Dumps(b), q);
  }

  /** `[1]` followed by anything that is not whitespace is not one JSON value. */
  lemma OneArrayThenText(t: string)
    requires |t| > 4 && t[0] == '[' && t[1] == '1' && t[2] == ']' && t[3] == ' ' && t[4] == 'x'
    ensures Loads(t) == None
  {
    assert SkipWs(t, 0) == 0;
    assert SkipWs(t, 1) == 1;
    assert SkipWs(t, 2) == 2;
    assert ScanNumber(t, 1) == Some(2) by {
      assert SkipDigits(t, 2) == 2;
      assert ExponentEnd(t, 2) == 2;
    }
    assert ParseValue(t, 1) == Some((JNum(t[1..2]), 2));
    assert ParseArrayTail(t, 2, [JNum(t[1..2])]) == Some((JArr([JNum(t[1..2])]), 3));
    assert ParseValue(t, 0) == Some((JArr([JNum(t[1..2])]), 3));
    SkipWsStopsAt(t, 3, 4);
  }

  /** The reply `[1] x [2]` fails: the span is the whole reply, which is not one JSON value. */
  lemma TwoNumberArraysFail(reply: string)
    requires reply == "[1] x [2]"
    ensures ExtractJsonArray(reply) == Err(JsonDecodeError)
  {
    assert |reply| == 9 && reply[8] == ']';
    assert reply[0] == '[' && reply[1] == '1' && reply[2] == ']' && reply[3] == ' ' && reply[4] == 'x';
    OneArrayThenText(reply);
    assert reply == "" + reply + "";
    ExtractReadsSpan("", reply, "");
  }
}
