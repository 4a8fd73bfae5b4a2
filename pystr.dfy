/**
  The few Python `str` operations the modelled code relies on: `find` and
  `rfind` of one character, `join`, `strip`, `isspace` and `str()` of a
  non-negative integer.
 */
module PyStr {
  import opened Seqs


  /** `sep.join(parts)`. */
  function Join(sep: string, parts: seq<string>): string
  {
    if |parts| == 0 then ""
    else if |parts| == 1 then parts[0]
    else parts[0] + sep + Join(sep, parts[1..])
  }

  /** Appending one part adds exactly one separator and that part at the end. */
  lemma {:induction false} JoinSnoc(sep: string, parts: seq<string>, last: string)
    requires |parts| > 0
    ensures Join(sep, parts + [last]) == Join(sep, parts) + sep + last
  {
    if |parts| == 1 {
      assert parts + [last] == [parts[0], last];
    } else {
      assert (parts + [last])[1..] == parts[1..] + [last];
      JoinSnoc(sep, parts[1..], last);
    }
  }

  /** `s.find(c)`: the first index of `c`, or -1. */
  function Find(s: string, c: char): (r: int)
    ensures -1 <= r < |s|
    ensures r == -1 <==> c !in s
    ensures r >= 0 ==> s[r] == c && forall k :: 0 <= k < r ==> s[k] != c
  {
    var i := FindFrom(s, c, 0);
    if i == |s| then -1 else i
  }

  /** The first index from `i` on that holds `c`, or `|s|`. */
  function FindFrom(s: string, c: char, i: nat): (j: nat)
    requires i <= |s|
    ensures i <= j <= |s| && forall k :: i <= k < j ==> s[k] != c
    ensures j < |s| ==> s[j] == c
    decreases |s| - i
  {
    if i == |s| || s[i] == c then i else FindFrom(s, c, i + 1)
  }

  /** `s.rfind(c)`: the last index of `c`, or -1. */
  function RFind(s: string, c: char): (r: int)
    ensures -1 <= r < |s|
    ensures r == -1 <==> c !in s
    ensures r >= 0 ==> s[r] == c && forall k :: r < k < |s| ==> s[k] != c
  {
    RFindBelow(s, c, |s|)
  }

  /** The last index below `j` that holds `c`, or -1. */
  function RFindBelow(s: string, c: char, j: nat): (r: int)
    requires j <= |s|
    ensures -1 <= r < j && forall k :: r < k < j ==> s[k] != c
    ensures r >= 0 ==> s[r] == c
    decreases j
  {
    if j == 0 then -1 else if s[j - 1] == c then j - 1 else RFindBelow(s, c, j - 1)
  }

  /** Python's whitespace (`str.isspace` of one character). */
  predicate IsSpace(c: char)
  {
    ('\t' <= c <= '\r') || ('\U{1C}' <= c <= '\U{1F}') || c == ' ' || c == '\U{85}' || c == '\U{A0}'
    || c == '\U{1680}' || ('\U{2000}' <= c <= '\U{200A}') || c == '\U{2028}' || c == '\U{2029}'
    || c == '\U{202F}' || c == '\U{205F}' || c == '\U{3000}'
  }

  predicate AllSpace(s: string)
  {
    forall k :: 0 <= k < |s| ==> IsSpace(s[k])
  }

  /** `s.isspace()`: true for a non-empty string of whitespace only. */
  predicate IsSpaceStr(s: string)
  {
    |s| > 0 && AllSpace(s)
  }

  /** The first index from `i` on that does not hold whitespace. */
  function SpaceEnd(s: string, i: nat): (j: nat)
    requires i <= |s|
    ensures i <= j <= |s| && forall k :: i <= k < j ==> IsSpace(s[k])
    ensures j < |s| ==> !IsSpace(s[j])
    decreases |s| - i
  {
    if i < |s| && IsSpace(s[i]) then SpaceEnd(s, i + 1) else i
  }

  /** Going down from `j` to `i`, the index after the last character that is not whitespace. */
  function SpaceStart(s: string, i: nat, j: nat): (m: nat)
    requires i <= j <= |s|
    ensures i <= m <= j && forall k :: m <= k < j ==> IsSpace(s[k])
    ensures m > i ==> !IsSpace(s[m - 1])
    decreases j - i
  {
    if j > i && IsSpace(s[j - 1]) then SpaceStart(s, i, j - 1) else j
  }

  /**
    `s.strip()`: `s` without its leading and trailing whitespace. The result is
    the middle of `s` between two all-whitespace ends, and it neither starts
    nor ends with whitespace.
   */
  function Strip(s: string): (r: string)
    ensures exists i :: 0 <= i <= i + |r| <= |s| && s == s[..i] + r + s[i + |r|..]
                        && AllSpace(s[..i]) && AllSpace(s[i + |r|..])
    ensures r == [] || (!IsSpace(r[0]) && !IsSpace(r[|r| - 1]))
  {
    var i := SpaceEnd(s, 0);
    var j := SpaceStart(s, i, |s|);
    StripShape(s, i, j);
    s[i..j]
  }

  /** The middle `s[i..j]` of `s` between whitespace ends. */
  lemma StripShape(s: string, i: nat, j: nat)
    requires i <= j <= |s|
    requires forall k :: 0 <= k < i ==> IsSpace(s[k])
    requires forall k :: j <= k < |s| ==> IsSpace(s[k])
    requires i < j ==> !IsSpace(s[i]) && !IsSpace(s[j - 1])
    ensures var r := s[i..j];
            && (exists m :: 0 <= m <= m + |r| <= |s| && s == s[..m] + r + s[m + |r|..]
                            && AllSpace(s[..m]) && AllSpace(s[m + |r|..]))
            && (r == [] || (!IsSpace(r[0]) && !IsSpace(r[|r| - 1])))
  {
    Split3(s, i, j);
    assert forall k :: 0 <= k < i ==> s[..i][k] == s[k];
    assert forall k :: 0 <= k < |s| - j ==> s[j..][k] == s[j + k];
  }

  function DigitChar(d: nat): char
    requires d < 10
  {
    ('0' as int + d) as char
  }

  /** `str(n)` for a non-negative integer: its decimal digits, no leading zero. */
  function NatToString(n: nat): (r: string)
    ensures |r| > 0
    ensures forall k :: 0 <= k < |r| ==> '0' <= r[k] <= '9'
    ensures r[0] == '0' ==> n == 0
  {
    if n < 10 then [DigitChar(n)] else NatToString(n / 10) + [DigitChar(n % 10)]
  }

  /** `int(s)` of a string of decimal digits. */
  function DecimalValue(s: string): nat
    requires forall k :: 0 <= k < |s| ==> '0' <= s[k] <= '9'
  {
    if s == [] then 0
    else DecimalValue(s[..|s| - 1]) * 10 + (s[|s| - 1] as int - '0' as int)
  }

  /** `int(str(n)) == n`: the digits read back as the number, so `str` is injective on naturals. */
  lemma {:induction false} NatToStringRoundTrip(n: nat)
    ensures DecimalValue(NatToString(n)) == n
  {
    if n >= 10 {
      NatToStringRoundTrip(n / 10);
      var r := NatToString(n);
      assert r[..|r| - 1] == NatToString(n / 10);
    }
  }

  /** `t` occurs in `s` starting at index `k`. */
  predicate OccursAt(s: string, t: string, k: int)
  {
    0 <= k && k + |t| <= |s| && s[k..k + |t|] == t
  }

  /** `t in s` for strings. */
  predicate Contains(s: string, t: string)
  {
    exists k :: 0 <= k <= |s| && OccursAt(s, t, k)
  }

  /** `t` occurs in `a + t + b`, right after `a`. */
  lemma OccursBetween(a: string, t: string, b: string)
    ensures OccursAt(a + t + b, t, |a|) && Contains(a + t + b, t)
  {
    var s := a + t + b;
    assert s[|a|..|a| + |t|] == t;
    assert OccursAt(s, t, |a|);
  }
}
