/** The Python string operations the client relies on: `startswith`,
    `replace`, `rstrip("/")`, `lower()` and `str(n)` for a natural number. */
module Text {

  import opened Wrappers

  predicate StartsWith<T(==)>(s: seq<T>, prefix: seq<T>) {
    |prefix| <= |s| && s[..|prefix|] == prefix
  }

  predicate OccursAt<T(==)>(pat: seq<T>, s: seq<T>, i: int) {
    0 <= i && i + |pat| <= |s| && s[i..i + |pat|] == pat
  }

  /** `pat` occurs somewhere in `s`. */
  ghost predicate Occurs<T>(pat: seq<T>, s: seq<T>) {
    exists i :: OccursAt(pat, s, i)
  }

  /** `s.replace(pat, rep)`: every non-overlapping occurrence, scanning
      left to right. */
  function ReplaceAll(s: string, pat: string, rep: string): (r: string)
    requires pat != []
    ensures StartsWith(s, pat) ==> StartsWith(r, rep)
    decreases |s|
  {
    if |s| < |pat| then s
    else if s[..|pat|] == pat then rep + ReplaceAll(s[|pat|..], pat, rep)
    else [s[0]] + ReplaceAll(s[1..], pat, rep)
  }

  /** Without an occurrence of `pat`, replacing changes nothing. */
  lemma {:induction false} ReplaceAllNoOccurrence(s: string, pat: string, rep: string)
    requires pat != [] && !Occurs(pat, s)
    ensures ReplaceAll(s, pat, rep) == s
    decreases |s|
  {
    if |s| >= |pat| {
      assert !OccursAt(pat, s, 0);
      assert s[0..0 + |pat|] == s[..|pat|];
      forall i | OccursAt(pat, s[1..], i) ensures OccursAt(pat, s, i + 1) {
        assert s[1..][i..i + |pat|] == s[i + 1..i + 1 + |pat|];
      }
      ReplaceAllNoOccurrence(s[1..], pat, rep);
      assert [s[0]] + s[1..] == s;
    }
  }

  /** `replace` is not anchored at the start: a second scheme later in the
      string is rewritten too. */
  lemma ReplaceRewritesEveryOccurrence()
    ensures ReplaceAll("http://h/http://", "http://", "ws://") == "ws://h/ws://"
  {
    var pat, rep := "http://", "ws://";
    var s0, s1, s2, s3 := "http://h/http://", "h/http://", "/http://", "http://";
    assert s3[..7] == pat && s3[7..] == "";
    assert ReplaceAll(s3, pat, rep) == rep;
    assert s2[..7] == "/http:/" != pat && s2[1..] == s3;
    assert ReplaceAll(s2, pat, rep) == "/" + rep;
    assert s1[..7] == "h/http:" != pat && s1[1..] == s2;
    assert ReplaceAll(s1, pat, rep) == "h/" + rep;
    assert s0[..7] == pat && s0[7..] == s1;
    assert ReplaceAll(s0, pat, rep) == rep + "h/" + rep;
  }

  /** `s.rstrip("/")`: all trailing slashes removed. */
  function RStripSlash(s: string): (r: string)
    ensures |r| <= |s| && r == s[..|r|]
    ensures r == [] || r[|r| - 1] != '/'
    ensures forall i :: |r| <= i < |s| ==> s[i] == '/'
    decreases |s|
  {
    if s != [] && s[|s| - 1] == '/' then RStripSlash(s[..|s| - 1]) else s
  }

  function LowerChar(c: char): char {
    if 'A' <= c <= 'Z' then (c as int + 32) as char else c
  }

  /** `s.lower()` on ASCII letters. */
  function AsciiLower(s: string): (r: string)
    ensures |r| == |s|
    ensures forall i :: 0 <= i < |s| ==> r[i] == LowerChar(s[i])
  {
    seq(|s|, i requires 0 <= i < |s| => LowerChar(s[i]))
  }

  /** Lower-casing twice is lower-casing once. */
  lemma AsciiLowerIdempotent(s: string)
    ensures AsciiLower(AsciiLower(s)) == AsciiLower(s)
  {
    assert forall i :: 0 <= i < |s| ==> LowerChar(LowerChar(s[i])) == LowerChar(s[i]);
  }

  function DigitChar(d: nat): char
    requires d < 10
  {
    (48 + d) as char
  }

  /** `str(n)` for a natural number. */
  function NatToString(n: nat): (r: string)
    ensures |r| >= 1
    ensures forall i :: 0 <= i < |r| ==> '0' <= r[i] <= '9'
    decreases n
  {
    if n < 10 then [DigitChar(n)] else NatToString(n / 10) + [DigitChar(n % 10)]
  }

  /** `int(s)` for a string of decimal digits. */
  function DigitsValue(s: string): nat
    requires forall i :: 0 <= i < |s| ==> '0' <= s[i] <= '9'
  {
    if s == [] then 0 else 10 * DigitsValue(s[..|s| - 1]) + (s[|s| - 1] as int - 48)
  }

  /** Reading back the decimal text gives the number. */
  lemma {:induction false} NatToStringRoundTrip(n: nat)
    ensures DigitsValue(NatToString(n)) == n
    decreases n
  {
    if n >= 10 {
      NatToStringRoundTrip(n / 10);
      var s := NatToString(n);
      assert s[..|s| - 1] == NatToString(n / 10);
    }
  }

  /** The socket form of an HTTP base URL: `https://` becomes `wss://` and
      `http://` becomes `ws://`, by `replace`, so every occurrence is
      rewritten; `None` for any other scheme. */
  function SocketBase(url: string): (r: Option<string>)
    ensures r.Some? <==> StartsWith(url, "https://") || StartsWith(url, "http://")
    ensures StartsWith(url, "https://") ==> r.Some? && StartsWith(r.value, "wss://")
    ensures !StartsWith(url, "https://") && StartsWith(url, "http://") ==> r.Some? && StartsWith(r.value, "ws://")
  {
    if StartsWith(url, "https://") then Some(ReplaceAll(url, "https://", "wss://"))
    else if StartsWith(url, "http://") then Some(ReplaceAll(url, "http://", "ws://"))
    else None
  }
}
