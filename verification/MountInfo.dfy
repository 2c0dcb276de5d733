/** The two decoders of escaped paths in /proc/self/mountinfo: four replacements in a row in the
    retention worker, one pass in the mount service. */
module MountInfo {

  const CODES: seq<string> := ["040", "011", "012", "134"]
  const CHARS: string := [' ', '\t', '\n', '\\']

  /** `s` starts with the `j`-th escape. */
  predicate Starts(s: string, j: nat)
    requires j < 4
  {
    |s| >= 4 && s[0] == '\\' && s[1..4] == CODES[j]
  }

  /** What the kernel writes for a path. */
  function Escape(path: string): string {
    if path == "" then "" else EscapeChar(path[0]) + Escape(path[1..])
  }

  function EscapeChar(c: char): string {
    if c == ' ' then "\\040" else if c == '\t' then "\\011" else if c == '\n' then "\\012" else if c == '\\' then "\\134" else [c]
  }

  /** `s.replace("\\" + CODES[j], CHARS[j])`: left to right, nothing rescanned. */
  function Replace(s: string, j: nat): string
    requires j < 4
  {
    if s == "" then ""
    else if Starts(s, j) then [CHARS[j]] + Replace(s[4..], j)
    else [s[0]] + Replace(s[1..], j)
  }

  /** The decoding in `mount_ids`: blank, tab, newline, and the backslash last. */
  function Sequential(s: string): string {
    Replace(Replace(Replace(Replace(s, 0), 1), 2), 3)
  }

  /** Which of the first `k` escapes `s` starts with, or -1. */
  function Which(s: string, k: nat): (j: int)
    requires k <= 4
    ensures -1 <= j < k
    ensures forall i :: 0 <= i < k && Starts(s, i) ==> j == i
    ensures j >= 0 ==> Starts(s, j)
  {
    if k > 0 && Starts(s, 0) then 0
    else if k > 1 && Starts(s, 1) then 1
    else if k > 2 && Starts(s, 2) then 2
    else if k > 3 && Starts(s, 3) then 3
    else -1
  }

  /** One pass that decodes the first `k` escapes. */
  function Pass(s: string, k: nat): string
    requires k <= 4
  {
    if s == "" then ""
    else if Which(s, k) >= 0 then [CHARS[Which(s, k)]] + Pass(s[4..], k)
    else [s[0]] + Pass(s[1..], k)
  }

  lemma PassStep(s: string, k: nat)
    requires k <= 4 && s != ""
    ensures Pass(s, k) == if Which(s, k) >= 0 then [CHARS[Which(s, k)]] + Pass(s[4..], k) else [s[0]] + Pass(s[1..], k)
  {
  }

  lemma ReplaceStep(s: string, j: nat)
    requires j < 4 && s != ""
    ensures Replace(s, j) == if Starts(s, j) then [CHARS[j]] + Replace(s[4..], j) else [s[0]] + Replace(s[1..], j)
  {
  }

  /** Every backslash starts one of the four escapes: what `mount_ids` insists on. */
  predicate WellEscaped(s: string) {
    forall i :: 0 <= i < |s| && s[i] == '\\' ==> exists j | 0 <= j < 4 :: Starts(s[i..], j)
  }

  predicate NoBlanks(s: string) {
    ' ' !in s && '\t' !in s && '\n' !in s
  }

  // ------------------------------------------------------------- the one-pass decoder

  /** The character at `i` and how far it reaches: the body of the loop below. */
  method At(s: string, i: nat) returns (c: char, n: nat)
    requires i < |s|
    ensures 1 <= n <= |s| - i && Pass(s[i..], 4) == [c] + Pass(s[i + n..], 4)
  {
    hide Pass; hide Which; hide Starts;
    c, n := s[i], 1;
    if s[i] == '\\' && i + 3 < |s| {
      var code := s[i + 1..i + 4];
      if code == "040" { c, n := ' ', 4; }
      else if code == "011" { c, n := '\t', 4; }
      else if code == "012" { c, n := '\n', 4; }
      else if code == "134" { c, n := '\\', 4; }
    }
    PassAt(s, i, c, n);
  }

  /** `unescapeMountInfo`. */
  method Unescape(s: string) returns (b: string)
    ensures b == Pass(s, 4)
  {
    if '\\' !in s {
      NothingToDecode(s, 4);
      return s;
    }
    hide Pass; hide Which; hide Starts;
    b := "";
    var i := 0;
    assert s[0..] == s;
    while i < |s|
      invariant 0 <= i <= |s| && Pass(s, 4) == b + Pass(s[i..], 4)
    {
      var c, n := At(s, i);
      b := b + [c];
      i := i + n;
    }
    assert Pass(s[i..], 4) == "" by { PassEmpty(s[i..], 4); }
  }

  /** The pass at position `i`, as the loop decides it. */
  lemma PassAt(s: string, i: nat, c: char, n: nat)
    requires i < |s|
    requires if s[i] == '\\' && i + 3 < |s| && s[i + 1..i + 4] in CODES then n == 4 && EscapeChar(c)[1..] == s[i + 1..i + 4] && c in CHARS else n == 1 && c == s[i]
    ensures Pass(s[i..], 4) == [c] + Pass(s[i + n..], 4)
  {
    hide Pass;
    PassStep(s[i..], 4);
    assert s[i..][1..] == s[i + 1..];
    if i + 3 < |s| { assert s[i + 1..i + 4] == s[i..][1..4] && s[i..][4..] == s[i + 4..]; }
  }

  lemma PassEmpty(s: string, k: nat)
    requires k <= 4 && s == ""
    ensures Pass(s, k) == ""
  {
  }

  lemma {:induction false} NothingToDecode(s: string, k: nat)
    requires k <= 4 && '\\' !in s
    ensures Pass(s, k) == s
  {
    if s != "" { NothingToDecode(s[1..], k); }
  }

  // ------------------------------------------------------------------- they agree

  lemma {:induction false} PassNone(s: string)
    ensures Pass(s, 0) == s
  {
    if s != "" { PassNone(s[1..]); }
  }

  predicate Digit(c: char) {
    '0' <= c <= '9'
  }

  /** A digit at the front of the output was at the front of the input, and conversely. */
  lemma DigitThrough(s: string, k: nat)
    requires k <= 4
    ensures Pass(s, k) != "" && Digit(Pass(s, k)[0]) ==> s != "" && s[0] == Pass(s, k)[0]
    ensures s != "" && Digit(s[0]) ==> Pass(s, k) == [s[0]] + Pass(s[1..], k)
  {
  }

  lemma DigitsThrough(s: string, k: nat, j: nat)
    requires k <= 4 && j < 4
    ensures |s| >= 3 && s[..3] == CODES[j] ==> Pass(s, k) == CODES[j] + Pass(s[3..], k)
    ensures |Pass(s, k)| >= 3 && Pass(s, k)[..3] == CODES[j] ==> |s| >= 3 && s[..3] == CODES[j]
  {
    hide Pass;
    var code := CODES[j];
    assert |code| == 3 && Digit(code[0]) && Digit(code[1]) && Digit(code[2]);
    DigitThrough(s, k);
    if |s| >= 1 { DigitThrough(s[1..], k); }
    if |s| >= 2 { DigitThrough(s[2..], k); assert s[1..][1..] == s[2..]; }
    if |s| >= 3 { assert s[2..][1..] == s[3..]; }
    if |s| >= 3 && s[..3] == code {
      assert s[0] == s[..3][0] && s[1] == s[..3][1] && s[2] == s[..3][2];
      assert [s[0]] + ([s[1]] + ([s[2]] + Pass(s[3..], k))) == s[..3] + Pass(s[3..], k);
    }
    var out := Pass(s, k);
    if |out| >= 3 && out[..3] == code {
      assert out[0] == out[..3][0] && out[1] == out[..3][1] && out[2] == out[..3][2];
      assert |s| >= 1 && s[0] == code[0];
      assert out == [s[0]] + Pass(s[1..], k) && Pass(s[1..], k)[0] == code[1];
      assert |s| >= 2 && s[1] == code[1];
      assert Pass(s[1..], k) == [s[1]] + Pass(s[2..], k) && Pass(s[2..], k)[0] == code[2];
      assert |s| >= 3 && s[2] == code[2];
      assert s[..3] == code;
    }
  }

  /** One more replacement is one more escape decoded in the pass: replaced characters neither
      start nor complete another escape. */
  lemma {:induction false} ReplaceAfterPass(s: string, k: nat)
    requires k < 4
    ensures Replace(Pass(s, k), k) == Pass(s, k + 1)
  {
    if s != "" {
      if |s| >= 4 { ReplaceAfterPass(s[4..], k); }
      ReplaceAfterPass(s[1..], k);
      hide Pass; hide Replace; hide Starts;
      PassStep(s, k);
      PassStep(s, k + 1);
      var out := Pass(s, k);
      ReplaceStep(out, k);
      if Starts(s, k) {
        EscapeThrough(s, k);
        assert Which(s, k + 1) == k;
      } else if Which(s, k) >= 0 {
        assert out[1..] == Pass(s[4..], k);
        NotEscape(out, k);
        assert Which(s, k + 1) == Which(s, k);
      } else {
        assert out[1..] == Pass(s[1..], k);
        PlainThrough(s, k);
        assert Which(s, k + 1) == -1;
      }
    }
  }

  lemma NotEscape(s: string, j: nat)
    requires j < 4 && s != "" && s[0] != '\\'
    ensures !Starts(s, j)
  {
  }

  lemma EscapeThrough(s: string, k: nat)
    requires k < 4 && Starts(s, k)
    ensures Starts(Pass(s, k), k) && Pass(s, k)[4..] == Pass(s[4..], k)
  {
    hide Pass;
    assert Which(s, k) == -1 by { OneEscape(s, k); }
    PassStep(s, k);
    DigitsThrough(s[1..], k, k);
    assert s[1..][..3] == s[1..4] && s[1..][3..] == s[4..];
    var out := Pass(s, k);
    assert out == ['\\'] + CODES[k] + Pass(s[4..], k) && |CODES[k]| == 3;
    assert out[1..4] == CODES[k];
  }

  lemma OneEscape(s: string, k: nat)
    requires k < 4 && Starts(s, k)
    ensures Which(s, k) == -1
  {
    assert CODES[0] != CODES[1] && CODES[0] != CODES[2] && CODES[0] != CODES[3];
    assert CODES[1] != CODES[2] && CODES[1] != CODES[3] && CODES[2] != CODES[3];
  }

  lemma PlainThrough(s: string, k: nat)
    requires k < 4 && s != "" && Which(s, k) == -1 && !Starts(s, k)
    ensures !Starts(Pass(s, k), k)
  {
    hide Pass;
    PassStep(s, k);
    DigitsThrough(s[1..], k, k);
    var out := Pass(s, k);
    assert out[1..] == Pass(s[1..], k) && |CODES[k]| == 3;
    assert |out| >= 4 ==> out[1..4] == out[1..][..3];
    assert |s| >= 4 ==> s[1..4] == s[1..][..3];
  }

  /** The two decoders agree on every string, well escaped or not. */
  lemma DecodersAgree(s: string)
    ensures Sequential(s) == Pass(s, 4)
  {
    PassNone(s);
    ReplaceAfterPass(s, 0);
    ReplaceAfterPass(s, 1);
    ReplaceAfterPass(s, 2);
    ReplaceAfterPass(s, 3);
  }

  // ------------------------------------------------------------- they undo the escaping

  lemma EscapedFirst(c: char, rest: string)
    ensures Pass(EscapeChar(c) + rest, 4) == [c] + Pass(rest, 4)
  {
    var s := EscapeChar(c) + rest;
    if c in CHARS {
      assert s[1..4] == EscapeChar(c)[1..4] && s[4..] == rest;
    } else {
      assert s[1..] == rest;
    }
  }

  /** Both decoders recover every path from what the kernel writes for it, and what it writes
      contains no separator and passes the worker's check. */
  lemma {:induction false} EscapeRoundTrip(path: string)
    ensures Pass(Escape(path), 4) == path && Sequential(Escape(path)) == path
    ensures NoBlanks(Escape(path)) && WellEscaped(Escape(path))
  {
    DecodersAgree(Escape(path));
    if path != "" {
      EscapeRoundTrip(path[1..]);
      DecodersAgree(Escape(path[1..]));
      EscapedFirst(path[0], Escape(path[1..]));
      WellEscapedFirst(path[0], Escape(path[1..]));
    }
  }

  lemma WellEscapedFirst(c: char, rest: string)
    requires WellEscaped(rest) && NoBlanks(rest)
    ensures WellEscaped(EscapeChar(c) + rest) && NoBlanks(EscapeChar(c) + rest)
  {
    var e := EscapeChar(c);
    var s := e + rest;
    forall i | 0 <= i < |s| && s[i] == '\\' ensures exists j | 0 <= j < 4 :: Starts(s[i..], j) {
      if i >= |e| {
        assert s[i..] == rest[i - |e|..];
      } else {
        assert i == 0 && s[i..] == s && s[1..4] == e[1..4];
        assert Starts(s, 0) || Starts(s, 1) || Starts(s, 2) || Starts(s, 3);
      }
    }
  }

  /** On strings the worker accepts, decoding loses nothing: each is what the kernel writes for
      the decoded path. */
  lemma {:induction false} UnescapeRoundTrip(s: string)
    requires WellEscaped(s) && NoBlanks(s)
    ensures Escape(Pass(s, 4)) == s
  {
    if s != "" {
      if s[0] == '\\' {
        assert s[0..] == s;
        var j :| 0 <= j < 4 && Starts(s, j);
        Suffix(s, 4);
        UnescapeRoundTrip(s[4..]);
        hide WellEscaped; hide Pass; hide Escape; hide Starts; hide EscapeChar;
        PassStep(s, 4);
        assert Which(s, 4) == j;
        EscapeStep(CHARS[j], Pass(s[4..], 4));
        EscapeBack(s, j);
      } else {
        Suffix(s, 1);
        UnescapeRoundTrip(s[1..]);
        hide WellEscaped; hide Pass; hide Escape;
        PassStep(s, 4);
        assert s[0] in s;
        EscapeStep(s[0], Pass(s[1..], 4));
        assert s == [s[0]] + s[1..];
      }
    }
  }

  lemma EscapeBack(s: string, j: nat)
    requires j < 4 && Starts(s, j)
    ensures s == EscapeChar(CHARS[j]) + s[4..]
  {
    assert s == s[..1] + s[1..4] + s[4..] && s[..1] == "\\";
    assert s[..1] + CODES[j] == EscapeChar(CHARS[j]);
  }

  lemma EscapeStep(c: char, path: string)
    ensures Escape([c] + path) == EscapeChar(c) + Escape(path)
  {
    assert ([c] + path)[1..] == path;
  }

  lemma Suffix(s: string, n: nat)
    requires WellEscaped(s) && NoBlanks(s) && n <= |s|
    ensures WellEscaped(s[n..]) && NoBlanks(s[n..])
  {
    var t := s[n..];
    forall i | 0 <= i < |t| && t[i] == '\\' ensures exists j | 0 <= j < 4 :: Starts(t[i..], j) {
      assert s[n + i] == '\\' && t[i..] == s[n + i..];
    }
  }
}
