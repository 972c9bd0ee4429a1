/** The JavaScript string primitives the bot's parsing relies on: `trim`,
    `toLowerCase` (ASCII letters and the Kelvin sign), `toUpperCase` (ASCII
    letters), `startsWith`, `split(/\s+/)`, `join`, `split(sep)[0]`,
    `parseInt(s, 10)` and the `/^"|"$/g` quote stripping.  Strings are
    sequences of UTF-16 code units. */
module Text {

  /** JavaScript white space and line terminators: the `\s` class of a
      regular expression and exactly what `trim` removes. */
  predicate IsSpace(c: char) {
    var n := c as int;
    n == 0x09 || n == 0x0A || n == 0x0B || n == 0x0C || n == 0x0D || n == 0x20
    || n == 0xA0 || n == 0x1680 || (0x2000 <= n <= 0x200A)
    || n == 0x2028 || n == 0x2029 || n == 0x202F || n == 0x205F || n == 0x3000 || n == 0xFEFF
  }

  predicate IsDigit(c: char) {
    '0' <= c <= '9'
  }

  predicate IsAsciiLetter(c: char) {
    ('a' <= c <= 'z') || ('A' <= c <= 'Z')
  }

  /** The `\w` class of a regular expression without the `u` flag. */
  predicate IsWordChar(c: char) {
    IsAsciiLetter(c) || IsDigit(c) || c == '_'
  }

  predicate NoSpace(s: string) {
    forall i :: 0 <= i < |s| ==> !IsSpace(s[i])
  }

  predicate AllSpace(s: string) {
    forall i :: 0 <= i < |s| ==> IsSpace(s[i])
  }

  /** `/^[0-9]+$/.test(s)` */
  predicate AllDigits(s: string) {
    |s| > 0 && forall i :: 0 <= i < |s| ==> IsDigit(s[i])
  }

  predicate StartsWith(s: string, prefix: string) {
    |prefix| <= |s| && s[..|prefix|] == prefix
  }

  // ---------------------------------------------------------------------------
  // trim
  // ---------------------------------------------------------------------------

  function TrimStart(s: string): (r: string)
    ensures |r| <= |s|
    ensures |r| > 0 ==> !IsSpace(r[0])
  {
    if |s| > 0 && IsSpace(s[0]) then TrimStart(s[1..]) else s
  }

  function TrimEnd(s: string): (r: string)
    ensures |r| <= |s|
    ensures |r| > 0 ==> !IsSpace(r[|r| - 1])
  {
    if |s| > 0 && IsSpace(s[|s| - 1]) then TrimEnd(s[..|s| - 1]) else s
  }

  /** `String.prototype.trim` */
  function Trim(s: string): string {
    TrimEnd(TrimStart(s))
  }

  /** Trimming the start cuts only white space, and only from the start.
      (Kept out of the function's contract: a slice of `s` equal to `s`
      itself would sit in every context that mentions a trim.) */
  lemma {:induction false} TrimStartCuts(s: string)
    ensures |TrimStart(s)| <= |s| && TrimStart(s) == s[|s| - |TrimStart(s)|..]
    ensures AllSpace(s[..|s| - |TrimStart(s)|])
    decreases |s|
  {
    if |s| > 0 && IsSpace(s[0]) {
      var t := s[1..];
      TrimStartCuts(t);
      var r := TrimStart(t);
      assert t[|t| - |r|..] == s[|s| - |r|..];
      assert forall k :: 0 <= k < |s| - |r| ==> IsSpace(s[k]) by {
        forall k | 0 <= k < |s| - |r| ensures IsSpace(s[k]) {
          if k > 0 {
            assert s[k] == t[..|t| - |r|][k - 1];
          }
        }
      }
    }
  }

  /** Trimming the end cuts only white space, and only from the end. */
  lemma {:induction false} TrimEndCuts(s: string)
    ensures |TrimEnd(s)| <= |s| && TrimEnd(s) == s[..|TrimEnd(s)|]
    ensures AllSpace(s[|TrimEnd(s)|..])
    decreases |s|
  {
    if |s| > 0 && IsSpace(s[|s| - 1]) {
      var t := s[..|s| - 1];
      TrimEndCuts(t);
      var r := TrimEnd(t);
      assert t[..|r|] == s[..|r|];
      assert forall k :: |r| <= k < |s| ==> IsSpace(s[k]) by {
        forall k | |r| <= k < |s| ensures IsSpace(s[k]) {
          if k < |s| - 1 {
            assert s[k] == t[|r|..][k - |r|];
          }
        }
      }
    }
  }

  /** What `trim` returns is the input with only white space cut from its two
      ends, and it has no white space left at either end. */
  lemma {:induction false} TrimShape(s: string)
    ensures exists i, j :: 0 <= i <= j <= |s| && Trim(s) == s[i..j]
                           && AllSpace(s[..i]) && AllSpace(s[j..])
    ensures |Trim(s)| > 0 ==> !IsSpace(Trim(s)[0]) && !IsSpace(Trim(s)[|Trim(s)| - 1])
  {
    var t := TrimStart(s);
    TrimStartCuts(s);
    TrimEndCuts(t);
    var i := |s| - |t|;
    var r := TrimEnd(t);
    var j := i + |r|;
    assert r == s[i..j];
    assert s[j..] == t[|r|..];
    if |r| > 0 {
      assert r[0] == t[0];
    }
  }

  lemma {:induction false} TrimStartNoop(s: string)
    requires |s| == 0 || !IsSpace(s[0])
    ensures TrimStart(s) == s
  {
  }

  lemma {:induction false} TrimEndNoop(s: string)
    requires |s| == 0 || !IsSpace(s[|s| - 1])
    ensures TrimEnd(s) == s
  {
  }

  /** Trimming a string twice changes nothing the second time. */
  lemma {:induction false} TrimIdempotent(s: string)
    ensures Trim(Trim(s)) == Trim(s)
  {
    TrimShape(s);
    var t := Trim(s);
    TrimStartNoop(t);
    TrimEndNoop(t);
  }

  // ---------------------------------------------------------------------------
  // case mapping
  // ---------------------------------------------------------------------------

  /** `toLowerCase` of one character, as far as the bot's keywords can see
      it: the ASCII capitals, and the Kelvin sign, which lower-cases to the
      letter k.  Every other character that lower-cases to an ASCII letter
      (only U+0130) becomes two characters, so it never completes a keyword
      and is kept as is. */
  function LowerChar(c: char): char {
    if 'A' <= c <= 'Z' then (c as int + 32) as char
    else if c == KelvinSign then 'k'
    else c
  }

  const KelvinSign: char := '\U{212A}'

  /** The case folding of a regular expression with the `i` flag and without
      the `u` flag: a character outside ASCII never matches an ASCII one, so
      only the ASCII capitals fold. */
  function FoldChar(c: char): char {
    if 'A' <= c <= 'Z' then (c as int + 32) as char else c
  }

  function UpperChar(c: char): char {
    if 'a' <= c <= 'z' then (c as int - 32) as char else c
  }

  /** `toLowerCase` */
  function Lower(s: string): string {
    seq(|s|, i requires 0 <= i < |s| => LowerChar(s[i]))
  }

  /** `toUpperCase`, for the ASCII text it is applied to: the position group
      of the lineup pattern, which only `\w` characters make up. */
  function Upper(s: string): string {
    seq(|s|, i requires 0 <= i < |s| => UpperChar(s[i]))
  }

  /** `s.replace(/[^A-Z]/gi, '')`: the ASCII letters of `s`, in order. */
  function LettersOnly(s: string): string {
    if |s| == 0 then ""
    else if IsAsciiLetter(s[0]) then [s[0]] + LettersOnly(s[1..])
    else LettersOnly(s[1..])
  }

  /** The lower-case literal `kw` at `i` of the lower-cased text: what
      `startsWith` tests on `s.toLowerCase()`. */
  predicate KeywordAt(s: string, i: nat, kw: string) {
    i + |kw| <= |s| && forall k :: 0 <= k < |kw| ==> LowerChar(s[i + k]) == kw[k]
  }

  /** The lower-case literal `kw` at `i` under the `i` flag of a regular
      expression without the `u` flag. */
  predicate IgnoreCaseAt(s: string, i: nat, kw: string) {
    i + |kw| <= |s| && forall k :: 0 <= k < |kw| ==> FoldChar(s[i + k]) == kw[k]
  }

  /** `s.toLowerCase() === lit` */
  predicate LowerIs(s: string, lit: string) {
    |s| == |lit| && KeywordAt(s, 0, lit)
  }

  /** The two index-wise predicates are the lower-cased comparisons they
      stand for. */
  lemma {:induction false} KeywordAtMeansLower(s: string, lit: string)
    ensures KeywordAt(s, 0, lit) <==> StartsWith(Lower(s), lit)
    ensures LowerIs(s, lit) <==> Lower(s) == lit
  {
    if StartsWith(Lower(s), lit) {
      assert forall k :: 0 <= k < |lit| ==> Lower(s)[..|lit|][k] == Lower(s)[k];
    }
    if KeywordAt(s, 0, lit) {
      assert Lower(s)[..|lit|] == lit;
    }
  }

  /** What a keyword found at `i` says about one of its characters. */
  lemma {:induction false} KeywordChar(s: string, i: nat, kw: string, k: nat)
    requires KeywordAt(s, i, kw) && k < |kw|
    ensures LowerChar(s[i + k]) == kw[k]
  {
  }

  /** A message that starts with a keyword whose first character is a
      letter still starts with that letter once trimmed, so it is not a
      number either. */
  lemma {:induction false} TrimKeepsKeywordHead(s: string, kw: string)
    requires KeywordAt(s, 0, kw) && |kw| > 0 && 'a' <= kw[0] <= 'z'
    ensures |Trim(s)| > 0 && LowerChar(Trim(s)[0]) == kw[0]
    ensures !AllDigits(Trim(s))
  {
    KeywordChar(s, 0, kw, 0);
    TrimStartNoop(s);
    TrimEndKeepsHead(s);
  }

  /** Trimming a text that starts with a non-space character keeps that
      character at its head. */
  lemma {:induction false} TrimEndKeepsHead(s: string)
    requires |s| > 0 && !IsSpace(s[0])
    ensures |TrimEnd(s)| > 0 && TrimEnd(s)[0] == s[0]
  {
    TrimEndCuts(s);
  }

  /** White space only trims to nothing. */
  lemma {:induction false} TrimAllSpace(s: string)
    requires AllSpace(s)
    ensures Trim(s) == ""
  {
    TrimStartCuts(s);
  }

  /** Two keywords that differ at some position are never both found at the
      same place. */
  lemma {:induction false} KeywordsDiffer(s: string, i: nat, a: string, b: string, k: nat)
    requires k < |a| && k < |b| && a[k] != b[k]
    ensures !(KeywordAt(s, i, a) && KeywordAt(s, i, b))
  {
  }

  /** A literal with no capital letters is found at the front of any text
      it starts. */
  lemma {:induction false} LiteralIsKeyword(lit: string, rest: string)
    requires forall k :: 0 <= k < |lit| ==> !('A' <= lit[k] <= 'Z') && lit[k] != KelvinSign
    ensures KeywordAt(lit + rest, 0, lit)
  {
    assert forall k :: 0 <= k < |lit| ==> (lit + rest)[k] == lit[k];
  }

  /** `s.slice(n)` for `n >= 0`: empty once `n` passes the end. */
  function Slice(s: string, n: nat): (r: string)
    ensures n <= |s| ==> s == s[..n] + r
    ensures n >= |s| ==> r == ""
  {
    if n <= |s| then s[n..] else ""
  }

  // ---------------------------------------------------------------------------
  // runs of one character class
  // ---------------------------------------------------------------------------

  /** Length of the run of white space starting at `i`. */
  function SpaceRun(s: string, i: nat): (n: nat)
    requires i <= |s|
    ensures i + n <= |s|
    ensures i + n == |s| || !IsSpace(s[i + n])
    decreases |s| - i
  {
    if i < |s| && IsSpace(s[i]) then 1 + SpaceRun(s, i + 1) else 0
  }

  lemma {:induction false} SpaceRunWithin(s: string, i: nat)
    requires i <= |s|
    ensures forall k :: i <= k < i + SpaceRun(s, i) ==> IsSpace(s[k])
    decreases |s| - i
  {
    if i < |s| && IsSpace(s[i]) {
      SpaceRunWithin(s, i + 1);
    }
  }

  /** Length of the run of decimal digits starting at `i`. */
  function DigitRun(s: string, i: nat): (n: nat)
    requires i <= |s|
    ensures i + n <= |s|
    ensures i + n == |s| || !IsDigit(s[i + n])
    decreases |s| - i
  {
    if i < |s| && IsDigit(s[i]) then 1 + DigitRun(s, i + 1) else 0
  }

  lemma {:induction false} DigitRunWithin(s: string, i: nat)
    requires i <= |s|
    ensures forall k :: i <= k < i + DigitRun(s, i) ==> IsDigit(s[k])
    decreases |s| - i
  {
    if i < |s| && IsDigit(s[i]) {
      DigitRunWithin(s, i + 1);
    }
  }

  /** Length of the run of `\w` characters starting at `i`. */
  function WordRun(s: string, i: nat): (n: nat)
    requires i <= |s|
    ensures i + n <= |s|
    ensures i + n == |s| || !IsWordChar(s[i + n])
    decreases |s| - i
  {
    if i < |s| && IsWordChar(s[i]) then 1 + WordRun(s, i + 1) else 0
  }

  lemma {:induction false} WordRunWithin(s: string, i: nat)
    requires i <= |s|
    ensures forall k :: i <= k < i + WordRun(s, i) ==> IsWordChar(s[k])
    decreases |s| - i
  {
    if i < |s| && IsWordChar(s[i]) {
      WordRunWithin(s, i + 1);
    }
  }

  // ---------------------------------------------------------------------------
  // parseInt(s, 10) and its inverse on natural numbers
  // ---------------------------------------------------------------------------

  /** A JavaScript number produced by `parseInt`: NaN or an integer. */
  datatype Num = NaN | Int(value: int)

  function DigitValue(c: char): nat
    requires IsDigit(c)
  {
    c as int - '0' as int
  }

  /** The value of a string of decimal digits (most significant first). */
  function DigitsValue(d: string): nat
    requires forall i :: 0 <= i < |d| ==> IsDigit(d[i])
  {
    if |d| == 0 then 0 else DigitsValue(d[..|d| - 1]) * 10 + DigitValue(d[|d| - 1])
  }

  /** `parseInt(s, 10)`: skip leading white space, read an optional sign, then
      the longest run of decimal digits; NaN when that run is empty. */
  function ParseInt(s: string): Num {
    ParseSigned(TrimStart(s))
  }

  /** `parseInt` after its leading white space is gone. */
  function ParseSigned(t: string): Num {
    var signed := |t| > 0 && (t[0] == '-' || t[0] == '+');
    var start := if signed then 1 else 0;
    var n := DigitRun(t, start);
    if n == 0 then NaN
    else
      DigitRunWithin(t, start);
      var v: int := DigitsValue(t[start..start + n]);
      Int(if signed && t[0] == '-' then -v else v)
  }

  function DigitChar(d: nat): (c: char)
    requires d < 10
    ensures IsDigit(c) && DigitValue(c) == d
  {
    ('0' as int + d) as char
  }

  /** The decimal numeral of `n`, as `String(n)` writes it. */
  function NatToString(n: nat): (s: string)
    ensures |s| > 0 && s[0] != '-' && s[0] != '+'
    ensures forall i :: 0 <= i < |s| ==> IsDigit(s[i])
  {
    if n < 10 then [DigitChar(n)] else NatToString(n / 10) + [DigitChar(n % 10)]
  }

  /** `String(n)` for any integer. */
  function IntToString(n: int): string {
    if n < 0 then "-" + NatToString(-n) else NatToString(n)
  }

  lemma {:induction false} DigitsValueOfNatToString(n: nat)
    ensures DigitsValue(NatToString(n)) == n
  {
    if n >= 10 {
      var s := NatToString(n);
      DigitsValueOfNatToString(n / 10);
      assert s[..|s| - 1] == NatToString(n / 10);
    }
  }

  lemma {:induction false} DigitRunAll(s: string, i: nat)
    requires i <= |s|
    requires forall k :: i <= k < |s| ==> IsDigit(s[k])
    ensures DigitRun(s, i) == |s| - i
    decreases |s| - i
  {
    if i < |s| {
      DigitRunAll(s, i + 1);
    }
  }

  lemma {:induction false} DigitRunStops(s: string, t: string, i: nat)
    requires i <= |s|
    requires forall k :: i <= k < |s| ==> IsDigit(s[k])
    requires |t| == 0 || !IsDigit(t[0])
    ensures DigitRun(s + t, i) == |s| - i
    decreases |s| - i
  {
    if i < |s| {
      DigitRunStops(s, t, i + 1);
    } else if |t| > 0 {
      assert (s + t)[i] == t[0];
    }
  }

  /** A run of digits followed by anything but another digit reads as the
      value of the run. */
  lemma {:induction false} ParseIntDigitsThen(d: string, rest: string)
    requires AllDigits(d)
    requires |rest| == 0 || !IsDigit(rest[0])
    ensures ParseInt(d + rest) == Int(DigitsValue(d))
  {
    var s := d + rest;
    assert s[0] == d[0];
    TrimStartNoop(s);
    assert TrimStart(s) == s;
    assert !(s[0] == '-' || s[0] == '+');
    DigitRunStops(d, rest, 0);
    assert s[0..|d|] == d;
  }

  /** Reading back a numeral with `parseInt` gives the number, whatever text
      follows it as long as that text does not begin with another digit
      (so "2nd" reads as 2). */
  lemma {:induction false} ParseIntNatToString(n: nat, rest: string)
    requires |rest| == 0 || !IsDigit(rest[0])
    ensures ParseInt(NatToString(n) + rest) == Int(n)
  {
    ParseIntDigitsThen(NatToString(n), rest);
    DigitsValueOfNatToString(n);
  }

  /** `parseInt(String(n))` is `n` for every integer, negative ones included. */
  lemma {:induction false} ParseIntIntToString(n: int)
    ensures ParseInt(IntToString(n)) == Int(n)
  {
    if n >= 0 {
      ParseIntNatToString(n, "");
      assert NatToString(n) + "" == NatToString(n);
    } else {
      var d := NatToString(-n);
      var s := "-" + d;
      TrimStartNoop(s);
      DigitRunAll(s, 1);
      assert s[1..1 + |d|] == d;
      DigitsValueOfNatToString(-n);
    }
  }

  /** A string that is all digits (with white space around it) reads as the
      value of those digits. */
  lemma {:induction false} ParseIntOfDigits(pre: string, d: string, post: string)
    requires AllSpace(pre) && AllDigits(d)
    requires |post| == 0 || IsSpace(post[0])
    ensures ParseInt(pre + d + post) == Int(DigitsValue(d))
  {
    var t := d + post;
    assert pre + d + post == pre + t;
    assert t[0] == d[0];
    TrimStartOfSpaces(pre, t);
    TrimStartNoop(t);
    if |post| > 0 {
      assert !IsDigit(post[0]);
    }
    ParseIntDigitsThen(d, post);
  }


  /** White space in front of a string that does not start with white
      space is exactly what trimming the start removes. */
  lemma {:induction false} TrimStartOfSpaces(pre: string, t: string)
    requires AllSpace(pre)
    requires |t| == 0 || !IsSpace(t[0])
    ensures TrimStart(pre + t) == t
    decreases |pre|
  {
    if |pre| > 0 {
      assert (pre + t)[1..] == pre[1..] + t;
      assert IsSpace(pre[0]);
      TrimStartOfSpaces(pre[1..], t);
    } else {
      assert pre + t == t;
    }
  }

  // ---------------------------------------------------------------------------
  // split(/\s+/), join(" "), split(sep)[0], replace(/^"|"$/g, '')
  // ---------------------------------------------------------------------------

  /** Index of the first white space character at or after `i`, or `|s|`. */
  function FirstSpace(s: string, i: nat): (j: nat)
    requires i <= |s|
    ensures i <= j <= |s|
    ensures forall k :: i <= k < j ==> !IsSpace(s[k])
    ensures j < |s| ==> IsSpace(s[j])
    decreases |s| - i
  {
    if i == |s| || IsSpace(s[i]) then i else FirstSpace(s, i + 1)
  }

  /** `s.split(/\s+/)`: the pieces between maximal runs of white space; a
      leading or trailing run yields an empty first or last piece. */
  function SplitWs(s: string): (parts: seq<string>)
    ensures |parts| >= 1
    ensures forall p :: p in parts ==> NoSpace(p)
    decreases |s|
  {
    var i := FirstSpace(s, 0);
    if i == |s| then [s]
    else
      var j := i + SpaceRun(s, i);
      [s[..i]] + SplitWs(s[j..])
  }

  /** `parts.join(sep)` */
  function Join(parts: seq<string>, sep: string): string {
    if |parts| == 0 then ""
    else if |parts| == 1 then parts[0]
    else parts[0] + sep + Join(parts[1..], sep)
  }

  /** Splitting words joined by single spaces gives the words back. */
  lemma {:induction false} SplitJoin(words: seq<string>)
    requires |words| >= 1
    requires forall w :: w in words ==> |w| > 0 && NoSpace(w)
    ensures SplitWs(Join(words, " ")) == words
    decreases |words|
  {
    var s := Join(words, " ");
    var w := words[0];
    if |words| == 1 {
      assert FirstSpace(s, 0) == |s| by { NoSpaceFirstSpace(s, 0); }
    } else {
      var tail := Join(words[1..], " ");
      assert s == w + " " + tail;
      FirstSpaceAt(w, " " + tail);
      assert s == w + (" " + tail);
      assert FirstSpace(s, 0) == |w|;
      assert words[1] in words;
      assert words[1..][0] == words[1];
      JoinStartsWithWord(words[1..]);
      SpaceRunOne(w, tail);
      assert s[..|w|] == w;
      assert s[|w| + 1..] == tail;
      forall v | v in words[1..] ensures |v| > 0 && NoSpace(v) {
        assert v in words;
      }
      SplitJoin(words[1..]);
      assert words == [w] + words[1..];
    }
  }

  /** Two words and then some more, split at white space: the first two
      pieces are the two words and the rest are the other words. */
  lemma {:induction false} WordsAfterTwo(a: string, b: string, words: seq<string>)
    requires |a| > 0 && NoSpace(a) && |b| > 0 && NoSpace(b) && |words| >= 1
    requires forall v :: v in words ==> |v| > 0 && NoSpace(v)
    ensures var parts := SplitWs(a + " " + b + " " + Join(words, " "));
            |parts| >= 3 && parts[2..] == words
  {
    var all := [a, b] + words;
    assert all[1..] == [b] + words;
    assert all[1..][1..] == words;
    assert Join(all, " ") == a + " " + b + " " + Join(words, " ");
    forall v | v in all
      ensures |v| > 0 && NoSpace(v)
    {
      if v !in words {
        assert v == a || v == b;
      }
    }
    SplitJoin(all);
    assert all[2..] == words;
  }

  /** Words joined by single spaces, with no quote at either end, come
      through the trimming and quote stripping unchanged. */
  lemma {:induction false} JoinUntouched(words: seq<string>)
    requires |words| >= 1
    requires forall v :: v in words ==> |v| > 0 && NoSpace(v)
    requires words[0][0] != '"' && words[|words| - 1][|words[|words| - 1]| - 1] != '"'
    ensures var j := Join(words, " "); Trim(StripQuotes(Trim(j))) == j
  {
    var j := Join(words, " ");
    JoinStartsWithWord(words);
    JoinEndsWithWord(words);
    assert words[0] in words && words[|words| - 1] in words;
    TrimStartNoop(j);
    TrimEndNoop(j);
    assert StripQuotes(j) == j;
  }

  lemma {:induction false} NoSpaceFirstSpace(s: string, i: nat)
    requires i <= |s| && forall k :: i <= k < |s| ==> !IsSpace(s[k])
    ensures FirstSpace(s, i) == |s|
    decreases |s| - i
  {
    if i < |s| {
      NoSpaceFirstSpace(s, i + 1);
    }
  }

  lemma {:induction false} FirstSpaceAt(w: string, t: string)
    requires NoSpace(w) && |t| > 0 && IsSpace(t[0])
    ensures FirstSpace(w + t, 0) == |w|
  {
    var s := w + t;
    assert s[|w|] == t[0];
    assert forall k :: 0 <= k < |w| ==> s[k] == w[k];
  }

  lemma {:induction false} JoinStartsWithWord(words: seq<string>)
    requires |words| >= 1 && |words[0]| > 0
    ensures |Join(words, " ")| > 0 && Join(words, " ")[0] == words[0][0]
  {
  }

  lemma {:induction false} JoinEndsWithWord(words: seq<string>)
    requires |words| >= 1 && |words[|words| - 1]| > 0
    ensures var j := Join(words, " "); var last := words[|words| - 1];
            |j| > 0 && j[|j| - 1] == last[|last| - 1]
    decreases |words|
  {
    if |words| > 1 {
      assert words[1..][|words[1..]| - 1] == words[|words| - 1];
      JoinEndsWithWord(words[1..]);
    }
  }

  lemma {:induction false} SpaceRunOne(w: string, tail: string)
    requires |tail| > 0 && !IsSpace(tail[0])
    ensures SpaceRun(w + " " + tail, |w|) == 1
  {
    var s := w + " " + tail;
    assert s[|w|] == ' ';
    assert s[|w| + 1] == tail[0];
  }

  /** `s.split(sep)[0]`: everything before the first occurrence of a
      non-empty separator, or all of `s` when it does not occur. */
  function PrefixBefore(s: string, sep: string): string
    requires |sep| > 0
  {
    if |s| < |sep| then s
    else if s[..|sep|] == sep then ""
    else [s[0]] + PrefixBefore(s[1..], sep)
  }

  /** No occurrence of `sep` in `s` starts before position `n`. */
  predicate FreeBefore(s: string, sep: string, n: int) {
    forall i :: 0 <= i < n ==> !OccursAt(s, sep, i)
  }

  predicate OccursAt(s: string, sep: string, i: int) {
    0 <= i && i + |sep| <= |s| && s[i..i + |sep|] == sep
  }

  /** `split(sep)[0]` is the text before the first occurrence of the
      separator, or everything when it does not occur. */
  lemma {:induction false} PrefixBeforeSpec(s: string, sep: string)
    requires |sep| > 0
    ensures StartsWith(s, PrefixBefore(s, sep))
    ensures FreeBefore(s, sep, |PrefixBefore(s, sep)|)
    ensures PrefixBefore(s, sep) == s || StartsWith(s[|PrefixBefore(s, sep)|..], sep)
    decreases |s|
  {
    var r := PrefixBefore(s, sep);
    if |s| < |sep| {
    } else if s[..|sep|] == sep {
    } else {
      PrefixBeforeSpec(s[1..], sep);
      var r' := PrefixBefore(s[1..], sep);
      assert r == [s[0]] + r';
      assert s[1..][..|r'|] == r';
      assert s[..|r|] == r;
      forall i | 0 <= i < |r|
        ensures !OccursAt(s, sep, i)
      {
        if i > 0 && i + |sep| <= |s| {
          assert s[i..i + |sep|] == s[1..][i - 1..i - 1 + |sep|];
          assert !OccursAt(s[1..], sep, i - 1);
        }
      }
      if r != s {
        assert s[|r|..] == s[1..][|r'|..];
      }
    }
  }

  /** The converse of PrefixBeforeSpec: when the first occurrence of the
      separator is right after `head`, the prefix is exactly `head`. */
  lemma {:induction false} PrefixBeforeOf(head: string, sep: string, tail: string)
    requires |sep| > 0
    requires FreeBefore(head + sep + tail, sep, |head|)
    ensures PrefixBefore(head + sep + tail, sep) == head
  {
    var s := head + sep + tail;
    PrefixBeforeSpec(s, sep);
    var r := PrefixBefore(s, sep);
    assert s[|head|..|head| + |sep|] == sep;
    assert OccursAt(s, sep, |head|);
    if |r| < |head| {
      assert s[|r|..][..|sep|] == s[|r|..|r| + |sep|];
      assert OccursAt(s, sep, |r|);
    }
    assert s[..|head|] == head;
  }

  /** `/^"|"$/g` replaced by '': one leading and one trailing double quote
      removed (a lone `"` counts only once). */
  function StripQuotes(s: string): string {
    var a := if |s| > 0 && s[0] == '"' then s[1..] else s;
    if |a| > 0 && a[|a| - 1] == '"' then a[..|a| - 1] else a
  }
}
