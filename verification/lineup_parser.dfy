/** The lineup command pattern
        ^(start|bench)\s+([\w\s'.-]+?)(?:\s+at\s+(\w+))?\s+week\s+(\d+)   (flag i)
    as a backtracking matcher that tries the alternatives in the order a
    JavaScript regular expression engine does: the greedy `\s+` after the
    action from its longest run down, the lazy name from one character up,
    the optional position before its absence.  Every other quantifier can
    only succeed with its longest run, because the next token needs a
    character the run consumes.  Nothing anchors the end, so text after the
    week digits is ignored. */
module LineupParser {
  import opened Optional
  import opened Text

  datatype Action = Start | Bench

  /** The capture groups: the action, the raw name, the raw position word
      when the `at` group matched, and the week digits. */
  datatype LineupCommand = LineupCommand(action: Action, name: string, position: Option<string>, week: string)

  function ActionWord(a: Action): string {
    match a
    case Start => "start"
    case Bench => "bench"
  }

  /** The class `[\w\s'.-]` of the name group. */
  predicate InNameClass(c: char) {
    IsWordChar(c) || IsSpace(c) || c == '\'' || c == '.' || c == '-'
  }

  predicate AllNameClass(s: string) {
    forall i :: 0 <= i < |s| ==> InNameClass(s[i])
  }

  /** Every character of `s[i..j]` is in the name class. */
  predicate ClassBetween(s: string, i: nat, j: nat) {
    forall k :: i <= k < j && k < |s| ==> InNameClass(s[k])
  }

  predicate AllWordChars(s: string) {
    |s| > 0 && forall i :: 0 <= i < |s| ==> IsWordChar(s[i])
  }

  /** `(start|bench)` under the `i` flag. */
  function ActionAt(s: string): (r: Option<Action>)
    ensures r.Some? ==> |s| >= 5 && IgnoreCaseAt(s, 0, ActionWord(r.value))
  {
    if IgnoreCaseAt(s, 0, "start") then Some(Start)
    else if IgnoreCaseAt(s, 0, "bench") then Some(Bench)
    else None
  }

  /** `\s+week\s+(\d+)` at `i`: the digits. */
  function WeekAt(s: string, i: nat): (r: Option<string>)
    requires i <= |s|
    ensures r.Some? ==> AllDigits(r.value)
  {
    var a := SpaceRun(s, i);
    if a == 0 || !IgnoreCaseAt(s, i + a, "week") then None
    else
      var j := i + a + 4;
      var b := SpaceRun(s, j);
      var d := DigitRun(s, j + b);
      if b == 0 || d == 0 then None
      else
        DigitRunWithin(s, j + b);
        Some(s[j + b..j + b + d])
  }

  /** `\s+at\s+(\w+)` at `i`: the word and the index after it. */
  function PositionAt(s: string, i: nat): (r: Option<(string, nat)>)
    requires i <= |s|
    ensures r.Some? ==> r.value.1 <= |s| && AllWordChars(r.value.0)
  {
    var a := SpaceRun(s, i);
    if a == 0 || !IgnoreCaseAt(s, i + a, "at") then None
    else
      var j := i + a + 2;
      var b := SpaceRun(s, j);
      var n := WordRun(s, j + b);
      if b == 0 || n == 0 then None
      else
        WordRunWithin(s, j + b);
        Some((s[j + b..j + b + n], j + b + n))
  }

  /** `(?:\s+at\s+(\w+))?\s+week\s+(\d+)` at `e`: the group first, then
      without it. */
  function AfterName(s: string, e: nat): (r: Option<(Option<string>, string)>)
    requires e <= |s|
    ensures r.Some? ==> AllDigits(r.value.1)
    ensures r.Some? && r.value.0.Some? ==> AllWordChars(r.value.0.value)
  {
    var p := PositionAt(s, e);
    var weekAfterPosition := if p.Some? then WeekAt(s, p.value.1) else None;
    if weekAfterPosition.Some? then Some((Some(p.value.0), weekAfterPosition.value))
    else
      var week := WeekAt(s, e);
      if week.Some? then Some((None, week.value)) else None
  }

  /** The lazy name `[\w\s'.-]+?` ending before `e`: the end `e` is tried
      first, and the name grows one character at a time while the class
      allows.  A match's name characters from `e - 1` on are in the class. */
  function LazyName(s: string, e: nat): (r: Option<(nat, Option<string>, string)>)
    ensures r.Some? ==> 0 < e <= r.value.0 <= |s| && ClassBetween(s, e - 1, r.value.0)
    ensures r.Some? ==> AllDigits(r.value.2)
    ensures r.Some? && r.value.1.Some? ==> AllWordChars(r.value.1.value)
    decreases |s| + 1 - e
  {
    if e == 0 || e > |s| || !InNameClass(s[e - 1]) then None
    else
      var rest := AfterName(s, e);
      if rest.Some? then Some((e, rest.value.0, rest.value.1))
      else LazyName(s, e + 1)
  }

  /** The greedy `\s+` after the action: `k` white space characters, from
      the longest run down to one. */
  function GreedySpaces(s: string, k: nat): (r: Option<(nat, nat, Option<string>, string)>)
    requires 5 + k <= |s| + 1
    ensures r.Some? ==> 5 < r.value.0 <= 5 + k && r.value.0 < r.value.1 <= |s|
    ensures r.Some? ==> ClassBetween(s, r.value.0, r.value.1) && AllDigits(r.value.3)
    ensures r.Some? && r.value.2.Some? ==> AllWordChars(r.value.2.value)
    decreases k
  {
    if k == 0 then None
    else if 5 + k == |s| + 1 then GreedySpaces(s, k - 1)
    else
      var name := LazyName(s, 5 + k + 1);
      if name.Some? then Some((5 + k, name.value.0, name.value.1, name.value.2))
      else GreedySpaces(s, k - 1)
  }

  /** `body.match(pattern)`: the groups, or absent when nothing matches.
      A match has a non-empty name drawn from the name class, a position
      made of word characters, and week digits. */
  function ParseLineup(s: string): (r: Option<LineupCommand>)
    ensures r.Some? ==> IgnoreCaseAt(s, 0, ActionWord(r.value.action))
    ensures r.Some? ==> |r.value.name| > 0 && AllNameClass(r.value.name)
    ensures r.Some? ==> AllDigits(r.value.week)
    ensures r.Some? && r.value.position.Some? ==> AllWordChars(r.value.position.value)
  {
    match ActionAt(s)
    case None => None
    case Some(act) =>
      match GreedySpaces(s, SpaceRun(s, 5))
      case None => None
      case Some((start, e, pos, week)) =>
        assert forall k :: 0 <= k < e - start ==> s[start..e][k] == s[start + k];
        Some(LineupCommand(act, s[start..e], pos, week))
  }

  // ---------------------------------------------------------------------------
  // rendering, and the round trip
  // ---------------------------------------------------------------------------

  function PositionText(p: Option<string>): string {
    match p
    case Some(pos) => " at " + pos
    case None => ""
  }

  /** The canonical text of a command, as the usage reply spells it. */
  function Render(c: LineupCommand): string {
    ActionWord(c.action) + " " + c.name + PositionText(c.position) + " week " + c.week
  }

  /** `x` starts with the keyword, case-insensitively, followed by white
      space. */
  predicate KeywordThenSpace(x: string, kw: string) {
    IgnoreCaseAt(x, 0, kw) && |kw| < |x| && IsSpace(x[|kw|])
  }

  /** No word after a space in the name is `at` or `week` followed by white
      space or by the end of the name: otherwise the lazy name group stops
      there. */
  predicate NoKeywordAfterSpace(name: string) {
    forall m :: 0 < m < |name| && IsSpace(name[m - 1]) ==>
      !KeywordThenSpace(name[m..] + " ", "at") && !KeywordThenSpace(name[m..] + " ", "week")
  }

  /** The commands the pattern reads back exactly: a name of the class that
      neither starts nor ends with white space and holds no keyword, a word
      position, and week digits. */
  predicate WellFormed(c: LineupCommand) {
    && |c.name| > 0 && AllNameClass(c.name)
    && !IsSpace(c.name[0]) && !IsSpace(c.name[|c.name| - 1])
    && NoKeywordAfterSpace(c.name)
    && (c.position.Some? ==> AllWordChars(c.position.value))
    && AllDigits(c.week)
  }

  lemma {:induction false} SpaceRunIs(s: string, i: nat, n: nat)
    requires i + n <= |s|
    requires forall k :: i <= k < i + n ==> IsSpace(s[k])
    requires i + n == |s| || !IsSpace(s[i + n])
    ensures SpaceRun(s, i) == n
    decreases n
  {
    if n > 0 {
      SpaceRunIs(s, i + 1, n - 1);
    }
  }

  lemma {:induction false} DigitRunIs(s: string, i: nat, n: nat)
    requires i + n <= |s|
    requires forall k :: i <= k < i + n ==> IsDigit(s[k])
    requires i + n == |s| || !IsDigit(s[i + n])
    ensures DigitRun(s, i) == n
    decreases n
  {
    if n > 0 {
      DigitRunIs(s, i + 1, n - 1);
    }
  }

  lemma {:induction false} WordRunIs(s: string, i: nat, n: nat)
    requires i + n <= |s|
    requires forall k :: i <= k < i + n ==> IsWordChar(s[k])
    requires i + n == |s| || !IsWordChar(s[i + n])
    ensures WordRun(s, i) == n
    decreases n
  {
    if n > 0 {
      WordRunIs(s, i + 1, n - 1);
    }
  }

  /** The digits `d` sit at `j`, with no digit after them. */
  lemma {:induction false} DigitRunOfSlice(s: string, j: nat, d: string)
    requires j + |d| <= |s| && s[j..j + |d|] == d && AllDigits(d)
    requires j + |d| == |s| || !IsDigit(s[j + |d|])
    ensures DigitRun(s, j) == |d|
  {
    assert forall k :: j <= k < j + |d| ==> s[k] == d[k - j];
    DigitRunIs(s, j, |d|);
  }

  /** The word `p` sits at `j`, with no word character after it. */
  lemma {:induction false} WordRunOfSlice(s: string, j: nat, p: string)
    requires j + |p| < |s| && s[j..j + |p|] == p && AllWordChars(p)
    requires !IsWordChar(s[j + |p|])
    ensures WordRun(s, j) == |p|
  {
    assert forall k :: j <= k < j + |p| ==> s[k] == p[k - j];
    WordRunIs(s, j, |p|);
  }

  /** `t` is the text of `s` from `i` on. */
  predicate SuffixAt(s: string, i: nat, t: string) {
    i <= |s| && s[i..] == t
  }

  lemma {:induction false} SuffixOfConcat(a: string, t: string)
    ensures SuffixAt(a + t, |a|, t)
  {
    assert (a + t)[|a|..] == t;
  }

  lemma {:induction false} SuffixSkip(s: string, i: nat, x: string, t: string)
    requires SuffixAt(s, i, x + t)
    ensures SuffixAt(s, i + |x|, t)
  {
    assert s[i + |x|..] == s[i..][|x|..];
    assert (x + t)[|x|..] == t;
  }

  lemma {:induction false} SuffixHead(s: string, i: nat, x: string, t: string)
    requires SuffixAt(s, i, x + t)
    ensures i + |x| <= |s| && s[i..i + |x|] == x
  {
    assert s[i..i + |x|] == s[i..][..|x|];
    assert (x + t)[..|x|] == x;
  }

  /** The character at `i` is the first one of the suffix there. */
  lemma {:induction false} SuffixFirst(s: string, i: nat, t: string)
    requires SuffixAt(s, i, t) && |t| > 0
    ensures s[i] == t[0]
  {
    assert s[i..][0] == s[i];
  }

  /** `s` holds " week " at `i`. */
  predicate SpacedWeekAt(s: string, i: nat) {
    i + 6 <= |s| && s[i] == ' ' && s[i + 1] == 'w' && s[i + 2] == 'e' && s[i + 3] == 'e'
    && s[i + 4] == 'k' && s[i + 5] == ' '
  }

  /** `s` holds " at " at `i`. */
  predicate SpacedAtAt(s: string, i: nat) {
    i + 4 <= |s| && s[i] == ' ' && s[i + 1] == 'a' && s[i + 2] == 't' && s[i + 3] == ' '
  }

  lemma {:induction false} SpacedWeekOf(s: string, i: nat, t: string)
    requires SuffixAt(s, i, " week " + t)
    ensures SpacedWeekAt(s, i)
  {
    SuffixHead(s, i, " week ", t);
    assert s[i..i + 6] == " week ";
  }

  lemma {:induction false} SpacedAtOf(s: string, i: nat, t: string)
    requires SuffixAt(s, i, " at " + t)
    ensures SpacedAtAt(s, i)
  {
    SuffixHead(s, i, " at ", t);
    assert s[i..i + 4] == " at ";
  }

  lemma {:induction false} WeekKeyword(s: string, j: nat)
    requires j + 4 <= |s| && s[j] == 'w' && s[j + 1] == 'e' && s[j + 2] == 'e' && s[j + 3] == 'k'
    ensures IgnoreCaseAt(s, j, "week")
  {
    forall k | 0 <= k < 4
      ensures FoldChar(s[j + k]) == "week"[k]
    {
      if k == 0 {} else if k == 1 {} else if k == 2 {} else {}
    }
  }

  lemma {:induction false} AtKeyword(s: string, j: nat)
    requires j + 2 <= |s| && s[j] == 'a' && s[j + 1] == 't'
    ensures IgnoreCaseAt(s, j, "at")
  {
    forall k | 0 <= k < 2
      ensures FoldChar(s[j + k]) == "at"[k]
    {
      if k == 0 {} else {}
    }
  }

  /** A white space character inside the first `|kw|` characters rules the
      keyword out, and past that only the characters up to the keyword's end
      and the one after matter. */
  lemma {:induction false} KeywordThenSpaceOfPrefix(u: string, x: string, kw: string)
    requires |x| > 0 && IsSpace(x[0]) && NoSpace(kw)
    ensures KeywordThenSpace(u + x, kw) ==> KeywordThenSpace(u + " ", kw)
  {
    var t := u + x;
    if |u| < |kw| <= |t| {
      assert t[|u|] == x[0] && FoldChar(x[0]) == x[0];
      assert !IsSpace(kw[|u|]);
      assert FoldChar(t[0 + |u|]) != kw[|u|];
    } else if |kw| <= |u| {
      assert forall k :: 0 <= k < |kw| ==> t[k] == (u + " ")[k];
      assert IsSpace(t[|kw|]) <==> IsSpace((u + " ")[|kw|]);
    }
  }

  /** " week " and then the digits `week` at `i`, with no digit after them. */
  lemma {:induction false} WeekAtIn(s: string, i: nat, week: string)
    requires SpacedWeekAt(s, i) && i + 6 + |week| <= |s|
    requires s[i + 6..i + 6 + |week|] == week && AllDigits(week)
    requires i + 6 + |week| == |s| || !IsDigit(s[i + 6 + |week|])
    ensures WeekAt(s, i) == Some(week)
  {
    assert s[i + 6] == week[0];
    SpaceRunIs(s, i, 1);
    WeekKeyword(s, i + 1);
    SpaceRunIs(s, i + 5, 1);
    DigitRunOfSlice(s, i + 6, week);
  }

  /** " at " and then the word `p` at `i`, with no word character after it. */
  lemma {:induction false} PositionAtIn(s: string, i: nat, p: string)
    requires SpacedAtAt(s, i) && i + 4 + |p| < |s|
    requires s[i + 4..i + 4 + |p|] == p && AllWordChars(p) && !IsWordChar(s[i + 4 + |p|])
    ensures PositionAt(s, i) == Some((p, i + 4 + |p|))
  {
    assert s[i + 4] == p[0];
    SpaceRunIs(s, i, 1);
    AtKeyword(s, i + 1);
    SpaceRunIs(s, i + 3, 1);
    WordRunOfSlice(s, i + 4, p);
  }

  lemma {:induction false} NoPositionBeforeWeek(s: string, i: nat, t: string)
    requires SuffixAt(s, i, " week " + t)
    ensures PositionAt(s, i) == None
  {
    SpacedWeekOf(s, i, t);
    SpaceRunIs(s, i, 1);
    assert FoldChar(s[i + 1]) != "at"[0];
  }

  /** What a match of the position group needs at `i`: white space, then
      "at" followed by white space. */
  lemma {:induction false} PositionNeedsKeyword(s: string, i: nat)
    requires i <= |s|
    ensures PositionAt(s, i).Some? ==>
      SpaceRun(s, i) > 0 && KeywordThenSpace(s[i + SpaceRun(s, i)..], "at")
  {
    var j := i + SpaceRun(s, i);
    if PositionAt(s, i).Some? {
      assert s[j..][2] == s[j + 2];
      assert forall k :: 0 <= k < 2 ==> s[j..][k] == s[j + k];
    }
  }

  /** What a match of the week part needs at `i`: white space, then "week"
      followed by white space. */
  lemma {:induction false} WeekNeedsKeyword(s: string, i: nat)
    requires i <= |s|
    ensures WeekAt(s, i).Some? ==>
      SpaceRun(s, i) > 0 && KeywordThenSpace(s[i + SpaceRun(s, i)..], "week")
  {
    var j := i + SpaceRun(s, i);
    if WeekAt(s, i).Some? {
      assert s[j..][4] == s[j + 4];
      assert forall k :: 0 <= k < 4 ==> s[j..][k] == s[j + k];
    }
  }

  /** Without the position group and without the week part right at `e`,
      the rest of the pattern does not match there. */
  lemma {:induction false} AfterNameNone(s: string, e: nat)
    requires e <= |s|
    requires PositionAt(s, e).None? && WeekAt(s, e).None?
    ensures NoEndAt(s, e)
  {
  }

  /** The lazy name stops at the first end `E` where the rest matches, as
      long as every character up to there is in the class. */
  lemma {:induction false} LazyNameAt(s: string, e: nat, pos: Option<string>, week: string)
    requires 0 < e <= |s|
    requires InNameClass(s[e - 1])
    requires AfterName(s, e) == Some((pos, week))
    ensures LazyName(s, e) == Some((e, pos, week))
  {
  }

  lemma {:induction false} LazyNameNext(s: string, e: nat)
    requires 0 < e < |s|
    requires InNameClass(s[e - 1])
    requires NoEndAt(s, e)
    ensures LazyName(s, e) == LazyName(s, e + 1)
  {
  }

  /** No end in `[lo, hi)` lets the rest of the pattern match. */
  predicate NoEndBetween(s: string, lo: nat, hi: nat) {
    forall k :: lo <= k < hi ==> NoEndAt(s, k)
  }

  predicate NoEndAt(s: string, k: nat) {
    k <= |s| && AfterName(s, k).None?
  }

  lemma {:induction false} LazyNameStopsAt(s: string, e: nat, bigE: nat, pos: Option<string>, week: string)
    requires 0 < e <= bigE <= |s|
    requires ClassBetween(s, e - 1, bigE)
    requires NoEndBetween(s, e, bigE)
    requires AfterName(s, bigE) == Some((pos, week))
    ensures LazyName(s, e) == Some((bigE, pos, week))
  {
    LazySkip(s, e, bigE);
    LazyNameAt(s, bigE, pos, week);
  }

  /** Ends that cannot finish the match are passed over. */
  lemma {:induction false} LazySkip(s: string, e: nat, bigE: nat)
    requires 0 < e <= bigE <= |s|
    requires ClassBetween(s, e - 1, bigE)
    requires NoEndBetween(s, e, bigE)
    ensures LazyName(s, e) == LazyName(s, bigE)
    decreases bigE - e
  {
    if e != bigE {
      assert NoEndAt(s, e);
      LazyNameNext(s, e);
      LazySkip(s, e + 1, bigE);
    }
  }

  /** A run of white space starting inside a name whose last character is
      not white space ends inside the name, after white space. */
  lemma {:induction false} RunInsideName(s: string, i: nat, name: string, tail: string, e: nat)
    requires SuffixAt(s, i, name + tail)
    requires |name| > 0 && !IsSpace(name[|name| - 1])
    requires i < e < i + |name|
    ensures var j := e + SpaceRun(s, e);
            SpaceRun(s, e) > 0 ==> j < i + |name| && IsSpace(s[j - 1])
  {
    SpaceRunWithin(s, e);
    assert s[i + (|name| - 1)] == (name + tail)[|name| - 1];
  }

  /** The text from inside the name on. */
  lemma {:induction false} SuffixInsideName(s: string, i: nat, name: string, tail: string, m: nat)
    requires SuffixAt(s, i, name + tail)
    requires 0 < m < |name|
    ensures s[i + m..] == name[m..] + tail && s[i + m - 1] == name[m - 1]
  {
    assert name + tail == name[..m] + (name[m..] + tail);
    SuffixSkip(s, i, name[..m], name[m..] + tail);
    assert s[i + (m - 1)] == (name + tail)[m - 1];
  }

  /** Inside a well-formed name, white space is never followed by "at" or
      "week" and white space. */
  lemma {:induction false} NoKeywordInsideName(s: string, i: nat, name: string, tail: string, e: nat)
    requires SuffixAt(s, i, name + tail)
    requires |name| > 0 && !IsSpace(name[|name| - 1]) && NoKeywordAfterSpace(name)
    requires |tail| > 0 && IsSpace(tail[0])
    requires i < e < i + |name|
    ensures var j := e + SpaceRun(s, e);
            SpaceRun(s, e) > 0 ==> !KeywordThenSpace(s[j..], "at") && !KeywordThenSpace(s[j..], "week")
  {
    var a := SpaceRun(s, e);
    if a > 0 {
      var j := e + a;
      RunInsideName(s, i, name, tail, e);
      var m := j - i;
      SuffixInsideName(s, i, name, tail, m);
      assert NoSpace("at") && NoSpace("week");
      KeywordThenSpaceOfPrefix(name[m..], tail, "at");
      KeywordThenSpaceOfPrefix(name[m..], tail, "week");
    }
  }

  /** Inside a well-formed name no end lets the rest of the pattern match. */
  lemma {:induction false} NoEarlyEnd(s: string, i: nat, name: string, tail: string, e: nat)
    requires SuffixAt(s, i, name + tail)
    requires |name| > 0 && !IsSpace(name[|name| - 1]) && NoKeywordAfterSpace(name)
    requires |tail| > 0 && IsSpace(tail[0])
    requires i < e < i + |name|
    ensures NoEndAt(s, e)
  {
    NoKeywordInsideName(s, i, name, tail, e);
    PositionNeedsKeyword(s, e);
    WeekNeedsKeyword(s, e);
    AfterNameNone(s, e);
  }

  lemma {:induction false} NoEarlyEnds(s: string, i: nat, name: string, tail: string)
    requires SuffixAt(s, i, name + tail)
    requires |name| > 0 && !IsSpace(name[|name| - 1]) && NoKeywordAfterSpace(name)
    requires |tail| > 0 && IsSpace(tail[0])
    ensures NoEndBetween(s, i + 1, i + |name|)
  {
    forall k | i + 1 <= k < i + |name|
      ensures NoEndAt(s, k)
    {
      NoEarlyEnd(s, i, name, tail, k);
    }
  }

  lemma {:induction false} ActionAtOf(a: Action, v: string)
    ensures ActionAt(ActionWord(a) + v) == Some(a)
  {
    var s := ActionWord(a) + v;
    var w := ActionWord(a);
    assert forall k :: 0 <= k < 5 ==> s[k] == w[k];
    assert forall k :: 0 <= k < 5 ==> FoldChar(w[k]) == w[k];
    if a == Bench {
      assert FoldChar(s[0]) != "start"[0];
    }
  }

  /** Right after the name, the optional position and the week match
      exactly as rendered. */
  lemma {:induction false} AfterNameOfRendered(s: string, i: nat, position: Option<string>, week: string, rest: string)
    requires SuffixAt(s, i, PositionText(position) + (" week " + (week + rest)))
    requires position.Some? ==> AllWordChars(position.value)
    requires AllDigits(week)
    requires |rest| == 0 || !IsDigit(rest[0])
    ensures AfterName(s, i) == Some((position, week))
  {
    if position.Some? {
      var t := " week " + (week + rest);
      assert PositionText(position) + t == " at " + (position.value + t);
      AfterNameWithPosition(s, i, position.value, week, rest);
    } else {
      assert PositionText(position) + (" week " + (week + rest)) == " week " + (week + rest);
      AfterNameWithoutPosition(s, i, week, rest);
    }
  }

  lemma {:induction false} AfterNameWithPosition(s: string, i: nat, p: string, week: string, rest: string)
    requires SuffixAt(s, i, " at " + (p + (" week " + (week + rest))))
    requires AllWordChars(p) && AllDigits(week)
    requires |rest| == 0 || !IsDigit(rest[0])
    ensures AfterName(s, i) == Some((Some(p), week))
  {
    var k := i + 4 + |p|;
    PositionOfRendered(s, i, k, p, " week " + (week + rest));
    WeekAfterPosition(s, i, k, p, week, rest);
    AfterNameOfParts(s, i, p, k, week);
  }

  /** The week part of rendered text, just after the position word. */
  lemma {:induction false} WeekAfterPosition(s: string, i: nat, k: nat, p: string, week: string, rest: string)
    requires SuffixAt(s, i, " at " + (p + (" week " + (week + rest))))
    requires k == i + 4 + |p|
    requires AllDigits(week)
    requires |rest| == 0 || !IsDigit(rest[0])
    ensures k <= |s| && WeekAt(s, k) == Some(week)
  {
    var t := " week " + (week + rest);
    SuffixSkip(s, i, " at ", p + t);
    SuffixSkip(s, i + 4, p, t);
    assert SuffixAt(s, k, t);
    WeekOfRendered(s, k, week, rest);
  }

  /** The position group at `i` ending at `k`, then the week part there. */
  lemma {:induction false} AfterNameOfParts(s: string, i: nat, p: string, k: nat, week: string)
    requires i <= k <= |s|
    requires PositionAt(s, i) == Some((p, k)) && WeekAt(s, k) == Some(week)
    ensures AfterName(s, i) == Some((Some(p), week))
  {
  }

  lemma {:induction false} PositionOfRendered(s: string, i: nat, k: nat, p: string, v: string)
    requires SuffixAt(s, i, " at " + (p + v))
    requires k == i + 4 + |p|
    requires AllWordChars(p) && |v| > 0 && v[0] == ' '
    ensures i <= k <= |s| && PositionAt(s, i) == Some((p, k))
  {
    SpacedAtOf(s, i, p + v);
    SuffixSkip(s, i, " at ", p + v);
    SuffixHead(s, i + 4, p, v);
    assert s[i + 4 + |p|] == (p + v)[|p|];
    PositionAtIn(s, i, p);
  }

  lemma {:induction false} WeekOfRendered(s: string, i: nat, week: string, rest: string)
    requires SuffixAt(s, i, " week " + (week + rest))
    requires AllDigits(week)
    requires |rest| == 0 || !IsDigit(rest[0])
    ensures WeekAt(s, i) == Some(week)
  {
    SpacedWeekOf(s, i, week + rest);
    SuffixSkip(s, i, " week ", week + rest);
    SuffixHead(s, i + 6, week, rest);
    if |rest| > 0 {
      assert s[i + 6 + |week|] == (week + rest)[|week|];
    }
    WeekAtIn(s, i, week);
  }

  lemma {:induction false} AfterNameWithoutPosition(s: string, i: nat, week: string, rest: string)
    requires SuffixAt(s, i, " week " + (week + rest))
    requires AllDigits(week)
    requires |rest| == 0 || !IsDigit(rest[0])
    ensures AfterName(s, i) == Some((None, week))
  {
    NoPositionBeforeWeek(s, i, week + rest);
    WeekOfRendered(s, i, week, rest);
  }

  /** The greedy spaces after the action are a single space, and the name
      group starts right after it. */
  lemma {:induction false} GreedyOneSpace(s: string, bigE: nat, pos: Option<string>, week: string)
    requires 7 <= bigE <= |s|
    requires IsSpace(s[5]) && !IsSpace(s[6])
    requires LazyName(s, 7) == Some((bigE, pos, week))
    ensures SpaceRun(s, 5) == 1
    ensures GreedySpaces(s, SpaceRun(s, 5)) == Some((6, bigE, pos, week))
  {
    SpaceRunIs(s, 5, 1);
    assert GreedySpaces(s, 1) == Some((6, bigE, pos, week));
  }

  /** The rendering followed by `rest`, nested to the right. */
  lemma {:induction false} RenderNested(c: LineupCommand, rest: string)
    ensures Render(c) + rest
            == ActionWord(c.action) + (" " + (c.name + (PositionText(c.position) + (" week " + (c.week + rest)))))
  {
  }

  /** What follows a rendered name starts with white space. */
  lemma {:induction false} TailStartsWithSpace(position: Option<string>, week: string, rest: string)
    ensures var tail := PositionText(position) + (" week " + (week + rest));
            |tail| > 0 && tail[0] == ' '
  {
    if position.Some? {
      assert PositionText(position)[0] == ' ';
    }
  }

  lemma {:induction false} NameInClass(s: string, i: nat, name: string, tail: string)
    requires SuffixAt(s, i, name + tail)
    requires AllNameClass(name)
    ensures ClassBetween(s, i, i + |name|)
  {
    forall k | i <= k < i + |name|
      ensures InNameClass(s[k])
    {
      assert s[i + (k - i)] == (name + tail)[k - i];
    }
  }

  /** The lazy name group of a rendered command ends right after the
      name. */
  lemma {:induction false} NameGroupOfRendered(s: string, name: string, tail: string, pos: Option<string>, week: string)
    requires SuffixAt(s, 6, name + tail)
    requires |name| > 0 && AllNameClass(name) && !IsSpace(name[|name| - 1]) && NoKeywordAfterSpace(name)
    requires |tail| > 0 && IsSpace(tail[0])
    requires AfterName(s, 6 + |name|) == Some((pos, week))
    ensures LazyName(s, 7) == Some((6 + |name|, pos, week))
  {
    NoEarlyEnds(s, 6, name, tail);
    NameInClass(s, 6, name, tail);
    LazyNameStopsAt(s, 7, 6 + |name|, pos, week);
  }

  /** The text after a rendered name. */
  function RenderedTail(c: LineupCommand, rest: string): string {
    PositionText(c.position) + (" week " + (c.week + rest))
  }

  /** Where the parts of a rendered command sit: the action word, one
      space, then the name and what follows it. */
  lemma {:induction false} RenderedLayout(c: LineupCommand, rest: string)
    requires |c.name| > 0
    ensures var s := Render(c) + rest;
            && ActionAt(s) == Some(c.action)
            && SuffixAt(s, 6, c.name + RenderedTail(c, rest))
            && 7 <= 6 + |c.name| <= |s|
            && IsSpace(s[5]) && s[6] == c.name[0]
  {
    var s := Render(c) + rest;
    var tail := RenderedTail(c, rest);
    RenderNested(c, rest);
    ActionAtOf(c.action, " " + (c.name + tail));
    SuffixOfConcat(ActionWord(c.action), " " + (c.name + tail));
    SuffixSkip(s, 5, " ", c.name + tail);
    assert s[5] == (" " + (c.name + tail))[0];
    assert s[6] == (c.name + tail)[0];
  }

  /** The lazy name group of a rendered command ends right after the
      name, with the rendered position and week. */
  lemma {:induction false} RenderedNameGroup(c: LineupCommand, rest: string)
    requires WellFormed(c)
    requires |rest| == 0 || !IsDigit(rest[0])
    requires SuffixAt(Render(c) + rest, 6, c.name + RenderedTail(c, rest))
    ensures LazyName(Render(c) + rest, 7) == Some((6 + |c.name|, c.position, c.week))
  {
    var s := Render(c) + rest;
    var tail := RenderedTail(c, rest);
    SuffixSkip(s, 6, c.name, tail);
    AfterNameOfRendered(s, 6 + |c.name|, c.position, c.week, rest);
    TailStartsWithSpace(c.position, c.week, rest);
    NameGroupOfRendered(s, c.name, tail, c.position, c.week);
  }

  /** Parsing the rendering of a well-formed command gives the command
      back, whatever follows it as long as that does not extend the week
      number. */
  lemma {:induction false} ParseRendered(c: LineupCommand, rest: string)
    requires WellFormed(c)
    requires |rest| == 0 || !IsDigit(rest[0])
    ensures ParseLineup(Render(c) + rest) == Some(c)
  {
    var s := Render(c) + rest;
    var bigE := 6 + |c.name|;
    RenderedLayout(c, rest);
    RenderedNameGroup(c, rest);
    GreedyOneSpace(s, bigE, c.position, c.week);
    ParseLineupOf(s, c.action, 6, bigE, c.position, c.week);
    SuffixHead(s, 6, c.name, RenderedTail(c, rest));
  }

  lemma {:induction false} ParseLineupOf(s: string, a: Action, start: nat, e: nat, pos: Option<string>, week: string)
    requires ActionAt(s) == Some(a)
    requires 5 + SpaceRun(s, 5) <= |s| + 1
    requires GreedySpaces(s, SpaceRun(s, 5)) == Some((start, e, pos, week))
    ensures start <= e <= |s|
    ensures ParseLineup(s) == Some(LineupCommand(a, s[start..e], pos, week))
  {
  }
}
