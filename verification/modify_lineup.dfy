/** `modifyLineupCommand`: three guards, the lineup pattern, the position
    rules, a silent player lookup in the chosen league, then one roster
    change of one player.  It returns whether the change went through. */
module ModifyLineupCommand {
  import opened Optional
  import opened Text
  import opened Xml
  import opened Yahoo
  import opened UserStorage
  import opened Bot
  import opened PlayerLookup
  import opened RosterMoves
  import opened LineupParser

  const Flex := "W/R/T"
  const BenchSlot := "BN"

  /** The position group, trimmed and upper-cased; any spelling whose letters
      read FLEX becomes the flex slot.  Absent (or empty) stays absent. */
  function LineupPosition(raw: Option<string>): (r: Option<string>)
    ensures r.Some? <==> Truthy(raw) && Trim(raw.value) != ""
    ensures r.Some? && Upper(LettersOnly(Upper(Trim(raw.value)))) == "FLEX" ==> r == Some(Flex)
    ensures r.Some? && Upper(LettersOnly(Upper(Trim(raw.value)))) != "FLEX" ==> r == Some(Upper(Trim(raw.value)))
  {
    if !Truthy(raw) then None
    else
      var p := Upper(Trim(raw.value));
      if p == "" then None
      else if Upper(LettersOnly(p)) == "FLEX" then Some(Flex)
      else Some(p)
  }

  /** The roster slot a command asks for: the position for a start, the
      bench for a bench, whatever position was given. */
  function Slot(a: Action, position: Option<string>): string {
    if a == Start then position.GetOr("") else BenchSlot
  }

  /** The roster change a parsed command makes for a player key. */
  function LineupCall(team: string, c: LineupCommand, key: string): Call {
    SetLineup(team, [LineupMove(key, Slot(c.action, LineupPosition(c.position)))], c.week)
  }

  /** The roster change for one looked-up player: a player without a key
      stops before any change; otherwise exactly one change of that player
      into `slot` is requested, and the command succeeds exactly when it
      does. */
  function MoveOne(w: World, env: Env, team: string, league: string, name: string, slot: string,
                   started: bool, week: string): (r: Outcome)
    requires league != ""
    ensures |r.events| > 0
    ensures CountCalls(r.events, IsLineup) <= 1
    ensures !HasKey(PlayerFor(w, env, league, name)) ==>
              !r.ok && NoCall(r.events, IsLineup) && Last(r.events) == Send(NoPlayerKeyFor(name))
    ensures HasKey(PlayerFor(w, env, league, name)) ==>
              var call := SetLineup(team, [LineupMove(KeyOf(PlayerFor(w, env, league, name)), slot)], week);
              && CountCalls(r.events, IsLineup) == 1
              && OnlyCall(r.events, IsLineup, call)
              && (r.ok <==> env.succeeds(call))
              && Last(r.events) == Send(if r.ok then LineupSet(started, name, slot, week) else LineupFailed)
  {
    var found := GetPlayerInfoByName(w, env, Some(league), name, None);
    LookupMakesNoTransaction(w, env, league, name, IsLineup);
    if !HasKey(found.player) then
      CountCallsAppend(found.events, [Send(NoPlayerKeyFor(name))], IsLineup);
      assert CountCalls([Send(NoPlayerKeyFor(name))][1..], IsLineup) == 0;
      Outcome(found.events + [Send(NoPlayerKeyFor(name))], false)
    else
      var call := SetLineup(team, [LineupMove(KeyOf(found.player), slot)], week);
      var ok := env.succeeds(call);
      var tail := [Invoke(call), Send(if ok then LineupSet(started, name, slot, week) else LineupFailed)];
      CountCallsAppend(found.events, tail, IsLineup);
      assert tail[1..][1..] == [];
      assert CountCalls(tail[1..], IsLineup) == 0;
      Outcome(found.events + tail, ok)
  }

  /** Everything after a successful parse, in a league that is set.  A start
      without a position stops before any lookup; otherwise the trimmed name
      is looked up and moved into the command's slot. */
  function Submit(w: World, env: Env, team: string, league: string, c: LineupCommand): (r: Outcome)
    requires league != ""
    ensures c.action == Start && LineupPosition(c.position).None? ==>
              r == Outcome([Send(PositionRequired)], false)
    ensures (c.action == Bench || LineupPosition(c.position).Some?) ==>
              var p := PlayerFor(w, env, league, Trim(c.name));
              && |r.events| > 0
              && (!HasKey(p) ==>
                    !r.ok && NoCall(r.events, IsLineup) && Last(r.events) == Send(NoPlayerKeyFor(Trim(c.name))))
              && (HasKey(p) ==>
                    && CountCalls(r.events, IsLineup) == 1
                    && OnlyCall(r.events, IsLineup, LineupCall(team, c, KeyOf(p)))
                    && (r.ok <==> env.succeeds(LineupCall(team, c, KeyOf(p)))))
    ensures r.ok ==>
              |r.events| > 0 && Last(r.events)
              == Send(LineupSet(c.action == Start, Trim(c.name), Slot(c.action, LineupPosition(c.position)), c.week))
    ensures CountCalls(r.events, IsLineup) <= 1
    ensures r.ok ==> CountCalls(r.events, IsLineup) == 1
  {
    var pos := LineupPosition(c.position);
    if c.action == Start && pos.None? then
      assert CountCalls([Send(PositionRequired)][1..], IsLineup) == 0;
      Outcome([Send(PositionRequired)], false)
    else MoveOne(w, env, team, league, Trim(c.name), Slot(c.action, pos), c.action == Start, c.week)
  }

  /** The guards, in order: access token, chosen team, chosen league; then
      the pattern.  A failed guard or a text the pattern rejects replies once,
      changes nothing and requests nothing. */
  function ModifyLineup(w: World, env: Env, from: string, body: string): (r: Outcome)
    ensures !Truthy(AccessToken(w, from)) ==> r == Outcome([Send(AccessTokenMissing)], false)
    ensures Truthy(AccessToken(w, from)) && GetUserChosenTeam(w.users, from) == "" ==>
              r == Outcome([Send(NoTeamSelected)], false)
    ensures Truthy(AccessToken(w, from)) && GetUserChosenTeam(w.users, from) != ""
            && GetUserChosenLeague(w.users, from) == "" ==>
              r == Outcome([Send(NoLeagueSelected)], false)
    ensures Truthy(AccessToken(w, from)) && GetUserChosenTeam(w.users, from) != ""
            && GetUserChosenLeague(w.users, from) != "" && ParseLineup(body).None? ==>
              r == Outcome([Send(LineupUsage)], false)
    ensures r.ok ==> ParseLineup(body).Some? && CountCalls(r.events, IsLineup) == 1
    ensures CountCalls(r.events, IsLineup) <= 1
  {
    var team := GetUserChosenTeam(w.users, from);
    var league := GetUserChosenLeague(w.users, from);
    if !Truthy(AccessToken(w, from)) then Outcome([Send(AccessTokenMissing)], false)
    else if team == "" then Outcome([Send(NoTeamSelected)], false)
    else if league == "" then Outcome([Send(NoLeagueSelected)], false)
    else
      var parsed := ParseLineup(body);
      if parsed.None? then Outcome([Send(LineupUsage)], false)
      else
        Submit(w, env, team, league, parsed.value)
  }

  // ---------------------------------------------------------------------------
  // properties
  // ---------------------------------------------------------------------------

  /** Any spelling of flex becomes the flex slot. */
  lemma {:induction false} FlexAlias()
    ensures LineupPosition(Some("flex")) == Some(Flex)
  {
    TrimStartNoop("flex");
    TrimEndNoop("flex");
    assert Upper("flex") == "FLEX";
    assert LettersOnly("FLEX") == "FLEX";
  }

  lemma {:induction false} FlexCapitalised()
    ensures LineupPosition(Some("Flex")) == Some(Flex)
  {
    TrimStartNoop("Flex");
    TrimEndNoop("Flex");
    assert Upper("Flex") == "FLEX";
    assert LettersOnly("FLEX") == "FLEX";
  }

  /** Other positions are only upper-cased; an empty position is none. */
  lemma {:induction false} OtherPositions()
    ensures LineupPosition(Some("qb")) == Some("QB")
    ensures LineupPosition(Some("")) == None
  {
    TrimStartNoop("qb");
    TrimEndNoop("qb");
    assert Upper("qb") == "QB";
    assert LettersOnly("QB") == "QB";
    assert Upper("QB") == "QB";
    assert Trim("") == "";
  }

  /** A canonical command text, with anything after the week, is read back as
      the command it renders, and its single roster change is the command's
      move for the looked-up key. */
  lemma {:induction false} RenderedCommand(w: World, env: Env, from: string, c: LineupCommand, rest: string)
    requires Truthy(AccessToken(w, from))
    requires GetUserChosenTeam(w.users, from) != "" && GetUserChosenLeague(w.users, from) != ""
    requires WellFormed(c) && (|rest| == 0 || !IsDigit(rest[0]))
    requires c.action == Bench || LineupPosition(c.position).Some?
    requires HasKey(PlayerFor(w, env, GetUserChosenLeague(w.users, from), c.name))
    ensures var r := ModifyLineup(w, env, from, Render(c) + rest);
            var call := LineupCall(GetUserChosenTeam(w.users, from), c,
                                   KeyOf(PlayerFor(w, env, GetUserChosenLeague(w.users, from), c.name)));
            && CountCalls(r.events, IsLineup) == 1
            && OnlyCall(r.events, IsLineup, call)
            && (r.ok <==> env.succeeds(call))
  {
    RenderedParse(c, rest);
    RenderedDelegates(w, env, from, c, rest);
    SubmitKeyed(w, env, GetUserChosenTeam(w.users, from), GetUserChosenLeague(w.users, from), c);
  }

  lemma {:induction false} SubmitKeyed(w: World, env: Env, team: string, league: string, c: LineupCommand)
    requires league != "" && Trim(c.name) == c.name
    requires c.action == Bench || LineupPosition(c.position).Some?
    requires HasKey(PlayerFor(w, env, league, c.name))
    ensures var r := Submit(w, env, team, league, c);
            var call := LineupCall(team, c, KeyOf(PlayerFor(w, env, league, c.name)));
            && CountCalls(r.events, IsLineup) == 1
            && OnlyCall(r.events, IsLineup, call)
            && (r.ok <==> env.succeeds(call))
  {
  }

  lemma {:induction false} RenderedDelegates(w: World, env: Env, from: string, c: LineupCommand, rest: string)
    requires Truthy(AccessToken(w, from))
    requires GetUserChosenTeam(w.users, from) != "" && GetUserChosenLeague(w.users, from) != ""
    requires ParseLineup(Render(c) + rest) == Some(c)
    ensures ModifyLineup(w, env, from, Render(c) + rest)
            == Submit(w, env, GetUserChosenTeam(w.users, from), GetUserChosenLeague(w.users, from), c)
  {
  }

  lemma {:induction false} RenderedParse(c: LineupCommand, rest: string)
    requires WellFormed(c) && (|rest| == 0 || !IsDigit(rest[0]))
    ensures ParseLineup(Render(c) + rest) == Some(c)
    ensures Trim(c.name) == c.name
  {
    ParseRendered(c, rest);
    TrimStartNoop(c.name);
    TrimEndNoop(c.name);
  }

  /** The body a lineup change posts carries exactly its one move and the
      week, for a plain key and position. */
  lemma {:induction false} LineupPayload(team: string, c: LineupCommand, key: string)
    requires Plain(key) && AllDigits(c.week)
    requires c.position.Some? ==> Plain(c.position.value)
    ensures ReadLineup(LineupXml(LineupCall(team, c, key).moves, LineupCall(team, c, key).week))
            == Some(([LineupMove(key, Slot(c.action, LineupPosition(c.position)))], c.week))
  {
    var slot := Slot(c.action, LineupPosition(c.position));
    PlainSlot(c);
    DigitsArePlain(c.week);
    ReadLineupXml([LineupMove(key, slot)], c.week);
  }

  lemma {:induction false} DigitsArePlain(s: string)
    requires AllDigits(s)
    ensures Plain(s)
  {
    forall i | 0 <= i < |s| ensures s[i] != '<' {
      assert IsDigit(s[i]);
    }
  }

  /** Upper-casing keeps a plain text plain. */
  lemma {:induction false} UpperPlain(s: string)
    requires Plain(s)
    ensures Plain(Upper(s))
  {
    forall i | 0 <= i < |s| ensures Upper(s)[i] != '<' {
      assert s[i] != '<';
    }
  }

  lemma {:induction false} TrimPlain(s: string)
    requires Plain(s)
    ensures Plain(Trim(s))
  {
    TrimShape(s);
    var i, j :| 0 <= i <= j <= |s| && Trim(s) == s[i..j];
    forall k | 0 <= k < j - i ensures Trim(s)[k] != '<' {
      assert Trim(s)[k] == s[i + k];
    }
  }

  lemma {:induction false} PlainSlot(c: LineupCommand)
    requires c.position.Some? ==> Plain(c.position.value)
    ensures Plain(Slot(c.action, LineupPosition(c.position)))
  {
    if c.action == Start && LineupPosition(c.position).Some? {
      var p := Upper(Trim(c.position.value));
      TrimPlain(c.position.value);
      UpperPlain(Trim(c.position.value));
      if LineupPosition(c.position) == Some(Flex) {
        assert Flex[0] != '<' && Flex[1] != '<' && Flex[2] != '<' && Flex[3] != '<' && Flex[4] != '<';
      }
    } else if c.action == Bench {
      assert BenchSlot[0] != '<' && BenchSlot[1] != '<';
    }
  }

  /** A bench move always goes to the bench, whatever position the text
      gives. */
  lemma {:induction false} BenchIgnoresPosition(team: string, c: LineupCommand, key: string)
    requires c.action == Bench
    ensures LineupCall(team, c, key).moves == [LineupMove(key, BenchSlot)]
  {
  }

  /** A start without a position is refused before any lookup, from its
      canonical text. */
  lemma {:induction false} StartNeedsPosition(w: World, env: Env, from: string, name: string, week: string)
    requires Truthy(AccessToken(w, from))
    requires GetUserChosenTeam(w.users, from) != "" && GetUserChosenLeague(w.users, from) != ""
    requires WellFormed(LineupCommand(Start, name, None, week))
    ensures ModifyLineup(w, env, from, Render(LineupCommand(Start, name, None, week)))
            == Outcome([Send(PositionRequired)], false)
  {
    var c := LineupCommand(Start, name, None, week);
    ParseRendered(c, "");
    assert Render(c) + "" == Render(c);
  }
}
