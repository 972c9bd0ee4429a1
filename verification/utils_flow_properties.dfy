/** What the utils conversation engine promises across a message and across a
    conversation: the checks "help" and "link" skip, what a refresh does, the
    dead ends (a drop state that is never acted on, a roster request that
    never gets past the team menu), and the confirmation flows that need
    "yes" twice. */
module UtilsFlowProperties {
  import opened Optional
  import opened Text
  import opened Dict
  import opened UserStorage
  import opened Flow
  import opened Bot
  import opened Routing
  import opened UtilsFlow
  import ChooseTeamCommand
  import RosterMoves
  import ModifyLineupCommand
  import LineupParser

  // ---------------------------------------------------------------------------
  // classification
  // ---------------------------------------------------------------------------

  /** "help" is answered, and leaves no state, whoever sends it and whatever
      their token: it is classified before the sign-in check. */
  lemma {:induction false} HelpBeforeSignIn(w: World, env: Env, from: string, body: string, originalBody: string)
    requires UtilsState(w, from).None? && LowerIs(body, "help")
    ensures var r := UtilsRouter(w, env, from, body, originalBody);
            r.events == [Send(HelpText)] && UtilsState(r.w, from).None? && r.w.users == w.users
  {
    ShortIsNotRestart(body);
  }

  /** "link" likewise: the sender gets a code that resolves to their number,
      signed in or not. */
  lemma {:induction false} LinkBeforeSignIn(w: World, env: Env, from: string, body: string, originalBody: string)
    requires UtilsState(w, from).None? && LowerIs(body, "link")
    ensures var r := UtilsRouter(w, env, from, body, originalBody);
            && r.events == [Send(LinkPrompt(env.linkCode))] && UtilsState(r.w, from).None?
            && PhoneFromLinkCode(r.w.codes, env.linkCode).0 == Some(from)
  {
    KeywordsDiffer(body, 0, "link", "help", 0);
    ShortIsNotRestart(body);
    var s := At(Link, Shown);
    assert ClassifyUtils(w, env, from, body, originalBody) == Classified(w.users, Some(s));
    var w1 := SetUtils(w, from, s);
    assert UtilsRouter(w, env, from, body, originalBody) == UtilsHandle(w1, env, from, body, Some(s));
    var o := RunOneShot(w1, env, from, body, Link);
    assert UtilsHandle(w1, env, from, body, Some(s)) == Out(ClearUtils(o.w, from), o.events);
  }

  /** Any other message from a number with no record is told to sign in,
      and nothing else happens. */
  lemma {:induction false} UnknownSenderSignsIn(w: World, env: Env, from: string, body: string, originalBody: string)
    requires UtilsState(w, from).None? && from !in w.users
    requires !LowerIs(body, "help") && !LowerIs(body, "link") && !LowerIs(Trim(body), "restart")
    ensures UtilsRouter(w, env, from, body, originalBody) == Out(w, [Send(AuthRequiredText)])
  {
    var w1 := SetUtils(w, from, At(AuthRequired, Shown));
    assert ClearUtils(w1, from) == w;
  }

  /** An expired token whose refresh goes through: the new tokens and expiry
      are stored and the message has no other effect, no reply and no
      state; the command it carried is lost. */
  lemma {:induction false} RefreshSwallowsMessage(w: World, env: Env, from: string, body: string, originalBody: string)
    requires UtilsState(w, from).None? && !LowerIs(Trim(body), "restart")
    requires !LowerIs(body, "help") && !LowerIs(body, "link")
    requires Expired(w, from, env.now) && env.refresh.Some?
    ensures UtilsRouter(w, env, from, body, originalBody)
            == Out(w.(users := ApplyRefresh(w.users, from, env.refresh.value, env.now)), [])
  {
  }

  /** An expired token whose refresh throws: the expired-login reply, and no
      state is left behind. */
  lemma {:induction false} FailedRefreshReplies(w: World, env: Env, from: string, body: string, originalBody: string)
    requires UtilsState(w, from).None? && !LowerIs(Trim(body), "restart")
    requires !LowerIs(body, "help") && !LowerIs(body, "link")
    requires Expired(w, from, env.now) && env.refresh.None?
    ensures UtilsRouter(w, env, from, body, originalBody) == Out(w, [Send(TokenExpiredText)])
  {
    var w1 := SetUtils(w, from, At(TokenExpired, Shown));
    assert ClearUtils(w1, from) == w;
  }

  /** "choose team" is classified by whether the sender has teams at all. */
  lemma {:induction false} ChooseTeamByTeams(w: World, env: Env, from: string, body: string, originalBody: string)
    requires SignedIn(w, env, from) && LowerIs(body, "choose team")
    ensures var c := ClassifyUtils(w, env, from, body, originalBody);
            c.state == Some(At(ChooseTeam, if NoTeamsStored(w, from) then NoTeams else Shown))
  {
    assert !LowerIs(body, "help") && !LowerIs(body, "link") && !LowerIs(body, "show teams");
  }

  /** The roster words must be the whole message: anything after them makes
      it the default reply, which carries the message. */
  lemma {:induction false} RosterWordsMustBeWhole(w: World, env: Env, from: string, team: string, originalBody: string)
    requires SignedIn(w, env, from) && |team| > 0
    ensures var body := "get roster " + team;
            ClassifyUtils(w, env, from, body, originalBody).state
            == Some(At(DefaultResponse, Shown).(body := Some(body)))
  {
    var body := "get roster " + team;
    LiteralIsKeyword("get roster ", team);
    KeywordsDiffer(body, 0, "get roster ", "get standings", 4);
    KeywordsDiffer(body, 0, "get roster ", "modify lineup", 0);
    KeywordsDiffer(body, 0, "get roster ", "drop ", 0);
  }

  /** "drop <name>" in any case becomes a drop state carrying the name typed
      after the word, in its original case. */
  lemma {:induction false} DropWordClassified(w: World, env: Env, from: string, body: string, originalBody: string)
    requires SignedIn(w, env, from) && KeywordAt(body, 0, "drop ")
    ensures ClassifyUtils(w, env, from, body, originalBody).state == Some(DropRequest(originalBody))
  {
    KeywordsDiffer(body, 0, "drop ", "help", 0);
    KeywordsDiffer(body, 0, "drop ", "link", 0);
    KeywordsDiffer(body, 0, "drop ", "show teams", 0);
    KeywordsDiffer(body, 0, "drop ", "choose team", 0);
    KeywordsDiffer(body, 0, "drop ", "get roster", 0);
    KeywordsDiffer(body, 0, "drop ", "get standings", 0);
    KeywordsDiffer(body, 0, "drop ", "modify lineup", 0);
  }

  /** A bare "yes" with nothing pending becomes the drop state with nothing
      to confirm. */
  lemma {:induction false} StrayYesClassified(w: World, env: Env, from: string, body: string, originalBody: string)
    requires SignedIn(w, env, from) && LowerIs(body, "yes")
    ensures ClassifyUtils(w, env, from, body, originalBody).state == Some(At(DropPlayer, NoPending))
  {
  }

  // ---------------------------------------------------------------------------
  // a stored state takes every message
  // ---------------------------------------------------------------------------

  /** A stored state takes the message, "restart" aside. */
  lemma {:induction false} StoredStateRuns(w: World, env: Env, from: string, body: string, originalBody: string,
                                           s: ConvState)
    requires UtilsState(w, from) == Some(s) && !LowerIs(Trim(body), "restart")
    ensures UtilsRouter(w, env, from, body, originalBody) == UtilsHandle(w, env, from, body, Some(s))
  {
  }

  /** A message that found no state runs the state it was classified as,
      stored first. */
  lemma {:induction false} ClassifiedStateRuns(w: World, env: Env, from: string, body: string, originalBody: string,
                                               s: ConvState)
    requires UtilsState(w, from).None? && !LowerIs(Trim(body), "restart")
    requires ClassifyUtils(w, env, from, body, originalBody) == Classified(w.users, Some(s))
    ensures UtilsRouter(w, env, from, body, originalBody) == UtilsHandle(SetUtils(w, from, s), env, from, body, Some(s))
  {
    assert w.(users := w.users) == w;
  }

  lemma {:induction false} AddStateRuns(w: World, env: Env, from: string, body: string, s: ConvState)
    requires s.kind == AddPlayer
    ensures UtilsHandle(w, env, from, body, Some(s)) == HandleAdd(w, env, from, body, s)
  {
  }

  lemma {:induction false} DropStateRuns(w: World, env: Env, from: string, body: string, s: ConvState)
    requires s.kind == DropPlayer
    ensures UtilsHandle(w, env, from, body, Some(s)) == HandleDrop(w, env, from, body, s)
  {
  }


  /** With the lineup loop active, "help" is not help: it is read as a
      lineup move, fails to parse (or fails a guard), gets that one reply,
      and the loop stays. */
  lemma {:induction false} HelpInsideLineupLoop(w: World, env: Env, from: string, originalBody: string)
    requires UtilsState(w, from) == Some(At(ModifyLineup, AwaitingPlayerMove))
    ensures var r := UtilsRouter(w, env, from, "help", originalBody);
            && r.w == w && |r.events| == 1
            && r.events[0] in {Send(AccessTokenMissing), Send(NoTeamSelected), Send(NoLeagueSelected), Send(LineupUsage)}
  {
    HelpIsNoLoopWord();
    HelpIsNoLineupMove(w, env, from);
  }

  lemma {:induction false} HelpIsNoLoopWord()
    ensures Trim("help") == "help"
    ensures !LowerIs("help", "restart") && !LowerIs("help", "done") && !LowerIs("help", "cancel")
  {
    TrimStartNoop("help");
    TrimEndNoop("help");
    LiteralIsKeyword("help", "");
    assert "help" + "" == "help";
    KeywordsDiffer("help", 0, "help", "done", 0);
  }

  /** "help" is no lineup move: the command fails with one reply. */
  lemma {:induction false} HelpIsNoLineupMove(w: World, env: Env, from: string)
    ensures var o := ModifyLineupCommand.ModifyLineup(w, env, from, "help");
            && !o.ok && |o.events| == 1
            && o.events[0] in {Send(AccessTokenMissing), Send(NoTeamSelected), Send(NoLeagueSelected), Send(LineupUsage)}
  {
    assert LineupParser.ParseLineup("help").None?;
  }

  // ---------------------------------------------------------------------------
  // the drop dead end
  // ---------------------------------------------------------------------------

  /** The drop states the utils classifier stores: the name sits in `player`,
      which the drop flow never reads, or there is nothing to confirm. */
  predicate Inert(s: ConvState) {
    s.kind == DropPlayer && s.step != Some(AwaitingName) && !Truthy(s.dropPlayer)
  }

  lemma {:induction false} ClassifiedDropsAreInert(originalBody: string)
    ensures Inert(DropRequest(originalBody)) && Inert(At(DropPlayer, NoPending))
  {
  }

  /** Such a state is a fixed point: any message but "restart" changes
      nothing and gets no reply. */
  lemma {:induction false} InertStateIgnoresMessage(w: World, env: Env, from: string, body: string, originalBody: string)
    requires UtilsState(w, from).Some? && Inert(UtilsState(w, from).value)
    requires !LowerIs(Trim(body), "restart")
    ensures UtilsRouter(w, env, from, body, originalBody) == Out(w, [])
  {
    var s := UtilsState(w, from).value;
    StoredStateRuns(w, env, from, body, originalBody, s);
    DropStateRuns(w, env, from, body, s);
  }

  /** Every message of a conversation, in order, through the utils router
      (each message is its own original text). */
  function Conversation(w: World, env: Env, from: string, bodies: seq<string>): Out
    decreases |bodies|
  {
    if |bodies| == 0 then Out(w, [])
    else
      var first := UtilsRouter(w, env, from, bodies[0], bodies[0]);
      var rest := Conversation(first.w, env, from, bodies[1..]);
      Out(rest.w, first.events + rest.events)
  }

  /** Once a drop state of that shape is stored, no sequence of messages
      without "restart" gets a reply or changes anything. */
  lemma {:induction false} InertUntilRestart(w: World, env: Env, from: string, bodies: seq<string>)
    requires UtilsState(w, from).Some? && Inert(UtilsState(w, from).value)
    requires forall i :: 0 <= i < |bodies| ==> !LowerIs(Trim(bodies[i]), "restart")
    ensures Conversation(w, env, from, bodies) == Out(w, [])
    decreases |bodies|
  {
    if |bodies| > 0 {
      InertStateIgnoresMessage(w, env, from, bodies[0], bodies[0]);
      InertUntilRestart(w, env, from, bodies[1..]);
    }
  }

  /** "drop <name>" from a signed-in sender with no state gets no reply at
      all: the drop state is stored and then never acted on. */
  lemma {:induction false} DropWordGetsNoReply(w: World, env: Env, from: string, body: string)
    requires UtilsState(w, from).None? && SignedIn(w, env, from) && KeywordAt(body, 0, "drop ")
    ensures UtilsRouter(w, env, from, body, body) == Out(SetUtils(w, from, DropRequest(body)), [])
  {
    DropWordClassified(w, env, from, body, body);
    DropIsNotRestart(body);
    var s := DropRequest(body);
    ClassifiedStateRuns(w, env, from, body, body, s);
    DropStateRuns(SetUtils(w, from, s), env, from, body, s);
  }

  lemma {:induction false} DropIsNotRestart(body: string)
    requires KeywordAt(body, 0, "drop ")
    ensures !LowerIs(Trim(body), "restart")
  {
    KeywordChar(body, 0, "drop ", 0);
    TrimStartNoop(body);
    TrimEndKeepsHead(body);
    var t := Trim(body);
    if LowerIs(t, "restart") {
      KeywordChar(t, 0, "restart", 0);
    }
  }

  /** A message too short to be "restart". */
  lemma {:induction false} ShortIsNotRestart(body: string)
    requires |body| < 7
    ensures !LowerIs(Trim(body), "restart")
  {
  }

  // ---------------------------------------------------------------------------
  // the gates and the menu
  // ---------------------------------------------------------------------------

  /** Without a chosen team the roster state never gets past the menu: every
      message but "restart" shows the menu again, the state stays, nothing
      is fetched and no team is chosen, since the reply to the menu is never
      read as a choice. */
  lemma {:induction false} RosterGateLoops(w: World, env: Env, from: string, body: string, originalBody: string)
    requires UtilsState(w, from) == Some(Bare(GetRoster)) && GetUserChosenTeam(w.users, from) == ""
    requires !LowerIs(Trim(body), "restart")
    ensures var r := UtilsRouter(w, env, from, body, originalBody);
            && UtilsState(r.w, from) == Some(Bare(GetRoster))
            && GetUserChosenTeam(r.w.users, from) == ""
            && CountCalls(r.events, IsRosterFetch) == 0
  {
  }

  /** The team menu state is never cleared by the utils engine: whatever
      the message (but "restart"), a `chooseTeam` state is still stored
      afterwards. */
  lemma {:induction false} ChooseTeamStateStays(w: World, env: Env, from: string, body: string, originalBody: string)
    requires UtilsState(w, from).Some? && UtilsState(w, from).value.kind == ChooseTeam
    requires !LowerIs(Trim(body), "restart")
    ensures var r := UtilsRouter(w, env, from, body, originalBody);
            UtilsState(r.w, from).Some? && UtilsState(r.w, from).value.kind == ChooseTeam
  {
  }

  // ---------------------------------------------------------------------------
  // the confirmation flows
  // ---------------------------------------------------------------------------

  /** The add dialogue: after the name, the next message is not an answer
      whatever it says, "yes" included (it only marks the prompt as sent,
      and nothing is requested); only then does "yes" run the add command,
      once, for the trimmed name and the chosen team, and end the flow. */
  lemma {:induction false} AddNeedsYesTwice(w: World, env: Env, from: string, name: string, reply: string, yes: string)
    requires UtilsState(w, from) == Some(At(AddPlayer, AwaitingName))
    requires !IsTrigger(name, "add player") && Trim(name) != "" && !LowerIs(Trim(name), "restart")
    requires !LowerIs(Trim(reply), "restart") && LowerIs(Trim(yes), "yes")
    ensures var first := UtilsRouter(w, env, from, name, name);
            var second := UtilsRouter(first.w, env, from, reply, reply);
            var third := UtilsRouter(second.w, env, from, yes, yes);
            var team := GetUserChosenTeam(w.users, from);
            && first.events == [Send(ConfirmAdd(Trim(name)))]
            && second.events == [Send(ConfirmAdd(Trim(name)))]
            && third.events == RosterMoves.AddPlayer(w, env, LeagueOfChoice(w, from), team, Trim(name)).events
            && UtilsState(third.w, from).None? && third.w.users == w.users
  {
    var n := Trim(name);
    AddNameStep(w, env, from, name);
    var w1 := SetUtils(w, from, AddConfirmation(n));
    AddPromptStep(w1, env, from, n, reply);
    var w2 := SetUtils(w1, from, AddConfirmation(n).(confirmPromptSent := true));
    AddYesStep(w2, env, from, n, yes);
  }

  lemma {:induction false} AddNameStep(w: World, env: Env, from: string, name: string)
    requires UtilsState(w, from) == Some(At(AddPlayer, AwaitingName))
    requires !IsTrigger(name, "add player") && !LowerIs(Trim(name), "restart")
    ensures UtilsRouter(w, env, from, name, name)
            == Out(SetUtils(w, from, AddConfirmation(Trim(name))), [Send(ConfirmAdd(Trim(name)))])
  {
    var s := At(AddPlayer, AwaitingName);
    StoredStateRuns(w, env, from, name, name, s);
    AddStateRuns(w, env, from, name, s);
  }

  /** The first message at a confirmation step whose prompt was not yet
      marked as sent, whatever it says: the prompt again, and the mark. */
  lemma {:induction false} AddPromptStep(w: World, env: Env, from: string, n: string, body: string)
    requires UtilsState(w, from) == Some(AddConfirmation(n)) && n != ""
    requires !LowerIs(Trim(body), "restart")
    ensures UtilsRouter(w, env, from, body, body)
            == Out(SetUtils(w, from, AddConfirmation(n).(confirmPromptSent := true)), [Send(ConfirmAdd(n))])
  {
    var s := AddConfirmation(n);
    StoredStateRuns(w, env, from, body, body, s);
    AddStateRuns(w, env, from, body, s);
  }

  lemma {:induction false} DropPromptStep(w: World, env: Env, from: string, n: string, body: string)
    requires UtilsState(w, from) == Some(DropConfirmation(n)) && n != ""
    requires !LowerIs(Trim(body), "restart")
    ensures UtilsRouter(w, env, from, body, body)
            == Out(SetUtils(w, from, DropConfirmation(n).(confirmPromptSent := true)), [Send(ConfirmDropOf(n))])
  {
    var s := DropConfirmation(n);
    StoredStateRuns(w, env, from, body, body, s);
    DropStateRuns(w, env, from, body, s);
  }

  /** "yes" once the prompt is marked: the command runs and the flow ends. */
  lemma {:induction false} AddYesStep(w: World, env: Env, from: string, n: string, body: string)
    requires UtilsState(w, from) == Some(AddConfirmation(n).(confirmPromptSent := true)) && n != ""
    requires LowerIs(Trim(body), "yes")
    ensures var r := UtilsRouter(w, env, from, body, body);
            && r.w == ClearUtils(w, from)
            && r.events == RosterMoves.AddPlayer(w, env, LeagueOfChoice(w, from), GetUserChosenTeam(w.users, from), n).events
  {
    var s := AddConfirmation(n).(confirmPromptSent := true);
    StoredStateRuns(w, env, from, body, body, s);
    AddStateRuns(w, env, from, body, s);
  }

  /** The answering "yes" as the code is written, where the add command
      reads an unbound name after a successful request: the same lookup and
      request as the flow's add, and a last reply that differs exactly when
      the add went through, which the code as written reports as failed. */
  lemma {:induction false} AddYesAsWritten(w: World, env: Env, from: string, n: string, body: string)
    requires UtilsState(w, from) == Some(AddConfirmation(n).(confirmPromptSent := true)) && n != ""
    requires LowerIs(Trim(body), "yes")
    ensures var r := UtilsRouter(w, env, from, body, body);
            var league := LeagueOfChoice(w, from);
            var team := GetUserChosenTeam(w.users, from);
            var written := RosterMoves.AddPlayerAsWritten(w, env, league, team, n);
            && |written.events| == |r.events| > 0
            && written.events[..|r.events| - 1] == r.events[..|r.events| - 1]
            && (written.events != r.events <==> RosterMoves.AddPlayer(w, env, league, team, n).ok)
            && RosterMoves.Last(written.events) != Send(PlayerAdded(n))
  {
    AddYesStep(w, env, from, n, body);
    var r := UtilsRouter(w, env, from, body, body);
    var league := LeagueOfChoice(w, from);
    var team := GetUserChosenTeam(w.users, from);
    var written := RosterMoves.AddPlayerAsWritten(w, env, league, team, n);
    var fixed := RosterMoves.AddPlayer(w, env, league, team, n);
    assert r.events == fixed.events;
    var k := |r.events| - 1;
    assert written.events == written.events[..k] + [written.events[k]];
    assert fixed.events == fixed.events[..k] + [fixed.events[k]];
  }

  /** The drop dialogue, when it starts from the name step: the same
      ignored first answer, and one drop command for the trimmed name. */
  lemma {:induction false} DropNeedsYesTwice(w: World, env: Env, from: string, name: string, reply: string, yes: string)
    requires UtilsState(w, from) == Some(At(DropPlayer, AwaitingName))
    requires !IsTrigger(name, "drop player") && Trim(name) != "" && !LowerIs(Trim(name), "restart")
    requires !LowerIs(Trim(reply), "restart") && LowerIs(Trim(yes), "yes")
    ensures var first := UtilsRouter(w, env, from, name, name);
            var second := UtilsRouter(first.w, env, from, reply, reply);
            var third := UtilsRouter(second.w, env, from, yes, yes);
            var team := GetUserChosenTeam(w.users, from);
            && first.events == [Send(ConfirmDropOf(Trim(name)))]
            && second.events == [Send(ConfirmDropOf(Trim(name)))]
            && third.events == RosterMoves.DropPlayer(w, env, LeagueOfChoice(w, from), team, Trim(name)).events
            && UtilsState(third.w, from).None? && third.w.users == w.users
  {
    var n := Trim(name);
    DropNameStep(w, env, from, name);
    var w1 := SetUtils(w, from, DropConfirmation(n));
    DropPromptStep(w1, env, from, n, reply);
    var w2 := SetUtils(w1, from, DropConfirmation(n).(confirmPromptSent := true));
    DropYesStep(w2, env, from, n, yes);
  }

  lemma {:induction false} DropNameStep(w: World, env: Env, from: string, name: string)
    requires UtilsState(w, from) == Some(At(DropPlayer, AwaitingName))
    requires !IsTrigger(name, "drop player") && !LowerIs(Trim(name), "restart")
    ensures UtilsRouter(w, env, from, name, name)
            == Out(SetUtils(w, from, DropConfirmation(Trim(name))), [Send(ConfirmDropOf(Trim(name)))])
  {
    var s := At(DropPlayer, AwaitingName);
    StoredStateRuns(w, env, from, name, name, s);
    DropStateRuns(w, env, from, name, s);
  }

  lemma {:induction false} DropYesStep(w: World, env: Env, from: string, n: string, body: string)
    requires UtilsState(w, from) == Some(DropConfirmation(n).(confirmPromptSent := true)) && n != ""
    requires LowerIs(Trim(body), "yes")
    ensures var r := UtilsRouter(w, env, from, body, body);
            && r.w == ClearUtils(w, from)
            && r.events == RosterMoves.DropPlayer(w, env, LeagueOfChoice(w, from), GetUserChosenTeam(w.users, from), n).events
  {
    var s := DropConfirmation(n).(confirmPromptSent := true);
    StoredStateRuns(w, env, from, body, body, s);
    DropStateRuns(w, env, from, body, s);
  }

  /** A name of white space only is taken as the name, but it trims to the
      empty text, which the confirmation step reads as no name at all: the
      add flow then ignores every message until "restart". */
  lemma {:induction false} BlankNameStalls(w: World, env: Env, from: string, body: string, next: string)
    requires UtilsState(w, from) == Some(At(AddPlayer, AwaitingName))
    requires body != "" && AllSpace(body) && !LowerIs(Trim(next), "restart")
    ensures var first := UtilsRouter(w, env, from, body, body);
            var second := UtilsRouter(first.w, env, from, next, next);
            && first.events == [Send(ConfirmAdd(""))]
            && UtilsState(first.w, from) == Some(AddConfirmation(""))
            && second == Out(first.w, [])
  {
    TrimAllSpace(body);
    var s := At(AddPlayer, AwaitingName);
    StoredStateRuns(w, env, from, body, body, s);
    AddStateRuns(w, env, from, body, s);
    EmptyConfirmationIgnored(SetUtils(w, from, AddConfirmation("")), env, from, next);
  }

  /** The confirmation step with an empty name ignores every message but
      "restart". */
  lemma {:induction false} EmptyConfirmationIgnored(w: World, env: Env, from: string, body: string)
    requires UtilsState(w, from) == Some(AddConfirmation(""))
    requires !LowerIs(Trim(body), "restart")
    ensures UtilsRouter(w, env, from, body, body) == Out(w, [])
  {
    var s := AddConfirmation("");
    StoredStateRuns(w, env, from, body, body, s);
    AddStateRuns(w, env, from, body, s);
  }

  /** Answering "no" at the confirmation step ends the add flow with no
      request and no reply. */
  lemma {:induction false} NoCancelsAdd(w: World, env: Env, from: string, body: string, originalBody: string, name: string)
    requires UtilsState(w, from) == Some(AddConfirmation(name).(confirmPromptSent := true)) && name != ""
    requires LowerIs(Trim(body), "no")
    ensures UtilsRouter(w, env, from, body, originalBody) == Out(ClearUtils(w, from), [])
  {
    var s := AddConfirmation(name).(confirmPromptSent := true);
    StoredStateRuns(w, env, from, body, originalBody, s);
    AddStateRuns(w, env, from, body, s);
  }

  // ---------------------------------------------------------------------------
  // invariants of every message
  // ---------------------------------------------------------------------------

  /** Every message keeps each stored selection consistent (the league is
      the one the team key names) and touches no other sender's utils
      state. */
  lemma {:induction false} RouterKeepsInvariants(w: World, env: Env, from: string, body: string, originalBody: string)
    requires Consistent(w.users)
    ensures var r := UtilsRouter(w, env, from, body, originalBody);
            && Consistent(r.w.users)
            && forall p :: p != from ==> UtilsState(r.w, p) == UtilsState(w, p)
  {
    if !LowerIs(Trim(body), "restart") && UtilsState(w, from).None? {
      var c := ClassifyUtils(w, env, from, body, originalBody);
      assert Consistent(c.users);
      if c.state.Some? {
        var w1 := SetUtils(w.(users := c.users), from, c.state.value);
        assert forall p :: p != from ==> UtilsState(w1, p) == UtilsState(w, p);
      }
    }
  }
}
