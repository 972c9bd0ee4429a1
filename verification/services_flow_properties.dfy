/** What the conversation engine behind the webhook promises: the opening
    checks, what happens to "drop <name>" and "show team" (no confirmation
    is ever asked for, and "show team" is not understood), the roster menu
    round trip, and the store invariant that only the roster menu outlives
    a message. */
module ServicesFlowProperties {
  import opened Optional
  import opened Text
  import opened Dict
  import opened UserStorage
  import opened Flow
  import opened Bot
  import opened Routing
  import opened ServicesFlow
  import GetRosterCommand

  // ---------------------------------------------------------------------------
  // the opening checks
  // ---------------------------------------------------------------------------

  /** "help" is answered whoever sends it, and nothing is left behind. */
  lemma {:induction false} HelpBeforeSignIn(w: World, env: Env, from: string, body: string, originalBody: string)
    requires ServicesState(w, from).None? && LowerIs(body, "help")
    ensures ServicesRouter(w, env, from, body, originalBody) == Out(w, [Send(HelpText)])
  {
    var w1 := SetServices(w, from, At(Help, Shown));
    assert ClearServices(w1, from) == w;
  }

  /** A number with no record is told to sign in, and nothing else happens. */
  lemma {:induction false} UnknownSenderSignsIn(w: World, env: Env, from: string, body: string, originalBody: string)
    requires ServicesState(w, from).None? && from !in w.users
    requires !LowerIs(body, "help") && !LowerIs(body, "link")
    ensures ServicesRouter(w, env, from, body, originalBody) == Out(w, [Send(AuthRequiredText)])
  {
    var w1 := SetServices(w, from, At(AuthRequired, Shown));
    assert ClearServices(w1, from) == w;
  }

  /** An expired token whose refresh goes through: the new tokens are
      stored and the message has no other effect; the command it carried is
      lost. */
  lemma {:induction false} RefreshSwallowsMessage(w: World, env: Env, from: string, body: string, originalBody: string)
    requires ServicesState(w, from).None?
    requires !LowerIs(body, "help") && !LowerIs(body, "link")
    requires Expired(w, from, env.now) && env.refresh.Some?
    ensures ServicesRouter(w, env, from, body, originalBody)
            == Out(w.(users := ApplyRefresh(w.users, from, env.refresh.value, env.now)), [])
  {
  }

  // ---------------------------------------------------------------------------
  // drop, yes, show team
  // ---------------------------------------------------------------------------

  /** "drop <name>" is classified as a pending drop, and the handler reads
      the same message as the answer to it: not "yes", so the drop is
      cancelled in the same turn.  The warning that asks for confirmation is
      never sent, and nothing is left behind. */
  lemma {:induction false} DropCancelsItself(w: World, env: Env, from: string, body: string, originalBody: string)
    requires ServicesState(w, from).None? && SignedIn(w, env, from) && KeywordAt(body, 0, "drop ")
    ensures ServicesRouter(w, env, from, body, originalBody) == Out(w, [Send(DropCancelled)])
  {
    DropClassified(w, env, from, body, originalBody);
    var s := DropRequest(originalBody);
    var w1 := SetServices(w, from, s);
    DropIsNotYes(body);
    assert ServicesHandle(w1, env, from, body, Some(s)) == Out(ClearServices(w1, from), [Send(DropCancelled)]);
    assert ClearServices(w1, from) == w;
  }

  lemma {:induction false} DropIsNotYes(body: string)
    requires KeywordAt(body, 0, "drop ")
    ensures !LowerIs(Trim(body), "yes")
  {
    TrimKeepsKeywordHead(body, "drop ");
    if LowerIs(Trim(body), "yes") {
      KeywordChar(Trim(body), 0, "yes", 0);
    }
  }

  lemma {:induction false} DropClassified(w: World, env: Env, from: string, body: string, originalBody: string)
    requires SignedIn(w, env, from) && KeywordAt(body, 0, "drop ")
    ensures ClassifyServices(w, env, from, body, originalBody).state == Some(DropRequest(originalBody))
  {
    KeywordsDiffer(body, 0, "drop ", "help", 0);
    KeywordsDiffer(body, 0, "drop ", "link", 0);
    KeywordsDiffer(body, 0, "drop ", "show teams", 0);
    KeywordsDiffer(body, 0, "drop ", "show team", 0);
    KeywordsDiffer(body, 0, "drop ", "get roster", 0);
  }

  /** A bare "yes" is told that no drop is in progress. */
  lemma {:induction false} StrayYes(w: World, env: Env, from: string, body: string, originalBody: string)
    requires ServicesState(w, from).None? && SignedIn(w, env, from) && LowerIs(body, "yes")
    ensures ServicesRouter(w, env, from, body, originalBody) == Out(w, [Send(NoDropInProgress)])
  {
    var w1 := SetServices(w, from, At(DropPlayer, NoPending));
    assert ClearServices(w1, from) == w;
  }

  /** "show team" is classified, but the handler has no case for it: the
      sender is told the message was not understood. */
  lemma {:induction false} ShowTeamNotUnderstood(w: World, env: Env, from: string, body: string, originalBody: string)
    requires ServicesState(w, from).None? && SignedIn(w, env, from) && LowerIs(body, "show team")
    ensures ServicesRouter(w, env, from, body, originalBody) == Out(w, [Send(NotUnderstood)])
  {
    var w1 := SetServices(w, from, At(ShowTeam, Shown));
    assert ClearServices(w1, from) == w;
  }

  // ---------------------------------------------------------------------------
  // the roster
  // ---------------------------------------------------------------------------

  /** "get roster" with no team, from a sender with teams, shows the menu
      of their team names and keeps it pending. */
  lemma {:induction false} AskForMenu(w: World, env: Env, from: string, body: string, originalBody: string)
    requires ServicesState(w, from).None? && SignedIn(w, env, from)
    requires KeywordAt(body, 0, "get roster") && NamesNoTeam(body) && !NoTeamsStored(w, from)
    ensures var names := Names(GetUserTeamsDict(w.users, from).value);
            ServicesRouter(w, env, from, body, originalBody)
            == Out(SetServices(w, from, AwaitingTeamMenu(names)), [Send(RosterMenu(names))])
  {
    RosterClassified(w, env, from, body, originalBody);
    TrimKeepsKeywordHead(body, "get roster");
  }

  lemma {:induction false} RosterClassified(w: World, env: Env, from: string, body: string, originalBody: string)
    requires SignedIn(w, env, from) && KeywordAt(body, 0, "get roster")
    ensures ClassifyServices(w, env, from, body, originalBody).state
            == Some(ServicesChain(w, from, body, originalBody))
    ensures ServicesChain(w, from, body, originalBody).kind == GetRoster
  {
    KeywordsDiffer(body, 0, "get roster", "help", 0);
    KeywordsDiffer(body, 0, "get roster", "link", 0);
    KeywordsDiffer(body, 0, "get roster", "show teams", 0);
    KeywordsDiffer(body, 0, "get roster", "show team", 0);
  }

  /** A number from the menu clears it and fetches the roster of the team
      stored under the picked name. */
  lemma {:induction false} PickFromMenu(w: World, env: Env, from: string, reply: string, originalBody: string)
    requires GetUserTeamsDict(w.users, from).Some?
    requires var d := GetUserTeamsDict(w.users, from).value;
             && ServicesState(w, from) == Some(AwaitingTeamMenu(Names(d)))
             && IsNumberReply(reply) && ValidPick(reply, |d|)
             && d[ParseInt(reply).value - 1].1 != ""
    ensures var d := GetUserTeamsDict(w.users, from).value;
            var r := ServicesRouter(w, env, from, reply, originalBody);
            && GetRosterCommand.RosterFetched(r.events, env, Some(d[ParseInt(reply).value - 1].1))
            && ServicesState(r.w, from).None?
  {
    var d := GetUserTeamsDict(w.users, from).value;
    GetAt(d, ParseInt(reply).value - 1);
  }

  /** The menu round trip: "get roster" with no team, then the number of an
      entry, fetches the key stored for that entry and leaves nothing
      pending. */
  lemma {:induction false} MenuRoundTrip(w: World, env: Env, from: string, body: string, n: nat)
    requires ServicesState(w, from).None? && SignedIn(w, env, from)
    requires KeywordAt(body, 0, "get roster") && NamesNoTeam(body) && !NoTeamsStored(w, from)
    requires 1 <= n <= |GetUserTeamsDict(w.users, from).value|
    requires GetUserTeamsDict(w.users, from).value[n - 1].1 != ""
    ensures var d := GetUserTeamsDict(w.users, from).value;
            var asked := ServicesRouter(w, env, from, body, body);
            var picked := ServicesRouter(asked.w, env, from, NatToString(n), NatToString(n));
            && asked.events == [Send(RosterMenu(Names(d)))]
            && GetRosterCommand.RosterFetched(picked.events, env, Some(d[n - 1].1))
            && ServicesState(picked.w, from).None?
  {
    var d := GetUserTeamsDict(w.users, from).value;
    var w1 := SetServices(w, from, AwaitingTeamMenu(Names(d)));
    assert ServicesRouter(w, env, from, body, body) == Out(w1, [Send(RosterMenu(Names(d)))]) by {
      AskForMenu(w, env, from, body, body);
    }
    MenuPick(w1, env, from, n);
  }

  /** The number of an entry, sent to the menu, fetches that entry's key. */
  lemma {:induction false} MenuPick(w: World, env: Env, from: string, n: nat)
    requires GetUserTeamsDict(w.users, from).Some?
    requires var d := GetUserTeamsDict(w.users, from).value;
             && ServicesState(w, from) == Some(AwaitingTeamMenu(Names(d)))
             && 1 <= n <= |d| && d[n - 1].1 != ""
    ensures var d := GetUserTeamsDict(w.users, from).value;
            var r := ServicesRouter(w, env, from, NatToString(n), NatToString(n));
            && GetRosterCommand.RosterFetched(r.events, env, Some(d[n - 1].1))
            && ServicesState(r.w, from).None?
  {
    NumberIsANumberReply(n);
    PickByNumber(n, |GetUserTeamsDict(w.users, from).value|);
    PickFromMenu(w, env, from, NatToString(n), NatToString(n));
  }

  lemma {:induction false} NumberIsANumberReply(n: nat)
    ensures IsNumberReply(NatToString(n))
  {
    var s := NatToString(n);
    assert |s| > 0 && !IsSpace(s[0]) && !IsSpace(s[|s| - 1]);
    TrimStartNoop(s);
    TrimEndNoop(s);
  }

  /** "get roster <team>" fetches the team as typed and leaves nothing
      pending; the team is read back as typed by `Routing.TeamInputOf`. */
  lemma {:induction false} RosterByName(w: World, env: Env, from: string, body: string, originalBody: string)
    requires ServicesState(w, from).None? && SignedIn(w, env, from)
    requires KeywordAt(body, 0, "get roster") && !NamesNoTeam(body) && TeamInput(body) != ""
    ensures var r := ServicesRouter(w, env, from, body, originalBody);
            && GetRosterCommand.RosterFetched(r.events, env, Some(TeamInput(body)))
            && r.w == w
  {
    RosterClassified(w, env, from, body, originalBody);
    ClassifiedTeamFetched(w, env, from, body, originalBody, TeamInput(body));
  }

  /** A message classified as naming a team fetches that team, and the
      state it was stored under is gone again. */
  lemma {:induction false} ClassifiedTeamFetched(w: World, env: Env, from: string, body: string, originalBody: string, key: string)
    requires ServicesState(w, from).None? && key != ""
    requires ClassifyServices(w, env, from, body, originalBody)
             == Classified(w.users, Some(At(GetRoster, Shown).(teamKey := Some(key))))
    ensures var r := ServicesRouter(w, env, from, body, originalBody);
            GetRosterCommand.RosterFetched(r.events, env, Some(key)) && r.w == w
  {
    var s := At(GetRoster, Shown).(teamKey := Some(key));
    var w1 := SetServices(w, from, s);
    RouterRunsClassified(w, env, from, body, originalBody, s);
    NamedTeamFetched(w1, env, from, body, s);
    assert ClearServices(w1, from) == w;
  }

  /** A message that found no state runs the state it was classified as,
      stored. */
  lemma {:induction false} RouterRunsClassified(w: World, env: Env, from: string, body: string, originalBody: string, s: ConvState)
    requires ServicesState(w, from).None?
    requires ClassifyServices(w, env, from, body, originalBody) == Classified(w.users, Some(s))
    ensures ServicesRouter(w, env, from, body, originalBody)
            == ServicesHandle(SetServices(w, from, s), env, from, body, Some(s))
  {
  }

  /** A roster state that names a team fetches it and is cleared. */
  lemma {:induction false} NamedTeamFetched(w: World, env: Env, from: string, body: string, s: ConvState)
    requires ServicesState(w, from) == Some(s)
    requires s.kind == GetRoster && s.step == Some(Shown) && Truthy(s.teamKey)
    ensures var r := ServicesHandle(w, env, from, body, Some(s));
            r.w == ClearServices(w, from) && GetRosterCommand.RosterFetched(r.events, env, s.teamKey)
  {
    assert !GetRosterCommand.AwaitingMenu(w, from);
  }

  /** "get roster" followed by nothing but a double quote names the empty
      team: the menu is shown (when there are teams), but the handler then
      clears the state, so the number sent back is not read as a pick. */
  lemma {:induction false} EmptyTeamLosesMenu(w: World, env: Env, from: string, body: string, originalBody: string)
    requires ServicesState(w, from).None? && SignedIn(w, env, from)
    requires KeywordAt(body, 0, "get roster") && !NamesNoTeam(body) && TeamInput(body) == ""
    requires !NoTeamsStored(w, from)
    ensures var r := ServicesRouter(w, env, from, body, originalBody);
            && r.events == [Send(RosterMenu(Names(GetUserTeamsDict(w.users, from).value)))]
            && ServicesState(r.w, from).None?
  {
    RosterClassified(w, env, from, body, originalBody);
  }

  // ---------------------------------------------------------------------------
  // the store invariant
  // ---------------------------------------------------------------------------

  /** What the services store may hold for a sender between messages:
      nothing, or the roster menu with its names. */
  predicate MenuOrNothing(w: World, from: string) {
    var st := ServicesState(w, from);
    st.None? || (st.value.kind == GetRoster && st.value.step == Some(AwaitingTeam) && st.value.teamNames.Some?)
  }

  /** The states the handler acts on: each has a step its flow knows, and
      a menu has its names. */
  predicate Settled(s: ConvState) {
    && (s.kind == GetRoster ==>
          s.step in {Some(AwaitingTeam), Some(Shown), Some(NoTeams)}
          && (s.step == Some(AwaitingTeam) ==> s.teamNames.Some?))
    && (s.kind == DropPlayer ==> s.step in {Some(AwaitingConfirmation), Some(NoPending)})
  }

  /** Everything the classifier decides is settled. */
  lemma {:induction false} ClassifiedIsSettled(w: World, env: Env, from: string, body: string, originalBody: string)
    ensures var c := ClassifyServices(w, env, from, body, originalBody);
            c.state.Some? ==> Settled(c.state.value)
  {
  }

  /** Running a settled state leaves at most the roster menu behind. */
  lemma {:induction false} HandleLeavesMenuOrNothing(w: World, env: Env, from: string, body: string)
    requires ServicesState(w, from).Some? && Settled(ServicesState(w, from).value)
    ensures MenuOrNothing(ServicesHandle(w, env, from, body, ServicesState(w, from)).w, from)
  {
    var s := ServicesState(w, from).value;
    if s.kind == GetRoster {
      RosterLeavesMenuOrNothing(w, env, from, body, s);
    }
  }

  lemma {:induction false} RosterLeavesMenuOrNothing(w: World, env: Env, from: string, body: string, s: ConvState)
    requires ServicesState(w, from) == Some(s) && s.kind == GetRoster && Settled(s)
    ensures MenuOrNothing(HandleRoster(w, env, from, body, s).w, from)
  {
    if s.step == Some(AwaitingTeam) && IsNumberReply(body) && ValidPick(body, |s.teamNames.value|) {
      var w1 := ClearServices(w, from);
      assert !GetRosterCommand.AwaitingMenu(w1, from);
    } else if s.step == Some(Shown) {
      var o := GetRosterCommand.Run(w, env, from, s.teamKey);
      assert ServicesState(ClearServices(o.w, from), from).None?;
    }
  }

  /** The store invariant: between messages a sender's services state is
      absent or the roster menu; every other state is cleared by the
      message that created it. */
  lemma {:induction false} OnlyTheMenuSurvives(w: World, env: Env, from: string, body: string, originalBody: string)
    requires MenuOrNothing(w, from)
    ensures MenuOrNothing(ServicesRouter(w, env, from, body, originalBody).w, from)
  {
    if ServicesState(w, from).Some? {
      HandleLeavesMenuOrNothing(w, env, from, body);
    } else {
      var c := ClassifyServices(w, env, from, body, originalBody);
      ClassifiedIsSettled(w, env, from, body, originalBody);
      if c.state.Some? {
        var w1 := SetServices(w.(users := c.users), from, c.state.value);
        HandleLeavesMenuOrNothing(w1, env, from, body);
      }
    }
  }

  /** Every message keeps each stored selection consistent, never touches
      the utils store, and leaves every other sender's services state
      alone. */
  lemma {:induction false} RouterKeepsInvariants(w: World, env: Env, from: string, body: string, originalBody: string)
    requires Consistent(w.users)
    ensures var r := ServicesRouter(w, env, from, body, originalBody);
            && Consistent(r.w.users) && r.w.utils == w.utils
            && forall p :: p != from ==> ServicesState(r.w, p) == ServicesState(w, p)
  {
    if ServicesState(w, from).None? {
      var c := ClassifyServices(w, env, from, body, originalBody);
      if c.state.Some? {
        var w1 := SetServices(w.(users := c.users), from, c.state.value);
        assert forall p :: p != from ==> ServicesState(w1, p) == ServicesState(w, p);
      }
    }
  }

  /** The webhook trims the text, so trimming it first changes nothing. */
  lemma {:induction false} WebhookTrims(w: World, env: Env, from: string, raw: string)
    ensures Webhook(w, env, from, Trim(raw)) == Webhook(w, env, from, raw)
  {
    TrimIdempotent(raw);
  }
}
