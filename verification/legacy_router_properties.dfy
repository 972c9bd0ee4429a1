/** What the older router promises: the opening checks, the drop dialogue it
    carries through (warning, then the answer), the refresh that goes on to
    the command, a left-over state that gives way to the message, the roster
    menu round trip, and the store invariant that only a menu or a pending
    drop is ever left behind. */
module LegacyRouterProperties {
  import opened Optional
  import opened Text
  import opened Dict
  import opened UserStorage
  import opened Flow
  import opened Bot
  import opened Routing
  import opened LegacyRouter
  import GetRosterCommand

  // ---------------------------------------------------------------------------
  // the opening checks
  // ---------------------------------------------------------------------------

  /** "help" is answered whoever sends it, and nothing changes. */
  lemma {:induction false} HelpBeforeSignIn(w: World, env: Env, from: string, body: string, originalBody: string)
    requires ServicesState(w, from).None? && LowerIs(body, "help")
    ensures Router(w, env, from, body, originalBody) == Out(w, [Send(HelpText)])
  {
  }

  /** A number with no record is told to sign in, and nothing changes. */
  lemma {:induction false} UnknownSenderSignsIn(w: World, env: Env, from: string, body: string, originalBody: string)
    requires ServicesState(w, from).None? && from !in w.users
    requires !LowerIs(body, "help") && !LowerIs(body, "link")
    ensures Router(w, env, from, body, originalBody) == Out(w, [Send(AuthRequiredText)])
  {
  }

  /** An expired token whose refresh goes through: the new tokens are stored
      and the message is then read as the command it carries. */
  lemma {:induction false} RefreshContinues(w: World, env: Env, from: string, body: string, originalBody: string)
    requires ServicesState(w, from).None?
    requires !LowerIs(body, "help") && !LowerIs(body, "link")
    requires Expired(w, from, env.now) && env.refresh.Some?
    ensures Router(w, env, from, body, originalBody)
            == Commands(w.(users := ApplyRefresh(w.users, from, env.refresh.value, env.now)),
                        env, from, body, originalBody)
  {
  }

  /** An expired token whose refresh fails: the sender is told to sign in
      again, and nothing changes. */
  lemma {:induction false} FailedRefreshReplies(w: World, env: Env, from: string, body: string, originalBody: string)
    requires ServicesState(w, from).None?
    requires !LowerIs(body, "help") && !LowerIs(body, "link")
    requires Expired(w, from, env.now) && env.refresh.None?
    ensures Router(w, env, from, body, originalBody) == Out(w, [Send(TokenExpiredText)])
  {
  }

  /** A signed-in sender with nothing pending: the message goes straight to
      the command words. */
  lemma {:induction false} SignedInReadsCommand(w: World, env: Env, from: string, body: string, originalBody: string)
    requires ServicesState(w, from).None? && SignedIn(w, env, from)
    requires !LowerIs(body, "help") && !LowerIs(body, "link")
    ensures Router(w, env, from, body, originalBody) == Commands(w, env, from, body, originalBody)
  {
  }

  // ---------------------------------------------------------------------------
  // the drop dialogue
  // ---------------------------------------------------------------------------

  /** "drop <name>" stores the pending drop with the name as typed and sends
      the warning that asks for confirmation. */
  lemma {:induction false} DropAsksFirst(w: World, env: Env, from: string, body: string, originalBody: string)
    requires ServicesState(w, from).None? && SignedIn(w, env, from) && KeywordAt(body, 0, "drop ")
    ensures Router(w, env, from, body, originalBody)
            == Out(SetServices(w, from, DropRequest(originalBody)), [Send(DropWarning(DropName(originalBody)))])
  {
    KeywordsDiffer(body, 0, "drop ", "help", 0);
    KeywordsDiffer(body, 0, "drop ", "link", 0);
    KeywordsDiffer(body, 0, "drop ", "show teams", 0);
    KeywordsDiffer(body, 0, "drop ", "show team", 0);
    KeywordsDiffer(body, 0, "drop ", "get roster", 0);
    SignedInReadsCommand(w, env, from, body, originalBody);
  }

  /** The answer to a pending drop: "yes" (trimmed, any case) confirms it,
      anything else cancels it, and either way it is over. */
  lemma {:induction false} DropAnswered(w: World, env: Env, from: string, reply: string, originalBody: string)
    requires ServicesState(w, from) == Some(DropRequest(originalBody))
    ensures Router(w, env, from, reply, reply)
            == Out(ClearServices(w, from),
                   [Send(if LowerIs(Trim(reply), "yes") then DropConfirmed else DropCancelled)])
  {
  }

  /** The whole dialogue: the warning first, then the answer decides, and
      the sender is left with nothing pending, as before. */
  lemma {:induction false} DropDialogue(w: World, env: Env, from: string, body: string, originalBody: string, reply: string)
    requires ServicesState(w, from).None? && SignedIn(w, env, from) && KeywordAt(body, 0, "drop ")
    ensures var asked := Router(w, env, from, body, originalBody);
            var answered := Router(asked.w, env, from, reply, reply);
            && asked.events == [Send(DropWarning(DropName(originalBody)))]
            && answered.events == [Send(if LowerIs(Trim(reply), "yes") then DropConfirmed else DropCancelled)]
            && answered.w == w
  {
    DropAsksFirst(w, env, from, body, originalBody);
    var w1 := SetServices(w, from, DropRequest(originalBody));
    DropAnswered(w1, env, from, reply, originalBody);
    assert ClearServices(w1, from) == w;
  }

  /** A bare "yes" with nothing pending is told that no drop is in
      progress, and nothing is stored. */
  lemma {:induction false} StrayYes(w: World, env: Env, from: string, body: string, originalBody: string)
    requires ServicesState(w, from).None? && SignedIn(w, env, from) && LowerIs(body, "yes")
    ensures Router(w, env, from, body, originalBody) == Out(w, [Send(NoDropInProgress)])
  {
    SignedInReadsCommand(w, env, from, body, originalBody);
  }

  // ---------------------------------------------------------------------------
  // left-over states
  // ---------------------------------------------------------------------------

  /** A stored state that is neither the roster menu nor a pending drop (one
      the other engine left, say) gives way: it is cleared, and the message
      is read as if nothing had been pending. */
  lemma {:induction false} LeftOverStateGivesWay(w: World, env: Env, from: string, body: string, originalBody: string)
    requires ServicesState(w, from).Some?
    requires var s := ServicesState(w, from).value;
             !(s.kind == GetRoster && s.step == Some(AwaitingTeam))
             && !(s.kind == DropPlayer && s.step == Some(AwaitingConfirmation))
    ensures Router(w, env, from, body, originalBody)
            == Router(ClearServices(w, from), env, from, body, originalBody)
  {
  }

  // ---------------------------------------------------------------------------
  // the roster
  // ---------------------------------------------------------------------------

  /** The roster menu, answered by a sender whose record has no access token
      (or who has none): they are told to sign in, and the menu stays. */
  lemma {:induction false} MenuReplyNeedsToken(w: World, env: Env, from: string, reply: string, names: seq<string>)
    requires ServicesState(w, from) == Some(AwaitingTeamMenu(names))
    requires !Truthy(AccessToken(w, from))
    ensures Router(w, env, from, reply, reply) == Out(w, [Send(AuthRequiredText)])
  {
  }

  /** "get roster" words as the command words see them: neither "show
      teams" nor "show team", so the roster command runs with the team the
      message names, none when it names none. */
  lemma {:induction false} RosterCommand(w: World, env: Env, from: string, body: string, originalBody: string)
    requires ServicesState(w, from).None? && SignedIn(w, env, from) && KeywordAt(body, 0, "get roster")
    ensures Router(w, env, from, body, originalBody)
            == GetRosterCommand.Run(w, env, from, if NamesNoTeam(body) then None else Some(TeamInput(body)))
  {
    KeywordsDiffer(body, 0, "get roster", "help", 0);
    KeywordsDiffer(body, 0, "get roster", "link", 0);
    KeywordsDiffer(body, 0, "get roster", "show teams", 0);
    KeywordsDiffer(body, 0, "get roster", "show team", 0);
    SignedInReadsCommand(w, env, from, body, originalBody);
  }

  /** "get roster <team>" fetches the team as typed and stores nothing. */
  lemma {:induction false} RosterByName(w: World, env: Env, from: string, body: string, originalBody: string)
    requires ServicesState(w, from).None? && SignedIn(w, env, from)
    requires KeywordAt(body, 0, "get roster") && !NamesNoTeam(body) && TeamInput(body) != ""
    ensures var r := Router(w, env, from, body, originalBody);
            GetRosterCommand.RosterFetched(r.events, env, Some(TeamInput(body))) && r.w == w
  {
    RosterCommand(w, env, from, body, originalBody);
    assert !GetRosterCommand.AwaitingMenu(w, from);
  }

  /** "get roster" followed by nothing but a double quote names the empty
      team, which the roster command reads as no team: the menu is shown
      and, here, kept for the number that answers it. */
  lemma {:induction false} EmptyTeamKeepsMenu(w: World, env: Env, from: string, body: string, originalBody: string)
    requires ServicesState(w, from).None? && SignedIn(w, env, from) && !NoTeamsStored(w, from)
    requires KeywordAt(body, 0, "get roster") && !NamesNoTeam(body) && TeamInput(body) == ""
    ensures var names := Names(GetUserTeamsDict(w.users, from).value);
            Router(w, env, from, body, originalBody)
            == Out(SetServices(w, from, AwaitingTeamMenu(names)), [Send(RosterMenu(names))])
  {
    RosterCommand(w, env, from, body, originalBody);
  }

  /** "get roster" with no team, from a sender with teams, shows the menu
      of their team names and keeps it pending. */
  lemma {:induction false} AskForMenu(w: World, env: Env, from: string, body: string, originalBody: string)
    requires ServicesState(w, from).None? && SignedIn(w, env, from) && !NoTeamsStored(w, from)
    requires KeywordAt(body, 0, "get roster") && NamesNoTeam(body)
    ensures var names := Names(GetUserTeamsDict(w.users, from).value);
            Router(w, env, from, body, originalBody)
            == Out(SetServices(w, from, AwaitingTeamMenu(names)), [Send(RosterMenu(names))])
  {
    RosterCommand(w, env, from, body, originalBody);
  }

  /** The number of a menu entry, from a sender with an access token,
      clears the menu and fetches the key stored under that entry. */
  lemma {:induction false} MenuPick(w: World, env: Env, from: string, n: nat)
    requires GetUserTeamsDict(w.users, from).Some? && Truthy(AccessToken(w, from))
    requires var d := GetUserTeamsDict(w.users, from).value;
             ServicesState(w, from) == Some(AwaitingTeamMenu(Names(d))) && 1 <= n <= |d|
    ensures var d := GetUserTeamsDict(w.users, from).value;
            var r := Router(w, env, from, NatToString(n), NatToString(n));
            GetRosterCommand.RosterFetched(r.events, env, Some(d[n - 1].1))
            && r.w == ClearServices(w, from)
  {
    var d := GetUserTeamsDict(w.users, from).value;
    PickByNumber(n, |d|);
    GetAt(d, n - 1);
    assert GetRosterCommand.Resolve(w, from, Names(d), NatToString(n)) == Some(d[n - 1].1);
  }

  /** The menu round trip: "get roster" with no team, then the number of an
      entry, fetches the key stored for that entry and leaves the sender as
      they were. */
  lemma {:induction false} MenuRoundTrip(w: World, env: Env, from: string, body: string, n: nat)
    requires ServicesState(w, from).None? && SignedIn(w, env, from) && !NoTeamsStored(w, from)
    requires KeywordAt(body, 0, "get roster") && NamesNoTeam(body)
    requires Truthy(AccessToken(w, from)) && 1 <= n <= |GetUserTeamsDict(w.users, from).value|
    ensures var d := GetUserTeamsDict(w.users, from).value;
            var asked := Router(w, env, from, body, body);
            var picked := Router(asked.w, env, from, NatToString(n), NatToString(n));
            && asked.events == [Send(RosterMenu(Names(d)))]
            && GetRosterCommand.RosterFetched(picked.events, env, Some(d[n - 1].1))
            && picked.w == w
  {
    var d := GetUserTeamsDict(w.users, from).value;
    var w1 := SetServices(w, from, AwaitingTeamMenu(Names(d)));
    assert Router(w, env, from, body, body) == Out(w1, [Send(RosterMenu(Names(d)))]) by {
      AskForMenu(w, env, from, body, body);
    }
    MenuPick(w1, env, from, n);
    assert ClearServices(w1, from) == w;
  }

  // ---------------------------------------------------------------------------
  // the store invariant
  // ---------------------------------------------------------------------------

  /** The sender has nothing pending, or a state this router resumes. */
  predicate Settled(w: World, from: string) {
    ServicesState(w, from).None? || Resumable(ServicesState(w, from).value)
  }

  /** A resumed state leaves the sender settled: the menu stays, is shown
      again or is cleared, and a drop is always over. */
  lemma {:induction false} ResumeSettles(w: World, env: Env, from: string, body: string)
    requires ServicesState(w, from).Some? && Resumable(ServicesState(w, from).value)
    ensures var o := Resume(w, env, from, body, ServicesState(w, from).value);
            o.Some? && Settled(o.value.w, from)
  {
    var s := ServicesState(w, from).value;
    if s.kind == GetRoster && Truthy(AccessToken(w, from)) {
      assert GetRosterCommand.AwaitingMenu(w, from);
    }
  }

  /** Whatever the message, a settled sender stays settled: the only states
      this router ever leaves behind are the roster menu and a pending drop,
      and no other sender's state changes. */
  lemma {:induction false} RouterKeepsSettled(w: World, env: Env, from: string, body: string, originalBody: string)
    requires Settled(w, from)
    ensures var r := Router(w, env, from, body, originalBody);
            Settled(r.w, from) && forall p :: p != from ==> ServicesState(r.w, p) == ServicesState(w, p)
  {
    if ServicesState(w, from).Some? {
      ResumeSettles(w, env, from, body);
    }
  }
}
