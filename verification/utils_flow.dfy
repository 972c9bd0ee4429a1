/** The utils revision of the conversation engine: `conversationRouter` in
    src/utils/messageHandler.ts and `stateHandler` in src/utils/stateHandler.ts.
    It keeps its own conversation store (`World.utils`), classifies a message
    only when that store holds nothing for the sender, and then runs one
    transition of the stored flow. */
module UtilsFlow {
  import opened Optional
  import opened Text
  import opened Dict
  import opened UserStorage
  import opened Flow
  import opened Bot
  import opened Routing
  import SimpleCommands
  import ChooseTeamCommand
  import GetRosterCommand
  import RosterMoves
  import ModifyLineupCommand

  // ---------------------------------------------------------------------------
  // classification
  // ---------------------------------------------------------------------------

  /** The command words, for a signed-in sender with a live token.  Each
      word but "drop " must be the whole lower-cased message; anything else
      is the default reply carrying the message. */
  function UtilsChain(w: World, from: string, body: string, originalBody: string): (s: ConvState)
    ensures s.kind == ChooseTeam ==> LowerIs(body, "choose team")
                                     && (s.step == Some(NoTeams) <==> NoTeamsStored(w, from))
    ensures s.kind == GetRoster ==> LowerIs(body, "get roster") && s == Bare(GetRoster)
    ensures s.kind == GetStandings ==> LowerIs(body, "get standings") && s == Bare(GetStandings)
    ensures s.kind == ModifyLineup ==> LowerIs(body, "modify lineup")
    ensures s.kind == DropPlayer ==>
              (KeywordAt(body, 0, "drop ") && s == DropRequest(originalBody))
              || (LowerIs(body, "yes") && s == At(DropPlayer, NoPending))
    ensures s.kind == DefaultResponse ==> s.body == Some(body)
    ensures s.kind in {ShowTeams, ChooseTeam, GetRoster, GetStandings, ModifyLineup, DropPlayer, DefaultResponse}
  {
    if LowerIs(body, "show teams") then At(ShowTeams, Shown)
    else if LowerIs(body, "choose team") then
      if NoTeamsStored(w, from) then At(ChooseTeam, NoTeams) else At(ChooseTeam, Shown)
    else if LowerIs(body, "get roster") then Bare(GetRoster)
    else if LowerIs(body, "get standings") then Bare(GetStandings)
    else if LowerIs(body, "modify lineup") then At(ModifyLineup, AwaitingPlayerMove)
    else if KeywordAt(body, 0, "drop ") then DropRequest(originalBody)
    else if LowerIs(body, "yes") then At(DropPlayer, NoPending)
    else At(DefaultResponse, Shown).(body := Some(body))
  }

  /** Classifying a message that found no utils state. */
  function ClassifyUtils(w: World, env: Env, from: string, body: string, originalBody: string): (c: Classified)
    ensures Opening(w, env, from, body).Some? ==> c == Opening(w, env, from, body).value
    ensures Opening(w, env, from, body).None? ==>
              c == Classified(w.users, Some(UtilsChain(w, from, body, originalBody)))
  {
    match Opening(w, env, from, body)
    case Some(c) => c
    case None => Classified(w.users, Some(UtilsChain(w, from, body, originalBody)))
  }

  // ---------------------------------------------------------------------------
  // the flows
  // ---------------------------------------------------------------------------

  /** The state after a name was given for the add flow, prompt not yet
      marked as sent. */
  function AddConfirmation(name: string): ConvState {
    At(AddPlayer, AwaitingConfirmation).(addPlayer := Some(name))
  }

  function DropConfirmation(name: string): ConvState {
    At(DropPlayer, AwaitingConfirmation).(dropPlayer := Some(name))
  }

  /** The message only asks for the name again: empty, or the trigger
      phrase itself. */
  predicate IsTrigger(body: string, phrase: string) {
    body == "" || LowerIs(Trim(body), phrase)
  }

  /** A confirmation state that reads the message as an answer: right step,
      a named player, and the prompt already sent once. */
  predicate Answering(s: ConvState, name: Option<string>) {
    s.step == Some(AwaitingConfirmation) && Truthy(name) && s.confirmPromptSent
  }

  /** A confirmation state whose prompt has not been sent yet. */
  predicate Unprompted(s: ConvState, name: Option<string>) {
    s.step == Some(AwaitingConfirmation) && Truthy(name) && !s.confirmPromptSent
  }

  /** The league of the sender's chosen team. */
  function LeagueOfChoice(w: World, from: string): string {
    LeagueKeyFromTeamKey(GetUserChosenTeam(w.users, from))
  }

  /** The add flow.  At the name step the message either asks again or
      becomes the trimmed name; the first message after that is never an
      answer, it only marks the prompt as sent; after that "yes" runs the
      add command once for the chosen team and its league and ends the
      flow, "no" ends it, and anything else asks again.  Only the utils
      state of the sender can change, and at most one add is requested. */
  function HandleAdd(w: World, env: Env, from: string, body: string, s: ConvState): (r: Out)
    ensures r.w.users == w.users && r.w.services == w.services && r.w.codes == w.codes
    ensures forall p :: p != from ==> UtilsState(r.w, p) == UtilsState(w, p)
    ensures CountCalls(r.events, IsAdd) <= 1
    ensures s.step == Some(AwaitingName) && IsTrigger(body, "add player") ==>
              r == Out(w, [Send(AskAddName)])
    ensures s.step == Some(AwaitingName) && !IsTrigger(body, "add player") ==>
              r == Out(SetUtils(w, from, AddConfirmation(Trim(body))), [Send(ConfirmAdd(Trim(body)))])
    ensures Unprompted(s, s.addPlayer) ==>
              r == Out(SetUtils(w, from, s.(confirmPromptSent := true)), [Send(ConfirmAdd(s.addPlayer.value))])
    ensures Answering(s, s.addPlayer) && LowerIs(Trim(body), "yes") ==>
              var team := GetUserChosenTeam(w.users, from);
              r.w == ClearUtils(w, from)
              && r.events == RosterMoves.AddPlayer(w, env, LeagueOfChoice(w, from), team, s.addPlayer.value).events
    ensures Answering(s, s.addPlayer) && LowerIs(Trim(body), "no") ==> r == Out(ClearUtils(w, from), [])
    ensures Answering(s, s.addPlayer) && !LowerIs(Trim(body), "yes") && !LowerIs(Trim(body), "no") ==>
              r == Out(w, [Send(ConfirmAdd(s.addPlayer.value))])
    ensures s.step != Some(AwaitingName) && !(s.step == Some(AwaitingConfirmation) && Truthy(s.addPlayer)) ==>
              r == Out(w, [])
    ensures CountCalls(r.events, IsAdd) == 1 ==> Answering(s, s.addPlayer) && LowerIs(Trim(body), "yes")
  {
    if s.step == Some(AwaitingName) then
      if IsTrigger(body, "add player") then Out(w, [Send(AskAddName)])
      else Out(SetUtils(w, from, AddConfirmation(Trim(body))), [Send(ConfirmAdd(Trim(body)))])
    else if s.step == Some(AwaitingConfirmation) && Truthy(s.addPlayer) then
      var name := s.addPlayer.value;
      if !s.confirmPromptSent then
        Out(SetUtils(w, from, s.(confirmPromptSent := true)), [Send(ConfirmAdd(name))])
      else if LowerIs(Trim(body), "yes") then
        var team := GetUserChosenTeam(w.users, from);
        var o := RosterMoves.AddPlayer(w, env, LeagueKeyFromTeamKey(team), team, name);
        NoCallIffZero(o.events, IsAdd);
        Out(ClearUtils(w, from), o.events)
      else if LowerIs(Trim(body), "no") then Out(ClearUtils(w, from), [])
      else Out(w, [Send(ConfirmAdd(name))])
    else Out(w, [])
  }

  /** The drop flow, the add flow's mirror image: its player lives in the
      `dropPlayer` field, so a state that carries its name in `player`
      instead (the shape the classifier stores for "drop <name>") is never
      acted on. */
  function HandleDrop(w: World, env: Env, from: string, body: string, s: ConvState): (r: Out)
    ensures r.w.users == w.users && r.w.services == w.services && r.w.codes == w.codes
    ensures forall p :: p != from ==> UtilsState(r.w, p) == UtilsState(w, p)
    ensures CountCalls(r.events, IsDrop) <= 1
    ensures s.step == Some(AwaitingName) && IsTrigger(body, "drop player") ==>
              r == Out(w, [Send(AskDropName)])
    ensures s.step == Some(AwaitingName) && !IsTrigger(body, "drop player") ==>
              r == Out(SetUtils(w, from, DropConfirmation(Trim(body))), [Send(ConfirmDropOf(Trim(body)))])
    ensures Unprompted(s, s.dropPlayer) ==>
              r == Out(SetUtils(w, from, s.(confirmPromptSent := true)), [Send(ConfirmDropOf(s.dropPlayer.value))])
    ensures Answering(s, s.dropPlayer) && LowerIs(Trim(body), "yes") ==>
              var team := GetUserChosenTeam(w.users, from);
              r.w == ClearUtils(w, from)
              && r.events == RosterMoves.DropPlayer(w, env, LeagueOfChoice(w, from), team, s.dropPlayer.value).events
    ensures Answering(s, s.dropPlayer) && LowerIs(Trim(body), "no") ==> r == Out(ClearUtils(w, from), [])
    ensures Answering(s, s.dropPlayer) && !LowerIs(Trim(body), "yes") && !LowerIs(Trim(body), "no") ==>
              r == Out(w, [Send(ConfirmDropOf(s.dropPlayer.value))])
    ensures s.step != Some(AwaitingName) && !(s.step == Some(AwaitingConfirmation) && Truthy(s.dropPlayer)) ==>
              r == Out(w, [])
    ensures CountCalls(r.events, IsDrop) == 1 ==> Answering(s, s.dropPlayer) && LowerIs(Trim(body), "yes")
  {
    if s.step == Some(AwaitingName) then
      if IsTrigger(body, "drop player") then Out(w, [Send(AskDropName)])
      else Out(SetUtils(w, from, DropConfirmation(Trim(body))), [Send(ConfirmDropOf(Trim(body)))])
    else if s.step == Some(AwaitingConfirmation) && Truthy(s.dropPlayer) then
      var name := s.dropPlayer.value;
      if !s.confirmPromptSent then
        Out(SetUtils(w, from, s.(confirmPromptSent := true)), [Send(ConfirmDropOf(name))])
      else if LowerIs(Trim(body), "yes") then
        var team := GetUserChosenTeam(w.users, from);
        var o := RosterMoves.DropPlayer(w, env, LeagueKeyFromTeamKey(team), team, name);
        NoCallIffZero(o.events, IsDrop);
        Out(ClearUtils(w, from), o.events)
      else if LowerIs(Trim(body), "no") then Out(ClearUtils(w, from), [])
      else Out(w, [Send(ConfirmDropOf(name))])
    else Out(w, [])
  }

  /** The add/drop flow: any message but "yes" or "no" asks again; "yes"
      runs the swap once for the chosen team and ends the flow; "no" ends
      it; the swap is never requested without "yes".  An absent name reads
      as the text `undefined`. */
  function HandleAddDrop(w: World, env: Env, from: string, body: string, s: ConvState): (r: Out)
    ensures r.w.users == w.users && r.w.services == w.services && r.w.codes == w.codes
    ensures forall p :: p != from ==> UtilsState(r.w, p) == UtilsState(w, p)
    ensures s.step == Some(AwaitingConfirmation) && !LowerIs(Trim(body), "yes") && !LowerIs(Trim(body), "no") ==>
              r == Out(w, [Send(ConfirmAddDrop(JsText(s.addPlayer), JsText(s.dropPlayer)))])
    ensures s.step == Some(AwaitingConfirmation) && LowerIs(Trim(body), "yes") ==>
              var team := GetUserChosenTeam(w.users, from);
              r.w == ClearUtils(w, from)
              && r.events == RosterMoves.AddDropPlayer(w, env, LeagueOfChoice(w, from), team,
                                                       JsText(s.addPlayer), JsText(s.dropPlayer)).events
    ensures s.step == Some(AwaitingConfirmation) && LowerIs(Trim(body), "no") ==> r == Out(ClearUtils(w, from), [])
    ensures s.step != Some(AwaitingConfirmation) ==> r == Out(w, [])
    ensures !(s.step == Some(AwaitingConfirmation) && LowerIs(Trim(body), "yes")) ==> NoCall(r.events, IsAddDrop)
  {
    if s.step == Some(AwaitingConfirmation) then
      var lower := Trim(body);
      if body == "" || (!LowerIs(lower, "yes") && !LowerIs(lower, "no")) then
        Out(w, [Send(ConfirmAddDrop(JsText(s.addPlayer), JsText(s.dropPlayer)))])
      else if LowerIs(lower, "yes") then
        var team := GetUserChosenTeam(w.users, from);
        var o := RosterMoves.AddDropPlayer(w, env, LeagueKeyFromTeamKey(team), team,
                                           JsText(s.addPlayer), JsText(s.dropPlayer));
        Out(ClearUtils(w, from), o.events)
      else Out(ClearUtils(w, from), [])
    else Out(w, [])
  }

  /** The lineup loop: "done" and "cancel" end it with their reply; any
      other message is handed to the lineup command, the loop stays, and
      the prompt for another move follows exactly when the command reports
      success. */
  function HandleLineup(w: World, env: Env, from: string, body: string, s: ConvState): (r: Out)
    ensures r.w.users == w.users && r.w.services == w.services && r.w.codes == w.codes
    ensures forall p :: p != from ==> UtilsState(r.w, p) == UtilsState(w, p)
    ensures s.step == Some(AwaitingPlayerMove) && LowerIs(Trim(body), "done") ==>
              r == Out(ClearUtils(w, from), [Send(LineupComplete)])
    ensures s.step == Some(AwaitingPlayerMove) && LowerIs(Trim(body), "cancel") ==>
              r == Out(ClearUtils(w, from), [Send(LineupCancelled)])
    ensures s.step == Some(AwaitingPlayerMove) && !LowerIs(Trim(body), "done") && !LowerIs(Trim(body), "cancel") ==>
              var o := ModifyLineupCommand.ModifyLineup(w, env, from, body);
              r.w == w && r.events == o.events + (if o.ok then [Send(AnotherMove)] else [])
    ensures s.step != Some(AwaitingPlayerMove) ==> r == Out(w, [])
  {
    if s.step == Some(AwaitingPlayerMove) then
      if LowerIs(Trim(body), "done") then Out(ClearUtils(w, from), [Send(LineupComplete)])
      else if LowerIs(Trim(body), "cancel") then Out(ClearUtils(w, from), [Send(LineupCancelled)])
      else
        var o := ModifyLineupCommand.ModifyLineup(w, env, from, body);
        Out(w, o.events + (if o.ok then [Send(AnotherMove)] else []))
    else Out(w, [])
  }

  /** The team menu.  A state found with no teams lists the teams (storing
      what the listing returns), shows the menu and stores a bare
      `chooseTeam` state; a `shown` state shows the menu again and never
      reads the message; any other state reads the message as the reply.
      The utils state is never cleared here. */
  function HandleChooseTeam(w: World, env: Env, from: string, body: string, s: ConvState): (r: Out)
    ensures r.w.codes == w.codes
    ensures forall p :: p != from ==> UtilsState(r.w, p) == UtilsState(w, p)
    ensures s.step == Some(NoTeams) ==> UtilsState(r.w, from) == Some(Bare(ChooseTeam))
    ensures s.step != Some(NoTeams) ==> r.w.utils == w.utils
    ensures s.step == Some(Shown) ==> r == ChooseTeamCommand.Choose(w, from, None)
                                      && r.w.users == w.users
    ensures s.step != Some(NoTeams) && s.step != Some(Shown) ==>
              r == ChooseTeamCommand.Choose(w, from, Some(body))
    ensures Consistent(w.users) ==> Consistent(r.w.users)
  {
    if s.step == Some(NoTeams) then
      var a := SimpleCommands.ShowTeamsCommand(w, env, from);
      var b := ChooseTeamCommand.Choose(a.w, from, None);
      Out(SetUtils(b.w, from, Bare(ChooseTeam)), a.events + b.events)
    else if s.step == Some(Shown) then ChooseTeamCommand.Choose(w, from, None)
    else ChooseTeamCommand.Choose(w, from, Some(body))
  }

  /** The roster and standings gate.  Without a chosen team (for the
      roster) or league (for the standings) the team menu is shown and the
      state becomes the bare type again, so the next message is gated the
      same way and nothing is fetched; with one, the command runs for it and
      the state is cleared. */
  function HandleGate(w: World, env: Env, from: string, s: ConvState): (r: Out)
    requires s.kind == GetRoster || s.kind == GetStandings
    ensures r.w.codes == w.codes && r.w.users == w.users
    ensures forall p :: p != from ==> UtilsState(r.w, p) == UtilsState(w, p)
    ensures s.kind == GetRoster && GetUserChosenTeam(w.users, from) == "" ==>
              UtilsState(r.w, from) == Some(Bare(GetRoster))
              && r.events == ChooseTeamCommand.Choose(w, from, None).events
              && CountCalls(r.events, IsRosterFetch) == 0
    ensures s.kind == GetRoster && GetUserChosenTeam(w.users, from) != "" ==>
              var o := GetRosterCommand.Run(w, env, from, Some(GetUserChosenTeam(w.users, from)));
              r == Out(ClearUtils(o.w, from), o.events)
              && (!GetRosterCommand.AwaitingMenu(w, from) ==>
                    GetRosterCommand.RosterFetched(r.events, env, Some(GetUserChosenTeam(w.users, from))))
    ensures s.kind == GetStandings && GetUserChosenLeague(w.users, from) == "" ==>
              UtilsState(r.w, from) == Some(Bare(GetStandings))
              && r.events == ChooseTeamCommand.Choose(w, from, None).events
              && CountCalls(r.events, IsStandingsFetch) == 0
    ensures s.kind == GetStandings && GetUserChosenLeague(w.users, from) != "" ==>
              r == Out(ClearUtils(w, from),
                       SimpleCommands.StandingsCommand(w, env, from, GetUserChosenLeague(w.users, from)).events)
  {
    if s.kind == GetRoster then
      var team := GetUserChosenTeam(w.users, from);
      if team == "" then
        var b := ChooseTeamCommand.Choose(w, from, None);
        MenuFetchesNothing(w, from);
        Out(SetUtils(b.w, from, Bare(GetRoster)), b.events)
      else
        var o := GetRosterCommand.Run(w, env, from, Some(team));
        Out(ClearUtils(o.w, from), o.events)
    else
      var league := GetUserChosenLeague(w.users, from);
      if league == "" then
        var b := ChooseTeamCommand.Choose(w, from, None);
        MenuFetchesNothing(w, from);
        Out(SetUtils(b.w, from, Bare(GetStandings)), b.events)
      else
        var o := SimpleCommands.StandingsCommand(w, env, from, league);
        Out(ClearUtils(o.w, from), o.events)
  }

  /** Showing the team menu makes no request and changes no selection. */
  lemma {:induction false} MenuFetchesNothing(w: World, from: string)
    ensures var b := ChooseTeamCommand.Choose(w, from, None);
            && b.w.users == w.users && b.w.utils == w.utils && b.w.codes == w.codes
            && |b.events| == 1 && b.events[0].Send?
            && CountCalls(b.events, IsRosterFetch) == 0 && CountCalls(b.events, IsStandingsFetch) == 0
  {
    var b := ChooseTeamCommand.Choose(w, from, None);
    assert b.events[1..] == [];
  }

  /** `stateHandler`: one transition of the stored flow.  No state does
      nothing; the one-reply states run their command and always clear;
      a type with no case of its own gets the "didn't understand" reply and
      is cleared.  Every transition keeps each stored selection consistent
      and leaves every other sender's utils state alone. */
  function UtilsHandle(w: World, env: Env, from: string, body: string, state: Option<ConvState>): (r: Out)
    ensures state.None? ==> r == Out(w, [])
    ensures state.Some? && OneShot(state.value.kind) ==>
              var o := RunOneShot(w, env, from, body, state.value.kind);
              r == Out(ClearUtils(o.w, from), o.events)
    ensures state.Some? && state.value.kind == ShowTeam ==> r == Out(ClearUtils(w, from), [Send(NotUnderstood)])
    ensures forall p :: p != from ==> UtilsState(r.w, p) == UtilsState(w, p)
    ensures Consistent(w.users) ==> Consistent(r.w.users)
  {
    match state
    case None => Out(w, [])
    case Some(s) =>
      match s.kind
      case Help => OneShotThenClear(w, env, from, body, s.kind)
      case Link => OneShotThenClear(w, env, from, body, s.kind)
      case AuthRequired => OneShotThenClear(w, env, from, body, s.kind)
      case TokenExpired => OneShotThenClear(w, env, from, body, s.kind)
      case ShowTeams => OneShotThenClear(w, env, from, body, s.kind)
      case DefaultResponse => OneShotThenClear(w, env, from, body, s.kind)
      case ChooseTeam => HandleChooseTeam(w, env, from, body, s)
      case GetRoster => HandleGate(w, env, from, s)
      case GetStandings => HandleGate(w, env, from, s)
      case AddPlayer => HandleAdd(w, env, from, body, s)
      case DropPlayer => HandleDrop(w, env, from, body, s)
      case AddDropPlayer => HandleAddDrop(w, env, from, body, s)
      case ModifyLineup => HandleLineup(w, env, from, body, s)
      case ShowTeam => Out(ClearUtils(w, from), [Send(NotUnderstood)])
  }

  /** A one-reply command followed by clearing the utils state. */
  function OneShotThenClear(w: World, env: Env, from: string, body: string, k: Kind): (r: Out)
    requires OneShot(k)
    ensures UtilsState(r.w, from).None?
    ensures forall p :: p != from ==> UtilsState(r.w, p) == UtilsState(w, p)
    ensures Consistent(w.users) ==> Consistent(r.w.users)
  {
    var o := RunOneShot(w, env, from, body, k);
    Out(ClearUtils(o.w, from), o.events)
  }

  /** The utils `conversationRouter`.  "restart" (trimmed, any case) only
      clears the utils state; a stored state goes straight to its flow;
      otherwise the message is classified, and the decided state stored and
      run at once. */
  function UtilsRouter(w: World, env: Env, from: string, body: string, originalBody: string): (r: Out)
    ensures LowerIs(Trim(body), "restart") ==> r == Out(ClearUtils(w, from), [])
    ensures !LowerIs(Trim(body), "restart") && UtilsState(w, from).Some? ==>
              r == UtilsHandle(w, env, from, body, UtilsState(w, from))
  {
    if LowerIs(Trim(body), "restart") then Out(ClearUtils(w, from), [])
    else match UtilsState(w, from)
      case Some(s) => UtilsHandle(w, env, from, body, Some(s))
      case None => ClassifyThenHandle(w, env, from, body, originalBody)
  }

  /** A message that found no utils state: the classification is stored and
      run at once.  A refresh that went through stores no state, so the
      message does nothing more than store the new tokens. */
  function ClassifyThenHandle(w: World, env: Env, from: string, body: string, originalBody: string): (r: Out)
    ensures var c := ClassifyUtils(w, env, from, body, originalBody);
            && (c.state.None? ==> r == Out(w.(users := c.users), []))
            && (c.state.Some? ==>
                  r == UtilsHandle(SetUtils(w.(users := c.users), from, c.state.value), env, from, body, c.state))
  {
    var c := ClassifyUtils(w, env, from, body, originalBody);
    var w1 := w.(users := c.users);
    match c.state
    case None => Out(w1, [])
    case Some(s) => UtilsHandle(SetUtils(w1, from, s), env, from, body, Some(s))
  }
}
