/** The services revision of the conversation engine, the one the WhatsApp
    webhook runs: `conversationRouter` in src/services/messageHandler.ts and
    `stateHandler` in src/services/stateHandler.ts.  It keeps its state in
    the services store (`World.services`), the store the roster command also
    writes its menu to; a message that finds no state is classified, the
    decided state stored, and the handler run on it at once. */
module ServicesFlow {
  import opened Optional
  import opened Text
  import opened Dict
  import opened UserStorage
  import opened Flow
  import opened Bot
  import opened Routing
  import GetRosterCommand

  // ---------------------------------------------------------------------------
  // classification
  // ---------------------------------------------------------------------------

  /** The command words, for a signed-in sender with a live token.  "get
      roster" and "drop " only have to start the lower-cased message; the
      other words must be all of it.  "get roster" with no team asks for the
      menu straight away (or records that there are no teams); with a team
      it records the team as typed. */
  function ServicesChain(w: World, from: string, body: string, originalBody: string): (s: ConvState)
    ensures s.kind == ShowTeams ==> LowerIs(body, "show teams") && s == At(ShowTeams, Shown)
    ensures s.kind == ShowTeam ==> LowerIs(body, "show team") && s == At(ShowTeam, Shown)
    ensures s.kind == GetRoster ==>
              && KeywordAt(body, 0, "get roster")
              && (NamesNoTeam(body) && NoTeamsStored(w, from) ==> s == At(GetRoster, NoTeams))
              && (NamesNoTeam(body) && !NoTeamsStored(w, from) ==>
                    s == AwaitingTeamMenu(Names(GetUserTeamsDict(w.users, from).value)))
              && (!NamesNoTeam(body) ==> s == At(GetRoster, Shown).(teamKey := Some(TeamInput(body))))
    ensures s.kind == DropPlayer ==>
              (KeywordAt(body, 0, "drop ") && s == DropRequest(originalBody))
              || (LowerIs(body, "yes") && s == At(DropPlayer, NoPending))
    ensures s.kind == DefaultResponse ==> s == At(DefaultResponse, Shown).(body := Some(body))
    ensures s.kind in {ShowTeams, ShowTeam, GetRoster, DropPlayer, DefaultResponse}
  {
    if LowerIs(body, "show teams") then At(ShowTeams, Shown)
    else if LowerIs(body, "show team") then At(ShowTeam, Shown)
    else if KeywordAt(body, 0, "get roster") then
      if NamesNoTeam(body) then
        if NoTeamsStored(w, from) then At(GetRoster, NoTeams)
        else AwaitingTeamMenu(Names(GetUserTeamsDict(w.users, from).value))
      else At(GetRoster, Shown).(teamKey := Some(TeamInput(body)))
    else if KeywordAt(body, 0, "drop ") then DropRequest(originalBody)
    else if LowerIs(body, "yes") then At(DropPlayer, NoPending)
    else At(DefaultResponse, Shown).(body := Some(body))
  }

  /** Classifying a message that found no services state. */
  function ClassifyServices(w: World, env: Env, from: string, body: string, originalBody: string): (c: Classified)
    ensures Opening(w, env, from, body).Some? ==> c == Opening(w, env, from, body).value
    ensures Opening(w, env, from, body).None? ==>
              c == Classified(w.users, Some(ServicesChain(w, from, body, originalBody)))
  {
    match Opening(w, env, from, body)
    case Some(c) => c
    case None => Classified(w.users, Some(ServicesChain(w, from, body, originalBody)))
  }

  // ---------------------------------------------------------------------------
  // the flows
  // ---------------------------------------------------------------------------

  /** `/^[0-9]+$/.test(body.trim())`: the reply is a number. */
  predicate IsNumberReply(body: string) {
    AllDigits(Trim(body))
  }

  /** The key a valid pick names: the key the sender's teams store under the
      picked name; none when no teams are stored or the name is no longer
      among them. */
  function PickedKey(w: World, from: string, names: seq<string>, body: string): Option<string>
    requires ValidPick(body, |names|)
  {
    var d := GetUserTeamsDict(w.users, from);
    if d.Some? then Get(d.value, names[ParseInt(body).value - 1]) else None
  }

  /** The roster flow.  At the menu, anything that is not a number shows
      the menu again and keeps it (without names to list the handler
      throws, which the webhook swallows); a number picks a name, clears
      the menu and runs the roster command for the key stored under it; a
      number out of range is an error that keeps the menu.  A team named
      in the message is fetched and the state cleared; no teams is an error
      that clears it.  Users, link codes and the utils store never change,
      and at most one roster is requested. */
  function HandleRoster(w: World, env: Env, from: string, body: string, s: ConvState): (r: Out)
    requires s.kind == GetRoster
    ensures r.w.users == w.users && r.w.utils == w.utils && r.w.codes == w.codes
    ensures forall p :: p != from ==> ServicesState(r.w, p) == ServicesState(w, p)
    ensures CountCalls(r.events, IsRosterFetch) <= 1
    ensures s.step == Some(AwaitingTeam) && !IsNumberReply(body) ==>
              r == Out(w, if s.teamNames.Some? then [Send(RosterMenu(s.teamNames.value))] else [])
    ensures s.step == Some(AwaitingTeam) && IsNumberReply(body) && s.teamNames.Some?
            && ValidPick(body, |s.teamNames.value|) ==>
              r == GetRosterCommand.Run(ClearServices(w, from), env, from,
                                        PickedKey(w, from, s.teamNames.value, body))
    ensures s.step == Some(AwaitingTeam) && IsNumberReply(body)
            && !(s.teamNames.Some? && ValidPick(body, |s.teamNames.value|)) ==>
              r == Out(w, [Send(InvalidSelection)])
    ensures s.step == Some(Shown) ==>
              var o := GetRosterCommand.Run(w, env, from, s.teamKey);
              r == Out(ClearServices(o.w, from), o.events)
    ensures s.step == Some(NoTeams) ==> r == Out(ClearServices(w, from), [Send(NoTeamsUseShowTeams)])
    ensures s.step !in {Some(AwaitingTeam), Some(Shown), Some(NoTeams)} ==> r == Out(w, [])
  {
    if s.step == Some(AwaitingTeam) then
      if !IsNumberReply(body) then
        match s.teamNames
        case Some(names) => Out(w, [Send(RosterMenu(names))])
        case None => Out(w, [])
      else if s.teamNames.Some? && ValidPick(body, |s.teamNames.value|) then
        var key := PickedKey(w, from, s.teamNames.value, body);
        GetRosterCommand.Run(ClearServices(w, from), env, from, key)
      else Out(w, [Send(InvalidSelection)])
    else if s.step == Some(Shown) then
      var o := GetRosterCommand.Run(w, env, from, s.teamKey);
      Out(ClearServices(o.w, from), o.events)
    else if s.step == Some(NoTeams) then Out(ClearServices(w, from), [Send(NoTeamsUseShowTeams)])
    else Out(w, [])
  }

  /** The drop flow.  A pending drop is confirmed by "yes" (trimmed, any
      case) and cancelled by anything else, and either way it ends; a stray
      "yes" is told there is nothing to confirm.  Only replies are sent:
      no drop is ever requested. */
  function HandleDropRequest(w: World, from: string, body: string, s: ConvState): (r: Out)
    requires s.kind == DropPlayer
    ensures r.w.users == w.users && r.w.utils == w.utils && r.w.codes == w.codes
    ensures forall p :: p != from ==> ServicesState(r.w, p) == ServicesState(w, p)
    ensures |r.events| <= 1 && (|r.events| == 1 ==> r.events[0].Send?)
    ensures s.step == Some(AwaitingConfirmation) ==>
              r.w == ClearServices(w, from)
              && r.events == [Send(if LowerIs(Trim(body), "yes") then DropConfirmed else DropCancelled)]
    ensures s.step == Some(NoPending) ==> r == Out(ClearServices(w, from), [Send(NoDropInProgress)])
    ensures s.step != Some(AwaitingConfirmation) && s.step != Some(NoPending) ==> r == Out(w, [])
  {
    if s.step == Some(AwaitingConfirmation) then
      if LowerIs(Trim(body), "yes") then Out(ClearServices(w, from), [Send(DropConfirmed)])
      else Out(ClearServices(w, from), [Send(DropCancelled)])
    else if s.step == Some(NoPending) then Out(ClearServices(w, from), [Send(NoDropInProgress)])
    else Out(w, [])
  }

  /** `stateHandler`: one transition of the stored flow.  No state does
      nothing; the one-reply states run their command and clear; a type with
      no case of its own ("show team", and any state another engine left in
      this store) gets the "didn't understand" reply and is cleared.  The
      utils store is never touched, each stored selection stays consistent,
      and no other sender's state changes. */
  function ServicesHandle(w: World, env: Env, from: string, body: string, state: Option<ConvState>): (r: Out)
    ensures state.None? ==> r == Out(w, [])
    ensures state.Some? && OneShot(state.value.kind) ==>
              var o := RunOneShot(w, env, from, body, state.value.kind);
              r == Out(ClearServices(o.w, from), o.events)
    ensures state.Some? && !OneShot(state.value.kind) && state.value.kind !in {GetRoster, DropPlayer} ==>
              r == Out(ClearServices(w, from), [Send(NotUnderstood)])
    ensures r.w.utils == w.utils
    ensures forall p :: p != from ==> ServicesState(r.w, p) == ServicesState(w, p)
    ensures Consistent(w.users) ==> Consistent(r.w.users)
  {
    match state
    case None => Out(w, [])
    case Some(s) =>
      if OneShot(s.kind) then
        var o := RunOneShot(w, env, from, body, s.kind);
        Out(ClearServices(o.w, from), o.events)
      else if s.kind == GetRoster then HandleRoster(w, env, from, body, s)
      else if s.kind == DropPlayer then HandleDropRequest(w, from, body, s)
      else Out(ClearServices(w, from), [Send(NotUnderstood)])
  }

  /** The services `conversationRouter`: a stored state takes the message;
      otherwise the message is classified, and the decided state stored and
      run at once. */
  function ServicesRouter(w: World, env: Env, from: string, body: string, originalBody: string): (r: Out)
    ensures ServicesState(w, from).Some? ==> r == ServicesHandle(w, env, from, body, ServicesState(w, from))
    ensures r.w.utils == w.utils
  {
    match ServicesState(w, from)
    case Some(s) => ServicesHandle(w, env, from, body, Some(s))
    case None => ClassifyThenHandle(w, env, from, body, originalBody)
  }

  /** A message that found no services state.  A refresh that went through
      stores no state, so the message does nothing more than store the new
      tokens. */
  function ClassifyThenHandle(w: World, env: Env, from: string, body: string, originalBody: string): (r: Out)
    ensures var c := ClassifyServices(w, env, from, body, originalBody);
            && (c.state.None? ==> r == Out(w.(users := c.users), []))
            && (c.state.Some? ==>
                  r == ServicesHandle(SetServices(w.(users := c.users), from, c.state.value), env, from, body, c.state))
    ensures r.w.utils == w.utils
  {
    var c := ClassifyServices(w, env, from, body, originalBody);
    var w1 := w.(users := c.users);
    match c.state
    case None => Out(w1, [])
    case Some(s) => ServicesHandle(SetServices(w1, from, s), env, from, body, Some(s))
  }

  /** The WhatsApp webhook: the text of the message, trimmed, is both the
      body and the original body. */
  function Webhook(w: World, env: Env, from: string, raw: string): Out {
    ServicesRouter(w, env, from, Trim(raw), Trim(raw))
  }
}
