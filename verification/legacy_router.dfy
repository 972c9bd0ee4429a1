/** The older router of src/services/conversationRouter.ts, which handles and
    classifies in one pass over the services store.  A stored roster menu or
    pending drop takes the message; any other stored state is dropped and the
    same message is read as a command.  Unlike the webhook's engine it sends
    the drop warning and waits for the answer, and after a token refresh it
    goes on to the command the message carried. */
module LegacyRouter {
  import opened Optional
  import opened Text
  import opened Dict
  import opened UserStorage
  import opened Flow
  import opened Bot
  import opened Routing
  import GetRosterCommand

  /** The two states this router resumes: the roster menu and a pending
      drop.  `None` means the state is not one of them, and the message
      falls through to command detection. */
  function Resume(w: World, env: Env, from: string, body: string, s: ConvState): (r: Option<Out>)
    ensures r.None? <==> !(s.kind == GetRoster && s.step == Some(AwaitingTeam))
                         && !(s.kind == DropPlayer && s.step == Some(AwaitingConfirmation))
    ensures s.kind == GetRoster && s.step == Some(AwaitingTeam) && !Truthy(AccessToken(w, from)) ==>
              r == Some(Out(w, [Send(AuthRequiredText)]))
    ensures s.kind == GetRoster && s.step == Some(AwaitingTeam) && Truthy(AccessToken(w, from)) ==>
              r == Some(GetRosterCommand.Run(w, env, from, Some(body)))
    ensures s.kind == DropPlayer && s.step == Some(AwaitingConfirmation) ==>
              r == Some(Out(ClearServices(w, from),
                            [Send(if LowerIs(Trim(body), "yes") then DropConfirmed else DropCancelled)]))
    ensures r.Some? ==> r.value.w.users == w.users && r.value.w.utils == w.utils && r.value.w.codes == w.codes
    ensures r.Some? ==> forall p :: p != from ==> ServicesState(r.value.w, p) == ServicesState(w, p)
  {
    if s.kind == GetRoster && s.step == Some(AwaitingTeam) then
      if !Truthy(AccessToken(w, from)) then Some(Out(w, [Send(AuthRequiredText)]))
      else Some(GetRosterCommand.Run(w, env, from, Some(body)))
    else if s.kind == DropPlayer && s.step == Some(AwaitingConfirmation) then
      if LowerIs(Trim(body), "yes") then Some(Out(ClearServices(w, from), [Send(DropConfirmed)]))
      else Some(Out(ClearServices(w, from), [Send(DropCancelled)]))
    else None
  }

  /** The states command detection can leave behind for the sender: the
      roster menu or a pending drop. */
  predicate Resumable(s: ConvState) {
    (s.kind == GetRoster && s.step == Some(AwaitingTeam) && s.teamNames.Some?)
    || (s.kind == DropPlayer && s.step == Some(AwaitingConfirmation) && s.player.Some?)
  }

  /** The command words, for a sender with a record whose token is live or
      was just refreshed.  "get roster" and "drop " only have to start the
      lower-cased message; the other words must be all of it.  Only "get
      roster" with no usable team (which stores the menu) and "drop <name>"
      (which stores the pending drop and warns) leave a state behind. */
  function Commands(w: World, env: Env, from: string, body: string, originalBody: string): (r: Out)
    ensures r.w.utils == w.utils && r.w.codes == w.codes
    ensures forall p :: p != from ==> ServicesState(r.w, p) == ServicesState(w, p)
    ensures Consistent(w.users) ==> Consistent(r.w.users)
    ensures ServicesState(w, from).None? ==>
              ServicesState(r.w, from).None? || Resumable(ServicesState(r.w, from).value)
    ensures KeywordAt(body, 0, "drop ") && !KeywordAt(body, 0, "get roster")
            && !LowerIs(body, "show teams") && !LowerIs(body, "show team") ==>
              r == Out(SetServices(w, from, DropRequest(originalBody)), [Send(DropWarning(DropName(originalBody)))])
  {
    if LowerIs(body, "show teams") then RunOneShot(w, env, from, body, ShowTeams)
    else if LowerIs(body, "show team") then Out(w, [Send(ShowTeamSoon)])
    else if KeywordAt(body, 0, "get roster") then
      if NamesNoTeam(body) then GetRosterCommand.Run(w, env, from, None)
      else GetRosterCommand.Run(w, env, from, Some(TeamInput(body)))
    else if KeywordAt(body, 0, "drop ") then
      Out(SetServices(w, from, DropRequest(originalBody)), [Send(DropWarning(DropName(originalBody)))])
    else if LowerIs(body, "yes") then Out(w, [Send(NoDropInProgress)])
    else Out(w, [Send(DefaultText(body))])
  }

  /** Command detection: the opening checks both classifiers share ("help",
      "link", the sign-in check, the expiry check), then the command words.
      A refresh that goes through stores the new tokens and carries on to
      the command words with the same message. */
  function Detect(w: World, env: Env, from: string, body: string, originalBody: string): (r: Out)
    ensures Opening(w, env, from, body).None? ==> r == Commands(w, env, from, body, originalBody)
    ensures Opening(w, env, from, body).Some? && Opening(w, env, from, body).value.state.None? ==>
              r == Commands(w.(users := Opening(w, env, from, body).value.users), env, from, body, originalBody)
    ensures Opening(w, env, from, body).Some? && Opening(w, env, from, body).value.state.Some? ==>
              r.w.services == w.services && r.w.users == w.users && |r.events| == 1
    ensures r.w.utils == w.utils
    ensures forall p :: p != from ==> ServicesState(r.w, p) == ServicesState(w, p)
    ensures Consistent(w.users) ==> Consistent(r.w.users)
    ensures ServicesState(w, from).None? ==>
              ServicesState(r.w, from).None? || Resumable(ServicesState(r.w, from).value)
  {
    match Opening(w, env, from, body)
    case None => Commands(w, env, from, body, originalBody)
    case Some(c) =>
      match c.state
      case None => Commands(w.(users := c.users), env, from, body, originalBody)
      case Some(s) => RunOneShot(w, env, from, body, s.kind)
  }

  /** `conversationRouter`: a stored roster menu or pending drop takes the
      message; any other stored state is cleared and the message detected
      as a command, as is a message that found no state.  The utils store
      is never touched, no other sender's state changes, and selections
      stay consistent. */
  function Router(w: World, env: Env, from: string, body: string, originalBody: string): (r: Out)
    ensures ServicesState(w, from).None? ==> r == Detect(w, env, from, body, originalBody)
    ensures ServicesState(w, from).Some? ==>
              var o := Resume(w, env, from, body, ServicesState(w, from).value);
              r == if o.Some? then o.value else Detect(ClearServices(w, from), env, from, body, originalBody)
    ensures r.w.utils == w.utils
    ensures forall p :: p != from ==> ServicesState(r.w, p) == ServicesState(w, p)
    ensures Consistent(w.users) ==> Consistent(r.w.users)
  {
    match ServicesState(w, from)
    case None => Detect(w, env, from, body, originalBody)
    case Some(s) =>
      match Resume(w, env, from, body, s)
      case Some(o) => o
      case None => Detect(ClearServices(w, from), env, from, body, originalBody)
  }
}
