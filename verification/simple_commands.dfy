/** The commands that reply once: the account link, the team listing and the
    league standings. */
module SimpleCommands {
  import opened Optional
  import opened Dict
  import opened UserStorage
  import opened Bot

  /** `linkCommand`: the sender gets a fresh one-time code that resolves back
      to their number, and no other code changes. */
  function LinkCommand(w: World, env: Env, from: string): (r: Out)
    ensures PhoneFromLinkCode(r.w.codes, env.linkCode).0 == Some(from)
    ensures forall c :: c in w.codes && c != env.linkCode ==> c in r.w.codes && r.w.codes[c] == w.codes[c]
    ensures r.w.users == w.users && r.w.utils == w.utils && r.w.services == w.services
    ensures r.events == [Send(LinkPrompt(env.linkCode))]
  {
    LinkCodeRoundTrip(w.codes, from, env.linkCode);
    Out(w.(codes := GenerateLinkCode(w.codes, from, env.linkCode)), [Send(LinkPrompt(env.linkCode))])
  }

  /** `showTeamsCommand`: the teams request is made once; a non-empty result
      is stored as the sender's teams and listed by name, an empty one or a
      failure leaves everything as it was. */
  function ShowTeamsCommand(w: World, env: Env, from: string): (r: Out)
    ensures |r.events| == 2 && r.events[0] == Invoke(FetchTeams)
    ensures env.teams.None? ==> r.w == w && r.events[1] == Send(TeamsFetchFailed)
    ensures env.teams.Some? && |env.teams.value| == 0 ==>
              r.w == w && r.events[1] == Send(NoTeamsInResponse)
    ensures env.teams.Some? && |env.teams.value| > 0 ==>
              r.events[1] == Send(TeamsList(Names(env.teams.value)))
              && (from in w.users ==> GetUserTeamsDict(r.w.users, from) == env.teams)
    ensures r.w.utils == w.utils && r.w.services == w.services && r.w.codes == w.codes
    ensures r.w.users.Keys == w.users.Keys
    ensures forall p :: GetUserChosenTeam(r.w.users, p) == GetUserChosenTeam(w.users, p)
    ensures Consistent(w.users) ==> Consistent(r.w.users)
  {
    match env.teams
    case None => Out(w, [Invoke(FetchTeams), Send(TeamsFetchFailed)])
    case Some(d) =>
      if |d| > 0 then
        Out(w.(users := SetUserTeams(w.users, from, d)), [Invoke(FetchTeams), Send(TeamsList(Names(d)))])
      else Out(w, [Invoke(FetchTeams), Send(NoTeamsInResponse)])
  }

  /** `getLeagueStandingsCommand`: without an access token nothing is
      requested; otherwise the standings of exactly the given league are
      requested once, and the reply says whether that worked.  Nothing is
      stored. */
  function StandingsCommand(w: World, env: Env, from: string, leagueKey: string): (r: Out)
    ensures r.w == w
    ensures !Truthy(AccessToken(w, from)) ==> r.events == [Send(AccessTokenMissing)]
    ensures Truthy(AccessToken(w, from)) ==>
              |r.events| == 2 && r.events[0] == Invoke(FetchStandings(leagueKey))
              && (r.events[1] == Send(Standings(leagueKey)) <==> env.succeeds(FetchStandings(leagueKey)))
              && (r.events[1] == Send(StandingsFailed) <==> !env.succeeds(FetchStandings(leagueKey)))
  {
    if !Truthy(AccessToken(w, from)) then Out(w, [Send(AccessTokenMissing)])
    else
      var call := FetchStandings(leagueKey);
      Out(w, [Invoke(call), Send(if env.succeeds(call) then Standings(leagueKey) else StandingsFailed)])
  }
}
