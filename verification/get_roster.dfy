/** `getRosterCommand`: the roster of one team, asking first with a numbered
    menu when no team key is given, and reading a numeric reply against the
    pending menu of the services conversation store. */
module GetRosterCommand {
  import opened Optional
  import opened Text
  import opened Dict
  import opened UserStorage
  import opened Flow
  import opened Bot

  /** The sender has the roster menu pending, with its names. */
  predicate AwaitingMenu(w: World, from: string) {
    var st := ServicesState(w, from);
    st.Some? && st.value.kind == GetRoster && st.value.step == Some(AwaitingTeam)
    && st.value.teamNames.Some?
  }

  /** The roster request for `key` and the one reply saying whether it
      worked. */
  predicate RosterFetched(es: seq<Event>, env: Env, key: Option<string>) {
    |es| == 2 && es[0] == Invoke(FetchRoster(key))
    && es[1] == Send(if env.succeeds(FetchRoster(key)) then Roster(key) else RosterFailed)
  }

  function FetchReply(env: Env, key: Option<string>): (es: seq<Event>)
    ensures RosterFetched(es, env, key)
    ensures CountCalls(es, IsRosterFetch) == 1
  {
    var es := [Invoke(FetchRoster(key)), Send(if env.succeeds(FetchRoster(key)) then Roster(key) else RosterFailed)];
    assert es[1..] == [es[1]] && es[1..][1..] == [];
    assert CountCalls(es[1..], IsRosterFetch) == 0;
    es
  }

  /** The key a valid pick resolves to: the key the sender's teams store
      under the picked name, or the reply itself when no teams are stored. */
  function Resolve(w: World, from: string, names: seq<string>, reply: string): Option<string>
    requires ValidPick(reply, |names|)
  {
    var d := GetUserTeamsDict(w.users, from);
    if d.Some? then Get(d.value, names[ParseInt(reply).value - 1]) else Some(reply)
  }

  /** Without a truthy team key: no stored teams is an error, otherwise the
      menu is stored and shown.  With one and the menu pending: a valid pick
      clears the menu and fetches the resolved team, an invalid one is an
      error with the menu kept.  With one and no menu pending: the key is
      fetched as given.  Users, link codes and the utils store never change,
      and at most one roster is requested. */
  function Run(w: World, env: Env, from: string, teamKey: Option<string>): (r: Out)
    ensures !Truthy(teamKey) && (GetUserTeamsDict(w.users, from).None? || |GetUserTeamsDict(w.users, from).value| == 0) ==>
              r == Out(w, [Send(NoTeamsUseShowTeams)])
    ensures !Truthy(teamKey) && GetUserTeamsDict(w.users, from).Some? && |GetUserTeamsDict(w.users, from).value| > 0 ==>
              var names := Names(GetUserTeamsDict(w.users, from).value);
              r.w == SetServices(w, from, AwaitingTeamMenu(names)) && r.events == [Send(RosterMenu(names))]
    ensures Truthy(teamKey) && AwaitingMenu(w, from) ==>
              var names := ServicesState(w, from).value.teamNames.value;
              if ValidPick(teamKey.value, |names|) then
                r.w == ClearServices(w, from) && RosterFetched(r.events, env, Resolve(w, from, names, teamKey.value))
              else
                r == Out(w, [Send(InvalidSelection)])
    ensures Truthy(teamKey) && !AwaitingMenu(w, from) ==> r.w == w && RosterFetched(r.events, env, teamKey)
    ensures r.w.users == w.users && r.w.utils == w.utils && r.w.codes == w.codes
    ensures forall p :: p != from ==> ServicesState(r.w, p) == ServicesState(w, p)
    ensures CountCalls(r.events, IsRosterFetch) <= 1
  {
    if !Truthy(teamKey) then
      var d := GetUserTeamsDict(w.users, from);
      if d.None? || |d.value| == 0 then Out(w, [Send(NoTeamsUseShowTeams)])
      else
        var names := Names(d.value);
        Out(SetServices(w, from, AwaitingTeamMenu(names)), [Send(RosterMenu(names))])
    else if AwaitingMenu(w, from) then
      var names := ServicesState(w, from).value.teamNames.value;
      if ValidPick(teamKey.value, |names|) then
        Out(ClearServices(w, from), FetchReply(env, Resolve(w, from, names, teamKey.value)))
      else Out(w, [Send(InvalidSelection)])
    else
      Out(w, FetchReply(env, teamKey))
  }

  /** The menu round trip: asking without a key stores the menu of the
      sender's team names; replying with an entry's number then fetches the
      key stored for that entry and leaves no menu pending. */
  lemma {:induction false} MenuThenNumber(w: World, env: Env, from: string, n: nat)
    requires GetUserTeamsDict(w.users, from).Some?
    requires 1 <= n <= |GetUserTeamsDict(w.users, from).value|
    ensures var d := GetUserTeamsDict(w.users, from).value;
            var asked := Run(w, env, from, None);
            var picked := Run(asked.w, env, from, Some(NatToString(n)));
            && asked.events == [Send(RosterMenu(Names(d)))]
            && RosterFetched(picked.events, env, Some(d[n - 1].1))
            && ServicesState(picked.w, from).None?
  {
    var d := GetUserTeamsDict(w.users, from).value;
    var asked := Run(w, env, from, None);
    assert AwaitingMenu(asked.w, from);
    PickByNumber(n, |d|);
    GetAt(d, n - 1);
    assert Resolve(asked.w, from, Names(d), NatToString(n)) == Some(d[n - 1].1);
  }
}
