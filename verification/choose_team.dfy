/** `chooseTeamCommand`: the numbered menu of the sender's teams, and the
    selection a numeric reply makes from it.  The pending menu lives in the
    services conversation store whichever engine drives the command. */
module ChooseTeamCommand {
  import opened Optional
  import opened Text
  import opened Dict
  import opened UserStorage
  import opened Flow
  import opened Bot

  /** The sender's team names in menu order, none without stored teams. */
  function MenuOf(w: World, from: string): (names: seq<string>)
    ensures GetUserTeamsDict(w.users, from).None? ==> names == []
    ensures GetUserTeamsDict(w.users, from).Some? ==> names == Names(GetUserTeamsDict(w.users, from).value)
  {
    var teams := GetUserTeamsDict(w.users, from);
    if teams.Some? then Names(teams.value) else []
  }

  /** Without teams the command only says so.  A truthy reply that picks
      entry `n` selects the `n`-th team's key (and its league), clears the
      pending menu and confirms by name; any other truthy reply re-arms the
      menu with an error; no reply shows the menu.  Only the sender's
      selection and services state can change. */
  function Choose(w: World, from: string, reply: Option<string>): (r: Out)
    ensures |MenuOf(w, from)| == 0 ==> r == Out(w, [Send(NoTeamsToChoose)])
    ensures |MenuOf(w, from)| > 0 && Truthy(reply) && ValidPick(reply.value, |MenuOf(w, from)|) ==>
              var n := ParseInt(reply.value).value;
              var d := GetUserTeamsDict(w.users, from).value;
              && r.w.users == SetUserChosenTeam(w.users, from, d[n - 1].1)
              && GetUserChosenTeam(r.w.users, from) == d[n - 1].1
              && ServicesState(r.w, from).None?
              && r.events == [Send(TeamSelected(MenuOf(w, from)[n - 1]))]
    ensures |MenuOf(w, from)| > 0 && Truthy(reply) && !ValidPick(reply.value, |MenuOf(w, from)|) ==>
              r.w == SetServices(w, from, AwaitingChoice(MenuOf(w, from)))
              && r.events == [Send(InvalidChoice(MenuOf(w, from)))]
    ensures |MenuOf(w, from)| > 0 && !Truthy(reply) ==>
              r.w == SetServices(w, from, AwaitingChoice(MenuOf(w, from)))
              && r.events == [Send(ChooseMenu(MenuOf(w, from)))]
    ensures r.w.utils == w.utils && r.w.codes == w.codes
    ensures forall p :: p != from ==> ServicesState(r.w, p) == ServicesState(w, p)
    ensures Consistent(w.users) ==> Consistent(r.w.users)
    ensures GetUserChosenTeam(r.w.users, from) == GetUserChosenTeam(w.users, from)
            || exists i :: 0 <= i < |MenuOf(w, from)| &&
                 GetUserChosenTeam(r.w.users, from) == GetUserTeamsDict(w.users, from).value[i].1
  {
    var names := MenuOf(w, from);
    if |names| == 0 then Out(w, [Send(NoTeamsToChoose)])
    else if Truthy(reply) then
      if ValidPick(reply.value, |names|) then
        var n := ParseInt(reply.value).value;
        var d := GetUserTeamsDict(w.users, from).value;
        GetAt(d, n - 1);
        var key := Get(d, names[n - 1]).value;
        ChosenAfterSet(w.users, from, key);
        var w' := w.(users := SetUserChosenTeam(w.users, from, key));
        Out(ClearServices(w', from), [Send(TeamSelected(names[n - 1]))])
      else
        Out(SetServices(w, from, AwaitingChoice(names)), [Send(InvalidChoice(names))])
    else
      Out(SetServices(w, from, AwaitingChoice(names)), [Send(ChooseMenu(names))])
  }

  /** The menu round trip: after the menu is shown, replying with an entry's
      number selects exactly that entry's team, the key the sender's teams
      store under that name. */
  lemma {:induction false} MenuThenNumber(w: World, from: string, n: nat)
    requires 1 <= n <= |MenuOf(w, from)|
    ensures var shown := Choose(w, from, None);
            var picked := Choose(shown.w, from, Some(NatToString(n)));
            var d := GetUserTeamsDict(w.users, from).value;
            && ServicesState(shown.w, from) == Some(AwaitingChoice(MenuOf(w, from)))
            && GetUserChosenTeam(picked.w.users, from) == Get(d, MenuOf(w, from)[n - 1]).value
            && picked.events == [Send(TeamSelected(MenuOf(w, from)[n - 1]))]
            && ServicesState(picked.w, from).None?
  {
    var shown := Choose(w, from, None);
    assert shown.w.users == w.users;
    assert MenuOf(shown.w, from) == MenuOf(w, from);
    PickByNumber(n, |MenuOf(w, from)|);
    GetAt(GetUserTeamsDict(w.users, from).value, n - 1);
  }
}
