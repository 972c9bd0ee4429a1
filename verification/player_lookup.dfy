/** `getPlayerInfoByName`: a player search in an explicit league or the
    sender's chosen one, replying only when a sender is given.  It never
    fails: every failure becomes an absent player. */
module PlayerLookup {
  import opened Optional
  import opened Yahoo
  import opened UserStorage
  import opened Bot

  datatype Found = Found(events: seq<Event>, player: Option<PlayerRecord>)

  /** A found player with a usable (truthy) key. */
  predicate HasKey(p: Option<PlayerRecord>) {
    p.Some? && Truthy(p.value.playerKey)
  }

  function KeyOf(p: Option<PlayerRecord>): string
    requires HasKey(p)
  {
    p.value.playerKey.value
  }

  /** A reply, when there is a sender to reply to. */
  function ReplyTo(from: Option<string>, m: Msg): seq<Event> {
    if Truthy(from) then [Send(m)] else []
  }

  /** The league searched: an explicit truthy key wins; otherwise, with a
      sender, the sender's chosen league. */
  function LeagueFor(w: World, leagueKey: Option<string>, from: Option<string>): Option<string> {
    if !Truthy(leagueKey) && Truthy(from) then Some(GetUserChosenLeague(w.users, from.value)) else leagueKey
  }

  /** Without a league nothing is searched.  Otherwise exactly one search is
      made, in that league, and the player is the search's result as is:
      absent when the search throws or matches nothing.  Replies go out only
      with a sender, one per lookup. */
  function GetPlayerInfoByName(w: World, env: Env, leagueKey: Option<string>, name: string, from: Option<string>)
    : (r: Found)
    ensures !Truthy(LeagueFor(w, leagueKey, from)) ==>
              r.player.None? && r.events == ReplyTo(from, NoLeagueSelected)
    ensures Truthy(LeagueFor(w, leagueKey, from)) ==>
              var league := LeagueFor(w, leagueKey, from).value;
              && |r.events| >= 1 && r.events[0] == Invoke(SearchPlayer(league, name))
              && r.player == (if env.search(league, name).Some? then SearchResult(env.search(league, name).value) else None)
              && r.events[1..] == ReplyTo(from,
                   if env.search(league, name).None? then PlayerKeyFailed
                   else if r.player.None? then NoPlayerFound(name)
                   else PlayerKeyIs(name, r.player.value.playerKey))
    ensures Truthy(leagueKey) ==> LeagueFor(w, leagueKey, from) == leagueKey
    ensures !Truthy(from) ==> forall i :: 0 <= i < |r.events| ==> r.events[i].Invoke?
    ensures CountCalls(r.events, IsSearch) <= 1
  {
    var league := LeagueFor(w, leagueKey, from);
    if !Truthy(league) then Found(ReplyTo(from, NoLeagueSelected), None)
    else
      var call := Invoke(SearchPlayer(league.value, name));
      var search := env.search(league.value, name);
      var player := if search.Some? then SearchResult(search.value) else None;
      var replies := ReplyTo(from,
        if search.None? then PlayerKeyFailed
        else if player.None? then NoPlayerFound(name)
        else PlayerKeyIs(name, player.value.playerKey));
      var found := Found([call] + replies, player);
      assert found.events[1..] == replies;
      assert CountCalls(replies, IsSearch) == 0 by {
        if |replies| > 0 { assert replies[1..] == []; }
      }
      found
  }

  /** The silent lookup the transaction commands use, in a given league:
      one search event and no reply. */
  lemma {:induction false} SilentLookup(w: World, env: Env, league: string, name: string)
    requires league != ""
    ensures var r := GetPlayerInfoByName(w, env, Some(league), name, None);
            && r.events == [Invoke(SearchPlayer(league, name))]
            && r.player == (if env.search(league, name).Some? then SearchResult(env.search(league, name).value) else None)
  {
    var r := GetPlayerInfoByName(w, env, Some(league), name, None);
    assert r.events == [r.events[0]] + r.events[1..];
  }
}
