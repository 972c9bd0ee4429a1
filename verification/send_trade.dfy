/** `sendTradeCommand`: the player names on both sides of a proposal are
    resolved to keys one search at a time, in order, in the league of the
    sender's chosen team; the first name without a key stops the command;
    then one trade is posted.  The searches sit outside the command's error
    handling, so a search that throws ends the command with that error. */
module SendTradeCommand {
  import opened Optional
  import opened Xml
  import opened Yahoo
  import opened UserStorage
  import opened Bot
  import opened PlayerLookup
  import opened RosterMoves

  /** The searched name has a player with a usable key. */
  predicate Found(env: Env, league: string, name: string) {
    env.search(league, name).Some? && HasKey(SearchResult(env.search(league, name).value))
  }

  function KeyFor(env: Env, league: string, name: string): string
    requires Found(env, league, name)
  {
    KeyOf(SearchResult(env.search(league, name).value))
  }

  predicate AllFound(env: Env, league: string, names: seq<string>) {
    forall i :: 0 <= i < |names| ==> Found(env, league, names[i])
  }

  /** The keys of the names, in the names' order. */
  function KeysFor(env: Env, league: string, names: seq<string>): (keys: seq<string>)
    requires AllFound(env, league, names)
    ensures |keys| == |names|
    ensures forall i :: 0 <= i < |names| ==> keys[i] == KeyFor(env, league, names[i])
  {
    if |names| == 0 then []
    else [KeyFor(env, league, names[0])] + KeysFor(env, league, names[1..])
  }

  /** One search event per name, in order. */
  function Searches(league: string, names: seq<string>): (es: seq<Event>)
    ensures |es| == |names|
    ensures forall i :: 0 <= i < |names| ==> es[i] == Invoke(SearchPlayer(league, names[i]))
  {
    if |names| == 0 then [] else [Invoke(SearchPlayer(league, names[0]))] + Searches(league, names[1..])
  }

  /** How resolving a list of names ended. */
  datatype Stop = AllResolved | NotFound(name: string) | Threw

  datatype Resolved = Resolved(events: seq<Event>, keys: seq<string>, stop: Stop)

  /** What searching `names` in order yields: the keys of a prefix of the
      names, each the found player's key; every name searched when all
      resolved, and otherwise the names up to and including the one that
      stopped the loop, which either has no usable key or whose search
      threw. */
  predicate ResolvedAs(env: Env, league: string, names: seq<string>, r: Resolved) {
    && |r.keys| <= |names|
    && (forall i :: 0 <= i < |r.keys| ==> Found(env, league, names[i]) && r.keys[i] == KeyFor(env, league, names[i]))
    && (r.stop.AllResolved? <==> |r.keys| == |names|)
    && (r.stop.AllResolved? ==> r.events == Searches(league, names))
    && (!r.stop.AllResolved? ==> r.events == Searches(league, names[..|r.keys| + 1]))
    && (r.stop.NotFound? ==>
          r.stop.name == names[|r.keys|]
          && env.search(league, names[|r.keys|]).Some? && !Found(env, league, names[|r.keys|]))
    && (r.stop.Threw? ==> env.search(league, names[|r.keys|]).None?)
  }

  /** The `for … of` loop over one list of names.  It searches the names in
      order and keeps each key; it stops at the first name without a key or
      at the first search that throws, after searching that name. */
  function ResolveKeys(env: Env, league: string, names: seq<string>): (r: Resolved)
    ensures ResolvedAs(env, league, names, r)
    decreases |names|
  {
    if |names| == 0 then Resolved([], [], AllResolved)
    else
      var name := names[0];
      var search := Invoke(SearchPlayer(league, name));
      FirstSearch(league, names);
      if env.search(league, name).None? then Resolved([search], [], Threw)
      else if !Found(env, league, name) then Resolved([search], [], NotFound(name))
      else
        var more := ResolveKeys(env, league, names[1..]);
        ResolveStep(env, league, names, more);
        Resolved([search] + more.events, [KeyFor(env, league, name)] + more.keys, more.stop)
  }

  lemma {:induction false} FirstSearch(league: string, names: seq<string>)
    requires |names| > 0
    ensures Searches(league, names[..1]) == [Invoke(SearchPlayer(league, names[0]))]
  {
    assert names[..1][1..] == [];
  }

  /** A found first name puts its search and key in front of what the rest
      of the loop yields. */
  lemma {:induction false} ResolveStep(env: Env, league: string, names: seq<string>, more: Resolved)
    requires |names| > 0 && Found(env, league, names[0])
    requires ResolvedAs(env, league, names[1..], more)
    ensures ResolvedAs(env, league, names,
                       Resolved([Invoke(SearchPlayer(league, names[0]))] + more.events,
                                [KeyFor(env, league, names[0])] + more.keys, more.stop))
  {
    StepKeys(env, league, names, more.keys);
    if more.stop.AllResolved? {
      StepAllSearched(league, names, more.events);
    } else {
      StepStopped(env, league, names, more);
    }
  }

  lemma {:induction false} StepKeys(env: Env, league: string, names: seq<string>, keys: seq<string>)
    requires |names| > 0 && Found(env, league, names[0]) && |keys| < |names|
    requires forall i :: 0 <= i < |keys| ==> Found(env, league, names[1..][i]) && keys[i] == KeyFor(env, league, names[1..][i])
    ensures var ks := [KeyFor(env, league, names[0])] + keys;
            forall i :: 0 <= i < |ks| ==> Found(env, league, names[i]) && ks[i] == KeyFor(env, league, names[i])
  {
    var ks := [KeyFor(env, league, names[0])] + keys;
    forall i | 0 <= i < |ks| ensures Found(env, league, names[i]) && ks[i] == KeyFor(env, league, names[i]) {
      if i > 0 {
        assert ks[i] == keys[i - 1] && names[i] == names[1..][i - 1];
      }
    }
  }

  lemma {:induction false} StepAllSearched(league: string, names: seq<string>, events: seq<Event>)
    requires |names| > 0 && events == Searches(league, names[1..])
    ensures [Invoke(SearchPlayer(league, names[0]))] + events == Searches(league, names)
  {
  }

  lemma {:induction false} StepStopped(env: Env, league: string, names: seq<string>, more: Resolved)
    requires |names| > 0 && !more.stop.AllResolved?
    requires ResolvedAs(env, league, names[1..], more)
    ensures var n := |more.keys| + 1;
            && n < |names|
            && [Invoke(SearchPlayer(league, names[0]))] + more.events == Searches(league, names[..n + 1])
            && names[n] == names[1..][|more.keys|]
  {
    var n := |more.keys| + 1;
    assert names[1..][..|more.keys| + 1] == names[1..n + 1];
    assert names[..n + 1] == [names[0]] + names[1..n + 1];
  }

  /** Every name resolves exactly when all of them have keys, and then the
      keys are theirs, in order. */
  lemma {:induction false} ResolvesAll(env: Env, league: string, names: seq<string>)
    ensures ResolveKeys(env, league, names).stop.AllResolved? <==> AllFound(env, league, names)
    ensures AllFound(env, league, names) ==> ResolveKeys(env, league, names).keys == KeysFor(env, league, names)
  {
    var r := ResolveKeys(env, league, names);
    if !r.stop.AllResolved? {
      assert !Found(env, league, names[|r.keys|]);
    }
  }

  /** What the command did: its events, and whether it ended by throwing. */
  datatype TradeOutcome = TradeOutcome(events: seq<Event>, threw: bool)

  /** The trade posted for two fully resolved lists. */
  function TradeCall(league: string, team: string, tradee: string, traderKeys: seq<string>,
                     tradeeKeys: seq<string>, note: Option<string>): Call {
    PostTrade(league, team, tradee, traderKeys, tradeeKeys, note)
  }

  /** After the trader's names: the tradee's names, then the post. */
  function ResolveTradeeAndPost(env: Env, league: string, team: string, tradee: string,
                                traderKeys: seq<string>, tradeeNames: seq<string>,
                                note: Option<string>): (r: TradeOutcome)
    ensures var b := ResolveKeys(env, league, tradeeNames);
            && |r.events| >= |b.events|
            && r.events[..|b.events|] == b.events
            && (r.threw <==> b.stop.Threw?)
            && (b.stop.NotFound? ==> r.events == b.events + [Send(TradePlayerNotFound(b.stop.name))])
            && (b.stop.AllResolved? ==>
                  var call := TradeCall(league, team, tradee, traderKeys, b.keys, note);
                  r.events == b.events + [Invoke(call), Send(if env.succeeds(call) then TradeSent else TradeFailed)])
  {
    var b := ResolveKeys(env, league, tradeeNames);
    match b.stop
    case Threw => TradeOutcome(b.events, true)
    case NotFound(name) => TradeOutcome(b.events + [Send(TradePlayerNotFound(name))], false)
    case AllResolved =>
      var call := TradeCall(league, team, tradee, traderKeys, b.keys, note);
      TradeOutcome(b.events + [Invoke(call), Send(if env.succeeds(call) then TradeSent else TradeFailed)], false)
  }

  /** No chosen team: one reply and nothing else.  Otherwise the trader's
      names are resolved, then the tradee's, in the league of the chosen
      team; the first missing name is reported and nothing is posted; a
      search that throws ends the command; with every key found exactly one
      trade is posted, carrying the keys in the names' order. */
  function SendTrade(w: World, env: Env, from: string, tradee: string, traderNames: seq<string>,
                     tradeeNames: seq<string>, note: Option<string>): (r: TradeOutcome)
    ensures GetUserChosenTeam(w.users, from) == "" ==> r == TradeOutcome([Send(ChooseTeamFirst)], false)
    ensures GetUserChosenTeam(w.users, from) != "" ==>
              var team := GetUserChosenTeam(w.users, from);
              var league := LeagueKeyFromTeamKey(team);
              var a := ResolveKeys(env, league, traderNames);
              && |r.events| >= |a.events|
              && r.events[..|a.events|] == a.events
              && (a.stop.Threw? ==> r == TradeOutcome(a.events, true))
              && (a.stop.NotFound? ==> r == TradeOutcome(a.events + [Send(TradePlayerNotFound(a.stop.name))], false))
              && (a.stop.AllResolved? ==>
                    var rest := ResolveTradeeAndPost(env, league, team, tradee, a.keys, tradeeNames, note);
                    r == TradeOutcome(a.events + rest.events, rest.threw))
  {
    var team := GetUserChosenTeam(w.users, from);
    if team == "" then TradeOutcome([Send(ChooseTeamFirst)], false)
    else
      var league := LeagueKeyFromTeamKey(team);
      var a := ResolveKeys(env, league, traderNames);
      match a.stop
      case Threw => TradeOutcome(a.events, true)
      case NotFound(name) => TradeOutcome(a.events + [Send(TradePlayerNotFound(name))], false)
      case AllResolved =>
        var rest := ResolveTradeeAndPost(env, league, team, tradee, a.keys, tradeeNames, note);
        TradeOutcome(a.events + rest.events, rest.threw)
  }

  // ---------------------------------------------------------------------------
  // properties
  // ---------------------------------------------------------------------------

  /** At most one trade is posted, and one is posted exactly when there is
      a team and every name on both sides has a key; the post carries both
      key lists in the names' order. */
  predicate PostsWhenAllFound(r: TradeOutcome, env: Env, team: string, tradee: string,
                              traderNames: seq<string>, tradeeNames: seq<string>, note: Option<string>)
  {
    var league := LeagueKeyFromTeamKey(team);
    && CountCalls(r.events, IsTrade) <= 1
    && (CountCalls(r.events, IsTrade) == 1 <==>
          team != "" && AllFound(env, league, traderNames) && AllFound(env, league, tradeeNames))
    && (CountCalls(r.events, IsTrade) == 1 ==>
          OnlyCall(r.events, IsTrade,
                   TradeCall(league, team, tradee, KeysFor(env, league, traderNames),
                             KeysFor(env, league, tradeeNames), note)))
  }

  /** A trade is posted exactly when the sender has a team and every name
      on both sides has a key; it is posted once, with both key lists in the
      names' order. */
  lemma {:induction false} PostedIffAllFound(w: World, env: Env, from: string, tradee: string, traderNames: seq<string>,
                          tradeeNames: seq<string>, note: Option<string>)
    ensures PostsWhenAllFound(SendTrade(w, env, from, tradee, traderNames, tradeeNames, note),
                              env, GetUserChosenTeam(w.users, from), tradee, traderNames, tradeeNames, note)
  {
    var team := GetUserChosenTeam(w.users, from);
    if team == "" {
      NoTeamNoPost(w, env, from, tradee, traderNames, tradeeNames, note);
    } else if ResolveKeys(env, LeagueKeyFromTeamKey(team), traderNames).stop.AllResolved? {
      ResolvedPosts(w, env, from, tradee, traderNames, tradeeNames, note);
    } else {
      StoppedNoPost(w, env, from, tradee, traderNames, tradeeNames, note);
    }
  }

  lemma {:induction false} NoTeamNoPost(w: World, env: Env, from: string, tradee: string, traderNames: seq<string>,
                     tradeeNames: seq<string>, note: Option<string>)
    requires GetUserChosenTeam(w.users, from) == ""
    ensures PostsWhenAllFound(SendTrade(w, env, from, tradee, traderNames, tradeeNames, note),
                              env, GetUserChosenTeam(w.users, from), tradee, traderNames, tradeeNames, note)
  {
    var r := SendTrade(w, env, from, tradee, traderNames, tradeeNames, note);
    assert r.events[1..] == [];
  }

  lemma {:induction false} StoppedNoPost(w: World, env: Env, from: string, tradee: string, traderNames: seq<string>,
                      tradeeNames: seq<string>, note: Option<string>)
    requires GetUserChosenTeam(w.users, from) != ""
    requires !ResolveKeys(env, LeagueKeyFromTeamKey(GetUserChosenTeam(w.users, from)), traderNames).stop.AllResolved?
    ensures PostsWhenAllFound(SendTrade(w, env, from, tradee, traderNames, tradeeNames, note),
                              env, GetUserChosenTeam(w.users, from), tradee, traderNames, tradeeNames, note)
  {
    ResolvesAll(env, LeagueKeyFromTeamKey(GetUserChosenTeam(w.users, from)), traderNames);
    TraderStopped(w, env, from, tradee, traderNames, tradeeNames, note);
  }

  lemma {:induction false} ResolvedPosts(w: World, env: Env, from: string, tradee: string, traderNames: seq<string>,
                      tradeeNames: seq<string>, note: Option<string>)
    requires GetUserChosenTeam(w.users, from) != ""
    requires ResolveKeys(env, LeagueKeyFromTeamKey(GetUserChosenTeam(w.users, from)), traderNames).stop.AllResolved?
    ensures PostsWhenAllFound(SendTrade(w, env, from, tradee, traderNames, tradeeNames, note),
                              env, GetUserChosenTeam(w.users, from), tradee, traderNames, tradeeNames, note)
  {
    ResolvesAll(env, LeagueKeyFromTeamKey(GetUserChosenTeam(w.users, from)), tradeeNames);
    TraderResolved(w, env, from, tradee, traderNames, tradeeNames, note);
  }

  /** A trader name without a key, or a throwing search, means no post. */
  lemma {:induction false} TraderStopped(w: World, env: Env, from: string, tradee: string, traderNames: seq<string>,
                      tradeeNames: seq<string>, note: Option<string>)
    requires GetUserChosenTeam(w.users, from) != ""
    requires !ResolveKeys(env, LeagueKeyFromTeamKey(GetUserChosenTeam(w.users, from)), traderNames).stop.AllResolved?
    ensures CountCalls(SendTrade(w, env, from, tradee, traderNames, tradeeNames, note).events, IsTrade) == 0
  {
    var league := LeagueKeyFromTeamKey(GetUserChosenTeam(w.users, from));
    var a := ResolveKeys(env, league, traderNames);
    SearchesNoTrade(league, traderNames[..|a.keys| + 1]);
    if a.stop.NotFound? {
      TailNoTrade(a.events, [Send(TradePlayerNotFound(a.stop.name))]);
    }
  }

  /** With every trader name resolved, what follows decides the post. */
  lemma {:induction false} TraderResolved(w: World, env: Env, from: string, tradee: string, traderNames: seq<string>,
                       tradeeNames: seq<string>, note: Option<string>)
    requires GetUserChosenTeam(w.users, from) != ""
    requires ResolveKeys(env, LeagueKeyFromTeamKey(GetUserChosenTeam(w.users, from)), traderNames).stop.AllResolved?
    ensures var team := GetUserChosenTeam(w.users, from);
            var league := LeagueKeyFromTeamKey(team);
            var r := SendTrade(w, env, from, tradee, traderNames, tradeeNames, note);
            && AllFound(env, league, traderNames)
            && CountCalls(r.events, IsTrade) == (if AllFound(env, league, tradeeNames) then 1 else 0)
            && OnlyCall(r.events, IsTrade,
                        TradeCall(league, team, tradee, KeysFor(env, league, traderNames),
                                  ResolveKeys(env, league, tradeeNames).keys, note))
  {
    var team := GetUserChosenTeam(w.users, from);
    var league := LeagueKeyFromTeamKey(team);
    var a := ResolveKeys(env, league, traderNames);
    ResolvesAll(env, league, traderNames);
    ResolvesAll(env, league, tradeeNames);
    SearchesNoTrade(league, traderNames);
    var rest := ResolveTradeeAndPost(env, league, team, tradee, a.keys, tradeeNames, note);
    CountCallsAppend(a.events, rest.events, IsTrade);
    PostCount(env, league, team, tradee, a.keys, tradeeNames, note);
    OnlyCallAppend(a.events, rest.events,
                   TradeCall(league, team, tradee, a.keys, ResolveKeys(env, league, tradeeNames).keys, note));
  }

  lemma {:induction false} SearchesNoTrade(league: string, names: seq<string>)
    ensures CountCalls(Searches(league, names), IsTrade) == 0
    ensures NoCall(Searches(league, names), IsTrade)
  {
    if |names| > 0 {
      SearchesNoTrade(league, names[1..]);
      assert Searches(league, names)[1..] == Searches(league, names[1..]);
    }
  }

  lemma {:induction false} TailNoTrade(a: seq<Event>, b: seq<Event>)
    requires CountCalls(a, IsTrade) == 0 && forall i :: 0 <= i < |b| ==> b[i].Send?
    ensures CountCalls(a + b, IsTrade) == 0
  {
    CountCallsAppend(a, b, IsTrade);
    SendsNoCall(b);
  }

  lemma {:induction false} SendsNoCall(b: seq<Event>)
    requires forall i :: 0 <= i < |b| ==> b[i].Send?
    ensures CountCalls(b, IsTrade) == 0
  {
    if |b| > 0 {
      SendsNoCall(b[1..]);
    }
  }

  lemma {:induction false} OnlyCallAppend(a: seq<Event>, b: seq<Event>, c: Call)
    requires NoCall(a, IsTrade) && OnlyCall(b, IsTrade, c)
    ensures OnlyCall(a + b, IsTrade, c)
  {
    forall i | 0 <= i < |a + b| && (a + b)[i].Invoke? && IsTrade((a + b)[i].call)
      ensures (a + b)[i].call == c
    {
      if i >= |a| {
        assert (a + b)[i] == b[i - |a|];
      }
    }
  }

  /** The part after the trader's names posts at most once, and posts
      exactly when every tradee name has a key. */
  lemma {:induction false} PostCount(env: Env, league: string, team: string, tradee: string, traderKeys: seq<string>,
                  tradeeNames: seq<string>, note: Option<string>)
    ensures var r := ResolveTradeeAndPost(env, league, team, tradee, traderKeys, tradeeNames, note);
            var b := ResolveKeys(env, league, tradeeNames);
            && CountCalls(r.events, IsTrade) == (if b.stop.AllResolved? then 1 else 0)
            && OnlyCall(r.events, IsTrade, TradeCall(league, team, tradee, traderKeys, b.keys, note))
  {
    var r := ResolveTradeeAndPost(env, league, team, tradee, traderKeys, tradeeNames, note);
    var b := ResolveKeys(env, league, tradeeNames);
    var tail := r.events[|b.events|..];
    assert r.events == b.events + tail;
    if b.stop.AllResolved? {
      SearchesNoTrade(league, tradeeNames);
      PostTail(env, TradeCall(league, team, tradee, traderKeys, b.keys, note), b.events, tail);
    } else {
      SearchesNoTrade(league, tradeeNames[..|b.keys| + 1]);
      SendsNoCall(tail);
      StopTail(TradeCall(league, team, tradee, traderKeys, b.keys, note), b.events, tail);
    }
  }

  /** Searches, then the post and its reply. */
  lemma {:induction false} PostTail(env: Env, call: Call, searches: seq<Event>, tail: seq<Event>)
    requires IsTrade(call)
    requires CountCalls(searches, IsTrade) == 0 && NoCall(searches, IsTrade)
    requires tail == [Invoke(call), Send(if env.succeeds(call) then TradeSent else TradeFailed)]
    ensures CountCalls(searches + tail, IsTrade) == 1 && OnlyCall(searches + tail, IsTrade, call)
  {
    var last := [Send(if env.succeeds(call) then TradeSent else TradeFailed)];
    assert tail[1..] == last;
    SendsNoCall(last);
    CountCallsAppend(searches, tail, IsTrade);
    OnlyCallAppend(searches, tail, call);
  }

  /** Searches, then at most replies. */
  lemma {:induction false} StopTail(call: Call, searches: seq<Event>, tail: seq<Event>)
    requires CountCalls(searches, IsTrade) == 0 && NoCall(searches, IsTrade)
    requires forall i :: 0 <= i < |tail| ==> tail[i].Send?
    ensures CountCalls(searches + tail, IsTrade) == 0 && OnlyCall(searches + tail, IsTrade, call)
  {
    SendsNoCall(tail);
    CountCallsAppend(searches, tail, IsTrade);
    OnlyCallAppend(searches, tail, call);
  }

  /** The posted body proposes exactly the resolved keys: the trader's
      players from the trader's team to the tradee's, then the tradee's
      players the other way. */
  lemma {:induction false} TradePayload(team: string, tradee: string, traderKeys: seq<string>, tradeeKeys: seq<string>,
                     note: Option<string>)
    requires Plain(team) && Plain(tradee) && (note.Some? ==> Plain(note.value))
    requires forall k :: k in traderKeys ==> Plain(k)
    requires forall k :: k in tradeeKeys ==> Plain(k)
    ensures var req := ReadTrade(TradeXml(team, tradee, traderKeys, tradeeKeys, note));
            && req.Some?
            && |req.value.entries| == |traderKeys| + |tradeeKeys|
            && (forall i :: 0 <= i < |traderKeys| ==>
                  req.value.entries[i] == TradeEntry(traderKeys[i], team, tradee))
            && (forall i :: 0 <= i < |tradeeKeys| ==>
                  req.value.entries[|traderKeys| + i] == TradeEntry(tradeeKeys[i], tradee, team))
  {
    ReadTradeXml(team, tradee, traderKeys, tradeeKeys, note);
  }
}
