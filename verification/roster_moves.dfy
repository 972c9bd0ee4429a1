/** `addPlayer`, `dropPlayer` and `addDropPlayer`: a silent player lookup in
    the given league, then one transaction request, then one reply.  Each
    returns whether the transaction went through. */
module RosterMoves {
  import opened Optional
  import opened Xml
  import opened Yahoo
  import opened Bot
  import opened PlayerLookup

  /** The player a silent lookup of `name` in `league` finds. */
  function PlayerFor(w: World, env: Env, league: string, name: string): Option<PlayerRecord> {
    GetPlayerInfoByName(w, env, Some(league), name, None).player
  }

  function LookupEvents(w: World, env: Env, league: string, name: string): seq<Event> {
    GetPlayerInfoByName(w, env, Some(league), name, None).events
  }

  /** Every transaction of kind `p` the events request is `c`. */
  predicate OnlyCall(es: seq<Event>, p: Call -> bool, c: Call) {
    forall i :: 0 <= i < |es| && es[i].Invoke? && p(es[i].call) ==> es[i].call == c
  }

  function Last(es: seq<Event>): Event
    requires |es| > 0
  {
    es[|es| - 1]
  }

  /** The only calls in `es` are player searches. */
  predicate SearchesOnly(es: seq<Event>) {
    forall i :: 0 <= i < |es| && es[i].Invoke? ==> es[i].call.SearchPlayer?
  }

  lemma {:induction false} LookupSearchesOnly(w: World, env: Env, league: string, name: string)
    ensures SearchesOnly(LookupEvents(w, env, league, name))
  {
    if league != "" {
      SilentLookup(w, env, league, name);
    }
  }

  lemma {:induction false} SearchesMakeNoTransaction(es: seq<Event>, p: Call -> bool)
    requires SearchesOnly(es)
    requires forall c :: p(c) ==> !c.SearchPlayer?
    ensures CountCalls(es, p) == 0 && NoCall(es, p)
  {
    if |es| > 0 {
      assert SearchesOnly(es[1..]) by {
        forall i | 0 <= i < |es[1..]| && es[1..][i].Invoke? ensures es[1..][i].call.SearchPlayer? {
          assert es[1..][i] == es[i + 1];
        }
      }
      SearchesMakeNoTransaction(es[1..], p);
    }
  }

  lemma {:induction false} LookupMakesNoTransaction(w: World, env: Env, league: string, name: string, p: Call -> bool)
    requires forall c :: p(c) ==> !c.SearchPlayer?
    ensures CountCalls(LookupEvents(w, env, league, name), p) == 0
    ensures NoCall(LookupEvents(w, env, league, name), p)
  {
    LookupSearchesOnly(w, env, league, name);
    SearchesMakeNoTransaction(LookupEvents(w, env, league, name), p);
  }

  /** `addPlayer` as the bot means it: a player without a usable key is
      reported and nothing is requested; otherwise exactly one add of that
      key to `team` is requested, and the command succeeds exactly when the
      request does. */
  function AddPlayer(w: World, env: Env, league: string, team: string, name: string): (r: Outcome)
    ensures r.ok <==> HasKey(PlayerFor(w, env, league, name))
                      && env.succeeds(AddTx(league, team, KeyOf(PlayerFor(w, env, league, name))))
    ensures !HasKey(PlayerFor(w, env, league, name)) ==>
              NoCall(r.events, IsAdd) && |r.events| > 0 && Last(r.events) == Send(CouldNotFindPlayer(name))
    ensures HasKey(PlayerFor(w, env, league, name)) ==>
              CountCalls(r.events, IsAdd) == 1
              && OnlyCall(r.events, IsAdd, AddTx(league, team, KeyOf(PlayerFor(w, env, league, name))))
    ensures r.ok ==> Last(r.events) == Send(PlayerAdded(name))
    ensures !r.ok ==> Last(r.events) in {Send(CouldNotFindPlayer(name)), Send(AddFailed)}
    ensures HasKey(PlayerFor(w, env, league, name)) && !r.ok ==> Last(r.events) == Send(AddFailed)
  {
    var found := GetPlayerInfoByName(w, env, Some(league), name, None);
    LookupMakesNoTransaction(w, env, league, name, IsAdd);
    if !HasKey(found.player) then Outcome(found.events + [Send(CouldNotFindPlayer(name))], false)
    else
      var call := AddTx(league, team, KeyOf(found.player));
      var tail := [Invoke(call), Send(if env.succeeds(call) then PlayerAdded(name) else AddFailed)];
      CountCallsAppend(found.events, tail, IsAdd);
      assert tail[1..][1..] == [];
      Outcome(found.events + tail, env.succeeds(call))
  }

  /** `addPlayer` as written: its success message reads `isWaiverClaim`,
      a name the function never binds, so after a successful add the message
      throws and the handler reports failure. */
  function AddPlayerAsWritten(w: World, env: Env, league: string, team: string, name: string): (r: Outcome)
    ensures !r.ok
    ensures |r.events| == |AddPlayer(w, env, league, team, name).events|
    ensures r.events[..|r.events| - 1] == AddPlayer(w, env, league, team, name).events[..|r.events| - 1]
    ensures Last(r.events) == Send(if HasKey(PlayerFor(w, env, league, name)) then AddFailed
                                   else CouldNotFindPlayer(name))
  {
    var found := GetPlayerInfoByName(w, env, Some(league), name, None);
    if !HasKey(found.player) then Outcome(found.events + [Send(CouldNotFindPlayer(name))], false)
    else
      var call := AddTx(league, team, KeyOf(found.player));
      Outcome(found.events + [Invoke(call), Send(AddFailed)], false)
  }

  /** The discrepancy: whenever the add request goes through, the code as
      written has requested it and still tells the user it failed. */
  lemma {:induction false} AddAsWrittenReportsFailure(w: World, env: Env, league: string, team: string, name: string)
    requires HasKey(PlayerFor(w, env, league, name))
    requires env.succeeds(AddTx(league, team, KeyOf(PlayerFor(w, env, league, name))))
    ensures var written := AddPlayerAsWritten(w, env, league, team, name);
            && Invoke(AddTx(league, team, KeyOf(PlayerFor(w, env, league, name)))) in written.events
            && Last(written.events) == Send(AddFailed) && !written.ok
    ensures AddPlayer(w, env, league, team, name).ok
  {
    var written := AddPlayerAsWritten(w, env, league, team, name);
    assert written.events[|written.events| - 2] == Invoke(AddTx(league, team, KeyOf(PlayerFor(w, env, league, name))));
  }

  /** `dropPlayer`: as `addPlayer`, with a drop request. */
  function DropPlayer(w: World, env: Env, league: string, team: string, name: string): (r: Outcome)
    ensures r.ok <==> HasKey(PlayerFor(w, env, league, name))
                      && env.succeeds(DropTx(league, team, KeyOf(PlayerFor(w, env, league, name))))
    ensures !HasKey(PlayerFor(w, env, league, name)) ==>
              NoCall(r.events, IsDrop) && |r.events| > 0 && Last(r.events) == Send(CouldNotFindPlayer(name))
    ensures HasKey(PlayerFor(w, env, league, name)) ==>
              CountCalls(r.events, IsDrop) == 1
              && OnlyCall(r.events, IsDrop, DropTx(league, team, KeyOf(PlayerFor(w, env, league, name))))
    ensures r.ok ==> Last(r.events) == Send(PlayerDropped(name))
    ensures !r.ok ==> Last(r.events) in {Send(CouldNotFindPlayer(name)), Send(DropFailed)}
  {
    var found := GetPlayerInfoByName(w, env, Some(league), name, None);
    LookupMakesNoTransaction(w, env, league, name, IsDrop);
    if !HasKey(found.player) then Outcome(found.events + [Send(CouldNotFindPlayer(name))], false)
    else
      var call := DropTx(league, team, KeyOf(found.player));
      var tail := [Invoke(call), Send(if env.succeeds(call) then PlayerDropped(name) else DropFailed)];
      CountCallsAppend(found.events, tail, IsDrop);
      assert tail[1..][1..] == [];
      Outcome(found.events + tail, env.succeeds(call))
  }

  /** What `addDropPlayer` does once both lookups are done. */
  function AddDropAfterLookups(lookups: seq<Event>, env: Env, league: string, team: string,
                               addName: string, dropName: string,
                               add: Option<PlayerRecord>, drop: Option<PlayerRecord>): (r: Outcome)
    requires SearchesOnly(lookups)
    ensures |r.events| > |lookups| && r.events[..|lookups|] == lookups
    ensures r.ok <==> HasKey(add) && HasKey(drop) && env.succeeds(AddDropTx(league, team, KeyOf(add), KeyOf(drop)))
    ensures !HasKey(add) ==> NoCall(r.events, IsAddDrop) && Last(r.events) == Send(CouldNotFindAdd(addName))
    ensures HasKey(add) && !HasKey(drop) ==>
              NoCall(r.events, IsAddDrop) && Last(r.events) == Send(CouldNotFindDrop(dropName))
    ensures HasKey(add) && HasKey(drop) ==>
              CountCalls(r.events, IsAddDrop) == 1
              && OnlyCall(r.events, IsAddDrop, AddDropTx(league, team, KeyOf(add), KeyOf(drop)))
    ensures r.ok ==> Last(r.events) == Send(AddedAndDropped(addName, dropName))
    ensures NoCall(r.events, IsAdd) && NoCall(r.events, IsDrop)
  {
    if !HasKey(add) then
      ReplyAfterSearches(lookups, CouldNotFindAdd(addName));
      Outcome(lookups + [Send(CouldNotFindAdd(addName))], false)
    else if !HasKey(drop) then
      ReplyAfterSearches(lookups, CouldNotFindDrop(dropName));
      Outcome(lookups + [Send(CouldNotFindDrop(dropName))], false)
    else
      var call := AddDropTx(league, team, KeyOf(add), KeyOf(drop));
      var reply := if env.succeeds(call) then AddedAndDropped(addName, dropName) else AddDropFailed;
      AddDropAfterSearches(lookups, call, reply);
      Outcome(lookups + [Invoke(call), Send(reply)], env.succeeds(call))
  }

  /** A reply after the searches makes no transaction. */
  lemma {:induction false} ReplyAfterSearches(lookups: seq<Event>, m: Msg)
    requires SearchesOnly(lookups)
    ensures var es := lookups + [Send(m)];
            && |es| > |lookups| && es[..|lookups|] == lookups && Last(es) == Send(m)
            && NoCall(es, IsAdd) && NoCall(es, IsDrop) && NoCall(es, IsAddDrop)
  {
    var es := lookups + [Send(m)];
    assert es[..|lookups|] == lookups;
    SearchesMakeNoTransaction(lookups, IsAddDrop);
    SearchesMakeNoTransaction(lookups, IsAdd);
    SearchesMakeNoTransaction(lookups, IsDrop);
  }

  /** One add/drop request after the searches, and its reply: the only
      transaction made. */
  lemma {:induction false} AddDropAfterSearches(lookups: seq<Event>, call: Call, m: Msg)
    requires SearchesOnly(lookups) && call.AddDropTx?
    ensures var es := lookups + [Invoke(call), Send(m)];
            && |es| > |lookups| && es[..|lookups|] == lookups && Last(es) == Send(m)
            && CountCalls(es, IsAddDrop) == 1 && OnlyCall(es, IsAddDrop, call)
            && NoCall(es, IsAdd) && NoCall(es, IsDrop)
  {
    var tail := [Invoke(call), Send(m)];
    var es := lookups + tail;
    assert es[..|lookups|] == lookups;
    SearchesMakeNoTransaction(lookups, IsAddDrop);
    SearchesMakeNoTransaction(lookups, IsAdd);
    SearchesMakeNoTransaction(lookups, IsDrop);
    CountCallsAppend(lookups, tail, IsAddDrop);
    assert tail[1..][1..] == [];
    assert CountCalls(tail[1..], IsAddDrop) == 0;
  }

  /** `addDropPlayer`: both players are looked up before either is checked;
      a missing add player is reported before a missing drop player; only
      when both have keys is the single combined request made. */
  function AddDropPlayer(w: World, env: Env, league: string, team: string, addName: string, dropName: string)
    : (r: Outcome)
    ensures |r.events| > |LookupEvents(w, env, league, addName)| + |LookupEvents(w, env, league, dropName)|
    ensures r.events[..|LookupEvents(w, env, league, addName)| + |LookupEvents(w, env, league, dropName)|]
            == LookupEvents(w, env, league, addName) + LookupEvents(w, env, league, dropName)
    ensures var add := PlayerFor(w, env, league, addName);
            var drop := PlayerFor(w, env, league, dropName);
            && (r.ok <==> HasKey(add) && HasKey(drop)
                          && env.succeeds(AddDropTx(league, team, KeyOf(add), KeyOf(drop))))
            && (!HasKey(add) ==> NoCall(r.events, IsAddDrop) && Last(r.events) == Send(CouldNotFindAdd(addName)))
            && (HasKey(add) && !HasKey(drop) ==>
                  NoCall(r.events, IsAddDrop) && Last(r.events) == Send(CouldNotFindDrop(dropName)))
            && (HasKey(add) && HasKey(drop) ==>
                  CountCalls(r.events, IsAddDrop) == 1
                  && OnlyCall(r.events, IsAddDrop, AddDropTx(league, team, KeyOf(add), KeyOf(drop))))
    ensures r.ok ==> Last(r.events) == Send(AddedAndDropped(addName, dropName))
    ensures NoCall(r.events, IsAdd) && NoCall(r.events, IsDrop)
  {
    var add := GetPlayerInfoByName(w, env, Some(league), addName, None);
    var drop := GetPlayerInfoByName(w, env, Some(league), dropName, None);
    LookupSearchesOnly(w, env, league, addName);
    LookupSearchesOnly(w, env, league, dropName);
    assert SearchesOnly(add.events + drop.events);
    AddDropAfterLookups(add.events + drop.events, env, league, team, addName, dropName, add.player, drop.player)
  }

  /** What a requested add posts reads back as that add, for keys without
      markup characters. */
  lemma {:induction false} AddPayload(league: string, team: string, key: string)
    requires Plain(team) && Plain(key)
    ensures ReadTransaction(Payload(AddTx(league, team, key)).value) == Some(AddRequest(key, team))
  {
    ReadAddXml(key, team);
  }

  lemma {:induction false} DropPayload(league: string, team: string, key: string)
    requires Plain(team) && Plain(key)
    ensures ReadTransaction(Payload(DropTx(league, team, key)).value) == Some(DropRequest(key, team))
  {
    ReadDropXml(key, team);
  }

  lemma {:induction false} AddDropPayload(league: string, team: string, addKey: string, dropKey: string)
    requires Plain(team) && Plain(addKey) && Plain(dropKey)
    ensures ReadTransaction(Payload(AddDropTx(league, team, addKey, dropKey)).value)
            == Some(AddDropRequest(addKey, team, dropKey, team))
  {
    ReadAddDropXml(addKey, dropKey, team);
  }
}
