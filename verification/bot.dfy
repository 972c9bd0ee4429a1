/** The world one inbound message acts on, and what it produces.

    The stores (users, the two conversation-state maps, the link codes) are
    values; a message maps the old world to a new one plus the sequence of
    events it caused: WhatsApp replies sent and calls made to the fantasy
    API.  The outcomes of those calls are supplied up front by an `Env`, so a
    transition is a pure function. */
module Bot {
  import opened Optional
  import opened Text
  import opened Dict
  import opened Yahoo
  import opened UserStorage
  import opened ConversationState
  import opened Flow

  /** Replies, as tags carrying the values the reply text interpolates. */
  datatype Msg =
    | HelpText | LinkPrompt(code: string) | AuthRequiredText | TokenExpiredText
    | TeamsList(names: seq<string>) | NoTeamsInResponse | TeamsFetchFailed | ShowTeamSoon
    | NoTeamsToChoose | ChooseMenu(names: seq<string>) | InvalidChoice(names: seq<string>)
    | TeamSelected(name: string)
    | NoTeamsUseShowTeams | RosterMenu(names: seq<string>) | InvalidSelection
    | Roster(teamKey: Option<string>) | RosterFailed
    | AccessTokenMissing | Standings(leagueKey: string) | StandingsFailed
    | AskAddName | ConfirmAdd(name: string) | AskDropName | ConfirmDropOf(name: string)
    | ConfirmAddDrop(addName: string, dropName: string)
    | DefaultText(body: string) | NotUnderstood
    | LineupComplete | LineupCancelled | AnotherMove
    | DropWarning(player: string) | DropConfirmed | DropCancelled | NoDropInProgress
    | NoLeagueSelected | NoPlayerFound(name: string) | PlayerKeyIs(name: string, key: Option<string>)
    | PlayerKeyFailed
    | CouldNotFindPlayer(name: string) | PlayerAdded(name: string) | AddFailed
    | PlayerDropped(name: string) | DropFailed
    | CouldNotFindAdd(name: string) | CouldNotFindDrop(name: string)
    | AddedAndDropped(addName: string, dropName: string) | AddDropFailed
    | NoTeamSelected | LineupUsage | PositionRequired | NoPlayerKeyFor(name: string)
    | LineupSet(started: bool, name: string, position: string, week: string) | LineupFailed
    | ChooseTeamFirst | TradePlayerNotFound(name: string) | TradeSent | TradeFailed
    | InvalidTransactionNumber | TransactionDeleted(number: string) | DeleteFailed
    | TransactionUpdated(number: string) | UpdateFailed

  /** Calls to the fantasy API (access tokens omitted). */
  datatype Call =
    | Refresh(refreshToken: string)
    | FetchTeams
    | FetchRoster(rosterTeam: Option<string>)
    | FetchStandings(leagueKey: string)
    | SearchPlayer(leagueKey: string, name: string)
    | AddTx(leagueKey: string, teamKey: string, playerKey: string)
    | DropTx(leagueKey: string, teamKey: string, playerKey: string)
    | AddDropTx(leagueKey: string, teamKey: string, addKey: string, dropKey: string)
    | SetLineup(teamKey: string, moves: seq<LineupMove>, week: string)
    | PostTrade(leagueKey: string, trader: string, tradee: string,
                traderKeys: seq<string>, tradeeKeys: seq<string>, note: Option<string>)
    | DeleteTx(transactionKey: string)
    | ModifyTx(transactionKey: string, updateXml: string)

  datatype Event = Send(msg: Msg) | Invoke(call: Call)

  /** The outcomes of everything outside the model, for one message:
      the clock, the token refresh (absent when it throws), the teams the
      teams request yields (absent when it throws), the player search
      (absent when it throws), whether any other call succeeds, and the
      random link code. */
  datatype Env = Env(
    now: int,
    refresh: Option<TokenData>,
    teams: Option<Dict>,
    search: (string, string) -> Option<PlayersField>,
    succeeds: Call -> bool,
    linkCode: string)

  datatype World = World(
    users: Users,
    /** The store of the utils flow engine. */
    utils: Store<ConvState>,
    /** The store of the services flow engine, also written by the team menu
        and roster commands. */
    services: Store<ConvState>,
    codes: LinkCodes)

  datatype Out = Out(w: World, events: seq<Event>)

  /** What a command that reports success produces: its events and the
      boolean it returns. */
  datatype Outcome = Outcome(events: seq<Event>, ok: bool)

  /** A reply picks a menu entry when `parseInt(reply, 10)` is a number
      between 1 and the number of entries. */
  predicate ValidPick(reply: string, count: int) {
    ParseInt(reply).Int? && 1 <= ParseInt(reply).value <= count
  }

  /** Replying with an entry's number picks that entry. */
  lemma {:induction false} PickByNumber(n: nat, count: int)
    requires 1 <= n <= count
    ensures ValidPick(NatToString(n), count) && ParseInt(NatToString(n)).value == n
  {
    ParseIntNatToString(n, "");
    assert NatToString(n) + "" == NatToString(n);
  }

  /** "0" picks nothing: the numbering starts at 1. */
  lemma {:induction false} ZeroPicksNothing(count: int)
    ensures !ValidPick("0", count)
  {
    ParseIntNatToString(0, "");
    assert NatToString(0) + "" == "0";
  }

  /** The request body a call posts, for the calls that post one. */
  function Payload(c: Call): Option<string> {
    match c
    case AddTx(_, team, key) => Some(AddXml(key, team))
    case DropTx(_, team, key) => Some(DropXml(key, team))
    case AddDropTx(_, team, addKey, dropKey) => Some(AddDropXml(addKey, dropKey, team))
    case SetLineup(_, moves, week) => Some(LineupXml(moves, week))
    case PostTrade(_, trader, tradee, traderKeys, tradeeKeys, note) =>
      Some(TradeXml(trader, tradee, traderKeys, tradeeKeys, note))
    case _ => None
  }

  /** The number of events in `es` that invoke a call satisfying `p`. */
  function CountCalls(es: seq<Event>, p: Call -> bool): nat {
    if |es| == 0 then 0
    else (if es[0].Invoke? && p(es[0].call) then 1 else 0) + CountCalls(es[1..], p)
  }

  lemma {:induction false} CountCallsAppend(a: seq<Event>, b: seq<Event>, p: Call -> bool)
    ensures CountCalls(a + b, p) == CountCalls(a, p) + CountCalls(b, p)
  {
    if |a| > 0 {
      assert (a + b)[1..] == a[1..] + b;
      CountCallsAppend(a[1..], b, p);
    } else {
      assert a + b == b;
    }
  }

  /** No event of `es` invokes a call satisfying `p`. */
  predicate NoCall(es: seq<Event>, p: Call -> bool) {
    forall i :: 0 <= i < |es| ==> !(es[i].Invoke? && p(es[i].call))
  }

  /** Counting finds nothing exactly when no event makes such a call. */
  lemma {:induction false} NoCallIffZero(es: seq<Event>, p: Call -> bool)
    ensures NoCall(es, p) <==> CountCalls(es, p) == 0
  {
    if |es| > 0 {
      NoCallIffZero(es[1..], p);
      assert forall i :: 1 <= i < |es| ==> es[i] == es[1..][i - 1];
    }
  }

  predicate IsSearch(c: Call) { c.SearchPlayer? }
  predicate IsAdd(c: Call) { c.AddTx? }
  predicate IsDrop(c: Call) { c.DropTx? }
  predicate IsAddDrop(c: Call) { c.AddDropTx? }
  predicate IsRosterFetch(c: Call) { c.FetchRoster? }
  predicate IsStandingsFetch(c: Call) { c.FetchStandings? }
  predicate IsLineup(c: Call) { c.SetLineup? }
  predicate IsTrade(c: Call) { c.PostTrade? }
  predicate IsTxAction(c: Call) { c.DeleteTx? || c.ModifyTx? }

  /** A phone number's stored record, if any (`getUserToken`). */
  function UserOf(w: World, phone: string): Option<UserData> {
    GetUserToken(w.users, phone)
  }

  /** `userData?.accessToken` */
  function AccessToken(w: World, phone: string): Option<string> {
    if phone in w.users then Some(w.users[phone].accessToken) else None
  }

  // ---------------------------------------------------------------------------
  // the two conversation-state stores
  // ---------------------------------------------------------------------------

  function UtilsState(w: World, phone: string): Option<ConvState> {
    GetState(w.utils, phone)
  }

  function ServicesState(w: World, phone: string): Option<ConvState> {
    GetState(w.services, phone)
  }

  /** Setting a utils state touches nothing but that number's utils state. */
  function SetUtils(w: World, phone: string, s: ConvState): (r: World)
    ensures UtilsState(r, phone) == Some(s)
    ensures forall p :: p != phone ==> UtilsState(r, p) == UtilsState(w, p)
    ensures r.services == w.services && r.users == w.users && r.codes == w.codes
  {
    w.(utils := SetState(w.utils, phone, s))
  }

  function ClearUtils(w: World, phone: string): (r: World)
    ensures UtilsState(r, phone).None?
    ensures forall p :: p != phone ==> UtilsState(r, p) == UtilsState(w, p)
    ensures r.services == w.services && r.users == w.users && r.codes == w.codes
  {
    w.(utils := ClearState(w.utils, phone))
  }

  /** Setting a services state replaces that number's state whole and touches
      nothing else, the utils store included. */
  function SetServices(w: World, phone: string, s: ConvState): (r: World)
    ensures ServicesState(r, phone) == Some(s)
    ensures forall p :: p != phone ==> ServicesState(r, p) == ServicesState(w, p)
    ensures r.utils == w.utils && r.users == w.users && r.codes == w.codes
  {
    w.(services := SetState(w.services, phone, s))
  }

  /** Clearing a services state removes it and touches nothing else; clearing
      an absent state changes nothing. */
  function ClearServices(w: World, phone: string): (r: World)
    ensures ServicesState(r, phone).None?
    ensures forall p :: p != phone ==> ServicesState(r, p) == ServicesState(w, p)
    ensures r.utils == w.utils && r.users == w.users && r.codes == w.codes
    ensures ServicesState(w, phone).None? ==> r == w
  {
    w.(services := ClearState(w.services, phone))
  }

  /** What both classifiers do after a successful refresh: the stored record
      gets the new tokens and expiry, and nothing else about it changes. */
  function ApplyRefresh(users: Users, phone: string, t: TokenData, now: int): (r: Users)
    requires phone in users
    ensures r.Keys == users.Keys
    ensures r[phone] == users[phone].(accessToken := t.accessToken, refreshToken := t.refreshToken,
                                      expiresAt := now + t.expiresIn * 1000)
    ensures forall p :: p in users && p != phone ==> r[p] == users[p]
    ensures Consistent(users) ==> Consistent(r)
  {
    users[phone := users[phone].(accessToken := t.accessToken, refreshToken := t.refreshToken,
                                 expiresAt := now + t.expiresIn * 1000)]
  }

  /** How a possibly absent string prints inside a template literal. */
  function JsText(s: Option<string>): string {
    match s
    case Some(v) => v
    case None => "undefined"
  }
}
