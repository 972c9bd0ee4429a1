/** The pure parts of the fantasy API client: the XML bodies it posts, the
    scoreboard URL, and how it normalises the parsed responses of a player
    search, a waiver check and the pending-transaction listing.  The requests
    themselves are collaborators outside the model.

    Every literal after the first of a template is written as its closing tag
    followed by the rest of the text, so that the opening '<' is visible. */
module Yahoo {
  import opened Optional
  import opened Text
  import opened Xml

  datatype LineupMove = LineupMove(playerKey: string, position: string)

  /** A cached pending transaction (waiver claim or trade proposal). */
  datatype Transaction = Transaction(transactionKey: string)

  // ---------------------------------------------------------------------------
  // roster (lineup) change
  // ---------------------------------------------------------------------------

  const LineupHead: seq<string> := [
    "<?xml version=\"1.0\" encoding=\"UTF-8\"?><fantasy_content><roster><coverage_type>week</coverage_type><week>",
    "</week>" + "<players>"]
  const LineupPlayer: seq<string> := [
    "<player><player_key>",
    "</player_key>" + "<position>",
    "</position>" + "</player>"]
  const LineupTail := "</players></roster></fantasy_content>"

  function MoveRows(moves: seq<LineupMove>): (rows: seq<seq<string>>)
    ensures |rows| == |moves|
    ensures forall r :: r in rows ==> |r| == 2
  {
    seq(|moves|, i requires 0 <= i < |moves| => [moves[i].playerKey, moves[i].position])
  }

  /** The body of the roster PUT: week, weekly coverage, one player element
      per move. */
  function LineupXml(moves: seq<LineupMove>, week: string): string {
    Fill(LineupHead, [week]) + (FillAll(LineupPlayer, MoveRows(moves)) + LineupTail)
  }

  function MovesOf(rows: seq<seq<string>>): seq<LineupMove>
    requires forall r :: r in rows ==> |r| == 2
  {
    seq(|rows|, i requires 0 <= i < |rows| => LineupMove(rows[i][0], rows[i][1]))
  }

  lemma {:induction false} MovesOfRows(moves: seq<LineupMove>)
    ensures MovesOf(MoveRows(moves)) == moves
  {
  }

  /** What a reader of a roster body finds in it: the moves and the week. */
  function ReadLineup(s: string): Option<(seq<LineupMove>, string)> {
    match ReadFramed(LineupHead, LineupPlayer, LineupTail, s)
    case None => None
    case Some((fs, rows)) => Some((MovesOf(rows), fs[0]))
  }

  predicate PlainMoves(moves: seq<LineupMove>) {
    forall m :: m in moves ==> Plain(m.playerKey) && Plain(m.position)
  }

  lemma {:induction false} LineupTemplates()
    ensures Template(LineupHead) && Template(LineupPlayer) && |LineupPlayer[0]| > 0
  {
  }

  lemma {:induction false} PlainMoveRows(moves: seq<LineupMove>)
    requires PlainMoves(moves)
    ensures PlainRows(MoveRows(moves))
  {
    var rows := MoveRows(moves);
    forall r, i | r in rows && 0 <= i < |r| ensures Plain(r[i]) {
      var k :| 0 <= k < |rows| && rows[k] == r;
      assert moves[k] in moves;
    }
  }

  /** The roster body carries exactly the given moves, in order, and the week. */
  lemma {:induction false} ReadLineupXml(moves: seq<LineupMove>, week: string)
    requires PlainMoves(moves) && Plain(week)
    ensures ReadLineup(LineupXml(moves, week)) == Some((moves, week))
  {
    PlainMoveRows(moves);
    LineupRowsRead(MoveRows(moves), week);
    MovesOfRows(moves);
  }

  lemma {:induction false} LineupRowsRead(rows: seq<seq<string>>, week: string)
    requires forall r :: r in rows ==> |r| == 2
    requires PlainRows(rows) && Plain(week)
    ensures ReadFramed(LineupHead, LineupPlayer, LineupTail,
                       Fill(LineupHead, [week]) + (FillAll(LineupPlayer, rows) + LineupTail))
            == Some(([week], rows))
  {
    LineupTemplates();
    ReadFramedFill(LineupHead, [week], LineupPlayer, rows, LineupTail);
  }

  // ---------------------------------------------------------------------------
  // add, drop, add/drop transactions
  // ---------------------------------------------------------------------------

  /** The opening shared by the three transaction bodies, up to the
      transaction type. */
  const TxOpen := "<?xml version=\"1.0\" encoding=\"UTF-8\"?>\n<fantasy_content>\n  <transaction>\n    <type>"
  const TypeClose := "</type>"

  const AddLits: seq<string> := [
    TxOpen + "add" + (TypeClose + "\n    <player>\n      <player_key>"),
    "</player_key>" + "\n      <transaction_data>\n        <type>add</type>\n        <destination_team_key>",
    "</destination_team_key>" + "\n      </transaction_data>\n    </player>\n  </transaction>\n</fantasy_content>"]

  const DropLits: seq<string> := [
    TxOpen + "drop" + (TypeClose + "\n    <player>\n      <player_key>"),
    "</player_key>" + "\n      <transaction_data>\n        <type>drop</type>\n        <source_team_key>",
    "</source_team_key>" + "\n      </transaction_data>\n    </player>\n  </transaction>\n</fantasy_content>"]

  const AddDropLits: seq<string> := [
    TxOpen + "add/drop" + (TypeClose + "\n    <players>\n      <player>\n        <player_key>"),
    "</player_key>" + "\n        <transaction_data>\n          <type>add</type>\n          <destination_team_key>",
    "</destination_team_key>" + "\n        </transaction_data>\n      </player>\n      <player>\n        <player_key>",
    "</player_key>" + "\n        <transaction_data>\n          <type>drop</type>\n          <source_team_key>",
    "</source_team_key>" + "\n        </transaction_data>\n      </player>\n    </players>\n  </transaction>\n</fantasy_content>"]

  function AddXml(playerKey: string, teamKey: string): string {
    Fill(AddLits, [playerKey, teamKey])
  }

  function DropXml(playerKey: string, teamKey: string): string {
    Fill(DropLits, [playerKey, teamKey])
  }

  function AddDropXml(addKey: string, dropKey: string, teamKey: string): string {
    Fill(AddDropLits, [addKey, teamKey, dropKey, teamKey])
  }

  /** What a transaction body asks for.  An add names the team receiving the
      player (`destination_team_key`), a drop the team giving it up
      (`source_team_key`); an add/drop lists the add, then the drop. */
  datatype TxRequest =
    | AddRequest(playerKey: string, destination: string)
    | DropRequest(playerKey: string, source: string)
    | AddDropRequest(addKey: string, destination: string, dropKey: string, source: string)

  /** The text of the transaction's `<type>` element. */
  function TxType(s: string): Option<string> {
    if StartsWith(s, TxOpen) then Some(TakePlain(s[|TxOpen|..])) else None
  }

  /** Reads a transaction body the way the server dispatches it: by its type,
      then the values of that type's body. */
  function ReadTransaction(s: string): Option<TxRequest> {
    match TxType(s)
    case Some("add") =>
      (match Unfill(AddLits, s)
       case Some((fs, "")) => Some(AddRequest(fs[0], fs[1]))
       case _ => None)
    case Some("drop") =>
      (match Unfill(DropLits, s)
       case Some((fs, "")) => Some(DropRequest(fs[0], fs[1]))
       case _ => None)
    case Some("add/drop") =>
      (match Unfill(AddDropLits, s)
       case Some((fs, "")) => Some(AddDropRequest(fs[0], fs[1], fs[2], fs[3]))
       case _ => None)
    case _ => None
  }

  lemma {:induction false} TxTemplates()
    ensures Template(AddLits) && Template(DropLits) && Template(AddDropLits)
  {
  }

  lemma {:induction false} TxTypeOf(kind: string, more: string, after: string)
    requires Plain(kind)
    ensures TxType((TxOpen + kind + (TypeClose + more)) + after) == Some(kind)
  {
    var s := (TxOpen + kind + (TypeClose + more)) + after;
    assert s[..|TxOpen|] == TxOpen;
    assert s[|TxOpen|..] == kind + (TypeClose + (more + after));
    TakePlainOf(kind, TypeClose + (more + after));
  }

  lemma {:induction false} FillHead(lits: seq<string>, fields: seq<string>)
    requires |lits| == |fields| + 1 && |fields| > 0
    ensures Fill(lits, fields) == lits[0] + (fields[0] + Fill(lits[1..], fields[1..]))
  {
  }

  lemma {:induction false} UnfillWhole(lits: seq<string>, fields: seq<string>)
    requires Template(lits) && |lits| == |fields| + 1
    requires forall i :: 0 <= i < |fields| ==> Plain(fields[i])
    ensures Unfill(lits, Fill(lits, fields)) == Some((fields, ""))
  {
    UnfillFill(lits, fields, "");
    assert Fill(lits, fields) + "" == Fill(lits, fields);
  }

  /** An add body reads as an add of that player to that team. */
  lemma {:induction false} ReadAddXml(playerKey: string, teamKey: string)
    requires Plain(playerKey) && Plain(teamKey)
    ensures ReadTransaction(AddXml(playerKey, teamKey)) == Some(AddRequest(playerKey, teamKey))
  {
    TxTemplates();
    FillHead(AddLits, [playerKey, teamKey]);
    TxTypeOf("add", "\n    <player>\n      <player_key>", playerKey + Fill(AddLits[1..], [teamKey]));
    UnfillWhole(AddLits, [playerKey, teamKey]);
  }

  /** A drop body reads as a drop of that player from that team. */
  lemma {:induction false} ReadDropXml(playerKey: string, teamKey: string)
    requires Plain(playerKey) && Plain(teamKey)
    ensures ReadTransaction(DropXml(playerKey, teamKey)) == Some(DropRequest(playerKey, teamKey))
  {
    TxTemplates();
    FillHead(DropLits, [playerKey, teamKey]);
    TxTypeOf("drop", "\n    <player>\n      <player_key>", playerKey + Fill(DropLits[1..], [teamKey]));
    UnfillWhole(DropLits, [playerKey, teamKey]);
  }

  lemma {:induction false} AddDropType(addKey: string, dropKey: string, teamKey: string)
    ensures TxType(AddDropXml(addKey, dropKey, teamKey)) == Some("add/drop")
  {
    var fields := [addKey, teamKey, dropKey, teamKey];
    FillHead(AddDropLits, fields);
    TxTypeOf("add/drop", "\n    <players>\n      <player>\n        <player_key>",
             addKey + Fill(AddDropLits[1..], fields[1..]));
  }

  /** An add/drop body reads as one request adding the first player to the
      team and dropping the second from it. */
  lemma {:induction false} ReadAddDropXml(addKey: string, dropKey: string, teamKey: string)
    requires Plain(addKey) && Plain(dropKey) && Plain(teamKey)
    ensures ReadTransaction(AddDropXml(addKey, dropKey, teamKey))
         == Some(AddDropRequest(addKey, teamKey, dropKey, teamKey))
  {
    TxTemplates();
    AddDropType(addKey, dropKey, teamKey);
    UnfillWhole(AddDropLits, [addKey, teamKey, dropKey, teamKey]);
    ReadAsAddDrop(AddDropXml(addKey, dropKey, teamKey), [addKey, teamKey, dropKey, teamKey]);
  }

  lemma {:induction false} ReadAsAddDrop(s: string, fs: seq<string>)
    requires |fs| == 4
    requires TxType(s) == Some("add/drop") && Unfill(AddDropLits, s) == Some((fs, ""))
    ensures ReadTransaction(s) == Some(AddDropRequest(fs[0], fs[1], fs[2], fs[3]))
  {
  }

  // ---------------------------------------------------------------------------
  // trade proposal
  // ---------------------------------------------------------------------------

  const TradeHead: seq<string> := [
    "<?xml version='1.0'?>\n<fantasy_content>\n  <transaction>\n    <type>pending_trade</type>\n    <trader_team_key>",
    "</trader_team_key>" + "\n    <tradee_team_key>",
    "</tradee_team_key>" + "\n    "]
  const PlayersOpen := "\n    <players>\n"
  const TradeNoteLits: seq<string> := ["<trade_note>", "</trade_note>" + PlayersOpen]
  const TradePlayer: seq<string> := [
    "<player>\n<player_key>",
    "</player_key>" + "\n<transaction_data>\n<type>pending_trade</type>\n<source_team_key>",
    "</source_team_key>" + "\n<destination_team_key>",
    "</destination_team_key>" + "\n</transaction_data>\n</player>\n"]
  const TradeTail := "    </players>\n  </transaction>\n</fantasy_content>"

  datatype TradeEntry = TradeEntry(playerKey: string, source: string, destination: string)

  /** Every player moving in a proposal: the trader's players go from the
      trader to the tradee, then the tradee's players come back. */
  function TradeEntries(trader: string, tradee: string, traderKeys: seq<string>, tradeeKeys: seq<string>)
    : (es: seq<TradeEntry>)
    ensures |es| == |traderKeys| + |tradeeKeys|
    ensures forall i :: 0 <= i < |traderKeys| ==> es[i] == TradeEntry(traderKeys[i], trader, tradee)
    ensures forall i :: 0 <= i < |tradeeKeys| ==>
              es[|traderKeys| + i] == TradeEntry(tradeeKeys[i], tradee, trader)
  {
    seq(|traderKeys|, i requires 0 <= i < |traderKeys| => TradeEntry(traderKeys[i], trader, tradee))
    + seq(|tradeeKeys|, i requires 0 <= i < |tradeeKeys| => TradeEntry(tradeeKeys[i], tradee, trader))
  }

  function EntryRows(es: seq<TradeEntry>): (rows: seq<seq<string>>)
    ensures |rows| == |es|
    ensures forall r :: r in rows ==> |r| == 3
  {
    seq(|es|, i requires 0 <= i < |es| => [es[i].playerKey, es[i].source, es[i].destination])
  }

  /** The note element, present only for a non-empty note. */
  function NoteXml(note: Option<string>): string {
    if Truthy(note) then "<trade_note>" + note.value + "</trade_note>" else ""
  }

  function TradeXml(trader: string, tradee: string, traderKeys: seq<string>, tradeeKeys: seq<string>,
                    note: Option<string>): string
  {
    Fill(TradeHead, [trader, tradee])
    + (NoteXml(note)
       + (PlayersOpen + (FillAll(TradePlayer, EntryRows(TradeEntries(trader, tradee, traderKeys, tradeeKeys)))
                         + TradeTail)))
  }

  /** What a trade body proposes. */
  datatype TradeRequest = TradeRequest(trader: string, tradee: string, note: Option<string>, entries: seq<TradeEntry>)

  function EntriesOf(rows: seq<seq<string>>): seq<TradeEntry>
    requires forall r :: r in rows ==> |r| == 3
  {
    seq(|rows|, i requires 0 <= i < |rows| => TradeEntry(rows[i][0], rows[i][1], rows[i][2]))
  }

  lemma {:induction false} EntriesOfRows(es: seq<TradeEntry>)
    ensures EntriesOf(EntryRows(es)) == es
  {
  }

  function ReadTradePlayers(body: string): Option<seq<TradeEntry>> {
    match ReadRows(TradePlayer, TradeTail, body)
    case None => None
    case Some(rows) => Some(EntriesOf(rows))
  }

  /** After the team keys comes either a note element or, directly, the
      players. */
  function ReadTrade(s: string): Option<TradeRequest> {
    match Unfill(TradeHead, s)
    case None => None
    case Some((teams, rest)) =>
      if StartsWith(rest, "<trade_note>") then
        match Unfill(TradeNoteLits, rest)
        case None => None
        case Some((note, body)) =>
          match ReadTradePlayers(body)
          case None => None
          case Some(es) => Some(TradeRequest(teams[0], teams[1], Some(note[0]), es))
      else if StartsWith(rest, PlayersOpen) then
        match ReadTradePlayers(rest[|PlayersOpen|..])
        case None => None
        case Some(es) => Some(TradeRequest(teams[0], teams[1], None, es))
      else None
  }

  lemma {:induction false} TradeTemplates()
    ensures Template(TradeHead) && Template(TradeNoteLits) && Template(TradePlayer) && |TradePlayer[0]| > 0
  {
  }

  lemma {:induction false} PlainEntryRows(es: seq<TradeEntry>)
    requires forall e :: e in es ==> Plain(e.playerKey) && Plain(e.source) && Plain(e.destination)
    ensures PlainRows(EntryRows(es))
  {
    var rows := EntryRows(es);
    forall r, i | r in rows && 0 <= i < |r| ensures Plain(r[i]) {
      var k :| 0 <= k < |rows| && rows[k] == r;
      assert es[k] in es;
    }
  }

  lemma {:induction false} ReadTradePlayersOf(es: seq<TradeEntry>)
    requires PlainRows(EntryRows(es))
    ensures ReadTradePlayers(FillAll(TradePlayer, EntryRows(es)) + TradeTail) == Some(es)
  {
    TradeRowsRead(EntryRows(es));
    EntriesOfRows(es);
  }

  lemma {:induction false} TradeRowsRead(rows: seq<seq<string>>)
    requires forall r :: r in rows ==> |r| == 3
    requires PlainRows(rows)
    ensures ReadRows(TradePlayer, TradeTail, FillAll(TradePlayer, rows) + TradeTail) == Some(rows)
  {
    TradeTemplates();
    ReadRowsFill(TradePlayer, rows, TradeTail);
  }

  lemma {:induction false} PlainEntries(trader: string, tradee: string, traderKeys: seq<string>, tradeeKeys: seq<string>)
    requires Plain(trader) && Plain(tradee)
    requires forall k :: k in traderKeys ==> Plain(k)
    requires forall k :: k in tradeeKeys ==> Plain(k)
    ensures forall e :: e in TradeEntries(trader, tradee, traderKeys, tradeeKeys) ==>
              Plain(e.playerKey) && Plain(e.source) && Plain(e.destination)
  {
    var es := TradeEntries(trader, tradee, traderKeys, tradeeKeys);
    forall e | e in es ensures Plain(e.playerKey) && Plain(e.source) && Plain(e.destination) {
      var k :| 0 <= k < |es| && es[k] == e;
      if k < |traderKeys| {
        assert traderKeys[k] in traderKeys;
      } else {
        assert tradeeKeys[k - |traderKeys|] in tradeeKeys;
      }
    }
  }

  /** With a note, the note element follows the team keys. */
  lemma {:induction false} ReadNoteRest(note: string, body: string)
    requires Plain(note) && note != ""
    ensures var rest := NoteXml(Some(note)) + (PlayersOpen + body);
            StartsWith(rest, "<trade_note>") && Unfill(TradeNoteLits, rest) == Some(([note], body))
  {
    TradeTemplates();
    var rest := NoteXml(Some(note)) + (PlayersOpen + body);
    assert rest == Fill(TradeNoteLits, [note]) + body;
    assert rest[..12] == "<trade_note>";
    UnfillFill(TradeNoteLits, [note], body);
  }

  /** Without one, the players follow directly. */
  lemma {:induction false} ReadNoNoteRest(note: Option<string>, body: string)
    requires !Truthy(note)
    ensures var rest := NoteXml(note) + (PlayersOpen + body);
            !StartsWith(rest, "<trade_note>") && StartsWith(rest, PlayersOpen) && rest[|PlayersOpen|..] == body
  {
    var rest := NoteXml(note) + (PlayersOpen + body);
    assert rest == PlayersOpen + body;
    assert rest[0] == '\n';
    assert rest[..|PlayersOpen|] == PlayersOpen;
  }

  /** A trade body carries the two teams, the note exactly when the note is
      non-empty, and every moving player with its direction, trader's players
      first. */
  lemma {:induction false} ReadTradeXml(trader: string, tradee: string, traderKeys: seq<string>, tradeeKeys: seq<string>,
                     note: Option<string>)
    requires Plain(trader) && Plain(tradee)
    requires forall k :: k in traderKeys ==> Plain(k)
    requires forall k :: k in tradeeKeys ==> Plain(k)
    requires note.Some? ==> Plain(note.value)
    ensures ReadTrade(TradeXml(trader, tradee, traderKeys, tradeeKeys, note))
         == Some(TradeRequest(trader, tradee, if Truthy(note) then note else None,
                              TradeEntries(trader, tradee, traderKeys, tradeeKeys)))
  {
    TradeTemplates();
    var es := TradeEntries(trader, tradee, traderKeys, tradeeKeys);
    PlainEntries(trader, tradee, traderKeys, tradeeKeys);
    PlainEntryRows(es);
    var body := FillAll(TradePlayer, EntryRows(es)) + TradeTail;
    ReadTradePlayersOf(es);
    var rest := NoteXml(note) + (PlayersOpen + body);
    var s := Fill(TradeHead, [trader, tradee]) + rest;
    TradeHeadOf(trader, tradee, rest);
    if Truthy(note) {
      ReadNoteRest(note.value, body);
      ReadTradeNoted(s, [trader, tradee], rest, [note.value], body, es);
    } else {
      ReadNoNoteRest(note, body);
      ReadTradePlain(s, [trader, tradee], rest, es);
    }
    assert TradeXml(trader, tradee, traderKeys, tradeeKeys, note) == s;
  }

  lemma {:induction false} TradeHeadOf(trader: string, tradee: string, rest: string)
    requires Plain(trader) && Plain(tradee)
    ensures Unfill(TradeHead, Fill(TradeHead, [trader, tradee]) + rest) == Some(([trader, tradee], rest))
  {
    TradeTemplates();
    UnfillFill(TradeHead, [trader, tradee], rest);
  }

  lemma {:induction false} ReadTradeNoted(s: string, teams: seq<string>, rest: string, note: seq<string>, body: string,
                       es: seq<TradeEntry>)
    requires |teams| == 2 && |note| == 1
    requires Unfill(TradeHead, s) == Some((teams, rest))
    requires StartsWith(rest, "<trade_note>") && Unfill(TradeNoteLits, rest) == Some((note, body))
    requires ReadTradePlayers(body) == Some(es)
    ensures ReadTrade(s) == Some(TradeRequest(teams[0], teams[1], Some(note[0]), es))
  {
  }

  lemma {:induction false} ReadTradePlain(s: string, teams: seq<string>, rest: string, es: seq<TradeEntry>)
    requires |teams| == 2
    requires Unfill(TradeHead, s) == Some((teams, rest))
    requires !StartsWith(rest, "<trade_note>") && StartsWith(rest, PlayersOpen)
    requires ReadTradePlayers(rest[|PlayersOpen|..]) == Some(es)
    ensures ReadTrade(s) == Some(TradeRequest(teams[0], teams[1], None, es))
  {
  }

  // ---------------------------------------------------------------------------
  // scoreboard URL
  // ---------------------------------------------------------------------------

  function ScoreboardBase(leagueKey: string): string {
    "https://fantasysports.yahooapis.com/fantasy/v2/league/" + leagueKey + "/scoreboard"
  }

  /** The week is appended only when it is truthy: absent or 0 means the
      current week; otherwise `;week=` is followed by the week's digits. */
  function ScoreboardUrl(leagueKey: string, week: Option<int>): (url: string)
    ensures StartsWith(url, ScoreboardBase(leagueKey))
    ensures url == ScoreboardBase(leagueKey) <==> week.None? || week.value == 0
    ensures week.Some? && week.value != 0 ==>
              StartsWith(url[|ScoreboardBase(leagueKey)|..], ";week=")
              && ParseInt(url[|ScoreboardBase(leagueKey)| + 6..]) == Int(week.value)
  {
    var base := ScoreboardBase(leagueKey);
    if week.Some? && week.value != 0 then
      var suffix := ";week=" + IntToString(week.value);
      ParseIntIntToString(week.value);
      assert (base + suffix)[|base|..] == suffix;
      assert (base + suffix)[|base| + 6..] == IntToString(week.value);
      assert (base + suffix)[..|base|] == base;
      base + suffix
    else base
  }

  // ---------------------------------------------------------------------------
  // normalising parsed responses
  // ---------------------------------------------------------------------------

  /** A player record as the XML parser yields it. */
  datatype PlayerRecord = PlayerRecord(playerKey: Option<string>, status: Option<string>)

  /** `fantasy_content.league.players.player` after parsing without forced
      arrays: missing, one object, or an array when several matched. */
  datatype PlayersField = NoPlayers | OnePlayer(player: PlayerRecord) | PlayerArray(players: seq<PlayerRecord>)

  /** A player search returns nothing for no result, the first match of an
      array, and the single object otherwise. */
  function SearchResult(f: PlayersField): (r: Option<PlayerRecord>)
    ensures r.None? <==> f.NoPlayers? || (f.PlayerArray? && |f.players| == 0)
    ensures f.OnePlayer? ==> r == Some(f.player)
    ensures f.PlayerArray? && |f.players| > 0 ==> r == Some(f.players[0])
  {
    match f
    case NoPlayers => None
    case OnePlayer(p) => Some(p)
    case PlayerArray(ps) => if |ps| > 0 then Some(ps[0]) else None
  }

  /** An array of players has no `status`, so only a single player whose
      status is exactly "W" counts as on waivers. */
  function IsOnWaivers(f: PlayersField): (r: bool)
    ensures r ==> f.OnePlayer?
    ensures f.OnePlayer? ==> (r <==> f.player.status == Some("W"))
  {
    f.OnePlayer? && f.player.status == Some("W")
  }

  /** `fantasy_content.league.transactions.transaction` after parsing. */
  datatype TxField = NoTx | OneTx(tx: Transaction) | TxArray(txs: seq<Transaction>)

  /** An array as is, a single object wrapped, nothing as the empty list. */
  function TxList(f: TxField): (r: seq<Transaction>)
    ensures f.NoTx? ==> r == []
    ensures f.OneTx? ==> r == [f.tx]
    ensures f.TxArray? ==> r == f.txs
  {
    match f
    case NoTx => []
    case OneTx(t) => [t]
    case TxArray(ts) => ts
  }

  datatype PendingError = LeagueKeyRequired | WaiverFetchFailed | TradeFetchFailed

  datatype Pending = Listed(txs: seq<Transaction>) | PendingFailed(error: PendingError)

  /** The pending-transaction listing: refused without a league key, failing
      with whichever request failed first, otherwise the waiver claims followed
      by the pending trades.  `None` stands for a failed request. */
  function PendingTransactions(leagueKey: Option<string>, waivers: Option<TxField>, trades: Option<TxField>)
    : (r: Pending)
    ensures !Truthy(leagueKey) ==> r == PendingFailed(LeagueKeyRequired)
    ensures r.Listed? <==> Truthy(leagueKey) && waivers.Some? && trades.Some?
    ensures r.Listed? ==>
              var w := TxList(waivers.value);
              var t := TxList(trades.value);
              |r.txs| == |w| + |t| && r.txs[..|w|] == w && r.txs[|w|..] == t
  {
    if !Truthy(leagueKey) then PendingFailed(LeagueKeyRequired)
    else if waivers.None? then PendingFailed(WaiverFetchFailed)
    else if trades.None? then PendingFailed(TradeFetchFailed)
    else
      var w := TxList(waivers.value);
      var t := TxList(trades.value);
      assert (w + t)[..|w|] == w && (w + t)[|w|..] == t;
      Listed(w + t)
  }
}
