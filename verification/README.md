# WhatsApp fantasy-football bot: the conversation engine

This project models the per-user conversation engine of a WhatsApp bot for
Yahoo Fantasy Football. It covers how a text message is classified, how the
flow stored for its sender takes one step, and how the bot's commands act on
the user store. Everything is a pure function. `Bot.World` holds:

- the user table (`UserStorage.Users`);
- the two conversation stores: the utils store and the services store;
- the one-time link codes.

Handling a message gives the next world and a list of events (`Bot.Out`).
An event is either a reply (`Send`) or a request to Yahoo (`Invoke`).
Whatever the outside world would answer comes in through `Bot.Env`:

- the clock;
- the outcome of a token refresh;
- the team listing;
- a player search;
- whether a request succeeds;
- the next link code.

The repository holds three generations of the engine, and all three are modelled:

- `ServicesFlow`: the classifier of src/services/messageHandler.ts with the
  flow engine of src/services/stateHandler.ts. This is the one the WhatsApp
  webhook runs (`ServicesFlow.Webhook`).
- `UtilsFlow`: the classifier of src/utils/messageHandler.ts with the flow
  engine of src/utils/stateHandler.ts. This is the richer engine, with the
  add, drop, add/drop, lineup and team-menu dialogues.
- `LegacyRouter`: src/services/conversationRouter.ts, which classifies and
  handles in one pass.

`Routing` holds what they share. The commands are modelled as one module each:

- `ChooseTeamCommand`, `GetRosterCommand`, `ModifyLineupCommand`,
  `RosterMoves`, `SendTradeCommand`, `TransactionActions` and `PlayerLookup`;
- the small one-reply commands, in `SimpleCommands`;
- the request bodies and URLs that src/services/yahoo.ts builds, in `Yahoo`.

Each request body has a reader (`Xml`) that proves it carries exactly the
data it was built from. The lineup pattern of the modify-lineup command is
modelled as a matcher (`LineupParser.ParseLineup`). It is proved to read
back every command it renders.

## Model

| member | source | states |
|---|---|---|
| ConversationState.SetState | src/utils/conversationState.ts:8-11 | the number now maps to the new state; every other number keeps its state; the set of numbers gains only this one |
| ConversationState.ClearState | src/utils/conversationState.ts:21-24 | the number has no state afterwards; every other number keeps its state |
| ConversationState.SetReplaces | src/services/conversationState.ts:5-8 | a second set for the same number wins over the first |
| ConversationState.ClearIdempotent | src/services/conversationState.ts:16-19 | clearing twice is clearing once |
| ConversationState.DifferentNumbersCommute | src/utils/conversationState.ts:8-24 | writes for two different numbers can be made in either order |
| UserStorage.LeagueKeyFromTeamKey | src/services/userStorage.ts:132-134 | the league key is a prefix of the team key with no ".t." inside it, followed by ".t." unless it is the whole key |
| UserStorage.LeagueKeyOfTeamKey | src/services/userStorage.ts:132-134 | league + ".t." + team gives back the league, whatever the team part holds |
| UserStorage.LeagueOfYahooTeamKey | src/services/userStorage.ts:132-134 | a Yahoo key "<game>.l.<id>.t.<team>" belongs to league "<game>.l.<id>" |
| UserStorage.LeagueKeyExample | src/services/userStorage.ts:132-134 | "423.l.12345.t.7" belongs to "423.l.12345" |
| UserStorage.StoreUserToken | src/services/userStorage.ts:39-54 | the sender's record is replaced by a fresh one holding the tokens and the expiry now + seconds * 1000; every other record stays |
| UserStorage.TokenLifetime | src/services/userStorage.ts:62-64 | a stored token is live before its lifetime has passed and expired from then on |
| UserStorage.SetUserChosenTeam | src/services/userStorage.ts:110-117 | sets the team, sets the league to the one derived from it, and forgets the league directory; a missing user is left alone; selections stay consistent |
| UserStorage.ChosenAfterSet | src/services/userStorage.ts:110-129 | after choosing, the team getter returns the team and the league getter returns its league |
| UserStorage.ChosenLeagueFollowsTeam | src/services/userStorage.ts:110-129 | in a consistent table, the chosen league is always the league of the chosen team |
| UserStorage.ClearUserChosenTeam | src/services/userStorage.ts:137-144 | team, league and league directory are gone; the tokens and the teams stay |
| UserStorage.SetUserTeams | src/services/userStorage.ts:25-30 | only the teams of a known user change; an unknown number is ignored; selections stay consistent |
| UserStorage.SetLeagueDict | src/services/userStorage.ts:151-156 | only the league directory of a known user changes; an unknown number is ignored |
| UserStorage.SetPendingTransactions | src/services/userStorage.ts:169-174 | only the cached transactions of a known user change; an unknown number is ignored |
| UserStorage.GetPendingTransactions | src/services/userStorage.ts:177-180 | an unknown user, or one with nothing cached, has the empty list |
| UserStorage.GettersAfterSetters | src/services/userStorage.ts:25-36 | each cache getter returns what its setter stored; a missing user stores nothing |
| UserStorage.GenerateLinkCode | src/services/userStorage.ts:84-94 | the code maps to the phone number; every other code is unchanged |
| UserStorage.PhoneFromLinkCode | src/services/userStorage.ts:97-103 | gives the number the code maps to; a truthy result removes the code and leaves the rest |
| UserStorage.LinkCodeResolvesOnce | src/services/userStorage.ts:97-103 | a code that resolved once resolves to nothing a second time |
| UserStorage.LinkCodeRoundTrip | src/services/userStorage.ts:84-103 | a generated code resolves to the number it was generated for |
| Dict.GetAt | src/commands/chooseTeam.ts:18-24 | with distinct names, the i-th name of the menu looks up the i-th key |
| Bot.PickByNumber | src/commands/chooseTeam.ts:18-19 | the text of n picks entry n of a menu of at least n entries |
| Bot.ZeroPicksNothing | src/commands/chooseTeam.ts:18-19 | "0" is never a valid pick |
| Bot.ApplyRefresh | src/utils/messageHandler.ts:30-39 | the refreshed tokens and the new expiry are written into the sender's record; nothing else changes |
| Bot.SetServices | src/services/conversationState.ts:5-8 | only the sender's services state changes, and it becomes the given one |
| Bot.ClearServices | src/services/conversationState.ts:16-19 | only the sender's services state changes, and it goes away |
| Bot.SetUtils | src/utils/conversationState.ts:8-11 | only the sender's utils state changes, and it becomes the given one |
| Bot.ClearUtils | src/utils/conversationState.ts:21-24 | only the sender's utils state changes, and it goes away |
| Routing.Opening | src/utils/messageHandler.ts:24-39 | "help" and "link" are classified before the sign-in check; an unknown sender must sign in; an expired token is refreshed (no state stored) or gives the expired reply; the command words are reached exactly by a signed-in sender with a live token |
| Routing.KelvinSignLinks | src/utils/messageHandler.ts:26-27 | "LIN" followed by the Kelvin sign lower-cases to "link", so it is the link command whether or not the sender is signed in |
| Routing.RunOneShot | src/utils/stateHandler.ts:23-42 | the one-reply commands send their one reply; only link touches the codes; only the team listing touches the users; neither store changes |
| Routing.DropNameOf | src/utils/messageHandler.ts:54-56 | "drop " + a trimmed name reads back that name, whatever the case of "drop" |
| Routing.TeamInputOf | src/services/conversationRouter.ts:103-105 | "get roster <words>" reads back the words joined by one space, and counts as naming a team |
| SimpleCommands.LinkCommand | src/commands/link.ts:4-15 | the new code resolves to the sender; the other codes, the users and the stores are unchanged; the reply carries the code |
| SimpleCommands.ShowTeamsCommand | src/commands/showTeams.ts:5-25 | the teams are requested first; a failed or empty listing changes nothing; a non-empty one is stored; no selection changes |
| SimpleCommands.StandingsCommand | src/commands/getStandings.ts:5-60 | without a token, the token-missing reply; otherwise the standings of the league are requested, then the standings or the failure reply; the world is unchanged |
| ChooseTeamCommand.Choose | src/commands/chooseTeam.ts:6-47 | no teams gives its reply; a valid number selects that team, clears the menu and confirms; an invalid one re-arms the menu with an error; no reply shows the menu; only the sender's selection and services state change |
| ChooseTeamCommand.MenuThenNumber | src/commands/chooseTeam.ts:16-46 | after the menu, replying n selects the key stored under the n-th name |
| GetRosterCommand.FetchReply | src/commands/getRoster.ts:43-66 | exactly one roster request for the key, then its success or failure reply |
| GetRosterCommand.Run | src/commands/getRoster.ts:7-67 | no key and no teams is an error; no key stores and shows the menu; a valid pick clears the menu and fetches the picked team; an invalid pick keeps the menu; a key with no menu is fetched as given; at most one roster is requested |
| GetRosterCommand.MenuThenNumber | src/commands/getRoster.ts:26-41 | after the menu, replying n fetches the key stored under the n-th name and leaves no menu |
| PlayerLookup.GetPlayerInfoByName | src/utils/getPlayer.ts:7-42 | no league means no search; otherwise one search in the explicit league or the chosen one; the player is the search's result; replies only with a sender |
| PlayerLookup.SilentLookup | src/utils/getPlayer.ts:24-35 | a lookup with a league and no sender is exactly one search event and no reply |
| RosterMoves.AddPlayer | src/commands/rosterMoves.ts:8-31 | succeeds exactly when the player has a key and the add succeeds; one add of that key to the team, and nothing without a key |
| RosterMoves.AddPlayerAsWritten | src/commands/rosterMoves.ts:8-31 | never reports success; its events are those of the corrected add except the last reply |
| RosterMoves.AddAsWrittenReportsFailure | src/commands/rosterMoves.ts:24-30 | when the add request goes through, the code as written has made it and still replies with failure |
| RosterMoves.DropPlayer | src/commands/rosterMoves.ts:34-55 | succeeds exactly when the player has a key and the drop succeeds; one drop of that key; nothing without a key |
| RosterMoves.AddDropPlayer | src/commands/rosterMoves.ts:58-85 | both lookups come first; a missing add player is reported before a missing drop player; only with both keys is one swap requested, and it succeeds exactly when the request does |
| RosterMoves.LookupMakesNoTransaction | src/utils/getPlayer.ts:24-35 | a silent lookup requests no transaction of any kind |
| RosterMoves.AddPayload | src/services/yahoo.ts:253-265 | the add body reads back as an add of that key to that team |
| RosterMoves.DropPayload | src/services/yahoo.ts:290-302 | the drop body reads back as a drop of that key from that team |
| RosterMoves.AddDropPayload | src/services/yahoo.ts:328-349 | the add/drop body reads back as that swap |
| SendTradeCommand.ResolveKeys | src/commands/sendTrade.ts:21-38 | the names are searched in order; the keys found are those of a prefix of the names; the loop stops after the first name without a key, or the first search that throws |
| SendTradeCommand.ResolvesAll | src/commands/sendTrade.ts:21-29 | every name resolves exactly when all have keys, and then the keys are theirs, in order |
| SendTradeCommand.PostedIffAllFound | src/commands/sendTrade.ts:6-54 | at most one trade is posted; one is posted exactly when there is a chosen team and every name on both sides has a key; it carries both key lists in order |
| SendTradeCommand.TradePayload | src/services/yahoo.ts:457-489 | the trade body proposes the trader's keys from the trader's team, then the tradee's keys the other way |
| TransactionActions.Entry | src/commands/transactionActions.ts:12-17 | an entry is found exactly when the number is a valid 1-based pick, and it is that entry |
| TransactionActions.DeletePending | src/commands/transactionActions.ts:6-24 | an invalid number is refused with nothing requested; a valid one requests one delete of that entry's key and reports the outcome |
| TransactionActions.ModifyPending | src/commands/transactionActions.ts:27-46 | as deleting, with the update body passed on unchanged |
| TransactionActions.NumberNamesEntry | src/commands/transactionActions.ts:12-17 | entry n, named by n with any non-digit text after it, is the one whose key is requested |
| TransactionActions.NothingCachedNothingRequested | src/commands/transactionActions.ts:12-17 | without a cached list every number is invalid |
| TransactionActions.ZeroIsInvalid | src/commands/transactionActions.ts:12-17 | "0" is always invalid |
| TransactionActions.AtMostOneAction | src/commands/transactionActions.ts:6-46 | neither command requests more than one transaction action |
| ModifyLineupCommand.LineupPosition | src/commands/modifyLineup.ts:49-51 | any spelling of FLEX becomes W/R/T; other positions are trimmed and upper-cased; empty means none |
| ModifyLineupCommand.MoveOne | src/commands/modifyLineup.ts:63-88 | without a player key nothing changes; otherwise one change of that player into the slot, succeeding exactly when it does |
| ModifyLineupCommand.Submit | src/commands/modifyLineup.ts:54-88 | a start without a position stops before any lookup; otherwise the trimmed name is looked up and moved into the command's slot |
| ModifyLineupCommand.ModifyLineup | src/commands/modifyLineup.ts:12-89 | the token, team and league guards in order, then the pattern; a failure replies once, requests nothing and changes nothing |
| ModifyLineupCommand.FlexAlias | src/commands/modifyLineup.ts:49-51 | "flex" becomes "W/R/T" |
| ModifyLineupCommand.FlexCapitalised | src/commands/modifyLineup.ts:49-51 | "Flex" becomes "W/R/T" |
| ModifyLineupCommand.OtherPositions | src/commands/modifyLineup.ts:43-51 | "wr" becomes "WR"; an empty position is none |
| ModifyLineupCommand.RenderedCommand | src/commands/modifyLineup.ts:36-88 | a well-formed command text is read back as that command; its one roster change is the command's move for the looked-up key |
| ModifyLineupCommand.LineupPayload | src/services/yahoo.ts:206-209 | the lineup body carries exactly the one move and the week |
| ModifyLineupCommand.BenchIgnoresPosition | src/commands/modifyLineup.ts:71-74 | a bench move goes to the bench whatever position was given |
| ModifyLineupCommand.StartNeedsPosition | src/commands/modifyLineup.ts:54-57 | a start without a position is refused before any lookup |
| LineupParser.ParseLineup | src/commands/modifyLineup.ts:36-46 | a match starts with start/bench and one or more spaces; the name is the shortest run of name characters that the rest of the pattern can follow; the week is a digit run |
| LineupParser.ParseRendered | src/commands/modifyLineup.ts:36-46 | parsing the text rendered from a well-formed command, followed by anything not starting with a digit, gives back that command |
| Yahoo.MovesOfRows | src/services/yahoo.ts:206-209 | the rows built from the moves read back as the moves |
| Yahoo.ReadLineupXml | src/services/yahoo.ts:206-209 | the lineup body reads back as its moves and week |
| Yahoo.ReadAddXml | src/services/yahoo.ts:253-265 | the add body reads back as that add |
| Yahoo.ReadDropXml | src/services/yahoo.ts:290-302 | the drop body reads back as that drop |
| Yahoo.ReadAddDropXml | src/services/yahoo.ts:328-349 | the add/drop body reads back as that swap |
| Yahoo.TradeEntries | src/services/yahoo.ts:467-473 | the trader's keys go from trader to tradee, then the tradee's keys go back, in order |
| Yahoo.ReadTradeXml | src/services/yahoo.ts:457-489 | the trade body reads back as its teams, its note and its entries |
| Yahoo.ScoreboardUrl | src/services/yahoo.ts:234-245 | the league's scoreboard address; ";week=" and the week's digits are added exactly when the week is truthy |
| Yahoo.SearchResult | src/services/yahoo.ts:186-191 | nothing for no match; the first of several; the only one otherwise |
| Yahoo.IsOnWaivers | src/services/yahoo.ts:368-383 | only a single player whose status is "W" counts; an array never does |
| Yahoo.PendingTransactions | src/services/yahoo.ts:418-445 | refused without a league key; listed exactly when both requests succeed; then the waiver claims followed by the trades |
| Xml.UnfillFill | src/services/yahoo.ts:253-265 | filling a template with plain fields and reading it back gives the fields |
| Xml.UnfillAllFillAll | src/services/yahoo.ts:467-474 | repeated rows read back as the rows |
| Xml.ReadFramedFill | src/services/yahoo.ts:206-209 | a head, rows and a tail read back as the head's fields and the rows |
| UtilsFlow.UtilsChain | src/utils/messageHandler.ts:40-61 | each command word but "drop " must be the whole message; "drop " starts it and stores the name in `player`; the rest is the default reply |
| UtilsFlow.HandleAdd | src/utils/stateHandler.ts:75-112 | the name step; the first message after it only marks the prompt sent; then "yes" adds once and ends, "no" ends, anything else asks again; at most one add |
| UtilsFlow.HandleDrop | src/utils/stateHandler.ts:113-150 | the add flow's mirror image, reading the name from `dropPlayer` |
| UtilsFlow.HandleAddDrop | src/utils/stateHandler.ts:151-174 | "yes" swaps once and ends; "no" ends; anything else asks again; no swap without "yes" |
| UtilsFlow.HandleLineup | src/utils/stateHandler.ts:179-194 | "done" and "cancel" end the loop; any other message is a lineup command, the loop stays, and the next prompt follows exactly on success |
| UtilsFlow.HandleChooseTeam | src/utils/stateHandler.ts:43-53 | no teams: list and show the menu; shown: show it again without reading the message; otherwise read the message as the pick; the state is never cleared |
| UtilsFlow.HandleGate | src/utils/stateHandler.ts:54-74 | without a team (roster) or league (standings) the menu is shown and the bare state kept; with one the command runs and the state clears |
| UtilsFlow.MenuFetchesNothing | src/commands/chooseTeam.ts:39-46 | showing the menu makes no request and changes no selection |
| UtilsFlow.UtilsHandle | src/utils/stateHandler.ts:20-200 | no state does nothing; one-reply states run and clear; unknown types get the not-understood reply; selections stay consistent; other senders are untouched |
| UtilsFlow.UtilsRouter | src/utils/messageHandler.ts:8-67 | "restart" only clears the utils state; a stored state takes the message; otherwise classify, store and handle |
| UtilsFlowProperties.HelpBeforeSignIn | src/utils/messageHandler.ts:24-25 | "help" with no state gets the help text, signed in or not, and leaves no state |
| UtilsFlowProperties.LinkBeforeSignIn | src/utils/messageHandler.ts:26-27 | "link" with no state issues a code for the sender, signed in or not |
| UtilsFlowProperties.UnknownSenderSignsIn | src/utils/messageHandler.ts:28-29 | any other word from an unknown sender gets the sign-in reply |
| UtilsFlowProperties.RefreshSwallowsMessage | src/utils/messageHandler.ts:30-39 | a refresh that goes through stores the tokens and sends nothing; the command in the message is not run |
| UtilsFlowProperties.FailedRefreshReplies | src/utils/messageHandler.ts:30-39 | a refresh that fails gets the expired-login reply |
| UtilsFlowProperties.RosterWordsMustBeWhole | src/utils/messageHandler.ts:48-49 | "get roster <team>" is not the roster command but the default reply |
| UtilsFlowProperties.DropWordGetsNoReply | src/utils/stateHandler.ts:113-150 | "drop <name>" stores a drop state that sends nothing |
| UtilsFlowProperties.InertUntilRestart | src/utils/stateHandler.ts:113-150 | after "drop <name>", every message until "restart" sends nothing and changes nothing |
| UtilsFlowProperties.StrayYesClassified | src/utils/messageHandler.ts:57-58 | a bare "yes" is told there is nothing to confirm |
| UtilsFlowProperties.HelpInsideLineupLoop | src/utils/stateHandler.ts:179-194 | inside the lineup loop "help" is a lineup command and not the help text |
| UtilsFlowProperties.RosterGateLoops | src/utils/stateHandler.ts:54-63 | without a chosen team the roster state never gets past the menu and nothing is fetched |
| UtilsFlowProperties.ChooseTeamStateStays | src/utils/stateHandler.ts:43-53 | a team-menu state survives every message but "restart" |
| UtilsFlowProperties.AddNeedsYesTwice | src/utils/stateHandler.ts:75-112 | after the name, the next message (even "yes") is not an answer; only the following "yes" adds, once, and ends the flow |
| UtilsFlowProperties.AddYesAsWritten | src/utils/stateHandler.ts:94-105 | the answering "yes" with the add command as written: the same lookup and request as the flow, a last reply that differs exactly when the add went through, and never the added reply |
| UtilsFlowProperties.DropNeedsYesTwice | src/utils/stateHandler.ts:113-150 | the same for a drop state that carries its name in `dropPlayer` |
| UtilsFlowProperties.BlankNameStalls | src/utils/stateHandler.ts:81-85 | a blank name is stored as the empty name, and the next message sends nothing and changes nothing |
| UtilsFlowProperties.NoCancelsAdd | src/utils/stateHandler.ts:106-107 | "no" at the confirmation clears the state and sends and requests nothing |
| UtilsFlowProperties.RouterKeepsInvariants | src/utils/messageHandler.ts:8-67 | every message keeps selections consistent and leaves every other sender's utils state alone |
| ServicesFlow.ServicesChain | src/services/messageHandler.ts:33-58 | "get roster" with no team asks for the menu or records no teams; with a team it stores the team as typed; "drop " stores a pending drop; "yes" a stray confirmation; else the default |
| ServicesFlow.HandleRoster | src/services/stateHandler.ts:38-70 | at the menu a non-number shows it again; a valid number clears the menu and fetches the picked key; an invalid one keeps it; a named team is fetched and cleared; at most one roster |
| ServicesFlow.HandleDropRequest | src/services/stateHandler.ts:71-86 | a pending drop ends on any message, confirmed by "yes", else cancelled; no drop is ever requested |
| ServicesFlow.ServicesHandle | src/services/stateHandler.ts:15-96 | one-reply states run and clear; unknown types get the not-understood reply and clear; the utils store and other senders are untouched |
| ServicesFlow.ServicesRouter | src/services/messageHandler.ts:8-65 | a stored state takes the message; otherwise classify, store and handle |
| ServicesFlowProperties.HelpBeforeSignIn | src/services/messageHandler.ts:17-18 | "help" gets the help text, signed in or not |
| ServicesFlowProperties.UnknownSenderSignsIn | src/services/messageHandler.ts:21-22 | an unknown sender gets the sign-in reply |
| ServicesFlowProperties.RefreshSwallowsMessage | src/services/messageHandler.ts:23-32 | a refresh that goes through stores the tokens and sends nothing |
| ServicesFlowProperties.DropCancelsItself | src/services/stateHandler.ts:71-80 | "drop <name>" is cancelled in the same turn: the reply is the cancellation and no state is left |
| ServicesFlowProperties.StrayYes | src/services/stateHandler.ts:81-84 | a bare "yes" is told there is nothing to confirm, and no state is left |
| ServicesFlowProperties.ShowTeamNotUnderstood | src/services/stateHandler.ts:91-94 | "show team" gets the not-understood reply |
| ServicesFlowProperties.MenuRoundTrip | src/services/stateHandler.ts:38-59 | "get roster" shows the menu; replying n then fetches the key stored under the n-th name and clears the menu |
| ServicesFlowProperties.NamedTeamFetched | src/services/messageHandler.ts:47-50 | "get roster <team>" fetches the team as typed and leaves no state |
| ServicesFlowProperties.EmptyTeamLosesMenu | src/services/stateHandler.ts:61-64 | a team that reads as empty asks for the menu, but the menu is cleared in the same turn |
| ServicesFlowProperties.OnlyTheMenuSurvives | src/services/stateHandler.ts:15-96 | when the sender holds the roster menu or no state, every message leaves the roster menu or no state |
| ServicesFlowProperties.RouterKeepsInvariants | src/services/messageHandler.ts:8-65 | every message keeps selections consistent and leaves the utils store and other senders alone |
| ServicesFlowProperties.WebhookTrims | src/routes/webhook.ts:6-16 | white space around the message makes no difference to what the webhook does |
| LegacyRouter.Resume | src/services/conversationRouter.ts:28-47 | only the roster menu and a pending drop are resumed; the menu needs a token; the drop is confirmed by "yes" and cancelled otherwise |
| LegacyRouter.Commands | src/services/conversationRouter.ts:85-124 | only the roster menu and "drop <name>" leave a state; "drop <name>" stores it and warns |
| LegacyRouter.Detect | src/services/conversationRouter.ts:58-124 | the opening checks, then the command words; a successful refresh goes on to the command words |
| LegacyRouter.Router | src/services/conversationRouter.ts:18-125 | a stored menu or pending drop takes the message; any other state is cleared and the message detected |
| LegacyRouterProperties.RefreshContinues | src/services/conversationRouter.ts:70-82 | after a successful refresh, the message's command still runs |
| LegacyRouterProperties.DropDialogue | src/services/conversationRouter.ts:38-47 | "drop <name>" warns and waits; the next message confirms or cancels and clears the state |
| LegacyRouterProperties.LeftOverStateGivesWay | src/services/conversationRouter.ts:50-55 | a state that is neither the menu nor a pending drop is cleared and the message read as a command |
| LegacyRouterProperties.MenuReplyNeedsToken | src/services/conversationRouter.ts:28-35 | a reply to the menu without a token gets the sign-in reply and keeps the menu |
| LegacyRouterProperties.EmptyTeamKeepsMenu | src/services/conversationRouter.ts:97-107 | a team that reads as empty shows the menu and keeps it |
| LegacyRouterProperties.MenuRoundTrip | src/services/conversationRouter.ts:97-107 | "get roster" shows the menu; replying n fetches the key stored under the n-th name |
| LegacyRouterProperties.RouterKeepsSettled | src/services/conversationRouter.ts:18-125 | starting from no state or a resumable one, only a resumable state (menu or pending drop) is ever left |

## Left out

- Access tokens are not carried in request events. Requests are named by kind and key, because the token only authorises the call.
- `async`/`await` is not modelled, and nor is concurrency between users. Each message is handled to completion as one function.
- Logging (`console.log`) is left out.
- The webhook's handling of the sender's number is left out, including the `whatsapp:` prefix. So is a missing `From` or `Body`. Both are taken as present strings.
- `getAllUsers` and `deleteUser` are left out. No command of the core uses them.
- Link-code expiry is left out, because it is a `setTimeout` that deletes the code later.
- The random link code is taken from `Env.linkCode`.
- Objects with integer-like keys are not modelled. A JavaScript object lists those keys first, in numeric order, whatever order they were inserted in. Team dictionaries are ordered as inserted.
- Message texts are abstracted as `Msg` constructors carrying their data. The exact wording is not modelled.
- Roster, standings and scoreboard formatting is left out. Only success and failure are modelled.
- The team extraction of src/commands/showTeams.ts is left out. The listing it yields is `Env.teams`.
- The XML-to-JSON parser, `fetch`, HTTP status handling and the full request URLs are left out. Responses come in as `Env` fields.
- `UtilsFlowProperties.InertUntilRestart` assumes the same `Env` for every message of the conversation. That is the case it needs.
- `yahooUserId` in the user record is not modelled, because no core command reads it.
- `getLeagueTeams` is not modelled, because no core command calls it.
- The bodies of the delete-transaction and modify-transaction requests are not built. They appear only as call events with their key and body.
- The internals of `refreshAccessToken` are left out. Its outcome is `Env.refresh`.
- The action check at src/commands/modifyLineup.ts:58-61 is not modelled. It can never fail once the pattern has matched "start" or "bench".
- `UserStorage.LeagueKeyFromTeamKey` keeps only the text before the first ".t.". Later segments are never looked at, as in the code.
- Sending a WhatsApp message is never taken to fail.
- `getScoreboardYahoo` is modelled only as the URL it builds. No core command calls it.
- UtilsFlow.HandleAdd: the "yes" step composes the corrected `RosterMoves.AddPlayer` (see Findings), so a successful add is reported as added. The code as written reports it as failed; `UtilsFlowProperties.AddYesAsWritten` states what it sends.
- UtilsFlowProperties.AddNeedsYesTwice: states the flow with the corrected add, as `UtilsFlow.HandleAdd` does. The reply the code as written sends after the second "yes" is stated by `UtilsFlowProperties.AddYesAsWritten`.
- Routing.Opening: lower-casing maps the ASCII capitals and the Kelvin sign. Other characters that `toLowerCase` changes are kept, because none of them yields a command word: U+0130 lower-cases to two code units.
- `ServicesFlow.Webhook` carries no contract of its own. `ServicesFlowProperties.WebhookTrims` states what it does.

## Findings

| source | as written | input that shows it | evidently intended | confidence | as-written member | corrected member |
|---|---|---|---|---|---|---|
| src/commands/rosterMoves.ts:24 | the success message reads `isWaiverClaim`, a name the function never declares. It throws after the add request has gone through, and the catch replies "Failed to add player" and returns false | any player name whose search finds a key, with an add request that succeeds | reply that the player was added and return true | not executed | RosterMoves.AddPlayerAsWritten (with RosterMoves.AddAsWrittenReportsFailure) | RosterMoves.AddPlayer |

## Behaviour of the code worth knowing

The model follows the code. The lemma named with each point proves it.

- Restart clears only the utils conversation state. The chosen team and the
  league stay (`UtilsFlow.UtilsRouter`).
- In the utils engine, the first message after the player's name only marks
  the confirmation prompt as sent. It is never read as an answer
  (`UtilsFlowProperties.AddNeedsYesTwice`).
- The utils classifier stores a drop request's name in `player`, while the
  drop flow reads `dropPlayer`. So "drop <name>" gets no reply, and the state
  does nothing until "restart" (`UtilsFlowProperties.DropWordGetsNoReply`,
  `UtilsFlowProperties.InertUntilRestart`).
- A blank name is accepted as the player's name, and the add flow then never
  reaches a request (`UtilsFlowProperties.BlankNameStalls`).
- In the utils engine the roster state only shows the team menu again; the
  reply is never read as a choice (`UtilsFlowProperties.RosterGateLoops`).
  The team-menu state is never cleared
  (`UtilsFlowProperties.ChooseTeamStateStays`).
- "get roster" must be the whole message for the utils engine
  (`UtilsFlowProperties.RosterWordsMustBeWhole`). "help" inside the lineup
  loop is a lineup command (`UtilsFlowProperties.HelpInsideLineupLoop`).
- In the webhook's engine, "drop <name>" is confirmed and cancelled in the
  same turn, so no drop can ever be confirmed
  (`ServicesFlowProperties.DropCancelsItself`). "show team" gets the
  not-understood reply (`ServicesFlowProperties.ShowTeamNotUnderstood`). A
  team that reads as empty loses the menu at once
  (`ServicesFlowProperties.EmptyTeamLosesMenu`), while the older router keeps
  it (`LegacyRouterProperties.EmptyTeamKeepsMenu`).
- After a successful token refresh, the utils and services engines store the
  tokens and do nothing else with the message
  (`UtilsFlowProperties.RefreshSwallowsMessage`,
  `ServicesFlowProperties.RefreshSwallowsMessage`). The older router goes on
  to the command (`LegacyRouterProperties.RefreshContinues`).
- Trades and transaction changes are single commands in the code, not
  dialogues, and are modelled that way (`SendTradeCommand`,
  `TransactionActions`). The matchup display of src/commands/getScoreboard.ts
  is reached from none of the three engines.
