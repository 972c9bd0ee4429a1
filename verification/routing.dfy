/** What the three routers share: the opening checks a message goes through
    before any command word is looked at ("help" and "link" first, then the
    sign-in check, then the token expiry check with its refresh), the parsing
    of "drop <name>" and "get roster <team>", and the commands that reply once
    and are done. */
module Routing {
  import opened Optional
  import opened Text
  import opened Dict
  import opened UserStorage
  import opened Flow
  import opened Bot
  import SimpleCommands

  /** What classifying a message decided: the user table afterwards (a
      refresh writes new tokens into it) and the state stored, none when a
      refresh went through. */
  datatype Classified = Classified(users: Users, state: Option<ConvState>)

  /** The sender has a record whose token has expired at `now`. */
  predicate Expired(w: World, from: string, now: int) {
    from in w.users && IsTokenExpired(w.users[from], now)
  }

  /** A sender who is signed in with a live token: the opening checks let
      the message through to the command words. */
  predicate SignedIn(w: World, env: Env, from: string) {
    from in w.users && !Expired(w, from, env.now)
  }

  /** The opening both classifiers share.  `Some` when it decided: "help"
      and "link" (compared lower-cased) are classified before anything is
      known about the sender, an unknown sender is told to sign in, and an
      expired token is refreshed, which stores the new tokens and no state,
      or, when the refresh throws, leads to the expired-login reply.  `None`
      sends the message on to the classifier's own command words, which
      happens exactly for a signed-in sender with a live token. */
  function Opening(w: World, env: Env, from: string, body: string): (r: Option<Classified>)
    ensures LowerIs(body, "help") ==> r == Some(Classified(w.users, Some(At(Help, Shown))))
    ensures !LowerIs(body, "help") && LowerIs(body, "link") ==>
              r == Some(Classified(w.users, Some(At(Link, Shown))))
    ensures !LowerIs(body, "help") && !LowerIs(body, "link") && from !in w.users ==>
              r == Some(Classified(w.users, Some(At(AuthRequired, Shown))))
    ensures !LowerIs(body, "help") && !LowerIs(body, "link") && Expired(w, from, env.now) ==>
              r.Some? && (r.value.state.None? <==> env.refresh.Some?)
              && (env.refresh.Some? ==> r.value.users == ApplyRefresh(w.users, from, env.refresh.value, env.now))
              && (env.refresh.None? ==> r.value == Classified(w.users, Some(At(TokenExpired, Shown))))
    ensures r.None? <==> !LowerIs(body, "help") && !LowerIs(body, "link")
                         && from in w.users && !Expired(w, from, env.now)
    ensures r.Some? ==> Consistent(w.users) ==> Consistent(r.value.users)
  {
    if LowerIs(body, "help") then Some(Classified(w.users, Some(At(Help, Shown))))
    else if LowerIs(body, "link") then Some(Classified(w.users, Some(At(Link, Shown))))
    else if from !in w.users then Some(Classified(w.users, Some(At(AuthRequired, Shown))))
    else if IsTokenExpired(w.users[from], env.now) then
      match env.refresh
      case Some(t) => Some(Classified(ApplyRefresh(w.users, from, t, env.now), None))
      case None => Some(Classified(w.users, Some(At(TokenExpired, Shown))))
    else None
  }

  /** The sender has no teams to choose from. */
  predicate NoTeamsStored(w: World, from: string) {
    GetUserTeamsDict(w.users, from).None? || |GetUserTeamsDict(w.users, from).value| == 0
  }

  /** The name in "drop <name>": the original text after its first five
      characters, trimmed. */
  function DropName(originalBody: string): (name: string)
    ensures |name| == 0 || (!IsSpace(name[0]) && !IsSpace(name[|name| - 1]))
    ensures |originalBody| <= 5 ==> name == ""
  {
    TrimShape(Slice(originalBody, 5));
    Trim(Slice(originalBody, 5))
  }

  /** `{ type: "dropPlayer", step: "awaitingConfirmation", player }` */
  function DropRequest(originalBody: string): ConvState {
    At(DropPlayer, AwaitingConfirmation).(player := Some(DropName(originalBody)))
  }

  /** The team in "get roster <team>": the words from the third on, joined
      by single spaces, with one surrounding double quote removed at each
      end and the white space around it trimmed. */
  function TeamInput(body: string): (team: string)
    ensures |team| == 0 || (!IsSpace(team[0]) && !IsSpace(team[|team| - 1]))
  {
    var parts := SplitWs(body);
    var joined := if |parts| >= 2 then Join(parts[2..], " ") else "";
    TrimShape(StripQuotes(Trim(joined)));
    Trim(StripQuotes(Trim(joined)))
  }

  /** `body.split(/\s+/).length < 3`: the message names no team. */
  predicate NamesNoTeam(body: string) {
    |SplitWs(body)| < 3
  }

  /** The commands that reply once and are done, as either engine runs them
      before clearing its state: only the link command touches the link
      codes, only the team listing touches the user table (and keeps every
      selection consistent), and neither conversation store changes. */
  function RunOneShot(w: World, env: Env, from: string, body: string, k: Kind): (r: Out)
    requires OneShot(k)
    ensures r.w.utils == w.utils && r.w.services == w.services
    ensures k != Link ==> r.w.codes == w.codes
    ensures k != ShowTeams ==> r.w.users == w.users && |r.events| == 1
    ensures Consistent(w.users) ==> Consistent(r.w.users)
    ensures k == Help ==> r.events == [Send(HelpText)]
    ensures k == Link ==> r.events == [Send(LinkPrompt(env.linkCode))]
                          && PhoneFromLinkCode(r.w.codes, env.linkCode).0 == Some(from)
    ensures k == AuthRequired ==> r.events == [Send(AuthRequiredText)]
    ensures k == TokenExpired ==> r.events == [Send(TokenExpiredText)]
    ensures k == ShowTeams ==> |r.events| == 2 && r.events[0] == Invoke(FetchTeams)
    ensures k == DefaultResponse ==> r.events == [Send(DefaultText(body))]
  {
    match k
    case Help => Out(w, [Send(HelpText)])
    case Link => SimpleCommands.LinkCommand(w, env, from)
    case AuthRequired => Out(w, [Send(AuthRequiredText)])
    case TokenExpired => Out(w, [Send(TokenExpiredText)])
    case ShowTeams => SimpleCommands.ShowTeamsCommand(w, env, from)
    case DefaultResponse => Out(w, [Send(DefaultText(body))])
  }

  // ---------------------------------------------------------------------------
  // properties
  // ---------------------------------------------------------------------------

  /** "drop " followed by a name the user typed gives back that name,
      whatever case the word "drop" was typed in. */
  lemma {:induction false} DropNameOf(word: string, name: string)
    requires |word| == 5
    requires |name| == 0 || (!IsSpace(name[0]) && !IsSpace(name[|name| - 1]))
    ensures DropName(word + name) == name
  {
    assert (word + name)[5..] == name;
    TrimStartNoop(name);
    TrimEndNoop(name);
  }

  /** The team typed after the two command words is read back as typed:
      the words after them, joined by single spaces, as long as the team
      neither starts nor ends with a double quote.  The message names a
      team, since it has at least three words. */
  lemma {:induction false} TeamInputOf(a: string, b: string, words: seq<string>)
    requires |a| > 0 && NoSpace(a) && |b| > 0 && NoSpace(b) && |words| >= 1
    requires forall v :: v in words ==> |v| > 0 && NoSpace(v)
    requires words[0][0] != '"' && words[|words| - 1][|words[|words| - 1]| - 1] != '"'
    ensures var body := a + " " + b + " " + Join(words, " ");
            TeamInput(body) == Join(words, " ") && !NamesNoTeam(body)
  {
    WordsAfterTwo(a, b, words);
    JoinUntouched(words);
  }

  /** `toLowerCase` turns the Kelvin sign into the letter k, so "LIN" followed
      by a Kelvin sign is the link command, signed in or not. */
  lemma {:induction false} KelvinSignLinks(w: World, env: Env, from: string)
    ensures Opening(w, env, from, "LIN" + [KelvinSign]) == Some(Classified(w.users, Some(At(Link, Shown))))
  {
    var body := "LIN" + [KelvinSign];
    assert body[0] == 'L' && body[1] == 'I' && body[2] == 'N' && body[3] == KelvinSign;
    assert LowerChar(body[0]) != "help"[0];
    assert LowerIs(body, "link");
  }
}
