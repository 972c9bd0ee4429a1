/** The bot's in-memory user store: one record per phone number holding the
    OAuth tokens, the user's teams, the chosen team and league, and caches;
    plus the table of one-time link codes.  Each operation is a function from
    the old table to the new one. */
module UserStorage {
  import opened Optional
  import opened Text
  import opened Dict
  import opened Yahoo

  datatype UserData = UserData(
    phoneNumber: string,
    accessToken: string,
    refreshToken: string,
    /** Milliseconds since the epoch. */
    expiresAt: int,
    /** Team name to team key, for the user's own teams. */
    userTeams: Option<Dict>,
    /** Team name to team key, for every team of the chosen league. */
    leagueDict: Option<Dict>,
    chosenTeam: Option<string>,
    chosenLeague: Option<string>,
    pendingTransactions: Option<seq<Transaction>>)

  type Users = map<string, UserData>

  /** What the OAuth token endpoint hands back; `expiresIn` is in seconds. */
  datatype TokenData = TokenData(accessToken: string, refreshToken: string, expiresIn: int)

  // ---------------------------------------------------------------------------
  // team key -> league key
  // ---------------------------------------------------------------------------

  const TeamMarker := ".t."

  /** `teamKey.split('.t.')[0]` */
  function LeagueKeyFromTeamKey(teamKey: string): (league: string)
    ensures StartsWith(teamKey, league)
    ensures FreeBefore(teamKey, TeamMarker, |league|)
    ensures league == teamKey || StartsWith(teamKey[|league|..], TeamMarker)
  {
    PrefixBeforeSpec(teamKey, TeamMarker);
    PrefixBefore(teamKey, TeamMarker)
  }

  /** A team key is its league key, the marker, and the team number; the
      league key is recovered whatever the team part holds. */
  lemma {:induction false} LeagueKeyOfTeamKey(league: string, team: string)
    requires FreeBefore(league + TeamMarker, TeamMarker, |league|)
    ensures LeagueKeyFromTeamKey(league + TeamMarker + team) == league
  {
    var s := league + TeamMarker + team;
    forall i | 0 <= i < |league|
      ensures !OccursAt(s, TeamMarker, i)
    {
      assert !OccursAt(league + TeamMarker, TeamMarker, i);
      assert s[i..i + 3] == (league + TeamMarker)[i..i + 3];
    }
    PrefixBeforeOf(league, TeamMarker, team);
  }

  /** A Yahoo team key "<game>.l.<league id>.t.<team>" belongs to the league
      "<game>.l.<league id>". */
  lemma {:induction false} LeagueOfYahooTeamKey(game: string, id: string, team: string)
    requires AllDigits(game) && AllDigits(id)
    ensures LeagueKeyFromTeamKey(game + ".l." + id + TeamMarker + team) == game + ".l." + id
  {
    var league := game + ".l." + id;
    var s := league + TeamMarker;
    forall k | 0 <= k <= |league|
      ensures s[k] != 't'
    {
      if k < |game| {
        assert s[k] == game[k];
      } else if k < |game| + 3 {
        assert s[k] == ".l."[k - |game|];
      } else if k < |league| {
        assert s[k] == id[k - |game| - 3];
      } else {
        assert s[k] == '.';
      }
    }
    forall i | 0 <= i < |league|
      ensures !OccursAt(s, TeamMarker, i)
    {
      assert s[i + 1] != 't';
      assert s[i..i + 3][1] == s[i + 1];
      assert TeamMarker[1] == 't';
    }
    LeagueKeyOfTeamKey(league, team);
  }

  /** The documented example: '423.l.12345.t.7' belongs to league '423.l.12345'. */
  lemma {:induction false} LeagueKeyExample()
    ensures LeagueKeyFromTeamKey("423.l.12345.t.7") == "423.l.12345"
  {
    assert AllDigits("423") by {
      assert "423" == ['4', '2', '3'];
    }
    assert AllDigits("12345") by {
      assert "12345" == ['1', '2', '3', '4', '5'];
    }
    LeagueOfYahooTeamKey("423", "12345", "7");
    assert "423" + ".l." + "12345" + TeamMarker + "7" == "423.l.12345.t.7";
    assert "423" + ".l." + "12345" == "423.l.12345";
  }

  // ---------------------------------------------------------------------------
  // records
  // ---------------------------------------------------------------------------

  /** The record `storeUserToken` creates: tokens and expiry only. */
  function FreshUser(phone: string, t: TokenData, now: int): UserData {
    UserData(phone, t.accessToken, t.refreshToken, now + t.expiresIn * 1000,
             None, None, None, None, None)
  }

  /** `storeUserToken`: the record is replaced as a whole, so teams, the
      selection and both caches are gone, and the token expires `expiresIn`
      seconds from now. */
  function StoreUserToken(users: Users, phone: string, t: TokenData, now: int): (r: Users)
    ensures phone in r && r.Keys == users.Keys + {phone}
    ensures r[phone].phoneNumber == phone && r[phone].accessToken == t.accessToken
    ensures r[phone].refreshToken == t.refreshToken
    ensures r[phone].expiresAt == now + t.expiresIn * 1000
    ensures r[phone].userTeams.None? && r[phone].leagueDict.None?
    ensures r[phone].chosenTeam.None? && r[phone].chosenLeague.None?
    ensures r[phone].pendingTransactions.None?
    ensures forall p :: p in users && p != phone ==> r[p] == users[p]
  {
    users[phone := FreshUser(phone, t, now)]
  }

  function GetUserToken(users: Users, phone: string): Option<UserData> {
    if phone in users then Some(users[phone]) else None
  }

  /** `isTokenExpired`: the token is expired from the instant `expiresAt` on. */
  predicate IsTokenExpired(u: UserData, now: int) {
    now >= u.expiresAt
  }

  /** A token stored with a positive lifetime is live until exactly
      `expiresIn` seconds have passed, and expired from that instant on. */
  lemma {:induction false} TokenLifetime(users: Users, phone: string, t: TokenData, now: int, later: int)
    requires t.expiresIn > 0 && now <= later
    ensures var u := StoreUserToken(users, phone, t, now)[phone];
            IsTokenExpired(u, later) <==> later >= now + t.expiresIn * 1000
    ensures !IsTokenExpired(StoreUserToken(users, phone, t, now)[phone], now)
  {
  }

  // ---------------------------------------------------------------------------
  // the chosen team and league
  // ---------------------------------------------------------------------------

  /** The league recorded with a team is always the one the team key names. */
  predicate SelectionConsistent(u: UserData) {
    match u.chosenTeam
    case None => u.chosenLeague.None?
    case Some(t) => u.chosenLeague == Some(LeagueKeyFromTeamKey(t))
  }

  predicate Consistent(users: Users) {
    forall p :: p in users ==> SelectionConsistent(users[p])
  }

  /** `setUserChosenTeam`: the team is set, the league is derived from it and
      the league cache is dropped; an unknown phone number changes nothing. */
  function SetUserChosenTeam(users: Users, phone: string, teamKey: string): (r: Users)
    ensures phone !in users ==> r == users
    ensures r.Keys == users.Keys
    ensures phone in users ==>
              r[phone] == users[phone].(chosenTeam := Some(teamKey),
                                        chosenLeague := Some(LeagueKeyFromTeamKey(teamKey)),
                                        leagueDict := None)
    ensures forall p :: p in users && p != phone ==> r[p] == users[p]
    ensures Consistent(users) ==> Consistent(r)
  {
    if phone in users then
      users[phone := users[phone].(chosenTeam := Some(teamKey),
                                   chosenLeague := Some(LeagueKeyFromTeamKey(teamKey)),
                                   leagueDict := None)]
    else users
  }

  /** `getUserChosenTeam`: "" when the user or the field is absent. */
  function GetUserChosenTeam(users: Users, phone: string): string {
    if phone in users then users[phone].chosenTeam.GetOr("") else ""
  }

  /** `getUserChosenLeague`: "" when the user or the field is absent. */
  function GetUserChosenLeague(users: Users, phone: string): string {
    if phone in users then users[phone].chosenLeague.GetOr("") else ""
  }

  /** Reading back a selection gives the team and its derived league. */
  lemma {:induction false} ChosenAfterSet(users: Users, phone: string, teamKey: string)
    requires phone in users
    ensures GetUserChosenTeam(SetUserChosenTeam(users, phone, teamKey), phone) == teamKey
    ensures GetUserChosenLeague(SetUserChosenTeam(users, phone, teamKey), phone)
            == LeagueKeyFromTeamKey(teamKey)
  {
  }

  /** Whatever the store holds, the league read back is the league of the
      team read back, the empty team included. */
  lemma {:induction false} ChosenLeagueFollowsTeam(users: Users, phone: string)
    requires Consistent(users)
    ensures GetUserChosenLeague(users, phone) == LeagueKeyFromTeamKey(GetUserChosenTeam(users, phone))
  {
    if phone in users {
      assert SelectionConsistent(users[phone]);
    }
    assert PrefixBefore("", TeamMarker) == "";
  }

  /** `clearUserChosenTeam`: the team, the league and the league cache go;
      nothing else changes. */
  function ClearUserChosenTeam(users: Users, phone: string): (r: Users)
    ensures phone !in users ==> r == users
    ensures r.Keys == users.Keys
    ensures phone in users ==>
              r[phone] == users[phone].(chosenTeam := None, chosenLeague := None, leagueDict := None)
    ensures forall p :: p in users && p != phone ==> r[p] == users[p]
    ensures Consistent(users) ==> Consistent(r)
    ensures GetUserChosenTeam(r, phone) == "" && GetUserChosenLeague(r, phone) == ""
  {
    if phone in users then
      users[phone := users[phone].(chosenTeam := None, chosenLeague := None, leagueDict := None)]
    else users
  }

  // ---------------------------------------------------------------------------
  // dictionaries and the pending-transaction cache
  // ---------------------------------------------------------------------------

  /** `setUserTeams`: only the teams field of a known user changes. */
  function SetUserTeams(users: Users, phone: string, teams: Dict): (r: Users)
    ensures phone !in users ==> r == users
    ensures r.Keys == users.Keys
    ensures phone in users ==> r[phone] == users[phone].(userTeams := Some(teams))
    ensures forall p :: p in users && p != phone ==> r[p] == users[p]
    ensures Consistent(users) ==> Consistent(r)
  {
    if phone in users then users[phone := users[phone].(userTeams := Some(teams))] else users
  }

  function GetUserTeamsDict(users: Users, phone: string): Option<Dict> {
    if phone in users then users[phone].userTeams else None
  }

  /** `setLeagueDict`: only the league cache of a known user changes. */
  function SetLeagueDict(users: Users, phone: string, d: Dict): (r: Users)
    ensures phone !in users ==> r == users
    ensures r.Keys == users.Keys
    ensures phone in users ==> r[phone] == users[phone].(leagueDict := Some(d))
    ensures forall p :: p in users && p != phone ==> r[p] == users[p]
    ensures Consistent(users) ==> Consistent(r)
  {
    if phone in users then users[phone := users[phone].(leagueDict := Some(d))] else users
  }

  function GetLeagueDict(users: Users, phone: string): Option<Dict> {
    if phone in users then users[phone].leagueDict else None
  }

  /** `setPendingTransactions`: only the cache of a known user changes. */
  function SetPendingTransactions(users: Users, phone: string, txs: seq<Transaction>): (r: Users)
    ensures phone !in users ==> r == users
    ensures r.Keys == users.Keys
    ensures phone in users ==> r[phone] == users[phone].(pendingTransactions := Some(txs))
    ensures forall p :: p in users && p != phone ==> r[p] == users[p]
    ensures Consistent(users) ==> Consistent(r)
  {
    if phone in users then users[phone := users[phone].(pendingTransactions := Some(txs))] else users
  }

  /** `getPendingTransactions`: the cached list, or none at all. */
  function GetPendingTransactions(users: Users, phone: string): (txs: seq<Transaction>)
    ensures phone !in users ==> txs == []
    ensures phone in users && users[phone].pendingTransactions.None? ==> txs == []
  {
    if phone in users then users[phone].pendingTransactions.GetOr([]) else []
  }

  /** The getters read back what the setters wrote, for known users; for an
      unknown user the getters give the absent value. */
  lemma {:induction false} GettersAfterSetters(users: Users, phone: string, d: Dict, txs: seq<Transaction>)
    ensures phone in users ==> GetUserTeamsDict(SetUserTeams(users, phone, d), phone) == Some(d)
    ensures phone in users ==> GetLeagueDict(SetLeagueDict(users, phone, d), phone) == Some(d)
    ensures phone in users ==> GetPendingTransactions(SetPendingTransactions(users, phone, txs), phone) == txs
    ensures phone !in users ==> GetUserTeamsDict(SetUserTeams(users, phone, d), phone).None?
    ensures phone !in users ==> GetPendingTransactions(SetPendingTransactions(users, phone, txs), phone) == []
  {
  }

  // ---------------------------------------------------------------------------
  // one-time link codes
  // ---------------------------------------------------------------------------

  type LinkCodes = map<string, string>

  /** `generateLinkCode`, with the random code supplied: the code now names
      the phone number, and every other code is untouched. */
  function GenerateLinkCode(codes: LinkCodes, phone: string, code: string): (r: LinkCodes)
    ensures code in r && r[code] == phone
    ensures r.Keys == codes.Keys + {code}
    ensures forall c :: c in codes && c != code ==> r[c] == codes[c]
  {
    codes[code := phone]
  }

  /** `getPhoneNumberFromLinkCode`: the phone number the code names; a
      non-empty answer removes the code. */
  function PhoneFromLinkCode(codes: LinkCodes, code: string): (r: (Option<string>, LinkCodes))
    ensures code in codes <==> r.0.Some?
    ensures r.0.Some? ==> r.0.value == codes[code]
    ensures Truthy(r.0) ==> r.1 == codes - {code}
    ensures !Truthy(r.0) ==> r.1 == codes
  {
    if code in codes then
      var phone := codes[code];
      if phone != "" then (Some(phone), codes - {code}) else (Some(phone), codes)
    else (None, codes)
  }

  /** A code resolves to a phone number at most once: the second lookup of a
      code that resolved comes back absent. */
  lemma {:induction false} LinkCodeResolvesOnce(codes: LinkCodes, code: string)
    requires Truthy(PhoneFromLinkCode(codes, code).0)
    ensures PhoneFromLinkCode(PhoneFromLinkCode(codes, code).1, code).0.None?
  {
  }

  /** A freshly generated code resolves to the phone number it was made for. */
  lemma {:induction false} LinkCodeRoundTrip(codes: LinkCodes, phone: string, code: string)
    ensures PhoneFromLinkCode(GenerateLinkCode(codes, phone, code), code).0 == Some(phone)
  {
  }
}
