/** The conversation state object both flow engines store per phone number: a
    type tag, an optional step, and whichever optional fields a flow uses.
    Only the tags below are ever stored; the engines treat a tag they have
    no case for as unrecognised. */
module Flow {
  import opened Optional

  datatype Kind =
    | Help | Link | AuthRequired | TokenExpired | ShowTeams | ShowTeam
    | ChooseTeam | GetRoster | GetStandings
    | AddPlayer | DropPlayer | AddDropPlayer | ModifyLineup | DefaultResponse

  datatype Step =
    | Shown | NoTeams | Awaiting | AwaitingTeam | AwaitingName
    | AwaitingConfirmation | NoPending | AwaitingPlayerMove

  datatype ConvState = ConvState(
    kind: Kind,
    step: Option<Step>,
    /** The name typed after "drop " by a classifier. */
    player: Option<string>,
    /** The add and drop flows keep their player in fields of their own. */
    addPlayer: Option<string>,
    dropPlayer: Option<string>,
    /** The numbered menu a reply is read against. */
    teamNames: Option<seq<string>>,
    teamKey: Option<string>,
    body: Option<string>,
    /** Absent (falsy) until the confirmation prompt has been sent once. */
    confirmPromptSent: bool)

  /** `{ type }` */
  function Bare(k: Kind): ConvState {
    ConvState(k, None, None, None, None, None, None, None, false)
  }

  /** `{ type, step }` */
  function At(k: Kind, s: Step): ConvState {
    Bare(k).(step := Some(s))
  }

  /** `{ type, step: "awaitingTeam", teamNames }`, the numbered roster menu. */
  function AwaitingTeamMenu(names: seq<string>): ConvState {
    At(GetRoster, AwaitingTeam).(teamNames := Some(names))
  }

  /** `{ type: "chooseTeam", step: "awaiting", teamNames }` */
  function AwaitingChoice(names: seq<string>): ConvState {
    At(ChooseTeam, Awaiting).(teamNames := Some(names))
  }

  /** The states that run one command and are done. */
  predicate OneShot(k: Kind) {
    k in {Help, Link, AuthRequired, TokenExpired, ShowTeams, DefaultResponse}
  }
}
