/** The skill names the gateway publishes, and the catalogue of skills a plan step may use. */
module Skills {
  datatype Skill =
    | ObserveState
    | MoveTo
    | StopMove
    | Jump
    | PlayAction
    | SceneTornado
    | SignIn
    | ShootingAutoSchedule
    | DartsAutoSchedule
    | DanceAutoSchedule
    | DrawLotsAutoSchedule
    | WishBoardAutoSchedule
    | PaperPlaneAutoSchedule
    | CoffeeAutoSchedule
    | SeatSit
    | SeatGetOut
    | HotAirBalloonAutoSchedule
    | HotAirBalloonExit
    | HelicopterAutoSchedule
    | HelicopterExit
    | ElevatorAutoSchedule
    | NearbyChatSend
    | Ground
    | OtherSkill(name: string)

  /** The canonical non-chat catalogue: every named skill except direct chat and the internal `ground`. */
  predicate Canonical(s: Skill) {
    !s.NearbyChatSend? && !s.Ground? && !s.OtherSkill?
  }

  /** The wire name of a skill. */
  function Name(s: Skill): string {
    match s
    case ObserveState => "observe_state"
    case MoveTo => "move_to"
    case StopMove => "stop_move"
    case Jump => "jump"
    case PlayAction => "play_action"
    case SceneTornado => "scene_tornado"
    case SignIn => "sign_in"
    case ShootingAutoSchedule => "shooting_auto_schedule"
    case DartsAutoSchedule => "darts_auto_schedule"
    case DanceAutoSchedule => "dance_auto_schedule"
    case DrawLotsAutoSchedule => "draw_lots_auto_schedule"
    case WishBoardAutoSchedule => "wish_board_auto_schedule"
    case PaperPlaneAutoSchedule => "paper_plane_auto_schedule"
    case CoffeeAutoSchedule => "coffee_auto_schedule"
    case SeatSit => "seat_sit"
    case SeatGetOut => "seat_get_out"
    case HotAirBalloonAutoSchedule => "hot_air_balloon_auto_schedule"
    case HotAirBalloonExit => "hot_air_balloon_exit"
    case HelicopterAutoSchedule => "helicopter_auto_schedule"
    case HelicopterExit => "helicopter_exit"
    case ElevatorAutoSchedule => "elevator_auto_schedule"
    case NearbyChatSend => "nearby_chat_send"
    case Ground => "ground"
    case OtherSkill(name) => name
  }

  /** A number that tells the catalogue's names apart: length and two letters. */
  function Print(s: string): int {
    if |s| < 5 then |s| else |s| * 1000000 + s[0] as int * 1000 + s[4] as int
  }

  lemma NamesDiffer(a: Skill, b: Skill)
    requires Canonical(a) && Canonical(b) && Name(a) == Name(b)
    ensures a == b
  {
    assert Print(Name(a)) == Print(Name(b));
  }
}
