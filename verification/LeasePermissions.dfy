/** What a decision lease permits: the permission check on skill calls, normalisation of generated arguments,
    selection among candidates, and the frozen decision. */
module LeasePermissions {
  import opened Wrappers
  import opened Skills
  import opened ArgumentPaths

  datatype Kind = CallSkillKind | WaitKind | NoOpKind | StopHostingKind

  datatype LeaseKind =
    | Observation
    | MovementControl
    | VehicleCancelWindow
    | VehicleRecovery
    | Conversation
    | OtherLease(name: string)

  /** Goal metadata, present only when all of its fields were supplied. */
  datatype Tracking = Tracking(userId: string, actionType: string)

  /** Why an action was taken: a text from the model or the plan, or one of the service's own fixed texts. */
  datatype Reason =
    | Told(text: string)
    | NoAuthorizedCandidate
    | IncompleteConstraints
    | InitialRoom
    | PlanOpportunity
    | PlanUnresolvable
    | PlanMismatch
    | ForcedSkillTest
    | ForcedSkillsUnauthorized
    | ForcedWaitTest
    | DeadlinePassed
    | LocalAfterDelay
    | LocalWhileSaturated
    | AgentUnavailable
    | CapacityReached(skill: Skill)

  datatype Action =
    | CallSkill(skill: Skill, schema: string, arguments: Json, reason: Reason, tracking: Option<Tracking>)
    | Wait(reason: Reason, waitMs: int)
    | NoOp(reason: Reason)
    | StopHosting(reason: Reason)

  datatype Hint = Hint(skill: Skill, schema: string, suggested: Json, allowed: set<string>, missing: set<string>)

  /** The lease context. `generated` is the deterministic argument object of the four skills whose arguments the
      service builds itself. */
  datatype Context = Context(
    leaseKind: LeaseKind,
    allowed: set<Kind>,
    parent: Option<Skill>,
    allowedSkill: Option<Skill>,
    allowedSkills: set<Skill>,
    available: seq<(Skill, string)>,
    hints: seq<Hint>,
    accountId: Option<string>,
    generated: Skill -> Json)

  function KindOf(a: Action): Kind {
    match a
    case CallSkill(_, _, _, _, _) => CallSkillKind
    case Wait(_, _) => WaitKind
    case NoOp(_) => NoOpKind
    case StopHosting(_) => StopHostingKind
  }

  predicate Specialized(s: Skill) {
    s == PaperPlaneAutoSchedule || s == DartsAutoSchedule || s == ShootingAutoSchedule || s == DanceAutoSchedule
  }

  /** Generated arguments exist for the specialised skills under schema v1 only. */
  function SpecializedArguments(c: Context, s: Skill, schema: string): Option<Json> {
    if schema == "v1" && Specialized(s) then Some(c.generated(s)) else None
  }

  // ---- Argument shapes ----

  predicate Space(c: char) {
    var n := c as int;
    || 0x09 <= n <= 0x0d || 0x1c <= n <= 0x20 || n == 0x85 || n == 0xa0 || n == 0x1680
    || 0x2000 <= n <= 0x200a || n == 0x2028 || n == 0x2029 || n == 0x202f || n == 0x205f || n == 0x3000
  }

  predicate Blank(s: string) {
    forall i :: 0 <= i < |s| ==> Space(s[i])
  }

  function Get(v: Json, key: string): Option<Json> {
    if v.Object? && FieldAt(v.fields, key).Some? then Some(v.fields[FieldAt(v.fields, key).value].value) else None
  }

  predicate TextArgument(v: Option<Json>) {
    v.Some? && v.value.Text? && !Blank(v.value.s)
  }

  predicate PositiveInt(v: Option<Json>) {
    v.Some? && v.value.Int? && v.value.i > 0
  }

  predicate Numeric(v: Option<Json>) {
    v.Some? && (v.value.Int? || v.value.Number?)
  }

  /** What constructing a skill call demands of its arguments. */
  predicate ValidCall(s: Skill, arguments: Json) {
    && arguments.Object? && Mapping(arguments)
    && (s == PlayAction ==> TextArgument(Get(arguments, "actionId")) && Get(arguments, "action").None?)
    && (s == MoveTo ==>
          && Get(arguments, "target").Some? && Get(arguments, "target").value.Object?
          && Numeric(Get(Get(arguments, "target").value, "x"))
          && Numeric(Get(Get(arguments, "target").value, "y"))
          && Numeric(Get(Get(arguments, "target").value, "z")))
  }

  /** A call can be made with a mapping of arguments; playing an action needs a spoken-for `actionId` and no `action`,
      moving a target with numeric coordinates. */
  lemma ValidCallIff(s: Skill, arguments: Json)
    ensures ValidCall(s, arguments)
       <==> && arguments.Object? && Mapping(arguments)
            && (s == PlayAction ==>
                  var id := Get(arguments, "actionId");
                  && id.Some? && id.value.Text? && (exists i :: 0 <= i < |id.value.s| && !Space(id.value.s[i]))
                  && Get(arguments, "action").None?)
            && (s == MoveTo ==>
                  var target := Get(arguments, "target");
                  && target.Some? && target.value.Object?
                  && forall key :: key in {"x", "y", "z"} ==>
                       var at := Get(target.value, key); at.Some? && (at.value.Int? || at.value.Number?))
  {
  }

  predicate RequiresArguments(s: Skill) {
    s == WishBoardAutoSchedule || s == CoffeeAutoSchedule || s == SeatSit || s == SeatGetOut
  }

  predicate RequiredArgumentsValid(s: Skill, arguments: Json) {
    match s
    case WishBoardAutoSchedule => TextArgument(Get(arguments, "boardName")) && TextArgument(Get(arguments, "wish"))
    case CoffeeAutoSchedule => TextArgument(Get(arguments, "coffeeName"))
    case SeatSit => PositiveInt(Get(arguments, "sceneId")) && PositiveInt(Get(arguments, "chairId"))
    case SeatGetOut => PositiveInt(Get(arguments, "sceneId")) && PositiveInt(Get(arguments, "chairId"))
    case _ => true
  }

  // ---- Permission ----

  function PairedExit(parent: Option<Skill>): Option<Skill> {
    if parent == Some(HotAirBalloonAutoSchedule) then Some(HotAirBalloonExit)
    else if parent == Some(HelicopterAutoSchedule) then Some(HelicopterExit)
    else None
  }

  predicate PairingPermitted(c: Context, s: Skill) {
    match c.leaseKind
    case Observation => s != HotAirBalloonExit && s != HelicopterExit
    case MovementControl => s == Jump || (s == StopMove && c.parent == Some(MoveTo))
    case VehicleCancelWindow => PairedExit(c.parent) == Some(s)
    case VehicleRecovery => s == ObserveState || PairedExit(c.parent) == Some(s)
    case Conversation => s == NearbyChatSend
    case OtherLease(_) => false
  }

  predicate NameAllowed(c: Context, s: Skill) {
    if c.leaseKind == Observation then exists p :: p in c.available && p.0 == s
    else s in c.allowedSkills || c.allowedSkill == Some(s)
  }

  /** The hint the permission check uses: of several for one skill and schema, the last. */
  function LastHint(hints: seq<Hint>, s: Skill, schema: string): (r: Option<Hint>)
    ensures r.Some? ==> r.value in hints && r.value.skill == s && r.value.schema == schema
  {
    if hints == [] then None
    else if hints[|hints| - 1].skill == s && hints[|hints| - 1].schema == schema then Some(hints[|hints| - 1])
    else LastHint(hints[..|hints| - 1], s, schema)
  }

  predicate TrackingMatches(c: Context, a: Action)
    requires a.CallSkill?
  {
    a.tracking.Some? ==> Some(a.tracking.value.userId) == c.accountId && a.tracking.value.actionType == Name(a.skill)
  }

  predicate ArgumentsPermitted(c: Context, a: Action)
    requires a.CallSkill? && a.arguments.Object?
  {
    && GoodKeys(a.arguments)
    && RequiredArgumentsValid(a.skill, a.arguments)
    && var hint := LastHint(c.hints, a.skill, a.schema);
       if hint.None? then DottedLeaves(a.arguments) == {}
       else ArgumentsFit(DottedLeaves(a.arguments), hint.value.allowed, hint.value.missing)
  }

  predicate SkillIsPermitted(c: Context, a: Action)
    requires a.CallSkill? && ValidCall(a.skill, a.arguments)
  {
    && CallSkillKind in c.allowed
    && a.skill != Ground
    && NameAllowed(c, a.skill)
    && PairingPermitted(c, a.skill)
    && TrackingMatches(c, a)
    && (a.skill, a.schema) in c.available
    && (Specialized(a.skill) ==> Some(a.arguments) == SpecializedArguments(c, a.skill, a.schema))
    && ArgumentsPermitted(c, a)
  }

  /** Which skills each kind of lease lets the role call. */
  ghost predicate LeaseLets(c: Context, s: Skill) {
    var named := s in c.allowedSkills || c.allowedSkill == Some(s);
    var exits := || (c.parent == Some(HotAirBalloonAutoSchedule) && s == HotAirBalloonExit)
                 || (c.parent == Some(HelicopterAutoSchedule) && s == HelicopterExit);
    match c.leaseKind
    case Observation =>
      s != HotAirBalloonExit && s != HelicopterExit && exists schema :: (s, schema) in c.available
    case MovementControl => named && (s == Jump || (s == StopMove && c.parent == Some(MoveTo)))
    case VehicleCancelWindow => named && exits
    case VehicleRecovery => named && (s == ObserveState || exits)
    case Conversation => named && s == NearbyChatSend
    case OtherLease(_) => false
  }

  lemma LeaseLetsIff(c: Context, s: Skill)
    ensures LeaseLets(c, s) <==> NameAllowed(c, s) && PairingPermitted(c, s)
  {
    if c.leaseKind == Observation && NameAllowed(c, s) {
      var p :| p in c.available && p.0 == s;
      assert (s, p.1) in c.available;
    }
    if c.leaseKind == Observation && LeaseLets(c, s) {
      var schema :| (s, schema) in c.available;
      assert (s, schema).0 == s;
    }
  }

  /** A well-formed call is permitted exactly when calls are allowed, the lease lets the role call the skill, which is
      not the internal `ground`, its goal metadata names the account and the skill, its schema is published, generated
      arguments are the service's own, and its arguments are permitted. */
  lemma PermittedIff(c: Context, a: Action)
    requires a.CallSkill? && ValidCall(a.skill, a.arguments)
    ensures SkillIsPermitted(c, a)
       <==> && CallSkillKind in c.allowed && LeaseLets(c, a.skill) && a.skill != Ground
            && (a.tracking.Some? ==>
                  c.accountId == Some(a.tracking.value.userId) && Name(a.skill) == a.tracking.value.actionType)
            && (a.skill, a.schema) in c.available
            && (a.skill in {PaperPlaneAutoSchedule, DartsAutoSchedule, ShootingAutoSchedule, DanceAutoSchedule} ==>
                  a.schema == "v1" && a.arguments == c.generated(a.skill))
            && ArgumentsPermitted(c, a)
  {
    LeaseLetsIff(c, a.skill);
  }

  /** The argument part of the check, read off the object tree: without a hint the object is empty; with one,
      every leaf is at an allowed path and every missing argument is reached. */
  lemma ArgumentsPermittedTree(c: Context, a: Action)
    requires a.CallSkill? && ValidCall(a.skill, a.arguments) && GoodKeys(a.arguments)
    ensures var hint := LastHint(c.hints, a.skill, a.schema);
            ArgumentsPermitted(c, a) <==>
              && RequiredArgumentsValid(a.skill, a.arguments)
              && (if hint.None? then a.arguments == Object([])
                  else (forall p :: LeafAt(a.arguments, p) ==> Join(p) in hint.value.allowed)
                       && (forall path :: path in hint.value.missing ==> Walk(a.arguments, Split(path)).Some?))
  {
    var hint := LastHint(c.hints, a.skill, a.schema);
    var fields := a.arguments.fields;
    if hint.Some? {
      ArgumentsFitTree(a.arguments, hint.value.allowed, hint.value.missing);
    } else if fields != [] {
      LeavesExist(a.arguments);
      var p :| p in LeavesUpTo(a.arguments, |fields|);
      assert Under("", p) in DottedLeaves(a.arguments);
    }
  }

  predicate LastHintAt(hints: seq<Hint>, s: Skill, schema: string, i: nat) {
    && i < |hints| && hints[i].skill == s && hints[i].schema == schema
    && forall j :: i < j < |hints| ==> !(hints[j].skill == s && hints[j].schema == schema)
  }

  lemma {:induction false} LastHintIs(hints: seq<Hint>, s: Skill, schema: string, i: nat)
    requires LastHintAt(hints, s, schema, i)
    ensures LastHint(hints, s, schema) == Some(hints[i])
    decreases |hints|
  {
    if i < |hints| - 1 {
      var init := hints[..|hints| - 1];
      assert forall j :: i <= j < |init| ==> init[j] == hints[j];
      LastHintIs(init, s, schema, i);
    }
  }

  lemma {:induction false} NoLastHint(hints: seq<Hint>, s: Skill, schema: string)
    requires forall j :: 0 <= j < |hints| ==> !(hints[j].skill == s && hints[j].schema == schema)
    ensures LastHint(hints, s, schema).None?
    decreases |hints|
  {
    if hints != [] {
      NoLastHint(hints[..|hints| - 1], s, schema);
    }
  }

  predicate SaysSomething(a: Action, key: string)
    requires a.CallSkill?
  {
    var v := Get(a.arguments, key);
    v.Some? && v.value.Text? && exists i :: 0 <= i < |v.value.s| && !Space(v.value.s[i])
  }

  ghost predicate NamesNumber(a: Action, key: string)
    requires a.CallSkill?
  {
    exists n :: n > 0 && Get(a.arguments, key) == Some(Int(n))
  }

  /** An authorised call carries what its skill insists on, and when a hint is given for it, the last one decides which
      arguments it may and must have. */
  lemma AuthorisedArguments(c: Context, a: Action, i: nat)
    requires a.CallSkill? && Authorised(c, a)
    ensures a.skill == WishBoardAutoSchedule ==> SaysSomething(a, "boardName") && SaysSomething(a, "wish")
    ensures a.skill == CoffeeAutoSchedule ==> SaysSomething(a, "coffeeName")
    ensures a.skill == SeatSit || a.skill == SeatGetOut ==> NamesNumber(a, "sceneId") && NamesNumber(a, "chairId")
    ensures (forall j :: 0 <= j < |c.hints| ==> !(c.hints[j].skill == a.skill && c.hints[j].schema == a.schema)) ==>
              a.arguments == Object([])
    ensures LastHintAt(c.hints, a.skill, a.schema, i) ==>
              && (forall p :: LeafAt(a.arguments, p) ==> Join(p) in c.hints[i].allowed)
              && (forall path :: path in c.hints[i].missing ==> Walk(a.arguments, Split(path)).Some?)
  {
    if forall j :: 0 <= j < |c.hints| ==> !(c.hints[j].skill == a.skill && c.hints[j].schema == a.schema) {
      NoLastHint(c.hints, a.skill, a.schema);
    }
    if LastHintAt(c.hints, a.skill, a.schema, i) {
      LastHintIs(c.hints, a.skill, a.schema, i);
    }
    ArgumentsPermittedTree(c, a);
  }

  predicate ValidAction(a: Action) {
    a.CallSkill? ==> ValidCall(a.skill, a.arguments)
  }

  /** Generated arguments construct a call. */
  predicate ValidContext(c: Context) {
    && ValidCall(PaperPlaneAutoSchedule, c.generated(PaperPlaneAutoSchedule))
    && ValidCall(DartsAutoSchedule, c.generated(DartsAutoSchedule))
    && ValidCall(ShootingAutoSchedule, c.generated(ShootingAutoSchedule))
    && ValidCall(DanceAutoSchedule, c.generated(DanceAutoSchedule))
  }

  /** The lease allows this action: its kind, and for a skill call the whole permission check. */
  predicate Authorised(c: Context, a: Action) {
    ValidAction(a) && if a.CallSkill? then SkillIsPermitted(c, a) else KindOf(a) in c.allowed
  }

  lemma AuthorisedKindAllowed(c: Context, a: Action)
    requires Authorised(c, a)
    ensures KindOf(a) in c.allowed
  {
  }

  // ---- Normalisation ----

  function Normalize(c: Context, a: Action): Action {
    if !a.CallSkill? || SpecializedArguments(c, a.skill, a.schema).None? then a
    else a.(arguments := SpecializedArguments(c, a.skill, a.schema).value)
  }

  /** Normalising twice is normalising once, and an authorised action is already normal. */
  lemma NormalizeIdempotent(c: Context, a: Action)
    ensures Normalize(c, Normalize(c, a)) == Normalize(c, a)
    ensures Authorised(c, a) ==> Normalize(c, a) == a
    ensures KindOf(Normalize(c, a)) == KindOf(a)
    ensures a.CallSkill? ==> Normalize(c, a).CallSkill? && Normalize(c, a).skill == a.skill
  {
  }

  /** A call of a skill whose arguments the service builds, under schema v1, gets those arguments and keeps everything
      else; any other action stays as it is. */
  lemma NormalizeIs(c: Context, a: Action)
    ensures Normalize(c, a)
         == if a.CallSkill? && a.schema == "v1"
               && a.skill in {PaperPlaneAutoSchedule, DartsAutoSchedule, ShootingAutoSchedule, DanceAutoSchedule}
            then CallSkill(a.skill, a.schema, c.generated(a.skill), a.reason, a.tracking)
            else a
  {
  }

  // ---- Waiting instead ----

  function SafeUnavailable(c: Context, reason: Reason): Option<Action> {
    if WaitKind in c.allowed then Some(Wait(reason, 1000))
    else if NoOpKind in c.allowed then Some(NoOp(reason))
    else if StopHostingKind in c.allowed then Some(StopHosting(reason))
    else None
  }

  // ---- Selection ----

  /** The candidate at `i` is the first that is authorised once normalised. */
  predicate FirstAuthorised(c: Context, candidates: seq<Action>, i: int) {
    && 0 <= i < |candidates|
    && Authorised(c, Normalize(c, candidates[i]))
    && forall j :: 0 <= j < i ==> !Authorised(c, Normalize(c, candidates[j]))
  }

  predicate NoneAuthorised(c: Context, candidates: seq<Action>, n: nat)
    requires n <= |candidates|
  {
    forall j :: 0 <= j < n ==> !Authorised(c, Normalize(c, candidates[j]))
  }

  /** The check of the selection loop. */
  method Judge(c: Context, candidate: Action) returns (ok: bool)
    requires ValidAction(candidate)
    ensures ok <==> Authorised(c, candidate)
  {
    if candidate.CallSkill? {
      ok := SkillIsPermitted(c, candidate);
    } else {
      ok := KindOf(candidate) in c.allowed;
    }
  }

  /** Normalising keeps an action constructible. */
  lemma NormalizeValid(c: Context, a: Action)
    requires ValidContext(c) && ValidAction(a)
    ensures ValidAction(Normalize(c, a))
  {
  }

  /** What selection returns, candidate by candidate. */
  function Selection(c: Context, candidates: seq<Action>): (r: Option<Action>)
    ensures r.Some? ==> Authorised(c, r.value) && Normalize(c, r.value) == r.value
  {
    if candidates == [] then SafeUnavailable(c, NoAuthorizedCandidate)
    else
      var candidate := Normalize(c, candidates[0]);
      NormalizeIdempotent(c, candidates[0]);
      if Authorised(c, candidate) then Some(candidate) else Selection(c, candidates[1..])
  }

  /** Selection returns the first candidate that is authorised once normalised; with none, the first of waiting,
      doing nothing and stopping that the lease allows; and it raises exactly when there is neither. */
  method SelectAction(c: Context, candidates: seq<Action>) returns (r: Option<Action>)
    requires ValidContext(c) && forall i :: 0 <= i < |candidates| ==> ValidAction(candidates[i])
    ensures r == Selection(c, candidates)
    ensures r.Some? ==> Authorised(c, r.value) && Normalize(c, r.value) == r.value
    ensures forall i :: FirstAuthorised(c, candidates, i) ==> r == Some(Normalize(c, candidates[i]))
    ensures NoneAuthorised(c, candidates, |candidates|) ==> r == SafeUnavailable(c, NoAuthorizedCandidate)
    ensures NoneAuthorised(c, candidates, |candidates|) ==>
              && (WaitKind in c.allowed ==> r == Some(Wait(NoAuthorizedCandidate, 1000)))
              && (WaitKind !in c.allowed && NoOpKind in c.allowed ==> r == Some(NoOp(NoAuthorizedCandidate)))
              && (WaitKind !in c.allowed && NoOpKind !in c.allowed && StopHostingKind in c.allowed ==>
                    r == Some(StopHosting(NoAuthorizedCandidate)))
    ensures r.None? <==> NoneAuthorised(c, candidates, |candidates|)
                         && WaitKind !in c.allowed && NoOpKind !in c.allowed && StopHostingKind !in c.allowed
  {
    for i := 0 to |candidates|
      invariant NoneAuthorised(c, candidates, i)
      invariant Selection(c, candidates) == Selection(c, candidates[i..])
    {
      assert candidates[i..][1..] == candidates[i + 1..];
      var candidate := Normalize(c, candidates[i]);
      NormalizeValid(c, candidates[i]);
      var ok := Judge(c, candidate);
      if ok {
        NormalizeIdempotent(c, candidates[i]);
        return Some(candidate);
      }
    }
    assert candidates[|candidates|..] == [];
    r := SafeUnavailable(c, NoAuthorizedCandidate);
  }

  // ---- Freezing ----

  /** The action that is frozen, or nothing when an unpermitted guarded call has no safe replacement. */
  function FreezeAction(c: Context, a: Action): Option<Action>
    requires ValidAction(a) && ValidContext(c)
  {
    var n := Normalize(c, a);
    if n.CallSkill? && (Specialized(n.skill) || RequiresArguments(n.skill)) && !SkillIsPermitted(c, n)
    then SafeUnavailable(c, IncompleteConstraints)
    else Some(n)
  }

  /** Freezing sends an authorised action unchanged; whatever it is given, it never sends an unpermitted call of
      a skill whose arguments the service generates or insists on. */
  lemma FreezePreserves(c: Context, a: Action)
    requires ValidAction(a) && ValidContext(c)
    ensures Authorised(c, a) ==> FreezeAction(c, a) == Some(a)
    ensures FreezeAction(c, a).Some? ==>
              var sent := FreezeAction(c, a).value;
              sent.CallSkill? && (Specialized(sent.skill) || RequiresArguments(sent.skill)) ==> Authorised(c, sent)
    ensures FreezeAction(c, a).Some? && FreezeAction(c, a).value != Normalize(c, a) ==>
              Authorised(c, FreezeAction(c, a).value)
  {
    NormalizeIdempotent(c, a);
  }

  // ---- An exit ----

  /** A balloon rider's lease to get out, while nothing else is asked for. */
  const RIDING := Context(VehicleCancelWindow, {CallSkillKind, WaitKind}, Some(HotAirBalloonAutoSchedule),
                          Some(HotAirBalloonExit), {}, [(HotAirBalloonExit, "v1")], [], None, _ => Object([]))

  const GET_OUT := CallSkill(HotAirBalloonExit, "v1", Object([]), Told("out"), None)

  lemma ArgumentsPermittedEmpty(c: Context, a: Action)
    requires a.CallSkill? && a.arguments == Object([]) && c.hints == [] && !RequiresArguments(a.skill)
    ensures ArgumentsPermitted(c, a)
  {
    assert LeavesUpTo(a.arguments, 0) == {};
  }

  /** The rider is let out. */
  lemma ExitIsSelected()
    ensures Selection(RIDING, [GET_OUT]) == Some(GET_OUT)
  {
    ArgumentsPermittedEmpty(RIDING, GET_OUT);
    assert (HotAirBalloonExit, "v1") in RIDING.available by {
      assert RIDING.available[0] == (HotAirBalloonExit, "v1");
    }
    PermittedIff(RIDING, GET_OUT);
  }
}
