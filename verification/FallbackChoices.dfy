/** Which skills the fallback plan takes, and in which order. */
module FallbackChoices {
  import opened Wrappers
  import opened Skills
  import opened Orders
  import opened Lists
  import opened ActivityCapacities
  import opened FallbackPlans

  /** A skill is usable when it is published and canonical, has room, leaves the Lobby only from the Lobby, and is no
      move that a catalogue has no target for. */
  lemma UsableIff(c: Planning, s: Skill)
    ensures s in UsableSkills(c)
       <==> && (s, "v1") in c.published && Canonical(s)
            && (c.lobby || s != SceneTornado)
            && (c.capacity.None? || IsAvailable(c.capacity.value, s))
            && !(s == MoveTo && c.catalog && c.target.None?)
  {
    UsableSkillsMembers(c);
    AvailableIff(c, s);
  }

  lemma AvailableIff(c: Planning, s: Skill)
    ensures (s, "v1") in Available(c)
       <==> (s, "v1") in c.published && Canonical(s) && !(s == MoveTo && c.catalog && c.target.None?)
  {
  }

  /** The Lobby opens with the tornado; elsewhere, without a snapshot, the authorised skills take turns by the bucket,
      and with one the first of their ranking opens. */
  lemma FirstChoiceIs(c: Planning, ordered: seq<Skill>)
    requires ValidPlanning(c)
    ensures var authorized := Filter(ordered, s => Authorized(c, s));
            && (c.lobby && FirstChoice(c, ordered).Some? ==> FirstChoice(c, ordered) == Some(SceneTornado))
            && (!c.lobby && c.capacity.None? && authorized != [] ==>
                  FirstChoice(c, ordered) == Some(Round(authorized, c.bucket, 0)))
            && (!c.lobby && c.capacity.Some? && FirstChoice(c, ordered).Some? ==>
                  var ranking := WeightedOrder(c.capacity.value, c.score, authorized);
                  ranking != [] && FirstChoice(c, ordered) == Some(ranking[0]))
  {
  }

  lemma InsertSplits(rest: seq<Skill>, i: nat, x: Skill)
    requires i <= |rest|
    ensures var r := InsertAt(rest, i, x); r[i] == x && r[..i] + r[i + 1..] == rest
  {
    var r := InsertAt(rest, i, x);
    assert r == rest[..i] + [x] + rest[i..];
    assert r[..i] == rest[..i] && r[i + 1..] == rest[i..];
  }

  lemma PlacedAt(c: Planning, ranked: seq<Skill>)
    requires MoveTo in ranked
    ensures var r, at := PlaceMove(c, ranked), Rotation(c, |ranked|);
            at < |r| == |ranked| && r[at] == MoveTo && r[..at] + r[at + 1..] == Remove(ranked, MoveTo)
  {
    var rest := Remove(ranked, MoveTo);
    assert Rotation(c, |rest| + 1) == Rotation(c, |ranked|);
    InsertSplits(rest, Rotation(c, |rest| + 1), MoveTo);
  }

  lemma RotationIs(c: Planning, size: nat)
    requires size > 0
    ensures Rotation(c, size) == c.bucket % size
  {
  }

  /** A move that may follow stands where the bucket says, and the other skills keep their order around it. */
  lemma MoveIsPlaced(c: Planning, first: Skill, ordered: seq<Skill>)
    requires ValidPlanning(c) && (!c.lobby || c.catalog) && first != MoveTo
    requires MoveTo in Ranked(c, Without(ordered, first))
    ensures var ranked, r := Ranked(c, Without(ordered, first)), Following(c, first, ordered);
            var at := c.bucket % |ranked|;
            at < |r| == |ranked| && r[at] == MoveTo && r[..at] + r[at + 1..] == Remove(ranked, MoveTo)
  {
    PlacedAt(c, Ranked(c, Without(ordered, first)));
    RotationIs(c, |Ranked(c, Without(ordered, first))|);
  }

  /** Without one they turn round by the bucket. */
  lemma OthersTurn(c: Planning, first: Skill, ordered: seq<Skill>, i: nat)
    requires ValidPlanning(c) && (!c.lobby || c.catalog)
    requires first == MoveTo || MoveTo !in Ranked(c, Without(ordered, first))
    requires i < |Ranked(c, Without(ordered, first))|
    ensures var ranked, r := Ranked(c, Without(ordered, first)), Following(c, first, ordered);
            |r| == |ranked| && r[i] == Round(ranked, c.bucket, i)
  {
    RotateIsRound(Ranked(c, Without(ordered, first)), c.bucket, i);
  }

  /** In the Lobby without a catalogue they stay in the order of the catalogue, or of their ranking. */
  lemma LobbyKeepsOrder(c: Planning, first: Skill, ordered: seq<Skill>)
    requires ValidPlanning(c) && c.lobby && !c.catalog
    ensures Following(c, first, ordered)
         == if c.capacity.Some? then WeightedOrder(c.capacity.value, c.score, Without(ordered, first))
            else Without(ordered, first)
  {
  }

  /** The plan takes the first choice and the two that follow it, or a usable move in place of the second of these. */
  lemma SelectionIs(c: Planning, selected: seq<Skill>)
    requires ValidPlanning(c) && IsSelection(c, selected)
    ensures var following := Following(c, selected[0], UsableSkills(c));
            && FirstChoice(c, UsableSkills(c)) == Some(selected[0]) && |following| >= 2
            && selected[1] == following[0]
            && selected[2] == if MoveTo in UsableSkills(c) && MoveTo !in [selected[0], following[0], following[1]]
                              then MoveTo else following[1]
  {
    SelectThreeIsOneOf(selected[0], Following(c, selected[0], UsableSkills(c)), MoveTo in UsableSkills(c));
  }

  /** The phase of a step says what its skill does. */
  lemma PhaseIs(s: Skill)
    ensures PhaseForSkill(s) == "arrival" <==> s == SceneTornado
    ensures PhaseForSkill(s) == "transport"
       <==> s in {HotAirBalloonAutoSchedule, HelicopterAutoSchedule, ElevatorAutoSchedule}
    ensures PhaseForSkill(s) == "movement" <==> s in {Jump, MoveTo, StopMove}
    ensures PhaseForSkill(s) == "recovery" <==> s in {HotAirBalloonExit, HelicopterExit, SeatGetOut}
    ensures PhaseForSkill(s) in {"arrival", "transport", "movement", "recovery", "activity"}
  {
  }

  /** Three skills have step ids of their own; any other is named by its place, counted from one, and its name. */
  lemma StepIdIs(k: nat, s: Skill)
    requires k < 3
    ensures StepIdFor(k, s)
         == if s == SceneTornado then "arrival"
            else if s == DanceAutoSchedule then "dance"
            else if s == HotAirBalloonAutoSchedule then "balloon"
            else "fallback-" + ["1", "2", "3"][k] + "-" + Name(s)
  {
    if !HasStableId(s) {
      GeneratedName(k, s);
    }
  }

  lemma GeneratedName(k: nat, s: Skill)
    requires k < 3 && !HasStableId(s)
    ensures StepIdFor(k, s) == "fallback-" + ["1", "2", "3"][k] + "-" + Name(s)
  {
    assert Digit(k) == ["1", "2", "3"][k];
  }
}
