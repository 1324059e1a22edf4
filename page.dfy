/** The page that holds the build (src/app/page.tsx): the default build it
    starts from, and the convention every update keeps, that the artifact
    list holds the five slots in card order, each once. */
module Page {
  import opened Wrappers
  import opened Types
  import Score
  import JsNumber
  import InputForm
  import BuildCard

  // ---- The five slots ----

  /** The order in which the card lists the slots. */
  const SlotOrder: seq<Slot> := [Flower, Plume, Sands, Goblet, Circlet]

  /** The position of a slot in the card's order. */
  function SlotIndex(s: Slot): (i: nat)
    ensures i < 5 && SlotOrder[i] == s
  {
    match s
    case Flower => 0
    case Plume => 1
    case Sands => 2
    case Goblet => 3
    case Circlet => 4
  }

  /** Five artifacts, one per slot, in the card's order. */
  predicate FiveSlots(arts: seq<Artifact>) {
    |arts| == 5 && forall i :: 0 <= i < 5 ==> arts[i].slot == SlotOrder[i]
  }

  /** In a five-slot list every slot occurs once: its first match is at its
      own position. */
  lemma FiveSlotsFind(arts: seq<Artifact>, s: Slot)
    requires FiveSlots(arts)
    ensures InputForm.FindSlot(arts, s) == Some(SlotIndex(s))
  {
    var k := SlotIndex(s);
    assert arts[k].slot == s;
    assert forall j :: 0 <= j < 5 && j != k ==> arts[j].slot == SlotOrder[j] != s;
  }

  // ---- The default build ----

  function EmptyPiece(slot: Slot, main: string): Artifact {
    Artifact("", slot, StatEntry(main, "0"), [], 0, None, None)
  }

  /** `INITIAL_DATA` */
  function InitialData(): BuildData {
    var talent := Talent(1, false, "");
    BuildData(
      Character("", 1, 0, Pyro, Some(""), Talents(talent, talent, talent), None),
      Weapon("", 1, 1, Some(""), None, None, None),
      [EmptyPiece(Flower, "HP"), EmptyPiece(Plume, "ATK"), EmptyPiece(Sands, "Main"),
       EmptyPiece(Goblet, "Main"), EmptyPiece(Circlet, "Main")],
      Stats(0, 0, 0, 0, 0.0, 0.0, 0.0, 0.0),
      None)
  }

  /** The default build has the five slots in order, each piece at level 0
      with no set and no substats; a character at constellation 0 with three
      level-1 talents, none boosted; a level-1 weapon at refinement 1; zero
      stats; and no score base. */
  lemma InitialDataShape()
    ensures FiveSlots(InitialData().artifacts)
    ensures forall i :: 0 <= i < 5 ==>
      InitialData().artifacts[i].level == 0 && InitialData().artifacts[i].setName == "" &&
      InitialData().artifacts[i].subStats == []
    ensures var c := InitialData().character;
      c.constellation == 0 &&
      c.talents.normal == c.talents.skill == c.talents.burst == Talent(1, false, "")
    ensures InitialData().weapon.level == 1 && InitialData().weapon.refinement == 1
    ensures InitialData().stats == Stats(0, 0, 0, 0, 0.0, 0.0, 0.0, 0.0)
    ensures InitialData().scoreBase.None?
  {
  }

  /** Pieces without a set show no set bonus. */
  lemma NoSetNoBonus(arts: seq<Artifact>)
    requires forall i :: 0 <= i < |arts| ==> arts[i].setName == ""
    ensures BuildCard.ActiveSets(arts) == []
  {
    var active := BuildCard.ActiveSets(arts);
    if |active| > 0 {
      BuildCard.ActiveSetsAre(arts, active[0].0, active[0].1);
      NoSetCounted(arts, active[0].0);
      assert false;
    }
  }

  /** The default build shows no set bonus. */
  lemma InitialNoActiveSets()
    ensures BuildCard.ActiveSets(InitialData().artifacts) == []
  {
    var arts := InitialData().artifacts;
    assert forall i :: 0 <= i < |arts| ==> arts[i].setName == "";
    NoSetNoBonus(arts);
  }

  /** The default build totals 0, graded B, scored on attack. */
  lemma InitialTotal()
    ensures BuildCard.TotalScore(InitialData()) == 0.0
    ensures BuildCard.TotalGrade(InitialData()) == Score.B
    ensures BuildCard.ScoreBaseLabel(InitialData().scoreBase) == "攻撃力換算"
  {
    var data := InitialData();
    var f := BuildCard.PieceScore(data.scoreBase);
    forall i | 0 <= i < 5 ensures f(data.artifacts[i]) == 0.0 {
      EmptyPieceScore(data.artifacts[i], data.scoreBase);
    }
    ZeroSum(data.artifacts, f);
  }

  /** A piece without substats scores 0. */
  lemma EmptyPieceScore(a: Artifact, baseStat: Option<ScoreBase>)
    requires a.subStats == []
    ensures Score.ArtifactScore(a, baseStat) == 0.0
  {
    JsNumber.ToFixed1OfTenths(0);
  }

  lemma {:induction false} ZeroSum(arts: seq<Artifact>, f: Artifact -> real)
    requires forall i :: 0 <= i < |arts| ==> f(arts[i]) == 0.0
    ensures BuildCard.ScoreSum(arts, f) == 0.0
    decreases |arts|
  {
    if |arts| > 0 {
      var init := arts[..|arts| - 1];
      assert forall i :: 0 <= i < |init| ==> init[i] == arts[i];
      ZeroSum(init, f);
    }
  }

  lemma {:induction false} NoSetCounted(arts: seq<Artifact>, name: string)
    requires forall i :: 0 <= i < |arts| ==> arts[i].setName == ""
    ensures name != "" ==> BuildCard.Count(arts, name) == 0
    decreases |arts|
  {
    if |arts| > 0 {
      var init := arts[..|arts| - 1];
      assert forall i :: 0 <= i < |init| ==> init[i] == arts[i];
      NoSetCounted(init, name);
    }
  }

  // ---- Updates keep the five slots ----

  /** The ways the form changes the page's build. */
  datatype Action =
    | Select(avatar: AvatarInfo, db: GameDatabase)
    | CharacterChange(ce: InputForm.CharacterEdit)
    | WeaponChange(we: InputForm.WeaponEdit)
    | StatsChange(se: InputForm.StatsEdit)
    | ScoreBaseChange(base: ScoreBase)
    | ArtifactChange(index: nat, ae: InputForm.ArtifactEdit)

  /** An artifact edit comes from a rendered artifact and substat. */
  predicate Allowed(data: BuildData, a: Action) {
    a.ArtifactChange? ==> a.index < |data.artifacts| && InputForm.EditFits(data.artifacts[a.index], a.ae)
  }

  function Apply(data: BuildData, a: Action): BuildData
    requires Allowed(data, a)
  {
    match a
    case Select(avatar, db) => InputForm.SelectedBuild(data, avatar, db)
    case CharacterChange(e) => InputForm.UpdateCharacter(data, e)
    case WeaponChange(e) => InputForm.UpdateWeapon(data, e)
    case StatsChange(e) => InputForm.UpdateStats(data, e)
    case ScoreBaseChange(b) => InputForm.ChooseScoreBase(data, b)
    case ArtifactChange(i, e) => InputForm.EditArtifact(data, i, e)
  }

  /** Every update keeps the five slots in order. */
  lemma ApplyKeepsFiveSlots(data: BuildData, a: Action)
    requires FiveSlots(data.artifacts) && Allowed(data, a)
    ensures FiveSlots(Apply(data, a).artifacts)
  {
    match a
    case Select(avatar, db) =>
      InputForm.MergeKeepsSlots(data.artifacts, avatar.equipList, db);
    case ArtifactChange(i, e) =>
    case _ =>
  }

  /** The build after a run of updates from `data`; `None` when an update in
      the run is one the form cannot issue. */
  function Run(data: BuildData, actions: seq<Action>): Option<BuildData>
    decreases |actions|
  {
    if |actions| == 0 then Some(data)
    else match Run(data, actions[..|actions| - 1])
      case None => None
      case Some(d) =>
        var a := actions[|actions| - 1];
        if Allowed(d, a) then Some(Apply(d, a)) else None
  }

  /** Every build the page can reach from its default has the five slots in order. */
  lemma {:induction false} RunKeepsFiveSlots(data: BuildData, actions: seq<Action>)
    requires FiveSlots(data.artifacts)
    ensures Run(data, actions).Some? ==> FiveSlots(Run(data, actions).value.artifacts)
    decreases |actions|
  {
    if |actions| > 0 {
      RunKeepsFiveSlots(data, actions[..|actions| - 1]);
      var prev := Run(data, actions[..|actions| - 1]);
      if prev.Some? && Allowed(prev.value, actions[|actions| - 1]) {
        ApplyKeepsFiveSlots(prev.value, actions[|actions| - 1]);
      }
    }
  }

  lemma ReachableFiveSlots(actions: seq<Action>)
    ensures Run(InitialData(), actions).Some? ==> FiveSlots(Run(InitialData(), actions).value.artifacts)
  {
    InitialDataShape();
    RunKeepsFiveSlots(InitialData(), actions);
  }

  /** On a five-slot build, the merge puts each slot's last reliquary into
      that slot's own entry and leaves the slots no reliquary targets as
      they were. */
  lemma MergeFillsOwnSlot(arts: seq<Artifact>, items: seq<EquipItem>, db: GameDatabase, s: Slot)
    requires FiveSlots(arts)
    ensures var merged := InputForm.MergeAll(arts, items, db);
      |merged| == 5 &&
      merged[SlotIndex(s)] ==
        match InputForm.LastFor(items, s)
        case Some(item) => InputForm.Refreshed(arts[SlotIndex(s)], item, db)
        case None => arts[SlotIndex(s)]
  {
    FiveSlotsFind(arts, s);
    InputForm.MergeEntry(arts, items, db, SlotIndex(s));
  }
}
