/** The input form's logic (src/components/InputForm.tsx): turning one
    character of an Enka.Network snapshot into a build (`selectCharacter`),
    the single-field edits made by the form's inputs, the artifact edit
    handlers, and the clean-up of the typed UID. */
module InputForm {
  import opened Wrappers
  import opened JsString
  import opened JsNumber
  import opened Types
  import opened Mappings
  import Score

  /** Where the snapshot's icon names are served from. */
  const UiBase: string := "https://enka.network/ui/"

  function IconUrl(icon: string): string {
    UiBase + icon + ".png"
  }

  /** `Unknown (<id>)`: the name shown for an id the database lacks. */
  function UnknownName(id: int): (r: string)
    ensures |r| > 0
  {
    "Unknown (" + IntToString(id) + ")"
  }

  /** A stat code and its raw value as a display entry: the translated label
      and the formatted value. */
  function Entry(p: PropValue): StatEntry {
    StatEntry(LabelOf(p.propId), FormatStatValue(p.propId, p.statValue))
  }

  // ---- The character ----

  /** `gameData.characters[avatarId]` */
  function CharacterRecordOf(db: GameDatabase, id: int): Option<CharacterRecord> {
    if id in db.characters then Some(db.characters[id]) else None
  }

  /** `propMap['4001']?.val || '0'` */
  function LevelText(propMap: map<string, PropMapItem>): string {
    if "4001" in propMap && propMap["4001"].val.Some? && propMap["4001"].val.value != ""
    then propMap["4001"].val.value
    else "0"
  }

  /** `parseInt` of the level text; a text that is not a number reads as 0. */
  function CharacterLevel(propMap: map<string, PropMapItem>): int {
    ParseInt(LevelText(propMap)).GetOr(0)
  }

  /** `map?.[String(key)] || 0` */
  function LevelIn(m: Option<map<int, int>>, key: int): int {
    if m.Some? && key in m.value then m.value[key] else 0
  }

  /** The talent's own level: looked up only when the database knows the skill. */
  function BaseLevel(rec: Option<SkillRecord>, levels: Option<map<int, int>>): int {
    if rec.Some? then LevelIn(levels, rec.value.id) else 0
  }

  /** The levels added by constellations: looked up only when the skill has
      a truthy proud-skill group id. */
  function ExtraLevel(rec: Option<SkillRecord>, extras: Option<map<int, int>>): int {
    if rec.Some? && Truthy(rec.value.proudSkillGroupId)
    then LevelIn(extras, rec.value.proudSkillGroupId.value)
    else 0
  }

  function TalentIcon(rec: Option<SkillRecord>): string {
    if rec.Some? && rec.value.icon.Some? && rec.value.icon.value != "" then IconUrl(rec.value.icon.value) else ""
  }

  /** One talent of the card: the shown level is base plus extra, and it is
      marked boosted exactly when that lifts it above the base level. */
  function TalentOf(rec: Option<SkillRecord>, levels: Option<map<int, int>>, extras: Option<map<int, int>>): (t: Talent)
    ensures t.boosted <==> t.level > BaseLevel(rec, levels)
    ensures rec.None? ==> t == Talent(0, false, "")
  {
    var extra := ExtraLevel(rec, extras);
    Talent(BaseLevel(rec, levels) + extra, extra > 0, TalentIcon(rec))
  }

  /** `charData?.skills`, with every skill absent when there is none. */
  function Skills(rec: Option<CharacterRecord>): SkillSet {
    if rec.Some? && rec.value.skills.Some? then rec.value.skills.value else SkillSet(None, None, None)
  }

  function TalentsOf(rec: Option<CharacterRecord>, avatar: AvatarInfo): Talents {
    var s := Skills(rec);
    Talents(
      TalentOf(s.normal, avatar.skillLevelMap, avatar.proudSkillExtraLevelMap),
      TalentOf(s.skill, avatar.skillLevelMap, avatar.proudSkillExtraLevelMap),
      TalentOf(s.burst, avatar.skillLevelMap, avatar.proudSkillExtraLevelMap))
  }

  /** The splash art: the avatar icon's name with its prefix swapped. */
  function CharacterImage(rec: Option<CharacterRecord>): string {
    if rec.Some? && rec.value.icon != ""
    then IconUrl(ReplaceFirst(rec.value.icon, "UI_AvatarIcon_", "UI_Gacha_AvatarImg_"))
    else ""
  }

  /** A constellation icon; an unresolved (`null`) one is interpolated as the text `null`. */
  function ConstellationUrl(icon: Option<string>): string {
    IconUrl(icon.GetOr("null"))
  }

  function ConstellationIcons(rec: Option<CharacterRecord>): (r: Option<seq<string>>)
    ensures r.Some? <==> rec.Some? && rec.value.constellations.Some?
    ensures r.Some? ==> |r.value| == |rec.value.constellations.value|
  {
    if rec.Some? && rec.value.constellations.Some? then
      var cs := rec.value.constellations.value;
      Some(seq(|cs|, i requires 0 <= i < |cs| => ConstellationUrl(cs[i])))
    else None
  }

  /** The character part of a selected build. Every field is replaced, so
      the previous character plays no part. */
  function NewCharacter(avatar: AvatarInfo, db: GameDatabase): (c: Character)
    ensures |c.name| > 0
    ensures c.constellation >= 0
  {
    var rec := CharacterRecordOf(db, avatar.avatarId);
    Character(
      name := if rec.Some? && rec.value.name != "" then rec.value.name else UnknownName(avatar.avatarId),
      level := CharacterLevel(avatar.propMap),
      constellation := if avatar.talentIdList.Some? then |avatar.talentIdList.value| else 0,
      element := if rec.Some? && rec.value.element.Some? then rec.value.element.value else Anemo,
      imageUrl := Some(CharacterImage(rec)),
      talents := TalentsOf(rec, avatar),
      constellationIcons := ConstellationIcons(rec))
  }

  // ---- The weapon ----

  /** `equipList.find(item => item.flat.itemType === 'ITEM_WEAPON')`, as the
      index of the first weapon. */
  function FirstWeaponIndex(items: seq<EquipItem>): (r: Option<nat>)
    ensures r.Some? ==> r.value < |items| && items[r.value].flat.itemType == ItemWeapon
    ensures r.Some? ==> forall j :: 0 <= j < r.value ==> items[j].flat.itemType != ItemWeapon
    ensures r.None? ==> forall j :: 0 <= j < |items| ==> items[j].flat.itemType != ItemWeapon
  {
    if |items| == 0 then None
    else if items[0].flat.itemType == ItemWeapon then Some(0)
    else match FirstWeaponIndex(items[1..])
      case None => None
      case Some(k) => Some(k + 1)
  }

  function FirstWeapon(items: seq<EquipItem>): Option<EquipItem> {
    match FirstWeaponIndex(items)
    case None => None
    case Some(k) => Some(items[k])
  }

  /** `(affixMap && Object.values(affixMap)[0] + 1) || 1`: an absent or empty
      affix map, and a sum of 0, all fall back to 1. */
  function Refinement(info: Option<WeaponInfo>): (r: int)
    ensures r != 0
  {
    if info.Some? && info.value.affixValues.Some? && |info.value.affixValues.value| > 0
       && info.value.affixValues.value[0] + 1 != 0
    then info.value.affixValues.value[0] + 1
    else 1
  }

  /** `weaponStats?.[i]` as a display entry. */
  function WeaponStat(stats: Option<seq<PropValue>>, i: nat): Option<StatEntry> {
    if stats.Some? && i < |stats.value| then Some(Entry(stats.value[i])) else None
  }

  /** The weapon part of a selected build. Every field is replaced. */
  function NewWeapon(avatar: AvatarInfo, db: GameDatabase): (w: Weapon)
    ensures |w.name| > 0
    ensures w.refinement != 0
    ensures w.rarity.Some? && w.rarity.value != 0
  {
    var item := FirstWeapon(avatar.equipList);
    var rec := if item.Some? && item.value.itemId in db.weapons then Some(db.weapons[item.value.itemId]) else None;
    Weapon(
      name := if rec.Some? && rec.value.name != "" then rec.value.name
              else if item.Some? then UnknownName(item.value.itemId)
              else "Unknown",
      level := if item.Some? && item.value.weapon.Some? then item.value.weapon.value.level else 0,
      refinement := Refinement(if item.Some? then item.value.weapon else None),
      imageUrl := Some(if rec.Some? && rec.value.icon != "" then IconUrl(rec.value.icon) else ""),
      mainStat := WeaponStat(if item.Some? then item.value.flat.weaponStats else None, 0),
      subStat := WeaponStat(if item.Some? then item.value.flat.weaponStats else None, 1),
      rarity := Some(if item.Some? && item.value.flat.rankLevel != 0 then item.value.flat.rankLevel else 1))
  }

  // ---- The derived stats ----

  /** `fightProps[key] || 0` */
  function Prop(fp: map<int, real>, key: int): real {
    if key in fp then fp[key] else 0.0
  }

  function Max(x: real, y: real): real {
    if x >= y then x else y
  }

  /** `Math.max` over the seven elemental damage bonuses, props 40..46. */
  function ElementalBonus(fp: map<int, real>): (r: real)
    ensures forall k :: 40 <= k <= 46 ==> Prop(fp, k) <= r
    ensures exists k :: 40 <= k <= 46 && r == Prop(fp, k)
  {
    Max(Prop(fp, 40), Max(Prop(fp, 41), Max(Prop(fp, 42), Max(Prop(fp, 43),
      Max(Prop(fp, 44), Max(Prop(fp, 45), Prop(fp, 46)))))))
  }

  /** The stats part of a selected build: flat stats rounded to integers,
      ratios scaled by 100 and rounded to one decimal. */
  function NewStats(fp: map<int, real>): Stats {
    Stats(
      hp := MathRound(Prop(fp, 2000)),
      atk := MathRound(Prop(fp, 2001)),
      def := MathRound(Prop(fp, 2002)),
      em := MathRound(Prop(fp, 28)),
      cr := ToFixed1(Prop(fp, 20) * 100.0),
      cd := ToFixed1(Prop(fp, 22) * 100.0),
      er := ToFixed1(Prop(fp, 23) * 100.0),
      dmgBonus := ToFixed1(ElementalBonus(fp) * 100.0))
  }

  // ---- The artifacts ----

  /** `slotMap`: the equip type of a reliquary names its slot. */
  function SlotOf(e: EquipType): Slot {
    match e
    case EquipBracer => Flower
    case EquipNecklace => Plume
    case EquipShoes => Sands
    case EquipRing => Goblet
    case EquipDress => Circlet
  }

  /** The slot an equipped item refreshes: only reliquaries with an equip type. */
  function TargetSlot(item: EquipItem): Option<Slot> {
    if item.flat.itemType == ItemReliquary && item.flat.equipType.Some?
    then Some(SlotOf(item.flat.equipType.value))
    else None
  }

  /** `findIndex(a => a.slot === slot)`; `None` stands for -1. */
  function FindSlot(arts: seq<Artifact>, slot: Slot): (r: Option<nat>)
    ensures r.Some? ==> r.value < |arts| && arts[r.value].slot == slot
    ensures r.Some? ==> forall j :: 0 <= j < r.value ==> arts[j].slot != slot
    ensures r.None? ==> forall j :: 0 <= j < |arts| ==> arts[j].slot != slot
  {
    if |arts| == 0 then None
    else if arts[0].slot == slot then Some(0)
    else match FindSlot(arts[1..], slot)
      case None => None
      case Some(k) => Some(k + 1)
  }

  /** The piece's set has a non-empty name in the database. */
  predicate SetNamed(rec: Option<ArtifactRecord>, db: GameDatabase) {
    rec.Some? && Truthy(rec.value.setId) && rec.value.setId.value in db.artifactSets
    && db.artifactSets[rec.value.setId.value] != ""
  }

  /** The set label: the set's name by `setId`, else the piece's name, else `Unknown`. */
  function PieceSetName(rec: Option<ArtifactRecord>, db: GameDatabase): (r: string)
    ensures |r| > 0
    ensures SetNamed(rec, db) ==> r == db.artifactSets[rec.value.setId.value]
    ensures !SetNamed(rec, db) && rec.Some? && rec.value.name != "" ==> r == rec.value.name
    ensures !SetNamed(rec, db) && (rec.None? || rec.value.name == "") ==> r == "Unknown"
  {
    if SetNamed(rec, db) then db.artifactSets[rec.value.setId.value]
    else if rec.Some? && rec.value.name != "" then rec.value.name
    else "Unknown"
  }

  /** `reliquary?.level ? level - 1 : 0`: the snapshot counts levels from 1. */
  function PieceLevel(info: Option<ReliquaryInfo>): int {
    if info.Some? && info.value.level != 0 then info.value.level - 1 else 0
  }

  function MainEntry(m: Option<PropValue>): StatEntry {
    match m
    case None => StatEntry("Main", "0")
    case Some(p) => Entry(p)
  }

  /** `(reliquarySubstats || []).map(...)`: one entry per substat, in order. */
  function SubEntries(subs: Option<seq<PropValue>>): (r: seq<StatEntry>)
    ensures |r| == |subs.GetOr([])|
    ensures forall i :: 0 <= i < |r| ==> r[i] == Entry(subs.GetOr([])[i])
  {
    var xs := subs.GetOr([]);
    seq(|xs|, i requires 0 <= i < |xs| => Entry(xs[i]))
  }

  /** The entry a reliquary leaves in its slot: every field but `slot` and
      `rarity` comes from the item, those two from the entry it replaces. */
  function Refreshed(prior: Artifact, item: EquipItem, db: GameDatabase): Artifact {
    var rec := if item.itemId in db.artifacts then Some(db.artifacts[item.itemId]) else None;
    prior.(
      setName := PieceSetName(rec, db),
      level := PieceLevel(item.reliquary),
      imageUrl := if rec.Some? && rec.value.icon != "" then Some(IconUrl(rec.value.icon)) else None,
      mainStat := MainEntry(item.flat.reliquaryMainstat),
      subStats := SubEntries(item.flat.reliquarySubstats))
  }

  /** One step of the merge loop. */
  function MergeOne(arts: seq<Artifact>, item: EquipItem, db: GameDatabase): seq<Artifact> {
    match TargetSlot(item)
    case None => arts
    case Some(slot) =>
      match FindSlot(arts, slot)
      case None => arts
      case Some(k) => arts[k := Refreshed(arts[k], item, db)]
  }

  /** The merge loop over the equip list, in order. */
  function MergeAll(arts: seq<Artifact>, items: seq<EquipItem>, db: GameDatabase): seq<Artifact>
    decreases |items|
  {
    if |items| == 0 then arts
    else MergeOne(MergeAll(arts, items[..|items| - 1], db), items[|items| - 1], db)
  }

  /** The merge as the form runs it: a copy of the current artifacts, with
      the entry of each reliquary's slot overwritten in equip-list order. */
  method MergeArtifacts(artifacts: seq<Artifact>, equipList: seq<EquipItem>, db: GameDatabase)
    returns (merged: seq<Artifact>)
    ensures merged == MergeAll(artifacts, equipList, db)
  {
    var a := new Artifact[|artifacts|](i requires 0 <= i < |artifacts| => artifacts[i]);
    for j := 0 to |equipList|
      invariant a[..] == MergeAll(artifacts, equipList[..j], db)
    {
      var item := equipList[j];
      assert equipList[..j + 1][..j] == equipList[..j];
      if item.flat.itemType == ItemReliquary && item.flat.equipType.Some? {
        var index := FindSlot(a[..], SlotOf(item.flat.equipType.value));
        if index.Some? {
          a[index.value] := Refreshed(a[index.value], item, db);
        }
      }
    }
    assert equipList[..|equipList|] == equipList;
    merged := a[..];
  }

  /** The last item in the list that refreshes `slot`. */
  function LastFor(items: seq<EquipItem>, slot: Slot): (r: Option<EquipItem>)
    ensures r.Some? ==> r.value in items && TargetSlot(r.value) == Some(slot)
    ensures r.None? <==> forall j :: 0 <= j < |items| ==> TargetSlot(items[j]) != Some(slot)
    decreases |items|
  {
    if |items| == 0 then None
    else if TargetSlot(items[|items| - 1]) == Some(slot) then Some(items[|items| - 1])
    else
      assert forall j :: 0 <= j < |items| - 1 ==> items[..|items| - 1][j] == items[j];
      LastFor(items[..|items| - 1], slot)
  }

  /** The item found is the last one targeting the slot: some position holds
      it, and no later item targets the slot. */
  lemma {:induction false} LastForIsLast(items: seq<EquipItem>, slot: Slot)
    requires LastFor(items, slot).Some?
    ensures exists k :: 0 <= k < |items| && items[k] == LastFor(items, slot).value &&
                       forall j :: k < j < |items| ==> TargetSlot(items[j]) != Some(slot)
    decreases |items|
  {
    var n := |items|;
    if TargetSlot(items[n - 1]) == Some(slot) {
      assert items[n - 1] == LastFor(items, slot).value;
    } else {
      var init := items[..n - 1];
      LastForIsLast(init, slot);
      var k :| 0 <= k < |init| && init[k] == LastFor(init, slot).value &&
               forall j :: k < j < |init| ==> TargetSlot(init[j]) != Some(slot);
      assert items[k] == init[k];
      forall j | k < j < n
        ensures TargetSlot(items[j]) != Some(slot)
      {
        if j < n - 1 {
          assert items[j] == init[j];
        }
      }
    }
  }

  /** A refresh depends on the entry it replaces only through the fields it keeps. */
  lemma RefreshedAbsorbs(a: Artifact, first: EquipItem, second: EquipItem, db: GameDatabase)
    ensures Refreshed(Refreshed(a, first, db), second, db) == Refreshed(a, second, db)
    ensures Refreshed(a, first, db).slot == a.slot && Refreshed(a, first, db).rarity == a.rarity
  {
  }

  /** Two lists with the same slot at every index find every slot at the same index. */
  lemma {:induction false} FindSlotSameSlots(xs: seq<Artifact>, ys: seq<Artifact>, slot: Slot)
    requires |xs| == |ys|
    requires forall k :: 0 <= k < |xs| ==> xs[k].slot == ys[k].slot
    ensures FindSlot(xs, slot) == FindSlot(ys, slot)
    decreases |xs|
  {
    if |xs| > 0 && xs[0].slot != slot {
      FindSlotSameSlots(xs[1..], ys[1..], slot);
    }
  }

  /** The merge keeps the length, and the slot and rarity of every entry. */
  lemma {:induction false} MergeKeepsSlots(arts: seq<Artifact>, items: seq<EquipItem>, db: GameDatabase)
    ensures |MergeAll(arts, items, db)| == |arts|
    ensures forall k :: 0 <= k < |arts| ==>
      MergeAll(arts, items, db)[k].slot == arts[k].slot && MergeAll(arts, items, db)[k].rarity == arts[k].rarity
    decreases |items|
  {
    if |items| > 0 {
      MergeKeepsSlots(arts, items[..|items| - 1], db);
    }
  }

  /** What the merge leaves at index `k`: the entry is refreshed, by the LAST
      reliquary of its slot, exactly when it is the first entry of its slot
      and some reliquary targets that slot; otherwise it is untouched. */
  lemma {:induction false} MergeEntry(arts: seq<Artifact>, items: seq<EquipItem>, db: GameDatabase, k: nat)
    requires k < |arts|
    ensures |MergeAll(arts, items, db)| == |arts|
    ensures MergeAll(arts, items, db)[k] ==
      if FindSlot(arts, arts[k].slot) == Some(k) && LastFor(items, arts[k].slot).Some?
      then Refreshed(arts[k], LastFor(items, arts[k].slot).value, db)
      else arts[k]
    decreases |items|
  {
    MergeKeepsSlots(arts, items, db);
    if |items| > 0 {
      var init, item := items[..|items| - 1], items[|items| - 1];
      var m := MergeAll(arts, init, db);
      MergeEntry(arts, init, db, k);
      MergeKeepsSlots(arts, init, db);
      match TargetSlot(item)
      case None =>
      case Some(slot) =>
        FindSlotSameSlots(m, arts, slot);
        match FindSlot(arts, slot)
        case None =>
        case Some(i) =>
          if i == k {
            RefreshedAbsorbs(arts[k], LastFor(init, slot).GetOr(item), item, db);
          }
    }
  }

  /** Merging the same equip list a second time changes nothing. */
  lemma MergeIdempotent(arts: seq<Artifact>, items: seq<EquipItem>, db: GameDatabase)
    ensures MergeAll(MergeAll(arts, items, db), items, db) == MergeAll(arts, items, db)
  {
    var m := MergeAll(arts, items, db);
    MergeKeepsSlots(arts, items, db);
    MergeKeepsSlots(m, items, db);
    forall k | 0 <= k < |m|
      ensures MergeAll(m, items, db)[k] == m[k]
    {
      MergeEntry(arts, items, db, k);
      MergeEntry(m, items, db, k);
      FindSlotSameSlots(m, arts, arts[k].slot);
      var last := LastFor(items, arts[k].slot);
      if FindSlot(arts, arts[k].slot) == Some(k) && last.Some? {
        RefreshedAbsorbs(arts[k], last.value, last.value, db);
      }
    }
  }

  /** An equip list without reliquaries leaves the artifacts as they were. */
  lemma {:induction false} NoReliquaryNoChange(arts: seq<Artifact>, items: seq<EquipItem>, db: GameDatabase)
    requires forall i :: 0 <= i < |items| ==> items[i].flat.itemType != ItemReliquary
    ensures MergeAll(arts, items, db) == arts
    decreases |items|
  {
    if |items| > 0 {
      NoReliquaryNoChange(arts, items[..|items| - 1], db);
    }
  }

  /** Within a refreshed slot: the set label is the set's name, else the
      piece's name, else `Unknown`; the level is one below the snapshot's;
      the main stat falls back to `Main`/`0`; and the substats keep their
      order and count. */
  lemma RefreshedContents(prior: Artifact, item: EquipItem, db: GameDatabase)
    ensures |Refreshed(prior, item, db).setName| > 0
    ensures item.itemId in db.artifacts && SetNamed(Some(db.artifacts[item.itemId]), db) ==>
      Refreshed(prior, item, db).setName == db.artifactSets[db.artifacts[item.itemId].setId.value]
    ensures (item.itemId in db.artifacts && !SetNamed(Some(db.artifacts[item.itemId]), db)
             && db.artifacts[item.itemId].name != "") ==>
      Refreshed(prior, item, db).setName == db.artifacts[item.itemId].name
    ensures (item.itemId !in db.artifacts ||
             (!SetNamed(Some(db.artifacts[item.itemId]), db) && db.artifacts[item.itemId].name == "")) ==>
      Refreshed(prior, item, db).setName == "Unknown"
    ensures item.reliquary.Some? && item.reliquary.value.level != 0 ==>
      Refreshed(prior, item, db).level == item.reliquary.value.level - 1
    ensures item.reliquary.None? ==> Refreshed(prior, item, db).level == 0
    ensures item.flat.reliquaryMainstat.None? ==> Refreshed(prior, item, db).mainStat == StatEntry("Main", "0")
    ensures item.flat.reliquarySubstats.Some? ==>
      |Refreshed(prior, item, db).subStats| == |item.flat.reliquarySubstats.value| &&
      forall i :: 0 <= i < |item.flat.reliquarySubstats.value| ==>
        Refreshed(prior, item, db).subStats[i].name == LabelOf(item.flat.reliquarySubstats.value[i].propId)
  {
  }

  // ---- Selecting a character ----

  /** `selectCharacter`: the build after choosing one character of the
      snapshot. The score base is kept and the artifact list keeps its shape. */
  function SelectedBuild(data: BuildData, avatar: AvatarInfo, db: GameDatabase): (r: BuildData)
    ensures r.scoreBase == data.scoreBase
  {
    data.(
      character := NewCharacter(avatar, db),
      weapon := NewWeapon(avatar, db),
      stats := NewStats(avatar.fightPropMap),
      artifacts := MergeAll(data.artifacts, avatar.equipList, db))
  }

  method SelectCharacter(data: BuildData, avatar: AvatarInfo, db: GameDatabase) returns (next: BuildData)
    ensures next == SelectedBuild(data, avatar, db)
  {
    var merged := MergeArtifacts(data.artifacts, avatar.equipList, db);
    next := data.(
      character := NewCharacter(avatar, db),
      weapon := NewWeapon(avatar, db),
      stats := NewStats(avatar.fightPropMap),
      artifacts := merged);
  }

  /** Selecting the same character twice gives the same build as selecting it once. */
  lemma SelectIdempotent(data: BuildData, avatar: AvatarInfo, db: GameDatabase)
    ensures SelectedBuild(SelectedBuild(data, avatar, db), avatar, db) == SelectedBuild(data, avatar, db)
  {
    MergeIdempotent(data.artifacts, avatar.equipList, db);
  }

  /** An avatar the database does not know: placeholder name, anemo, no
      image, no constellation icons, and every talent at level 0. */
  lemma UnknownAvatar(avatar: AvatarInfo, db: GameDatabase)
    requires avatar.avatarId !in db.characters
    ensures NewCharacter(avatar, db).name == UnknownName(avatar.avatarId)
    ensures NewCharacter(avatar, db).element == Anemo
    ensures NewCharacter(avatar, db).imageUrl == Some("")
    ensures NewCharacter(avatar, db).constellationIcons.None?
    ensures NewCharacter(avatar, db).talents.normal == Talent(0, false, "")
    ensures NewCharacter(avatar, db).talents.skill == Talent(0, false, "")
    ensures NewCharacter(avatar, db).talents.burst == Talent(0, false, "")
  {
  }

  /** The constellation count is the number of unlocked talents (0 without a
      list), whatever the database holds; for an avatar the database knows,
      its record gives the name (when it has one), the element (anemo when
      it has none), the splash art, the constellation icons and the skills. */
  lemma NewCharacterFields(avatar: AvatarInfo, db: GameDatabase)
    ensures NewCharacter(avatar, db).constellation ==
      if avatar.talentIdList.Some? then |avatar.talentIdList.value| else 0
    ensures NewCharacter(avatar, db).level == CharacterLevel(avatar.propMap)
    ensures avatar.avatarId in db.characters && db.characters[avatar.avatarId].name != "" ==>
      NewCharacter(avatar, db).name == db.characters[avatar.avatarId].name
    ensures avatar.avatarId in db.characters && db.characters[avatar.avatarId].name == "" ==>
      NewCharacter(avatar, db).name == UnknownName(avatar.avatarId)
    ensures avatar.avatarId in db.characters ==>
      NewCharacter(avatar, db).element == db.characters[avatar.avatarId].element.GetOr(Anemo)
    ensures avatar.avatarId in db.characters ==>
      var rec := db.characters[avatar.avatarId];
      NewCharacter(avatar, db).imageUrl == Some(CharacterImage(Some(rec))) &&
      NewCharacter(avatar, db).constellationIcons == ConstellationIcons(Some(rec)) &&
      NewCharacter(avatar, db).talents == TalentsOf(Some(rec), avatar)
  {
  }

  /** The level property reads back as the number it spells; without it the level is 0. */
  lemma CharacterLevelRead(propMap: map<string, PropMapItem>, n: nat)
    ensures "4001" !in propMap ==> CharacterLevel(propMap) == 0
    ensures "4001" in propMap && propMap["4001"].val == Some(NatToString(n)) ==> CharacterLevel(propMap) == n
  {
    ParseIntNatToString(0);
    ParseIntNatToString(n);
  }

  /** A talent the database knows: its own level plus the constellation
      extra, where a missing map or key counts 0 and the extra is looked up
      only under a truthy group id; boosted exactly when the extra is positive. */
  lemma TalentLevels(rec: SkillRecord, levels: Option<map<int, int>>, extras: Option<map<int, int>>)
    ensures TalentOf(Some(rec), levels, extras).level ==
      LevelIn(levels, rec.id) + (if Truthy(rec.proudSkillGroupId) then LevelIn(extras, rec.proudSkillGroupId.value) else 0)
    ensures TalentOf(Some(rec), levels, extras).boosted <==>
      Truthy(rec.proudSkillGroupId) && LevelIn(extras, rec.proudSkillGroupId.value) > 0
    ensures (levels.Some? && rec.id in levels.value && Truthy(rec.proudSkillGroupId)
             && extras.Some? && rec.proudSkillGroupId.value in extras.value) ==>
      TalentOf(Some(rec), levels, extras).level == levels.value[rec.id] + extras.value[rec.proudSkillGroupId.value]
    ensures (levels.None? || rec.id !in levels.value) ==>
      TalentOf(Some(rec), levels, extras).level == ExtraLevel(Some(rec), extras)
    ensures (!Truthy(rec.proudSkillGroupId) || extras.None? || rec.proudSkillGroupId.value !in extras.value) ==>
      TalentOf(Some(rec), levels, extras).level == LevelIn(levels, rec.id) &&
      !TalentOf(Some(rec), levels, extras).boosted
  {
  }

  /** Refinement is the first affix value plus one, and 1 without affixes. */
  lemma RefinementFromAffix(info: WeaponInfo, v: nat, rest: seq<int>)
    ensures Refinement(Some(info.(affixValues := Some([v] + rest)))) == v + 1
    ensures Refinement(Some(info.(affixValues := None))) == 1
    ensures Refinement(Some(info.(affixValues := Some([])))) == 1
    ensures Refinement(None) == 1
  {
  }

  /** No weapon in the equip list: `Unknown`, level 0, refinement 1, rarity 1, no stats. */
  lemma NoWeapon(avatar: AvatarInfo, db: GameDatabase)
    requires forall i :: 0 <= i < |avatar.equipList| ==> avatar.equipList[i].flat.itemType != ItemWeapon
    ensures NewWeapon(avatar, db) == Weapon("Unknown", 0, 1, Some(""), None, None, Some(1))
  {
  }

  /** With a weapon in the equip list, the first one gives every field: the
      database's name when it has one, the snapshot's level (0 without
      weapon info), the refinement from its affixes, its first two stats and
      its rarity (1 when it has none). */
  lemma NewWeaponFields(avatar: AvatarInfo, db: GameDatabase, k: nat)
    requires FirstWeaponIndex(avatar.equipList) == Some(k)
    ensures var item := avatar.equipList[k];
      var w := NewWeapon(avatar, db);
      (item.itemId in db.weapons && db.weapons[item.itemId].name != "" ==> w.name == db.weapons[item.itemId].name) &&
      (item.itemId in db.weapons ==>
         w.imageUrl == Some(if db.weapons[item.itemId].icon != "" then IconUrl(db.weapons[item.itemId].icon) else "")) &&
      w.level == (if item.weapon.Some? then item.weapon.value.level else 0) &&
      w.refinement == Refinement(item.weapon) &&
      w.mainStat == WeaponStat(item.flat.weaponStats, 0) &&
      w.subStat == WeaponStat(item.flat.weaponStats, 1) &&
      w.rarity == Some(if item.flat.rankLevel != 0 then item.flat.rankLevel else 1)
  {
  }

  /** A weapon the database lacks is named after its item id. */
  lemma UnknownWeapon(avatar: AvatarInfo, db: GameDatabase, k: nat)
    requires FirstWeaponIndex(avatar.equipList) == Some(k)
    requires avatar.equipList[k].itemId !in db.weapons
    ensures NewWeapon(avatar, db).name == UnknownName(avatar.equipList[k].itemId)
  {
  }

  /** Each derived stat is its fight property rounded as the card shows it:
      within half a unit for flat stats, within 0.05 of the percentage for
      ratios, and the damage bonus within 0.05 of the largest elemental
      bonus as a percentage, so at least every one of them rounded. */
  lemma StatsFromFightProps(fp: map<int, real>, k: int)
    requires 40 <= k <= 46
    ensures -0.5 <= NewStats(fp).hp as real - Prop(fp, 2000) <= 0.5
    ensures -0.5 <= NewStats(fp).atk as real - Prop(fp, 2001) <= 0.5
    ensures -0.5 <= NewStats(fp).def as real - Prop(fp, 2002) <= 0.5
    ensures -0.5 <= NewStats(fp).em as real - Prop(fp, 28) <= 0.5
    ensures -0.05 <= NewStats(fp).cr - Prop(fp, 20) * 100.0 <= 0.05
    ensures -0.05 <= NewStats(fp).cd - Prop(fp, 22) * 100.0 <= 0.05
    ensures -0.05 <= NewStats(fp).er - Prop(fp, 23) * 100.0 <= 0.05
    ensures -0.05 <= NewStats(fp).dmgBonus - ElementalBonus(fp) * 100.0 <= 0.05
    ensures ToFixed1(Prop(fp, k) * 100.0) <= NewStats(fp).dmgBonus
  {
    ToFixed1Monotone(Prop(fp, k) * 100.0, ElementalBonus(fp) * 100.0);
  }

  /** A snapshot without fight properties gives all-zero stats. */
  lemma NoFightProps()
    ensures NewStats(map[]) == Stats(0, 0, 0, 0, 0.0, 0.0, 0.0, 0.0)
  {
    assert Tenths(0.0) == 0;
  }

  // ---- Single-field edits (`updateCharacter`, `updateWeapon`, `updateStats`) ----

  /** The character fields the form edits, each with its new value. */
  datatype CharacterEdit =
    | EditName(name: string)
    | EditLevel(level: int)
    | EditConstellation(constellation: int)
    | EditElement(element: Element)
    | EditImage(url: string)
  {
    /** Which field the edit writes. */
    function Field(): nat {
      match this
      case EditName(_) => 0
      case EditLevel(_) => 1
      case EditConstellation(_) => 2
      case EditElement(_) => 3
      case EditImage(_) => 4
    }
  }

  function ApplyToCharacter(c: Character, e: CharacterEdit): Character {
    match e
    case EditName(v) => c.(name := v)
    case EditLevel(v) => c.(level := v)
    case EditConstellation(v) => c.(constellation := v)
    case EditElement(v) => c.(element := v)
    case EditImage(v) => c.(imageUrl := Some(v))
  }

  /** `updateCharacter(field, value)`: the edited field takes the value and
      nothing else changes. */
  function UpdateCharacter(data: BuildData, e: CharacterEdit): (r: BuildData)
    ensures r.weapon == data.weapon && r.artifacts == data.artifacts
    ensures r.stats == data.stats && r.scoreBase == data.scoreBase
    ensures e.EditName? ==> r.character == data.character.(name := e.name)
    ensures e.EditLevel? ==> r.character == data.character.(level := e.level)
    ensures e.EditConstellation? ==> r.character == data.character.(constellation := e.constellation)
    ensures e.EditElement? ==> r.character == data.character.(element := e.element)
    ensures e.EditImage? ==> r.character == data.character.(imageUrl := Some(e.url))
  {
    data.(character := ApplyToCharacter(data.character, e))
  }

  datatype WeaponEdit =
    | EditWeaponName(name: string)
    | EditWeaponLevel(level: int)
    | EditRefinement(refinement: int)
    | EditWeaponImage(url: string)
  {
    function Field(): nat {
      match this
      case EditWeaponName(_) => 0
      case EditWeaponLevel(_) => 1
      case EditRefinement(_) => 2
      case EditWeaponImage(_) => 3
    }
  }

  function ApplyToWeapon(w: Weapon, e: WeaponEdit): Weapon {
    match e
    case EditWeaponName(v) => w.(name := v)
    case EditWeaponLevel(v) => w.(level := v)
    case EditRefinement(v) => w.(refinement := v)
    case EditWeaponImage(v) => w.(imageUrl := Some(v))
  }

  /** `updateWeapon(field, value)`: the edited field takes the value and
      nothing else changes. */
  function UpdateWeapon(data: BuildData, e: WeaponEdit): (r: BuildData)
    ensures r.character == data.character && r.artifacts == data.artifacts
    ensures r.stats == data.stats && r.scoreBase == data.scoreBase
    ensures e.EditWeaponName? ==> r.weapon == data.weapon.(name := e.name)
    ensures e.EditWeaponLevel? ==> r.weapon == data.weapon.(level := e.level)
    ensures e.EditRefinement? ==> r.weapon == data.weapon.(refinement := e.refinement)
    ensures e.EditWeaponImage? ==> r.weapon == data.weapon.(imageUrl := Some(e.url))
  {
    data.(weapon := ApplyToWeapon(data.weapon, e))
  }

  datatype StatsEdit =
    | EditHp(hp: int) | EditAtk(atk: int) | EditDef(def: int) | EditEm(em: int)
    | EditCr(cr: real) | EditCd(cd: real) | EditEr(er: real) | EditDmgBonus(dmgBonus: real)
  {
    function Field(): nat {
      match this
      case EditHp(_) => 0
      case EditAtk(_) => 1
      case EditDef(_) => 2
      case EditEm(_) => 3
      case EditCr(_) => 4
      case EditCd(_) => 5
      case EditEr(_) => 6
      case EditDmgBonus(_) => 7
    }
  }

  function ApplyToStats(s: Stats, e: StatsEdit): Stats {
    match e
    case EditHp(v) => s.(hp := v)
    case EditAtk(v) => s.(atk := v)
    case EditDef(v) => s.(def := v)
    case EditEm(v) => s.(em := v)
    case EditCr(v) => s.(cr := v)
    case EditCd(v) => s.(cd := v)
    case EditEr(v) => s.(er := v)
    case EditDmgBonus(v) => s.(dmgBonus := v)
  }

  /** `updateStats(field, value)`: the edited stat takes the value and
      nothing else changes. */
  function UpdateStats(data: BuildData, e: StatsEdit): (r: BuildData)
    ensures r.character == data.character && r.weapon == data.weapon
    ensures r.artifacts == data.artifacts && r.scoreBase == data.scoreBase
    ensures e.EditHp? ==> r.stats == data.stats.(hp := e.hp)
    ensures e.EditAtk? ==> r.stats == data.stats.(atk := e.atk)
    ensures e.EditDef? ==> r.stats == data.stats.(def := e.def)
    ensures e.EditEm? ==> r.stats == data.stats.(em := e.em)
    ensures e.EditCr? ==> r.stats == data.stats.(cr := e.cr)
    ensures e.EditCd? ==> r.stats == data.stats.(cd := e.cd)
    ensures e.EditEr? ==> r.stats == data.stats.(er := e.er)
    ensures e.EditDmgBonus? ==> r.stats == data.stats.(dmgBonus := e.dmgBonus)
  {
    data.(stats := ApplyToStats(data.stats, e))
  }

  /** The score-base radio buttons: only the score base changes. */
  function ChooseScoreBase(data: BuildData, base: ScoreBase): (r: BuildData)
    ensures r.character == data.character && r.weapon == data.weapon
    ensures r.artifacts == data.artifacts && r.stats == data.stats
    ensures Score.ResolveBase(r.scoreBase) == base
  {
    data.(scoreBase := Some(base))
  }

  /** Of two character edits of the same field the later one wins; edits of
      different fields commute. */
  lemma CharacterEditsOfOneField(data: BuildData, e1: CharacterEdit, e2: CharacterEdit)
    ensures e1.Field() == e2.Field() ==> UpdateCharacter(UpdateCharacter(data, e1), e2) == UpdateCharacter(data, e2)
    ensures e1.Field() != e2.Field() ==>
      UpdateCharacter(UpdateCharacter(data, e1), e2) == UpdateCharacter(UpdateCharacter(data, e2), e1)
  {
  }

  lemma WeaponEditsOfOneField(data: BuildData, e1: WeaponEdit, e2: WeaponEdit)
    ensures e1.Field() == e2.Field() ==> UpdateWeapon(UpdateWeapon(data, e1), e2) == UpdateWeapon(data, e2)
    ensures e1.Field() != e2.Field() ==>
      UpdateWeapon(UpdateWeapon(data, e1), e2) == UpdateWeapon(UpdateWeapon(data, e2), e1)
  {
  }

  lemma StatsEditsOfOneField(data: BuildData, e1: StatsEdit, e2: StatsEdit)
    ensures e1.Field() == e2.Field() ==> UpdateStats(UpdateStats(data, e1), e2) == UpdateStats(data, e2)
    ensures e1.Field() != e2.Field() ==>
      UpdateStats(UpdateStats(data, e1), e2) == UpdateStats(UpdateStats(data, e2), e1)
  {
  }

  // ---- Artifact edit handlers ----

  /** The artifact fields the form edits; the last two address one substat. */
  datatype ArtifactEdit =
    | EditSet(text: string)
    | EditArtifactLevel(level: int)
    | EditMainLabel(text: string)
    | EditMainValue(text: string)
    | EditSubLabel(sub: nat, text: string)
    | EditSubValue(sub: nat, text: string)
  {
    predicate OnSubstat() {
      EditSubLabel? || EditSubValue?
    }
  }

  /** The edit applies to an existing substat (the handlers are rendered per substat). */
  predicate EditFits(a: Artifact, e: ArtifactEdit) {
    e.OnSubstat() ==> e.sub < |a.subStats|
  }

  /** One handler's new entry: the edited field takes the text (or level),
      a substat edit changes that substat alone, and the rest is kept. */
  function ApplyToArtifact(a: Artifact, e: ArtifactEdit): (r: Artifact)
    requires EditFits(a, e)
    ensures r.slot == a.slot && |r.subStats| == |a.subStats|
    ensures e.EditSet? ==> r == a.(setName := e.text)
    ensures e.EditArtifactLevel? ==> r == a.(level := e.level)
    ensures e.EditMainLabel? ==> r == a.(mainStat := StatEntry(e.text, a.mainStat.value))
    ensures e.EditMainValue? ==> r == a.(mainStat := StatEntry(a.mainStat.name, e.text))
    ensures e.OnSubstat() ==>
      r.setName == a.setName && r.level == a.level && r.mainStat == a.mainStat &&
      r.imageUrl == a.imageUrl && r.rarity == a.rarity
    ensures e.OnSubstat() ==> forall j :: 0 <= j < |a.subStats| && j != e.sub ==> r.subStats[j] == a.subStats[j]
    ensures e.EditSubLabel? ==> r.subStats[e.sub] == StatEntry(e.text, a.subStats[e.sub].value)
    ensures e.EditSubValue? ==> r.subStats[e.sub] == StatEntry(a.subStats[e.sub].name, e.text)
  {
    match e
    case EditSet(v) => a.(setName := v)
    case EditArtifactLevel(v) => a.(level := v)
    case EditMainLabel(v) => a.(mainStat := a.mainStat.(name := v))
    case EditMainValue(v) => a.(mainStat := a.mainStat.(value := v))
    case EditSubLabel(i, v) => a.(subStats := a.subStats[i := a.subStats[i].(name := v)])
    case EditSubValue(i, v) => a.(subStats := a.subStats[i := a.subStats[i].(value := v)])
  }

  /** The handler of the artifact at `index`: that entry alone changes, and
      keeps its slot and its number of substats. */
  function EditArtifact(data: BuildData, index: nat, e: ArtifactEdit): (r: BuildData)
    requires index < |data.artifacts| && EditFits(data.artifacts[index], e)
    ensures r.character == data.character && r.weapon == data.weapon
    ensures r.stats == data.stats && r.scoreBase == data.scoreBase
    ensures |r.artifacts| == |data.artifacts|
    ensures forall j :: 0 <= j < |data.artifacts| && j != index ==> r.artifacts[j] == data.artifacts[j]
    ensures r.artifacts[index].slot == data.artifacts[index].slot
    ensures r.artifacts[index] == ApplyToArtifact(data.artifacts[index], e)
  {
    data.(artifacts := data.artifacts[index := ApplyToArtifact(data.artifacts[index], e)])
  }

  /** Editing anything but a substat leaves every artifact's score as it was. */
  lemma EditKeepsScore(data: BuildData, index: nat, e: ArtifactEdit, j: nat)
    requires index < |data.artifacts| && EditFits(data.artifacts[index], e)
    requires !e.OnSubstat() && j < |data.artifacts|
    ensures Score.ArtifactScore(EditArtifact(data, index, e).artifacts[j], data.scoreBase) ==
            Score.ArtifactScore(data.artifacts[j], data.scoreBase)
  {
    if j == index {
      Score.ScoreReadsOnlySubStats(EditArtifact(data, index, e).artifacts[j], data.artifacts[j], data.scoreBase);
    }
  }

  // ---- The UID field ----

  predicate IsFullWidthAlnum(c: char) {
    '\U{FF10}' <= c <= '\U{FF19}' || '\U{FF21}' <= c <= '\U{FF3A}' || '\U{FF41}' <= c <= '\U{FF5A}'
  }

  predicate IsAsciiAlnum(c: char) {
    '0' <= c <= '9' || 'A' <= c <= 'Z' || 'a' <= c <= 'z'
  }

  /** A full-width letter or digit becomes its ASCII twin (0xFEE0 below it). */
  function Narrow(c: char): (d: char)
    ensures IsFullWidthAlnum(c) ==> IsAsciiAlnum(d)
    ensures !IsFullWidthAlnum(c) ==> d == c
  {
    if IsFullWidthAlnum(c) then (c as int - 0xFEE0) as char else c
  }

  /** The UID clean-up: full-width letters and digits narrowed, then every
      character other than an ASCII letter or digit dropped, order kept. */
  function CleanUid(v: string): (r: string)
    ensures |r| <= |v|
    ensures forall i :: 0 <= i < |r| ==> IsAsciiAlnum(r[i])
  {
    if |v| == 0 then ""
    else
      var c := Narrow(v[0]);
      (if IsAsciiAlnum(c) then [c] else "") + CleanUid(v[1..])
  }

  /** The clean-up works character by character. */
  lemma {:induction false} CleanUidAppend(v: string, w: string)
    ensures CleanUid(v + w) == CleanUid(v) + CleanUid(w)
    decreases |v|
  {
    if |v| > 0 {
      assert (v + w)[1..] == v[1..] + w;
      CleanUidAppend(v[1..], w);
    } else {
      assert v + w == w;
    }
  }

  /** What becomes of one character: an ASCII letter or digit stays, a
      full-width one is narrowed, anything else is dropped. */
  lemma CleanUidChar(c: char)
    ensures IsAsciiAlnum(c) ==> CleanUid([c]) == [c]
    ensures IsFullWidthAlnum(c) ==> CleanUid([c]) == [(c as int - 0xFEE0) as char]
    ensures !IsAsciiAlnum(c) && !IsFullWidthAlnum(c) ==> CleanUid([c]) == ""
  {
    assert [c][1..] == "";
  }

  /** A UID that is already clean is left as it is; so cleaning twice is cleaning once. */
  lemma {:induction false} CleanUidFixed(v: string)
    requires forall i :: 0 <= i < |v| ==> IsAsciiAlnum(v[i])
    ensures CleanUid(v) == v
    decreases |v|
  {
    if |v| > 0 {
      CleanUidFixed(v[1..]);
      assert [v[0]] + v[1..] == v;
    }
  }

  lemma CleanUidIdempotent(v: string)
    ensures CleanUid(CleanUid(v)) == CleanUid(v)
  {
    CleanUidFixed(CleanUid(v));
  }

  /** The guard before fetching: nothing is fetched for a blank UID, and
      the UID is sent trimmed. */
  function FetchUid(uid: string): (r: Option<string>)
    ensures r.None? <==> forall i :: 0 <= i < |uid| ==> IsWhiteSpace(uid[i])
  {
    TrimEmptyIffBlank(uid);
    if uid == "" then None
    else if Trim(uid) == "" then None
    else Some(Trim(uid))
  }

  /** A cleaned UID is fetched exactly when it is not empty, and as it is. */
  lemma FetchCleanUid(v: string)
    ensures FetchUid(CleanUid(v)) == if CleanUid(v) == "" then None else Some(CleanUid(v))
  {
    var u := CleanUid(v);
    if u != "" {
      assert !IsWhiteSpace(u[0]);
      assert TrimStart(u) == u;
      assert !IsWhiteSpace(u[|u| - 1]);
      assert TrimEnd(u) == u;
    }
  }
}
