/** The offline generator of the game database (scripts/update-game-data.js):
    from the game's configuration tables and the Japanese text map to the
    `characters`, `weapons`, `artifacts` and `artifactSets` dictionaries the
    input form reads. Fetching the tables and writing the file are not part
    of this model; the tables are its inputs. */
module UpdateGameData {
  import opened Wrappers
  import opened JsString
  import opened Types
  import opened Dict

  // ---- The configuration tables, reduced to the fields the script reads ----

  datatype SkillRow = SkillRow(id: int, skillIcon: Option<string>, proudSkillGroupId: Option<int>)

  datatype TalentRow = TalentRow(talentId: int, icon: Option<string>)

  datatype DepotRow = DepotRow(id: int, skills: Option<seq<int>>, energySkill: Option<int>, talents: Option<seq<int>>)

  datatype AvatarRow = AvatarRow(id: int, nameTextMapHash: int, iconName: string, sideIconName: string, skillDepotId: int)

  /** An entry of Enka.Network's character store: only `Element` is read. */
  datatype EnkaCharacter = EnkaCharacter(element: Option<string>)

  datatype WeaponRow = WeaponRow(id: int, nameTextMapHash: int, icon: string)

  datatype ReliquaryRow = ReliquaryRow(id: int, nameTextMapHash: int, icon: string, setId: Option<int>)

  datatype ReliquarySetRow = ReliquarySetRow(setId: Option<int>, equipAffixId: Option<int>)

  datatype AffixRow = AffixRow(id: int, nameTextMapHash: Option<int>)

  datatype Config = Config(
    textMap: map<int, string>,
    avatars: seq<AvatarRow>,
    depots: seq<DepotRow>,
    skills: seq<SkillRow>,
    talents: seq<TalentRow>,
    enka: map<int, EnkaCharacter>,
    weapons: seq<WeaponRow>,
    reliquaries: seq<ReliquaryRow>,
    sets: seq<ReliquarySetRow>,
    affixes: seq<AffixRow>)

  /** `textMap[hash]` when it is a non-empty text (the script's `if (name)`). */
  function TextOf(textMap: map<int, string>, hash: int): (r: Option<string>)
    ensures r.Some? ==> |r.value| > 0
  {
    if hash in textMap && textMap[hash] != "" then Some(textMap[hash]) else None
  }

  // ---- The lookup tables ----

  function SkillIconEntry(s: SkillRow): Option<(int, Option<string>)> {
    Some((s.id, s.skillIcon))
  }

  function SkillGroupEntry(s: SkillRow): Option<(int, Option<int>)> {
    Some((s.id, s.proudSkillGroupId))
  }

  function TalentEntry(t: TalentRow): Option<(int, Option<string>)> {
    Some((t.talentId, t.icon))
  }

  function DepotEntry(d: DepotRow): Option<(int, DepotRow)> {
    Some((d.id, d))
  }

  function AffixEntry(a: AffixRow): Option<(int, AffixRow)> {
    Some((a.id, a))
  }

  /** `skillMap` and `skillProudMap`, filled by the same loop. */
  method SkillMaps(skills: seq<SkillRow>) returns (icons: map<int, Option<string>>, groups: map<int, Option<int>>)
    ensures icons == Collect(skills, SkillIconEntry)
    ensures groups == Collect(skills, SkillGroupEntry)
  {
    icons, groups := map[], map[];
    for i := 0 to |skills|
      invariant icons == Collect(skills[..i], SkillIconEntry)
      invariant groups == Collect(skills[..i], SkillGroupEntry)
    {
      assert skills[..i + 1][..i] == skills[..i];
      icons := icons[skills[i].id := skills[i].skillIcon];
      groups := groups[skills[i].id := skills[i].proudSkillGroupId];
    }
    assert skills[..|skills|] == skills;
  }

  /** What the character loop consults. */
  datatype Tables = Tables(
    textMap: map<int, string>,
    skillIcons: map<int, Option<string>>,
    skillGroups: map<int, Option<int>>,
    talentIcons: map<int, Option<string>>,
    depots: map<int, DepotRow>,
    enka: map<int, EnkaCharacter>)

  function TablesOf(cfg: Config): Tables {
    Tables(cfg.textMap, Collect(cfg.skills, SkillIconEntry), Collect(cfg.skills, SkillGroupEntry),
      Collect(cfg.talents, TalentEntry), Collect(cfg.depots, DepotEntry), cfg.enka)
  }

  // ---- Characters ----

  /** Playable characters: the decimal id starts with `1000` or `1100`. */
  predicate IsPlayableId(id: int) {
    StartsWith(IntToString(id), "1000") || StartsWith(IntToString(id), "1100")
  }

  /** The record of one skill id: its icon and proud-skill group, each
      absent when the skill table has none. */
  function SkillRecordOf(id: int, t: Tables): (r: SkillRecord)
    ensures r.id == id
  {
    SkillRecord(
      id,
      if id in t.skillIcons then t.skillIcons[id] else None,
      if id in t.skillGroups then t.skillGroups[id] else None)
  }

  /** normal = the depot's first skill, skill = its second, burst = its
      energy skill; each present only when its source is. */
  function SkillsOf(depot: Option<DepotRow>, t: Tables): SkillSet {
    var ids := if depot.Some? && depot.value.skills.Some? then depot.value.skills.value else [];
    SkillSet(
      if |ids| > 0 then Some(SkillRecordOf(ids[0], t)) else None,
      if |ids| > 1 then Some(SkillRecordOf(ids[1], t)) else None,
      if depot.Some? && Truthy(depot.value.energySkill) then Some(SkillRecordOf(depot.value.energySkill.value, t)) else None)
  }

  /** The constellation icons: one per positive talent id, in depot order. */
  function Constellations(ids: seq<int>, icons: map<int, Option<string>>): (r: seq<Option<string>>)
    ensures |r| <= |ids|
    decreases |ids|
  {
    if |ids| == 0 then []
    else
      var rest := Constellations(ids[..|ids| - 1], icons);
      var id := ids[|ids| - 1];
      if id > 0 then rest + [if id in icons then icons[id] else None] else rest
  }

  /** The number of positive ids. */
  function PositiveCount(ids: seq<int>): nat
    decreases |ids|
  {
    if |ids| == 0 then 0 else PositiveCount(ids[..|ids| - 1]) + (if ids[|ids| - 1] > 0 then 1 else 0)
  }

  /** The loop that pushes the icons of the positive talent ids. */
  method ConstellationList(ids: seq<int>, icons: map<int, Option<string>>) returns (cs: seq<Option<string>>)
    ensures cs == Constellations(ids, icons)
  {
    cs := [];
    for i := 0 to |ids|
      invariant cs == Constellations(ids[..i], icons)
    {
      assert ids[..i + 1][..i] == ids[..i];
      if ids[i] > 0 {
        cs := cs + [if ids[i] in icons then icons[ids[i]] else None];
      }
    }
    assert ids[..|ids|] == ids;
  }

  /** One icon per positive talent id. */
  lemma {:induction false} ConstellationsCount(ids: seq<int>, icons: map<int, Option<string>>)
    ensures |Constellations(ids, icons)| == PositiveCount(ids)
    ensures (forall i :: 0 <= i < |ids| ==> ids[i] <= 0) ==> Constellations(ids, icons) == []
    decreases |ids|
  {
    if |ids| > 0 {
      ConstellationsCount(ids[..|ids| - 1], icons);
      if forall i :: 0 <= i < |ids| ==> ids[i] <= 0 {
        assert forall i :: 0 <= i < |ids| - 1 ==> ids[..|ids| - 1][i] == ids[i];
      }
    }
  }

  /** The icon the list holds for one talent id. */
  function TalentIcon(id: int, icons: map<int, Option<string>>): Option<string> {
    if id in icons then icons[id] else None
  }

  /** The lists of consecutive runs of ids concatenate. */
  lemma {:induction false} ConstellationsAppend(xs: seq<int>, ys: seq<int>, icons: map<int, Option<string>>)
    ensures Constellations(xs + ys, icons) == Constellations(xs, icons) + Constellations(ys, icons)
    decreases |ys|
  {
    if |ys| == 0 {
      assert xs + ys == xs;
    } else {
      var init, last := ys[..|ys| - 1], ys[|ys| - 1];
      assert (xs + ys)[..|xs + ys| - 1] == xs + init;
      assert (xs + ys)[|xs + ys| - 1] == last;
      ConstellationsAppend(xs, init, icons);
    }
  }

  /** One id: a positive id adds its icon, any other adds nothing. */
  lemma ConstellationsOfOne(id: int, icons: map<int, Option<string>>)
    ensures Constellations([id], icons) == if id > 0 then [TalentIcon(id, icons)] else []
  {
    assert [id][..0] == [];
  }

  /** With every talent id positive, the i-th icon is that of the i-th id. */
  lemma {:induction false} ConstellationsOfPositive(ids: seq<int>, icons: map<int, Option<string>>)
    requires forall i :: 0 <= i < |ids| ==> ids[i] > 0
    ensures |Constellations(ids, icons)| == |ids|
    ensures forall i :: 0 <= i < |ids| ==> Constellations(ids, icons)[i] == TalentIcon(ids[i], icons)
    decreases |ids|
  {
    if |ids| > 0 {
      var init := ids[..|ids| - 1];
      ConstellationsOfPositive(init, icons);
      assert forall i :: 0 <= i < |init| ==> init[i] == ids[i];
    }
  }

  /** The element switch over the store's spelling; anything else is anemo. */
  function ElementFromStore(name: string): Element {
    match name
    case "Fire" => Pyro
    case "Water" => Hydro
    case "Wind" => Anemo
    case "Electric" => Electro
    case "Grass" => Dendro
    case "Ice" => Cryo
    case "Rock" => Geo
    case _ => Anemo
  }

  function ElementOf(enka: map<int, EnkaCharacter>, id: int): Element {
    if id in enka && enka[id].element.Some? && enka[id].element.value != ""
    then ElementFromStore(enka[id].element.value)
    else Anemo
  }

  /** What one avatar row writes into `characters`: nothing unless its name
      resolves and its id is a playable one. */
  function CharacterEntry(a: AvatarRow, t: Tables): (r: Option<(int, CharacterRecord)>)
    ensures r.Some? <==> TextOf(t.textMap, a.nameTextMapHash).Some? && IsPlayableId(a.id)
    ensures r.Some? ==> r.value.0 == a.id
  {
    match TextOf(t.textMap, a.nameTextMapHash)
    case None => None
    case Some(name) =>
      if IsPlayableId(a.id) then
        var depot := Get(t.depots, a.skillDepotId);
        var ids := if depot.Some? && depot.value.talents.Some? then depot.value.talents.value else [];
        Some((a.id, CharacterRecord(
          name := name,
          icon := a.iconName,
          sideIcon := a.sideIconName,
          element := Some(ElementOf(t.enka, a.id)),
          skills := Some(SkillsOf(depot, t)),
          constellations := Some(Constellations(ids, t.talentIcons)))))
      else None
  }

  function CharacterEntries(t: Tables): AvatarRow -> Option<(int, CharacterRecord)> {
    a => CharacterEntry(a, t)
  }

  // ---- Weapons, artifact pieces and artifact sets ----

  function WeaponEntry(w: WeaponRow, textMap: map<int, string>): Option<(int, WeaponRecord)> {
    match TextOf(textMap, w.nameTextMapHash)
    case None => None
    case Some(name) => Some((w.id, WeaponRecord(name, w.icon)))
  }

  function WeaponEntries(textMap: map<int, string>): WeaponRow -> Option<(int, WeaponRecord)> {
    w => WeaponEntry(w, textMap)
  }

  function ArtifactEntry(r: ReliquaryRow, textMap: map<int, string>): Option<(int, ArtifactRecord)> {
    match TextOf(textMap, r.nameTextMapHash)
    case None => None
    case Some(name) => Some((r.id, ArtifactRecord(name, r.icon, r.setId)))
  }

  function ArtifactEntries(textMap: map<int, string>): ReliquaryRow -> Option<(int, ArtifactRecord)> {
    r => ArtifactEntry(r, textMap)
  }

  /** The row has a truthy set id and a truthy equip-affix id naming an
      affix whose truthy name hash resolves. */
  predicate SetNameResolves(s: ReliquarySetRow, textMap: map<int, string>, affixes: map<int, AffixRow>) {
    Truthy(s.setId) && Truthy(s.equipAffixId) && s.equipAffixId.value in affixes
    && Truthy(affixes[s.equipAffixId.value].nameTextMapHash)
    && TextOf(textMap, affixes[s.equipAffixId.value].nameTextMapHash.value).Some?
  }

  /** A set's name: written exactly for a row whose affix name resolves,
      under its set id and as the affix's text. */
  function SetEntry(s: ReliquarySetRow, textMap: map<int, string>, affixes: map<int, AffixRow>): (r: Option<(int, string)>)
    ensures r.Some? <==> SetNameResolves(s, textMap, affixes)
    ensures r.Some? ==> Truthy(s.setId) && r.value.0 == s.setId.value && |r.value.1| > 0
    ensures r.Some? ==> r.value.1 == TextOf(textMap, affixes[s.equipAffixId.value].nameTextMapHash.value).value
  {
    if !Truthy(s.setId) || !Truthy(s.equipAffixId) || s.equipAffixId.value !in affixes then None
    else
      var affix := affixes[s.equipAffixId.value];
      if !Truthy(affix.nameTextMapHash) then None
      else
        match TextOf(textMap, affix.nameTextMapHash.value)
        case None => None
        case Some(name) => Some((s.setId.value, name))
  }

  function SetNameEntries(textMap: map<int, string>, affixes: map<int, AffixRow>): ReliquarySetRow -> Option<(int, string)> {
    s => SetEntry(s, textMap, affixes)
  }

  // ---- The whole database ----

  /** The database the script writes. */
  function GameDataOf(cfg: Config): GameDatabase {
    GameDatabase(
      characters := Collect(cfg.avatars, CharacterEntries(TablesOf(cfg))),
      weapons := Collect(cfg.weapons, WeaponEntries(cfg.textMap)),
      artifacts := Collect(cfg.reliquaries, ArtifactEntries(cfg.textMap)),
      artifactSets := Collect(cfg.sets, SetNameEntries(cfg.textMap, Collect(cfg.affixes, AffixEntry))))
  }

  /** The script's loops, in its order. */
  method BuildGameData(cfg: Config) returns (db: GameDatabase)
    ensures db == GameDataOf(cfg)
  {
    var skillIcons, skillGroups := SkillMaps(cfg.skills);
    var talentIcons := CollectLoop(cfg.talents, TalentEntry);
    var depots := CollectLoop(cfg.depots, DepotEntry);
    var t := Tables(cfg.textMap, skillIcons, skillGroups, talentIcons, depots, cfg.enka);
    var characters := CollectLoop(cfg.avatars, CharacterEntries(t));
    var weapons := CollectLoop(cfg.weapons, WeaponEntries(cfg.textMap));
    var artifacts := CollectLoop(cfg.reliquaries, ArtifactEntries(cfg.textMap));
    var affixes := CollectLoop(cfg.affixes, AffixEntry);
    var sets := CollectLoop(cfg.sets, SetNameEntries(cfg.textMap, affixes));
    db := GameDatabase(characters, weapons, artifacts, sets);
  }

  // ---- Properties of the generated database ----

  /** Some avatar row with this id has a resolvable name. */
  predicate NamedAvatar(cfg: Config, id: int) {
    exists i :: 0 <= i < |cfg.avatars| && cfg.avatars[i].id == id && TextOf(cfg.textMap, cfg.avatars[i].nameTextMapHash).Some?
  }

  /** A character id is in the database exactly when some avatar row with
      that id has a resolvable name and a playable id. */
  lemma CharacterIncluded(cfg: Config, id: int)
    ensures id in GameDataOf(cfg).characters <==> IsPlayableId(id) && NamedAvatar(cfg, id)
  {
    var e := CharacterEntries(TablesOf(cfg));
    CollectDomain(cfg.avatars, e, id);
    if id in GameDataOf(cfg).characters {
      var i :| 0 <= i < |cfg.avatars| && e(cfg.avatars[i]).Some? && e(cfg.avatars[i]).value.0 == id;
      assert cfg.avatars[i].id == id;
    }
    if IsPlayableId(id) && NamedAvatar(cfg, id) {
      var i :| 0 <= i < |cfg.avatars| && cfg.avatars[i].id == id &&
                  TextOf(cfg.textMap, cfg.avatars[i].nameTextMapHash).Some?;
      assert e(cfg.avatars[i]).Some?;
    }
  }

  /** The record of the last row with a given id: its resolved name, an
      element, and a skill set and constellation list that are always
      written (empty without a depot). */
  lemma CharacterRecordFromRow(cfg: Config, i: nat)
    requires i < |cfg.avatars|
    requires TextOf(cfg.textMap, cfg.avatars[i].nameTextMapHash).Some? && IsPlayableId(cfg.avatars[i].id)
    requires forall j :: i < j < |cfg.avatars| ==> cfg.avatars[j].id != cfg.avatars[i].id
    ensures cfg.avatars[i].id in GameDataOf(cfg).characters
    ensures GameDataOf(cfg).characters[cfg.avatars[i].id].name == TextOf(cfg.textMap, cfg.avatars[i].nameTextMapHash).value
    ensures GameDataOf(cfg).characters[cfg.avatars[i].id].element == Some(ElementOf(cfg.enka, cfg.avatars[i].id))
    ensures GameDataOf(cfg).characters[cfg.avatars[i].id].icon == cfg.avatars[i].iconName
    ensures GameDataOf(cfg).characters[cfg.avatars[i].id].sideIcon == cfg.avatars[i].sideIconName
    ensures var depot := Get(TablesOf(cfg).depots, cfg.avatars[i].skillDepotId);
      GameDataOf(cfg).characters[cfg.avatars[i].id].skills == Some(SkillsOf(depot, TablesOf(cfg))) &&
      GameDataOf(cfg).characters[cfg.avatars[i].id].constellations ==
        Some(Constellations(if depot.Some? && depot.value.talents.Some? then depot.value.talents.value else [],
                            TablesOf(cfg).talentIcons))
  {
    var e := CharacterEntries(TablesOf(cfg));
    forall j | i < j < |cfg.avatars|
      ensures e(cfg.avatars[j]).None? || e(cfg.avatars[j]).value.0 != e(cfg.avatars[i]).value.0
    {
    }
    CollectLast(cfg.avatars, e, i);
  }

  /** Every generated name is non-empty, so the form never falls back to its
      placeholder names for an id the database contains. */
  lemma GeneratedNamesNonEmpty(cfg: Config)
    ensures forall k :: k in GameDataOf(cfg).characters ==> GameDataOf(cfg).characters[k].name != ""
    ensures forall k :: k in GameDataOf(cfg).weapons ==> GameDataOf(cfg).weapons[k].name != ""
    ensures forall k :: k in GameDataOf(cfg).artifacts ==> GameDataOf(cfg).artifacts[k].name != ""
    ensures forall k :: k in GameDataOf(cfg).artifactSets ==> GameDataOf(cfg).artifactSets[k] != ""
  {
    var t := TablesOf(cfg);
    CollectValues(cfg.avatars, CharacterEntries(t), (c: CharacterRecord) => c.name != "");
    CollectValues(cfg.weapons, WeaponEntries(cfg.textMap), (w: WeaponRecord) => w.name != "");
    CollectValues(cfg.reliquaries, ArtifactEntries(cfg.textMap), (r: ArtifactRecord) => r.name != "");
    CollectValues(cfg.sets, SetNameEntries(cfg.textMap, Collect(cfg.affixes, AffixEntry)), (s: string) => s != "");
  }

  /** Set names are stored only under truthy set ids. */
  lemma SetIdsAreTruthy(cfg: Config, k: int)
    requires k in GameDataOf(cfg).artifactSets
    ensures k != 0
  {
    var e := SetNameEntries(cfg.textMap, Collect(cfg.affixes, AffixEntry));
    CollectDomain(cfg.sets, e, k);
    var i :| 0 <= i < |cfg.sets| && e(cfg.sets[i]).Some? && e(cfg.sets[i]).value.0 == k;
  }

  /** Some weapon row with this id has a resolvable name. */
  predicate NamedWeapon(cfg: Config, id: int) {
    exists j :: 0 <= j < |cfg.weapons| && cfg.weapons[j].id == id && TextOf(cfg.textMap, cfg.weapons[j].nameTextMapHash).Some?
  }

  /** A weapon is recorded exactly when some row with its id has a resolvable name. */
  lemma WeaponIncluded(cfg: Config, id: int)
    ensures id in GameDataOf(cfg).weapons <==> NamedWeapon(cfg, id)
  {
    var e := WeaponEntries(cfg.textMap);
    CollectDomain(cfg.weapons, e, id);
    if id in GameDataOf(cfg).weapons {
      var j :| 0 <= j < |cfg.weapons| && e(cfg.weapons[j]).Some? && e(cfg.weapons[j]).value.0 == id;
      assert cfg.weapons[j].id == id;
    }
    if NamedWeapon(cfg, id) {
      var j :| 0 <= j < |cfg.weapons| && cfg.weapons[j].id == id &&
               TextOf(cfg.textMap, cfg.weapons[j].nameTextMapHash).Some?;
      assert e(cfg.weapons[j]).Some?;
    }
  }

  /** The record of the last row with a given id keeps that row's name and icon. */
  lemma WeaponRecordOfLastRow(cfg: Config, i: nat)
    requires i < |cfg.weapons|
    requires forall j :: i < j < |cfg.weapons| ==> cfg.weapons[j].id != cfg.weapons[i].id
    requires TextOf(cfg.textMap, cfg.weapons[i].nameTextMapHash).Some?
    ensures cfg.weapons[i].id in GameDataOf(cfg).weapons
    ensures GameDataOf(cfg).weapons[cfg.weapons[i].id] ==
      WeaponRecord(TextOf(cfg.textMap, cfg.weapons[i].nameTextMapHash).value, cfg.weapons[i].icon)
  {
    var e := WeaponEntries(cfg.textMap);
    forall j | i < j < |cfg.weapons|
      ensures e(cfg.weapons[j]).None? || e(cfg.weapons[j]).value.0 != e(cfg.weapons[i]).value.0
    {
    }
    CollectLast(cfg.weapons, e, i);
  }

  /** The equip-affix table the set loop reads. */
  function AffixTable(cfg: Config): map<int, AffixRow> {
    Collect(cfg.affixes, AffixEntry)
  }

  /** Some set row with this id has a resolvable affix name. */
  predicate NamedSet(cfg: Config, id: int) {
    exists j :: 0 <= j < |cfg.sets| && cfg.sets[j].setId == Some(id)
      && SetNameResolves(cfg.sets[j], cfg.textMap, AffixTable(cfg))
  }

  /** A set id is recorded exactly when some row with that id has a
      resolvable affix name. */
  lemma SetNameIncluded(cfg: Config, id: int)
    ensures id in GameDataOf(cfg).artifactSets <==> NamedSet(cfg, id)
  {
    var e := SetNameEntries(cfg.textMap, AffixTable(cfg));
    CollectDomain(cfg.sets, e, id);
    if id in GameDataOf(cfg).artifactSets {
      var j :| 0 <= j < |cfg.sets| && e(cfg.sets[j]).Some? && e(cfg.sets[j]).value.0 == id;
      assert cfg.sets[j].setId == Some(id);
    }
    if NamedSet(cfg, id) {
      var j :| 0 <= j < |cfg.sets| && cfg.sets[j].setId == Some(id)
        && SetNameResolves(cfg.sets[j], cfg.textMap, AffixTable(cfg));
      assert e(cfg.sets[j]).Some?;
    }
  }

  /** The name stored for a set is the affix text of the last row with its id. */
  lemma SetNameOfLastRow(cfg: Config, i: nat)
    requires i < |cfg.sets| && SetNameResolves(cfg.sets[i], cfg.textMap, AffixTable(cfg))
    requires forall j :: i < j < |cfg.sets| ==> cfg.sets[j].setId != cfg.sets[i].setId
    ensures cfg.sets[i].setId.value in GameDataOf(cfg).artifactSets
    ensures GameDataOf(cfg).artifactSets[cfg.sets[i].setId.value] ==
      TextOf(cfg.textMap, AffixTable(cfg)[cfg.sets[i].equipAffixId.value].nameTextMapHash.value).value
  {
    var e := SetNameEntries(cfg.textMap, AffixTable(cfg));
    forall j | i < j < |cfg.sets|
      ensures e(cfg.sets[j]).None? || e(cfg.sets[j]).value.0 != e(cfg.sets[i]).value.0
    {
    }
    CollectLast(cfg.sets, e, i);
  }

  /** Some reliquary row with this id has a resolvable name. */
  predicate NamedPiece(cfg: Config, id: int) {
    exists j :: 0 <= j < |cfg.reliquaries| && cfg.reliquaries[j].id == id && TextOf(cfg.textMap, cfg.reliquaries[j].nameTextMapHash).Some?
  }

  /** An artifact piece is recorded exactly when some row with its id has a
      resolvable name. */
  lemma PieceIncluded(cfg: Config, id: int)
    ensures id in GameDataOf(cfg).artifacts <==> NamedPiece(cfg, id)
  {
    var e := ArtifactEntries(cfg.textMap);
    CollectDomain(cfg.reliquaries, e, id);
    if id in GameDataOf(cfg).artifacts {
      var j :| 0 <= j < |cfg.reliquaries| && e(cfg.reliquaries[j]).Some? && e(cfg.reliquaries[j]).value.0 == id;
      assert cfg.reliquaries[j].id == id;
    }
    if NamedPiece(cfg, id) {
      var j :| 0 <= j < |cfg.reliquaries| && cfg.reliquaries[j].id == id &&
               TextOf(cfg.textMap, cfg.reliquaries[j].nameTextMapHash).Some?;
      assert e(cfg.reliquaries[j]).Some?;
    }
  }

  /** The record of the last row with a given id keeps the row's icon and set id. */
  lemma PieceRecord(cfg: Config, i: nat)
    requires i < |cfg.reliquaries|
    requires forall j :: i < j < |cfg.reliquaries| ==> cfg.reliquaries[j].id != cfg.reliquaries[i].id
    requires TextOf(cfg.textMap, cfg.reliquaries[i].nameTextMapHash).Some?
    ensures cfg.reliquaries[i].id in GameDataOf(cfg).artifacts
    ensures GameDataOf(cfg).artifacts[cfg.reliquaries[i].id] ==
      ArtifactRecord(TextOf(cfg.textMap, cfg.reliquaries[i].nameTextMapHash).value,
                     cfg.reliquaries[i].icon, cfg.reliquaries[i].setId)
  {
    var e := ArtifactEntries(cfg.textMap);
    forall j | i < j < |cfg.reliquaries|
      ensures e(cfg.reliquaries[j]).None? || e(cfg.reliquaries[j]).value.0 != e(cfg.reliquaries[i]).value.0
    {
    }
    CollectLast(cfg.reliquaries, e, i);
  }

  /** Without a depot a character has no skills and no constellations. */
  lemma NoDepot(a: AvatarRow, t: Tables)
    requires a.skillDepotId !in t.depots
    requires CharacterEntry(a, t).Some?
    ensures CharacterEntry(a, t).value.1.skills == Some(SkillSet(None, None, None))
    ensures CharacterEntry(a, t).value.1.constellations == Some([])
  {
  }

  /** The three talents come from the depot's first skill, second skill and
      energy skill. */
  lemma SkillSlots(d: DepotRow, t: Tables, first: int, second: int, rest: seq<int>)
    requires d.skills == Some([first, second] + rest)
    ensures SkillsOf(Some(d), t).normal == Some(SkillRecordOf(first, t))
    ensures SkillsOf(Some(d), t).skill == Some(SkillRecordOf(second, t))
    ensures SkillsOf(Some(d), t).burst.Some? <==> Truthy(d.energySkill)
  {
  }

  /** Without a depot nothing is set; a missing or empty skill list sets
      neither normal nor skill; a one-skill list sets normal only. */
  lemma SkillsOfShortList(depot: Option<DepotRow>, t: Tables, first: int)
    ensures depot.None? ==> SkillsOf(depot, t) == SkillSet(None, None, None)
    ensures depot.Some? && (depot.value.skills.None? || depot.value.skills == Some([])) ==>
      SkillsOf(depot, t).normal.None? && SkillsOf(depot, t).skill.None?
    ensures depot.Some? && depot.value.skills == Some([first]) ==>
      SkillsOf(depot, t).normal == Some(SkillRecordOf(first, t)) && SkillsOf(depot, t).skill.None?
    ensures depot.Some? ==>
      (SkillsOf(depot, t).burst.Some? <==> Truthy(depot.value.energySkill))
  {
  }

  /** A skill's icon and proud-skill group are those of the last skill row
      with its id. */
  lemma SkillRecordFromRow(cfg: Config, i: nat)
    requires i < |cfg.skills|
    requires forall j :: i < j < |cfg.skills| ==> cfg.skills[j].id != cfg.skills[i].id
    ensures SkillRecordOf(cfg.skills[i].id, TablesOf(cfg)) ==
      SkillRecord(cfg.skills[i].id, cfg.skills[i].skillIcon, cfg.skills[i].proudSkillGroupId)
  {
    CollectLast(cfg.skills, SkillIconEntry, i);
    CollectLast(cfg.skills, SkillGroupEntry, i);
  }

  /** A skill id no row of the skill table has gets neither icon nor group. */
  lemma SkillRecordWithoutRow(cfg: Config, id: int)
    requires forall j :: 0 <= j < |cfg.skills| ==> cfg.skills[j].id != id
    ensures SkillRecordOf(id, TablesOf(cfg)) == SkillRecord(id, None, None)
  {
    CollectDomain(cfg.skills, SkillIconEntry, id);
    CollectDomain(cfg.skills, SkillGroupEntry, id);
  }

  /** The seven spellings of the store name the seven elements; an unknown one is anemo. */
  lemma ElementNames(name: string)
    ensures ElementFromStore("Fire") == Pyro && ElementFromStore("Water") == Hydro
    ensures ElementFromStore("Wind") == Anemo && ElementFromStore("Electric") == Electro
    ensures ElementFromStore("Grass") == Dendro && ElementFromStore("Ice") == Cryo
    ensures ElementFromStore("Rock") == Geo
    ensures name !in {"Fire", "Water", "Electric", "Grass", "Ice", "Rock"} ==> ElementFromStore(name) == Anemo
  {
  }

  /** A negative id is never playable: its text starts with `-`. */
  lemma NegativeIdsExcluded(id: int)
    requires id < 0
    ensures !IsPlayableId(id)
  {
    assert IntToString(id)[0] == '-';
  }
}
