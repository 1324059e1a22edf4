/** The build record shown on the card, the character snapshot it is filled
    from, and the game database the snapshot's ids are resolved against
    (src/types/index.ts and the database shape read by the input form). */
module Types {
  import opened Wrappers

  datatype Element = Pyro | Hydro | Anemo | Electro | Dendro | Cryo | Geo

  /** The element as the build record spells it. */
  function ElementName(e: Element): (r: string)
    ensures |r| > 0
  {
    match e
    case Pyro => "pyro"
    case Hydro => "hydro"
    case Anemo => "anemo"
    case Electro => "electro"
    case Dendro => "dendro"
    case Cryo => "cryo"
    case Geo => "geo"
  }

  /** The five artifact positions, in the order the card lists them. */
  datatype Slot = Flower | Plume | Sands | Goblet | Circlet

  /** The slot as the build record spells it. */
  function SlotName(s: Slot): (r: string)
    ensures |r| > 0
  {
    match s
    case Flower => "flower"
    case Plume => "plume"
    case Sands => "sands"
    case Goblet => "goblet"
    case Circlet => "circlet"
  }

  /** Distinct slots are spelled differently. */
  lemma SlotNameInjective(s: Slot, t: Slot)
    requires SlotName(s) == SlotName(t)
    ensures s == t
  {
  }

  /** The stat family whose percent substat counts towards the score. */
  datatype ScoreBase = Atk | Hp | Def | Er

  /** A display-ready stat `{label, value}`: a translated label and a
      pre-formatted value (`label` is a Dafny keyword, hence `name`). */
  datatype StatEntry = StatEntry(name: string, value: string)

  datatype Talent = Talent(level: int, boosted: bool, icon: string)

  datatype Talents = Talents(normal: Talent, skill: Talent, burst: Talent)

  /** `constellation` is documented as 0..6; nothing in the code enforces it. */
  datatype Character = Character(
    name: string,
    level: int,
    constellation: int,
    element: Element,
    imageUrl: Option<string>,
    talents: Talents,
    constellationIcons: Option<seq<string>>)

  /** `refinement` is documented as 1..5; nothing in the code enforces it. */
  datatype Weapon = Weapon(
    name: string,
    level: int,
    refinement: int,
    imageUrl: Option<string>,
    mainStat: Option<StatEntry>,
    subStat: Option<StatEntry>,
    rarity: Option<int>)

  /** `set` is a Dafny keyword, hence `setName`. */
  datatype Artifact = Artifact(
    setName: string,
    slot: Slot,
    mainStat: StatEntry,
    subStats: seq<StatEntry>,
    level: int,
    imageUrl: Option<string>,
    rarity: Option<int>)

  /** Flat stats are whole numbers; the four rates are percentages. */
  datatype Stats = Stats(
    hp: int, atk: int, def: int, em: int,
    cr: real, cd: real, er: real, dmgBonus: real)

  /** `artifacts` is an unbounded sequence in the type; that it holds the five
      slots in order is the invariant `Page.FiveSlots`, kept by every update. */
  datatype BuildData = BuildData(
    character: Character,
    weapon: Weapon,
    artifacts: seq<Artifact>,
    stats: Stats,
    scoreBase: Option<ScoreBase>)

  // ---- The character snapshot (one avatar of the inspection response) ----

  datatype PropMapItem = PropMapItem(propType: int, ival: string, val: Option<string>)

  datatype ItemType = ItemReliquary | ItemWeapon

  datatype EquipType = EquipBracer | EquipNecklace | EquipShoes | EquipRing | EquipDress

  /** A stat code with its raw value: the shape shared by a reliquary main
      stat (`mainPropId`), a reliquary substat and a weapon stat (`appendPropId`). */
  datatype PropValue = PropValue(propId: string, statValue: real)

  datatype FlatInfo = FlatInfo(
    nameTextMapHash: string,
    rankLevel: int,
    itemType: ItemType,
    icon: string,
    equipType: Option<EquipType>,
    setNameTextMapHash: Option<string>,
    reliquarySubstats: Option<seq<PropValue>>,
    reliquaryMainstat: Option<PropValue>,
    weaponStats: Option<seq<PropValue>>)

  datatype ReliquaryInfo = ReliquaryInfo(level: int, mainPropId: int, appendPropIdList: Option<seq<int>>)

  /** `affixValues` is `Object.values(affixMap)`, in JavaScript's enumeration order. */
  datatype WeaponInfo = WeaponInfo(level: int, promoteLevel: Option<int>, affixValues: Option<seq<int>>)

  datatype EquipItem = EquipItem(
    itemId: int,
    reliquary: Option<ReliquaryInfo>,
    weapon: Option<WeaponInfo>,
    flat: FlatInfo)

  /** Maps keyed by numeric strings in the JSON are keyed by the number here. */
  datatype AvatarInfo = AvatarInfo(
    avatarId: int,
    propMap: map<string, PropMapItem>,
    fightPropMap: map<int, real>,
    skillDepotId: int,
    inherentProudSkillList: Option<seq<int>>,
    skillLevelMap: Option<map<int, int>>,
    equipList: seq<EquipItem>,
    fetterLevel: Option<int>,
    talentIdList: Option<seq<int>>,
    proudSkillExtraLevelMap: Option<map<int, int>>)

  // ---- The game database (generated offline, read by the input form) ----

  datatype SkillRecord = SkillRecord(id: int, icon: Option<string>, proudSkillGroupId: Option<int>)

  datatype SkillSet = SkillSet(normal: Option<SkillRecord>, skill: Option<SkillRecord>, burst: Option<SkillRecord>)

  /** A constellation icon the generator could not resolve is stored as JSON
      `null`, hence the optional entries. */
  datatype CharacterRecord = CharacterRecord(
    name: string,
    icon: string,
    sideIcon: string,
    element: Option<Element>,
    skills: Option<SkillSet>,
    constellations: Option<seq<Option<string>>>)

  datatype WeaponRecord = WeaponRecord(name: string, icon: string)

  datatype ArtifactRecord = ArtifactRecord(name: string, icon: string, setId: Option<int>)

  datatype GameDatabase = GameDatabase(
    characters: map<int, CharacterRecord>,
    weapons: map<int, WeaponRecord>,
    artifacts: map<int, ArtifactRecord>,
    artifactSets: map<int, string>)

  /** JavaScript truthiness of an optional number: present and not zero. */
  predicate Truthy(o: Option<int>) {
    o.Some? && o.value != 0
  }
}
