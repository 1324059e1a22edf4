/** The stat-code translator (src/utils/mappings.ts): the fixed table from
    internal fight-property codes to display labels, the percent-stat
    classification and the value formatter. */
module Mappings {
  import opened Wrappers
  import opened JsString
  import opened JsNumber

  /** `statMap`: the twenty codes the card knows, with their labels. */
  const StatMap: map<string, string> := map[
    "FIGHT_PROP_HP" := "HP",
    "FIGHT_PROP_HP_PERCENT" := "HP%",
    "FIGHT_PROP_ATTACK" := "攻撃力",
    "FIGHT_PROP_BASE_ATTACK" := "基礎攻撃力",
    "FIGHT_PROP_ATTACK_PERCENT" := "攻撃力%",
    "FIGHT_PROP_DEFENSE" := "防御力",
    "FIGHT_PROP_DEFENSE_PERCENT" := "防御力%",
    "FIGHT_PROP_CRITICAL" := "会心率",
    "FIGHT_PROP_CRITICAL_HURT" := "会心ダメージ",
    "FIGHT_PROP_CHARGE_EFFICIENCY" := "元素チャージ効率",
    "FIGHT_PROP_ELEMENT_MASTERY" := "元素熟知",
    "FIGHT_PROP_PHYSICAL_ADD_HURT" := "物理ダメージ",
    "FIGHT_PROP_FIRE_ADD_HURT" := "炎元素ダメージ",
    "FIGHT_PROP_ELEC_ADD_HURT" := "雷元素ダメージ",
    "FIGHT_PROP_WATER_ADD_HURT" := "水元素ダメージ",
    "FIGHT_PROP_GRASS_ADD_HURT" := "草元素ダメージ",
    "FIGHT_PROP_WIND_ADD_HURT" := "風元素ダメージ",
    "FIGHT_PROP_ROCK_ADD_HURT" := "岩元素ダメージ",
    "FIGHT_PROP_ICE_ADD_HURT" := "氷元素ダメージ",
    "FIGHT_PROP_HEAL_ADD" := "与える治癒効果"
  ]

  /** The twenty labels of the table, in four groups of five. */
  const StatLabels0: set<string> := {"HP", "HP%", "攻撃力", "基礎攻撃力", "攻撃力%"}
  const StatLabels1: set<string> := {"防御力", "防御力%", "会心率", "会心ダメージ", "元素チャージ効率"}
  const StatLabels2: set<string> := {"元素熟知", "物理ダメージ", "炎元素ダメージ", "雷元素ダメージ", "水元素ダメージ"}
  const StatLabels3: set<string> := {"草元素ダメージ", "風元素ダメージ", "岩元素ダメージ", "氷元素ダメージ", "与える治癒効果"}
  const StatLabels: set<string> := StatLabels0 + StatLabels1 + StatLabels2 + StatLabels3

  /** Each group holds five distinct labels. */
  lemma LabelGroupSizes()
    ensures |StatLabels0| == 5 && |StatLabels1| == 5
    ensures |StatLabels2| == 5 && |StatLabels3| == 5
  {
  }

  /** The first group shares no label with the others. */
  lemma LabelGroupsDisjointLow()
    ensures StatLabels0 !! StatLabels1 && StatLabels0 !! StatLabels2 && StatLabels0 !! StatLabels3
  {
  }

  /** The last three groups share no label. */
  lemma LabelGroupsDisjointHigh()
    ensures StatLabels1 !! StatLabels2 && StatLabels1 !! StatLabels3 && StatLabels2 !! StatLabels3
  {
  }

  /** A map that sends distinct keys to distinct values has as many values
      as keys. */
  lemma {:induction false} InjectiveMapSize<K, V>(m: map<K, V>)
    requires forall a, b :: a in m && b in m && a != b ==> m[a] != m[b]
    ensures |m.Values| == |m.Keys|
    decreases |m|
  {
    if |m| > 0 {
      var k :| k in m;
      var rest := m - {k};
      InjectiveMapSize(rest);
      assert m.Keys == rest.Keys + {k};
      forall v | v in m.Values
        ensures v in rest.Values + {m[k]}
      {
        var j :| j in m && m[j] == v;
        if j != k {
          assert j in rest;
        }
      }
      assert m.Values == rest.Values + {m[k]};
      assert m[k] !in rest.Values;
    }
  }

  /** The table read backwards, from a label to its code. */
  function CodeOfLabel(name: string): string {
    match name
    case "HP" => "FIGHT_PROP_HP"
    case "HP%" => "FIGHT_PROP_HP_PERCENT"
    case "攻撃力" => "FIGHT_PROP_ATTACK"
    case "基礎攻撃力" => "FIGHT_PROP_BASE_ATTACK"
    case "攻撃力%" => "FIGHT_PROP_ATTACK_PERCENT"
    case "防御力" => "FIGHT_PROP_DEFENSE"
    case "防御力%" => "FIGHT_PROP_DEFENSE_PERCENT"
    case "会心率" => "FIGHT_PROP_CRITICAL"
    case "会心ダメージ" => "FIGHT_PROP_CRITICAL_HURT"
    case "元素チャージ効率" => "FIGHT_PROP_CHARGE_EFFICIENCY"
    case "元素熟知" => "FIGHT_PROP_ELEMENT_MASTERY"
    case "物理ダメージ" => "FIGHT_PROP_PHYSICAL_ADD_HURT"
    case "炎元素ダメージ" => "FIGHT_PROP_FIRE_ADD_HURT"
    case "雷元素ダメージ" => "FIGHT_PROP_ELEC_ADD_HURT"
    case "水元素ダメージ" => "FIGHT_PROP_WATER_ADD_HURT"
    case "草元素ダメージ" => "FIGHT_PROP_GRASS_ADD_HURT"
    case "風元素ダメージ" => "FIGHT_PROP_WIND_ADD_HURT"
    case "岩元素ダメージ" => "FIGHT_PROP_ROCK_ADD_HURT"
    case "氷元素ダメージ" => "FIGHT_PROP_ICE_ADD_HURT"
    case "与える治癒効果" => "FIGHT_PROP_HEAL_ADD"
    case _ => ""
  }

  /** No two codes of the table share a label. */
  lemma StatMapInjective()
    ensures forall a, b :: a in StatMap && b in StatMap && a != b ==> StatMap[a] != StatMap[b]
  {
    assert forall k :: k in StatMap ==> CodeOfLabel(StatMap[k]) == k;
  }

  /** Every label of the table is one of the twenty. */
  lemma StatValuesInLabels()
    ensures forall k :: k in StatMap ==> StatMap[k] in StatLabels
  {
  }

  /** The entries of lines 2-6 of the table. */
  lemma StatEntries0()
    ensures StatMap["FIGHT_PROP_HP"] == "HP"
    ensures StatMap["FIGHT_PROP_HP_PERCENT"] == "HP%"
    ensures StatMap["FIGHT_PROP_ATTACK"] == "攻撃力"
    ensures StatMap["FIGHT_PROP_BASE_ATTACK"] == "基礎攻撃力"
    ensures StatMap["FIGHT_PROP_ATTACK_PERCENT"] == "攻撃力%"
  {
  }

  /** The entries of lines 7-11 of the table. */
  lemma StatEntries1()
    ensures StatMap["FIGHT_PROP_DEFENSE"] == "防御力"
    ensures StatMap["FIGHT_PROP_DEFENSE_PERCENT"] == "防御力%"
    ensures StatMap["FIGHT_PROP_CRITICAL"] == "会心率"
    ensures StatMap["FIGHT_PROP_CRITICAL_HURT"] == "会心ダメージ"
    ensures StatMap["FIGHT_PROP_CHARGE_EFFICIENCY"] == "元素チャージ効率"
  {
  }

  /** The entries of lines 12-16 of the table. */
  lemma StatEntries2()
    ensures StatMap["FIGHT_PROP_ELEMENT_MASTERY"] == "元素熟知"
    ensures StatMap["FIGHT_PROP_PHYSICAL_ADD_HURT"] == "物理ダメージ"
    ensures StatMap["FIGHT_PROP_FIRE_ADD_HURT"] == "炎元素ダメージ"
    ensures StatMap["FIGHT_PROP_ELEC_ADD_HURT"] == "雷元素ダメージ"
    ensures StatMap["FIGHT_PROP_WATER_ADD_HURT"] == "水元素ダメージ"
  {
  }

  /** The entries of lines 17-21 of the table. */
  lemma StatEntries3()
    ensures StatMap["FIGHT_PROP_GRASS_ADD_HURT"] == "草元素ダメージ"
    ensures StatMap["FIGHT_PROP_WIND_ADD_HURT"] == "風元素ダメージ"
    ensures StatMap["FIGHT_PROP_ROCK_ADD_HURT"] == "岩元素ダメージ"
    ensures StatMap["FIGHT_PROP_ICE_ADD_HURT"] == "氷元素ダメージ"
    ensures StatMap["FIGHT_PROP_HEAL_ADD"] == "与える治癒効果"
  {
  }

  lemma StatLabelsInValues0()
    ensures StatLabels0 <= StatMap.Values
  {
    StatEntries0();
  }

  lemma StatLabelsInValues1()
    ensures StatLabels1 <= StatMap.Values
  {
    StatEntries1();
  }

  lemma StatLabelsInValues2()
    ensures StatLabels2 <= StatMap.Values
  {
    StatEntries2();
  }

  lemma StatLabelsInValues3()
    ensures StatLabels3 <= StatMap.Values
  {
    StatEntries3();
  }

  /** Each of the twenty labels is the label of some code. */
  lemma StatLabelsInValues()
    ensures StatLabels <= StatMap.Values
  {
    StatLabelsInValues0();
    StatLabelsInValues1();
    StatLabelsInValues2();
    StatLabelsInValues3();
  }

  /** The labels of the table are exactly the twenty. */
  lemma StatMapValues()
    ensures StatMap.Values == StatLabels
  {
    StatValuesInLabels();
    StatLabelsInValues();
  }

  /** The twenty labels are distinct. */
  lemma LabelCount()
    ensures |StatLabels| == 20
  {
    LabelGroupSizes();
    LabelGroupsDisjointLow();
    LabelGroupsDisjointHigh();
    assert |StatLabels0 + StatLabels1| == 10;
    assert |StatLabels0 + StatLabels1 + StatLabels2| == 15;
  }

  /** The table has one label per code. */
  lemma StatMapOneLabelPerCode()
    ensures |StatMap| == |StatMap.Values|
  {
    StatMapInjective();
    InjectiveMapSize(StatMap);
  }

  /** The table uses twenty distinct labels. */
  lemma StatMapLabelCount()
    ensures |StatMap.Values| == 20
  {
    StatMapValues();
    LabelCount();
  }

  /** The table has exactly twenty entries and no two codes share a label. */
  lemma StatMapShape()
    ensures |StatMap| == 20
    ensures forall a, b :: a in StatMap && b in StatMap && a != b ==> StatMap[a] != StatMap[b]
  {
    StatMapOneLabelPerCode();
    StatMapLabelCount();
    StatMapInjective();
  }

  /** `statMap[code] || code`: the label, or the raw code when it is unmapped. */
  function LabelOf(code: string): (r: string)
    ensures code in StatMap ==> r == StatMap[code]
    ensures code !in StatMap ==> r == code
  {
    if code in StatMap && StatMap[code] != "" then StatMap[code] else code
  }

  /** `isPercentStat` */
  predicate IsPercentStat(code: string) {
    EndsWith(code, "_PERCENT") ||
    code == "FIGHT_PROP_CRITICAL" ||
    code == "FIGHT_PROP_CRITICAL_HURT" ||
    code == "FIGHT_PROP_CHARGE_EFFICIENCY" ||
    Includes(code, "_ADD_HURT") ||
    code == "FIGHT_PROP_HEAL_ADD"
  }

  /** `formatStatValue`: a percent stat is printed to one decimal WITHOUT
      scaling and followed by `%`; any other stat is rounded to an integer. */
  function FormatStatValue(code: string, value: real): string {
    if IsPercentStat(code) then ToFixed1String(value) + "%"
    else IntToString(MathRound(value))
  }

  /** Every code ending in `_PERCENT` or containing `_ADD_HURT`, and the four
      named codes, are percent stats. */
  lemma PercentCodes(code: string)
    requires EndsWith(code, "_PERCENT") || Includes(code, "_ADD_HURT") ||
             code in {"FIGHT_PROP_CRITICAL", "FIGHT_PROP_CRITICAL_HURT",
                      "FIGHT_PROP_CHARGE_EFFICIENCY", "FIGHT_PROP_HEAL_ADD"}
    ensures IsPercentStat(code)
  {
  }

  /** A code without the letter `U` cannot contain `_ADD_HURT`. */
  lemma NoAddHurt(code: string)
    requires 'U' !in code
    ensures !Includes(code, "_ADD_HURT")
  {
    if Includes(code, "_ADD_HURT") {
      IncludesChars(code, "_ADD_HURT", 'U');
    }
  }

  /** A code that passes none of the six tests is a flat stat. */
  lemma FlatCode(code: string)
    requires !EndsWith(code, "_PERCENT") && !Includes(code, "_ADD_HURT")
    requires code != "FIGHT_PROP_CRITICAL" && code != "FIGHT_PROP_CRITICAL_HURT"
    requires code != "FIGHT_PROP_CHARGE_EFFICIENCY" && code != "FIGHT_PROP_HEAL_ADD"
    ensures !IsPercentStat(code)
  {
  }

  /** The five flat stats of the table are not percent stats. */
  lemma FlatCodesAreNotPercent(code: string)
    requires code in {"FIGHT_PROP_HP", "FIGHT_PROP_ATTACK", "FIGHT_PROP_BASE_ATTACK",
                      "FIGHT_PROP_DEFENSE", "FIGHT_PROP_ELEMENT_MASTERY"}
    ensures !IsPercentStat(code)
  {
    NoAddHurt(code);
    FlatCode(code);
  }

  /** The seven damage-bonus codes of the table are percent stats. */
  lemma DamageBonusCodesArePercent(code: string)
    requires code in StatMap && EndsWith(code, "_ADD_HURT")
    ensures IsPercentStat(code)
  {
    EndsWithIncludes(code, "_ADD_HURT");
  }

  /** The formatted text ends in `%` exactly for percent stats. */
  lemma FormatEndsWithPercent(code: string, value: real)
    ensures var r := FormatStatValue(code, value);
      |r| > 0 && (r[|r| - 1] == '%' <==> IsPercentStat(code))
  {
  }

  /** No digit string and no `toFixed` text contains `%`. */
  lemma NoPercentSign(value: real, i: int)
    ensures '%' !in ToFixed1String(value)
    ensures '%' !in IntToString(i)
  {
    var neg := value < 0.0;
    var n := if neg then -Tenths(value) else Tenths(value);
    var digits := NatToString(n / 10);
    assert ToFixed1String(value) == (if neg then "-" else "") + digits + "." + [DigitChar(n % 10)];
  }

  /** What a reader that strips the first `%` and calls `parseFloat` gets back
      from a formatted value: the value rounded to tenths for a percent stat
      (never multiplied by 100), the nearest integer otherwise. */
  lemma FormatReadBack(code: string, value: real)
    ensures ParseFloat(ReplaceFirst(FormatStatValue(code, value), "%", ""))
         == Some(if IsPercentStat(code) then ToFixed1(value) else MathRound(value) as real)
  {
    NoPercentSign(value, MathRound(value));
    if IsPercentStat(code) {
      ReplaceFirstTrailing(ToFixed1String(value), '%');
      ParseFloatToFixed1(value);
    } else {
      ReplaceFirstAbsent(IntToString(MathRound(value)), '%', "");
      ParseFloatIntToString(MathRound(value));
    }
  }

  /** A raw crit-rate ratio of 0.331 is printed as "0.3%", not "33.1%":
      the formatter does not scale ratios. */
  lemma RatioIsNotScaled()
    ensures FormatStatValue("FIGHT_PROP_CRITICAL", 0.331) == "0.3%"
  {
    assert Tenths(0.331) == 3;
  }
}
