/** Artifact scoring and grading (src/utils/score.ts): the crit-value score
    of one artifact under a score base, and the two threshold tables that
    turn a score into a B/A/S/SS grade. */
module Score {
  import opened Wrappers
  import opened JsString
  import opened JsNumber
  import opened Types
  import Mappings

  const CritRateLabel: string := "会心率"
  const CritDamageLabel: string := "会心ダメージ"

  /** The percent label that counts once under each score base. */
  function BaseLabel(base: ScoreBase): (r: string)
    ensures r != CritRateLabel && r != CritDamageLabel
  {
    match base
    case Atk => "攻撃力%"
    case Hp => "HP%"
    case Def => "防御力%"
    case Er => "元素チャージ効率"
  }

  /** The stat code whose translated label `BaseLabel` is. */
  function BaseCode(base: ScoreBase): string {
    match base
    case Atk => "FIGHT_PROP_ATTACK_PERCENT"
    case Hp => "FIGHT_PROP_HP_PERCENT"
    case Def => "FIGHT_PROP_DEFENSE_PERCENT"
    case Er => "FIGHT_PROP_CHARGE_EFFICIENCY"
  }

  /** The `baseStat` parameter's default: an absent base scores as `atk`. */
  function ResolveBase(b: Option<ScoreBase>): (r: ScoreBase)
    ensures b.None? ==> r == Atk
    ensures b.Some? ==> r == b.value
  {
    b.GetOr(Atk)
  }

  /** The three labels that can add to the score under a base. */
  function ScoringLabels(base: ScoreBase): (r: set<string>)
    ensures CritRateLabel in r && CritDamageLabel in r && BaseLabel(base) in r
  {
    {CritRateLabel, CritDamageLabel, BaseLabel(base)}
  }

  /** A label scores exactly when it is one of the three. */
  lemma InScoringLabels(base: ScoreBase, x: string)
    ensures x in ScoringLabels(base) <==> x == CritRateLabel || x == CritDamageLabel || x == BaseLabel(base)
  {
  }

  /** The three labels are different, whatever the base. */
  lemma ThreeScoringLabels(base: ScoreBase)
    ensures |ScoringLabels(base)| == 3
  {
    assert CritRateLabel != CritDamageLabel;
  }

  /** A substat's number: `parseFloat` of its text with the first `%`
      removed; `None` is `NaN`. */
  function ParsedValue(sub: StatEntry): Option<real> {
    ParseFloat(ReplaceFirst(sub.value, "%", ""))
  }

  /** What one substat adds to the score. */
  function Contribution(sub: StatEntry, base: ScoreBase): (r: real)
    ensures ParsedValue(sub).None? || sub.name !in ScoringLabels(base) ==> r == 0.0
    ensures ParsedValue(sub).Some? && ParsedValue(sub).value >= 0.0 ==> r >= 0.0
  {
    match ParsedValue(sub)
    case None => 0.0
    case Some(v) =>
      if sub.name == CritRateLabel then v * 2.0
      else if sub.name == CritDamageLabel then v
      else if sub.name == BaseLabel(base) then v
      else 0.0
  }

  /** The sum of a weight over a list of substats, taken in order. */
  function WeightedSum(subs: seq<StatEntry>, w: StatEntry -> real): real
    decreases |subs|
  {
    if |subs| == 0 then 0.0
    else WeightedSum(subs[..|subs| - 1], w) + w(subs[|subs| - 1])
  }

  /** The weight the score gives each substat under a base. */
  function Weight(base: ScoreBase): StatEntry -> real {
    sub => Contribution(sub, base)
  }

  /** The unrounded sum the source accumulates. */
  function RawScore(subs: seq<StatEntry>, base: ScoreBase): real {
    WeightedSum(subs, Weight(base))
  }

  /** `calculateArtifactScore(artifact, baseStat)` as a value. */
  function ArtifactScore(a: Artifact, baseStat: Option<ScoreBase>): (r: real)
    ensures -0.05 <= r - RawScore(a.subStats, ResolveBase(baseStat)) <= 0.05
  {
    ToFixed1(RawScore(a.subStats, ResolveBase(baseStat)))
  }

  /** The body of the source's per-substat callback: what one substat adds. */
  method SubstatGain(sub: StatEntry, base: ScoreBase) returns (gain: real)
    ensures gain == Contribution(sub, base)
  {
    gain := 0.0;
    var parsed := ParseFloat(ReplaceFirst(sub.value, "%", ""));
    if parsed.None? {
      return;
    }
    var value := parsed.value;
    ContributionOfParsed(sub, base, value);
    if sub.name == CritRateLabel {
      gain := value * 2.0;
    } else if sub.name == CritDamageLabel {
      gain := value;
    } else {
      match base
      case Atk =>
        if sub.name == "攻撃力%" { gain := value; }
      case Hp =>
        if sub.name == "HP%" { gain := value; }
      case Def =>
        if sub.name == "防御力%" { gain := value; }
      case Er =>
        if sub.name == "元素チャージ効率" { gain := value; }
    }
  }

  /** `calculateArtifactScore`: one pass over the substats, then rounding to
      one decimal. */
  method CalculateArtifactScore(artifact: Artifact, baseStat: Option<ScoreBase>) returns (score: real)
    ensures score == ArtifactScore(artifact, baseStat)
  {
    var base := ResolveBase(baseStat);
    var subs := artifact.subStats;
    var acc := 0.0;
    for i := 0 to |subs|
      invariant acc == WeightedSum(subs[..i], Weight(base))
    {
      var gain := SubstatGain(subs[i], base);
      WeightedSumStep(subs, i, Weight(base));
      acc := acc + gain;
    }
    assert subs[..|subs|] == subs;
    score := ToFixed1(acc);
  }

  // ---- What one substat contributes ----

  /** A parsed substat whose label is not a crit label adds its value
      exactly when its label is the base's. */
  lemma ContributionOf(sub: StatEntry, base: ScoreBase, v: real)
    requires ParsedValue(sub) == Some(v)
    requires sub.name != CritRateLabel && sub.name != CritDamageLabel
    ensures Contribution(sub, base) == if sub.name == BaseLabel(base) then v else 0.0
  {
  }

  /** A crit-rate substat adds twice its value, whatever the base. */
  lemma CritRateCountsTwice(sub: StatEntry, base: ScoreBase, v: real)
    requires sub.name == CritRateLabel && ParsedValue(sub) == Some(v)
    ensures Contribution(sub, base) == 2.0 * v
  {
  }

  /** A crit-damage substat adds its value once, whatever the base. */
  lemma CritDamageCountsOnce(sub: StatEntry, base: ScoreBase, v: real)
    requires sub.name == CritDamageLabel && ParsedValue(sub) == Some(v)
    ensures Contribution(sub, base) == v
  {
  }

  /** The base's percent label adds its value once. */
  lemma BaseLabelCountsOnce(sub: StatEntry, base: ScoreBase, v: real)
    requires sub.name == BaseLabel(base) && ParsedValue(sub) == Some(v)
    ensures Contribution(sub, base) == v
  {
  }

  /** The two crit labels the score counts are the table's translations of
      crit rate and crit damage. */
  lemma CritLabelsAreTableLabels()
    ensures CritRateLabel == Mappings.LabelOf("FIGHT_PROP_CRITICAL")
    ensures CritDamageLabel == Mappings.LabelOf("FIGHT_PROP_CRITICAL_HURT")
  {
    Mappings.StatEntries1();
  }

  /** The base's label is the table's translation of the base's code. */
  lemma BaseLabelIsTableLabel(base: ScoreBase)
    ensures BaseLabel(base) == Mappings.LabelOf(BaseCode(base))
  {
    match base
    case Atk => Mappings.StatEntries0();
    case Hp => Mappings.StatEntries0();
    case Def => Mappings.StatEntries1();
    case Er => Mappings.StatEntries1();
  }

  /** The base's code is a percent stat. */
  lemma BaseCodeIsPercent(base: ScoreBase)
    ensures Mappings.IsPercentStat(BaseCode(base))
  {
    if base != Er {
      assert EndsWith(BaseCode(base), "_PERCENT");
    }
  }

  /** A substat whose text the card printed with `formatStatValue` for a
      percent code reads back as the value rounded to tenths. */
  lemma FormattedSubstatValue(name: string, code: string, v: real)
    requires Mappings.IsPercentStat(code)
    ensures ParsedValue(StatEntry(name, Mappings.FormatStatValue(code, v))) == Some(ToFixed1(v))
  {
    Mappings.FormatReadBack(code, v);
  }

  /** The weight of a parsed substat: 2 for crit rate, 1 for the other two
      counted labels, 0 otherwise. */
  lemma ContributionOfParsed(sub: StatEntry, base: ScoreBase, v: real)
    requires ParsedValue(sub) == Some(v)
    ensures Contribution(sub, base) ==
      (if sub.name == CritRateLabel then 2.0 * v
       else if sub.name == CritDamageLabel || sub.name == BaseLabel(base) then v
       else 0.0)
  {
  }

  // ---- The sum over the substats ----

  /** The sum splits over a concatenation of substat lists. */
  lemma {:induction false} WeightedSumAppend(xs: seq<StatEntry>, ys: seq<StatEntry>, w: StatEntry -> real)
    ensures WeightedSum(xs + ys, w) == WeightedSum(xs, w) + WeightedSum(ys, w)
    decreases |ys|
  {
    if |ys| == 0 {
      assert xs + ys == xs;
    } else {
      var init := ys[..|ys| - 1];
      assert (xs + ys)[..|xs + ys| - 1] == xs + init;
      WeightedSumAppend(xs, init, w);
    }
  }

  /** Extending a prefix by one substat adds that substat's weight. */
  lemma WeightedSumStep(subs: seq<StatEntry>, i: nat, w: StatEntry -> real)
    requires i < |subs|
    ensures WeightedSum(subs[..i + 1], w) == WeightedSum(subs[..i], w) + w(subs[i])
  {
    assert subs[..i + 1][..i] == subs[..i];
  }

  /** Inserting a substat anywhere adds exactly its weight. */
  lemma {:induction false} WeightedSumInsert(subs: seq<StatEntry>, i: nat, sub: StatEntry, w: StatEntry -> real)
    requires i <= |subs|
    ensures WeightedSum(subs[..i] + [sub] + subs[i..], w) == WeightedSum(subs, w) + w(sub)
    decreases |subs|
  {
    var ins := subs[..i] + [sub] + subs[i..];
    if i == |subs| {
      assert ins[..|ins| - 1] == subs;
    } else {
      var init := subs[..|subs| - 1];
      WeightedSumInsert(init, i, sub, w);
      assert ins[..|ins| - 1] == init[..i] + [sub] + init[i..];
      assert ins[|ins| - 1] == subs[|subs| - 1];
    }
  }


  /** A sum of weights none of which is negative is not negative. */
  lemma {:induction false} WeightedSumNonNegative(subs: seq<StatEntry>, w: StatEntry -> real)
    requires forall k :: 0 <= k < |subs| ==> w(subs[k]) >= 0.0
    ensures WeightedSum(subs, w) >= 0.0
    decreases |subs|
  {
    if |subs| > 0 {
      var init := subs[..|subs| - 1];
      assert forall k :: 0 <= k < |init| ==> init[k] == subs[k];
      WeightedSumNonNegative(init, w);
    }
  }

  /** A substat that is unparsable or carries a label the base does not
      count can be added anywhere without changing the score. */
  lemma IgnoredSubstat(a: Artifact, i: nat, sub: StatEntry, baseStat: Option<ScoreBase>)
    requires i <= |a.subStats|
    requires ParsedValue(sub).None? || sub.name !in ScoringLabels(ResolveBase(baseStat))
    ensures ArtifactScore(a.(subStats := a.subStats[..i] + [sub] + a.subStats[i..]), baseStat)
         == ArtifactScore(a, baseStat)
  {
    assert Contribution(sub, ResolveBase(baseStat)) == 0.0;
    ZeroWeightInsert(a, i, sub, ResolveBase(baseStat));
  }

  lemma ZeroWeightInsert(a: Artifact, i: nat, sub: StatEntry, base: ScoreBase)
    requires i <= |a.subStats|
    requires Contribution(sub, base) == 0.0
    ensures ArtifactScore(a.(subStats := a.subStats[..i] + [sub] + a.subStats[i..]), Some(base))
         == ArtifactScore(a, Some(base))
  {
    WeightedSumInsert(a.subStats, i, sub, Weight(base));
  }

  /** Adding a counted substat with a non-negative value never lowers the score. */
  lemma ScoreMonotone(a: Artifact, i: nat, sub: StatEntry, baseStat: Option<ScoreBase>)
    requires i <= |a.subStats|
    requires ParsedValue(sub).Some? && ParsedValue(sub).value >= 0.0
    ensures ArtifactScore(a, baseStat)
         <= ArtifactScore(a.(subStats := a.subStats[..i] + [sub] + a.subStats[i..]), baseStat)
  {
    var base := ResolveBase(baseStat);
    var subs := a.subStats[..i] + [sub] + a.subStats[i..];
    WeightedSumInsert(a.subStats, i, sub, Weight(base));
    ToFixed1Monotone(RawScore(a.subStats, base), RawScore(subs, base));
  }

  /** A score is not negative when no substat reads as a negative number;
      the source does not clamp, so this needs the precondition. */
  lemma ScoreNonNegative(a: Artifact, baseStat: Option<ScoreBase>)
    requires forall k :: 0 <= k < |a.subStats| && ParsedValue(a.subStats[k]).Some? ==>
      ParsedValue(a.subStats[k]).value >= 0.0
    ensures ArtifactScore(a, baseStat) >= 0.0
  {
    var w := Weight(ResolveBase(baseStat));
    forall k | 0 <= k < |a.subStats|
      ensures w(a.subStats[k]) >= 0.0
    {
      assert w(a.subStats[k]) == Contribution(a.subStats[k], ResolveBase(baseStat));
    }
    WeightedSumNonNegative(a.subStats, w);
    ToFixed1Monotone(0.0, RawScore(a.subStats, ResolveBase(baseStat)));
    ToFixed1OfTenths(0);
  }

  /** A substat whose text is an integer reads back as that integer. */
  lemma ParsedIntText(sub: StatEntry, i: int)
    requires sub.value == IntToString(i)
    ensures ParsedValue(sub) == Some(i as real)
  {
    Mappings.NoPercentSign(0.0, i);
    ReplaceFirstAbsent(sub.value, '%', "");
    ParseFloatIntToString(i);
  }

  /** A substat printed as a number of tenths followed by `%` reads back as
      that number of tenths. */
  lemma ParsedPercentText(sub: StatEntry, n: nat)
    requires sub.value == FixedText(false, n) + "%"
    ensures ParsedValue(sub) == Some(n as real / 10.0)
  {
    var text := FixedText(false, n);
    ToFixed1OfTenths(n);
    assert Tenths(n as real / 10.0) == n;
    assert ToFixed1String(n as real / 10.0) == text;
    Mappings.NoPercentSign(n as real / 10.0, 0);
    assert text + "%" == text + ['%'];
    ReplaceFirstTrailing(text, '%');
    ParseSignedFixed(false, n);
  }

  /** The texts of the examples below. */
  lemma ExampleTexts()
    ensures IntToString(-5) == "-5"
    ensures FixedText(false, 105) + "%" == "10.5%"
    ensures FixedText(false, 150) + "%" == "15.0%"
  {
  }

  /** The weighted sum of a single substat is its weight. */
  lemma WeightedSumSingle(sub: StatEntry, w: StatEntry -> real)
    ensures WeightedSum([sub], w) == w(sub)
  {
    assert [sub][..0] == [];
  }

  /** A crit-rate substat of `-5` gives the score -10: nothing clamps it. */
  lemma NegativeSubstatGivesNegativeScore(a: Artifact, baseStat: Option<ScoreBase>)
    requires a.subStats == [StatEntry(CritRateLabel, "-5")]
    ensures ArtifactScore(a, baseStat) == -10.0
  {
    var base := ResolveBase(baseStat);
    ExampleTexts();
    ParsedIntText(a.subStats[0], -5);
    CritRateCountsTwice(a.subStats[0], base, -5.0);
    WeightedSumSingle(a.subStats[0], Weight(base));
    assert RawScore(a.subStats, base) == -10.0;
    ToFixed1OfTenths(-100);
  }

  /** The score reads only the substats: main stat, set, level and slot do
      not matter, and an absent base scores as `atk`. */
  lemma ScoreReadsOnlySubStats(a: Artifact, b: Artifact, baseStat: Option<ScoreBase>)
    requires a.subStats == b.subStats
    ensures ArtifactScore(a, baseStat) == ArtifactScore(b, baseStat)
    ensures ArtifactScore(a, None) == ArtifactScore(a, Some(Atk))
  {
  }

  // ---- Grades ----

  datatype Grade = B | A | S | SS {
    /** The grade's place in the order B < A < S < SS. */
    function Level(): (r: nat)
      ensures r <= 3
    {
      match this
      case B => 0
      case A => 1
      case S => 2
      case SS => 3
    }

    function Label(): string {
      match this
      case B => "B"
      case A => "A"
      case S => "S"
      case SS => "SS"
    }

    function Color(): string {
      match this
      case B => "#999999"
      case A => "#e6e600"
      case S => "#ff8c1a"
      case SS => "#ff4d4d"
    }
  }

  /** The grade of a score against inclusive lower bounds for SS, S and A:
      with ordered bounds, the grade reaches a level exactly when the score
      reaches that level's bound. */
  function GradeOf(score: real, ss: real, s: real, a: real): (g: Grade)
    ensures a <= s <= ss ==>
      (g.Level() >= 3 <==> score >= ss) &&
      (g.Level() >= 2 <==> score >= s) &&
      (g.Level() >= 1 <==> score >= a)
  {
    if score >= ss then SS
    else if score >= s then S
    else if score >= a then A
    else B
  }

  /** The slot names that select the strict table. */
  predicate IsFlowerOrPlume(slot: string) {
    slot == "生の花" || slot == "死の羽"
  }

  /** `getArtifactRank`: bounds 50/45/40 for the two Japanese slot names
      `生の花` and `死の羽`, 45/40/30 for every other slot string. */
  function ArtifactRank(score: real, slot: string): (g: Grade)
    ensures IsFlowerOrPlume(slot) ==>
      (g.Level() >= 3 <==> score >= 50.0) && (g.Level() >= 2 <==> score >= 45.0) &&
      (g.Level() >= 1 <==> score >= 40.0)
    ensures !IsFlowerOrPlume(slot) ==>
      (g.Level() >= 3 <==> score >= 45.0) && (g.Level() >= 2 <==> score >= 40.0) &&
      (g.Level() >= 1 <==> score >= 30.0)
  {
    if IsFlowerOrPlume(slot) then GradeOf(score, 50.0, 45.0, 40.0)
    else GradeOf(score, 45.0, 40.0, 30.0)
  }

  /** `getTotalScoreRank`: bounds 220/200/180. */
  function TotalRank(total: real): (g: Grade)
    ensures (g.Level() >= 3 <==> total >= 220.0) && (g.Level() >= 2 <==> total >= 200.0) &&
      (g.Level() >= 1 <==> total >= 180.0)
  {
    GradeOf(total, 220.0, 200.0, 180.0)
  }

  /** A higher score never gets a lower grade, on either table. */
  lemma ArtifactRankMonotone(x: real, y: real, slot: string)
    requires x <= y
    ensures ArtifactRank(x, slot).Level() <= ArtifactRank(y, slot).Level()
  {
  }

  lemma TotalRankMonotone(x: real, y: real)
    requires x <= y
    ensures TotalRank(x).Level() <= TotalRank(y).Level()
  {
  }

  /** No slot name the build record uses selects the strict table: the
      record spells slots in English, the test compares with Japanese names. */
  lemma EnglishSlotNamesUseStandardTable(s: Slot)
    ensures !IsFlowerOrPlume(SlotName(s))
  {
  }

  /** The strict table grades no slot better than the standard one. */
  lemma StrictTableIsStricter(score: real, slot: string)
    requires IsFlowerOrPlume(slot)
    ensures ArtifactRank(score, slot).Level() <= ArtifactRank(score, "goblet").Level()
  {
  }

  /** The boundaries of the standard table and the total table. */
  lemma RankBoundaries()
    ensures ArtifactRank(30.0, "goblet") == A && ArtifactRank(29.9, "goblet") == B
    ensures ArtifactRank(40.0, "生の花") == A && ArtifactRank(39.9, "生の花") == B
    ensures TotalRank(180.0) == A && TotalRank(179.9) == B
    ensures TotalRank(220.0) == SS && TotalRank(219.9) == S
  {
  }

  /** The weighted sum of two substats. */
  lemma WeightedSumTwo(x: StatEntry, y: StatEntry, w: StatEntry -> real)
    ensures WeightedSum([x, y], w) == w(x) + w(y)
  {
    WeightedSumSingle(x, w);
    assert [x, y][..1] == [x];
  }

  lemma GobletContributions(x: StatEntry, y: StatEntry, base: ScoreBase)
    requires x == StatEntry(CritRateLabel, "10.5%") && y == StatEntry(CritDamageLabel, "15.0%")
    ensures Weight(base)(x) == 21.0 && Weight(base)(y) == 15.0
  {
    ExampleTexts();
    ParsedPercentText(x, 105);
    ParsedPercentText(y, 150);
    CritRateCountsTwice(x, base, 10.5);
    CritDamageCountsOnce(y, base, 15.0);
  }

  /** A goblet with crit rate `10.5%` and crit damage `15.0%` scores
      10.5 * 2 + 15.0 = 36.0 under any base. */
  lemma GobletScore(a: Artifact, baseStat: Option<ScoreBase>)
    requires a.subStats == [StatEntry(CritRateLabel, "10.5%"), StatEntry(CritDamageLabel, "15.0%")]
    ensures ArtifactScore(a, baseStat) == 36.0
  {
    var base := ResolveBase(baseStat);
    var subs := a.subStats;
    GobletContributions(subs[0], subs[1], base);
    WeightedSumTwo(subs[0], subs[1], Weight(base));
    assert RawScore(subs, base) == 36.0;
    ToFixed1OfTenths(360);
  }

  /** ... and the card grades it A, whatever its slot. */
  lemma GobletScenario(a: Artifact, baseStat: Option<ScoreBase>)
    requires a.subStats == [StatEntry(CritRateLabel, "10.5%"), StatEntry(CritDamageLabel, "15.0%")]
    ensures ArtifactRank(ArtifactScore(a, baseStat), SlotName(a.slot)) == A
  {
    GobletScore(a, baseStat);
    EnglishSlotNamesUseStandardTable(a.slot);
  }
}
