/** The values the build card derives from a build before drawing it
    (src/components/BuildCard.tsx): set-bonus counts, the active sets, the
    total score and its grade, each piece's grade, which substats are
    highlighted, and the small lookups for colours and labels. */
module BuildCard {
  import opened Wrappers
  import opened Types
  import Score

  // ---- Set pieces ----

  /** The number of artifacts whose set is `name`. */
  function Count(arts: seq<Artifact>, name: string): nat
    decreases |arts|
  {
    if |arts| == 0 then 0
    else Count(arts[..|arts| - 1], name) + (if arts[|arts| - 1].setName == name then 1 else 0)
  }

  /** The keys of `setCounts` in the order they were first written: each
      non-empty set name, at its first artifact. */
  function SetOrder(arts: seq<Artifact>): seq<string>
    decreases |arts|
  {
    if |arts| == 0 then []
    else
      var keys := SetOrder(arts[..|arts| - 1]);
      var s := arts[|arts| - 1].setName;
      if s != "" && s !in keys then keys + [s] else keys
  }

  /** `Object.entries(setCounts)`: each key with its count. */
  function SetEntries(arts: seq<Artifact>): (r: seq<(string, nat)>)
    ensures |r| == |SetOrder(arts)|
  {
    var keys := SetOrder(arts);
    seq(|keys|, i requires 0 <= i < |keys| => (keys[i], Count(arts, keys[i])))
  }

  /** The loop filling `setCounts`, an object whose keys keep their
      insertion order, followed by `Object.entries`. */
  method SetCounts(artifacts: seq<Artifact>) returns (entries: seq<(string, nat)>)
    ensures entries == SetEntries(artifacts)
  {
    var keys: seq<string> := [];
    var counts: map<string, nat> := map[];
    for i := 0 to |artifacts|
      invariant keys == SetOrder(artifacts[..i])
      invariant forall k :: k in counts <==> k in keys
      invariant "" !in counts
      invariant forall k :: k in counts ==> counts[k] == Count(artifacts[..i], k)
      invariant forall k :: k !in counts && k != "" ==> Count(artifacts[..i], k) == 0
    {
      assert artifacts[..i + 1][..i] == artifacts[..i];
      var s := artifacts[i].setName;
      if s != "" {
        var previous := if s in counts then counts[s] else 0;
        if s !in counts {
          keys := keys + [s];
        }
        counts := counts[s := previous + 1];
      }
    }
    assert artifacts[..|artifacts|] == artifacts;
    entries := seq(|keys|, j requires 0 <= j < |keys| => (keys[j], counts[keys[j]]));
  }

  /** A set is a key exactly when it is not empty and some artifact has it;
      no key is written twice. */
  lemma {:induction false} SetOrderKeys(arts: seq<Artifact>, name: string)
    ensures name in SetOrder(arts) <==> name != "" && Count(arts, name) > 0
    ensures forall i, j :: 0 <= i < j < |SetOrder(arts)| ==> SetOrder(arts)[i] != SetOrder(arts)[j]
    decreases |arts|
  {
    if |arts| > 0 {
      var init := arts[..|arts| - 1];
      var keys := SetOrder(init);
      var s := arts[|arts| - 1].setName;
      SetOrderKeys(init, name);
      SetOrderKeys(init, s);
      if s != "" && s !in keys {
        assert SetOrder(arts) == keys + [s];
        forall i, j | 0 <= i < j < |keys| + 1 ensures (keys + [s])[i] != (keys + [s])[j] {
          if j == |keys| {
            assert (keys + [s])[i] == keys[i];
          } else {
            assert (keys + [s])[i] == keys[i] && (keys + [s])[j] == keys[j];
          }
        }
      }
    }
  }

  /** Counting over two runs of artifacts adds up. */
  lemma {:induction false} CountAppend(xs: seq<Artifact>, ys: seq<Artifact>, name: string)
    ensures Count(xs + ys, name) == Count(xs, name) + Count(ys, name)
    decreases |ys|
  {
    if |ys| > 0 {
      var ys' := ys[..|ys| - 1];
      assert (xs + ys)[..|xs + ys| - 1] == xs + ys';
      assert (xs + ys)[|xs + ys| - 1] == ys[|ys| - 1];
      CountAppend(xs, ys', name);
    } else {
      assert xs + ys == xs;
    }
  }

  /** `setCounts[name]` is the number of artifacts of that set, for every
      non-empty set any artifact has; an empty set name is never counted. */
  lemma SetEntriesCount(arts: seq<Artifact>, name: string, c: nat)
    ensures (name, c) in SetEntries(arts) <==> name != "" && c == Count(arts, name) && c > 0
  {
    SetOrderKeys(arts, name);
    var keys := SetOrder(arts);
    if name in keys {
      var i :| 0 <= i < |keys| && keys[i] == name;
      assert SetEntries(arts)[i] == (name, Count(arts, name));
    }
  }

  // ---- Active sets ----

  /** `.filter(([_, count]) => count >= 2)` */
  function AtLeastTwo(entries: seq<(string, nat)>): (r: seq<(string, nat)>)
    ensures forall e :: e in r <==> e in entries && e.1 >= 2
    decreases |entries|
  {
    if |entries| == 0 then []
    else
      var rest := AtLeastTwo(entries[..|entries| - 1]);
      var e := entries[|entries| - 1];
      assert forall x :: x in entries <==> x in entries[..|entries| - 1] || x == e;
      if e.1 >= 2 then rest + [e] else rest
  }

  /** Ordered by non-increasing count. */
  predicate ByCountDescending(xs: seq<(string, nat)>) {
    forall i, j :: 0 <= i < j < |xs| ==> xs[i].1 >= xs[j].1
  }

  /** Places `x` after every entry whose count is at least its own, which is
      where a stable sort by descending count puts a later entry. */
  function InsertByCount(x: (string, nat), sorted: seq<(string, nat)>): seq<(string, nat)>
    decreases |sorted|
  {
    if |sorted| == 0 then [x]
    else if sorted[0].1 >= x.1 then [sorted[0]] + InsertByCount(x, sorted[1..])
    else [x] + sorted
  }

  /** Inserting adds `x` and nothing else. */
  lemma {:induction false} InsertByCountPermutes(x: (string, nat), sorted: seq<(string, nat)>)
    ensures multiset(InsertByCount(x, sorted)) == multiset(sorted) + multiset{x}
    decreases |sorted|
  {
    if |sorted| > 0 {
      assert sorted == [sorted[0]] + sorted[1..];
      if sorted[0].1 >= x.1 {
        InsertByCountPermutes(x, sorted[1..]);
      }
    }
  }

  /** Inserting into an ordered list keeps it ordered. */
  lemma {:induction false} InsertByCountOrdered(x: (string, nat), sorted: seq<(string, nat)>)
    requires ByCountDescending(sorted)
    ensures ByCountDescending(InsertByCount(x, sorted))
    ensures forall e :: e in InsertByCount(x, sorted) ==> e == x || e in sorted
    decreases |sorted|
  {
    if |sorted| > 0 {
      var tail := sorted[1..];
      if sorted[0].1 >= x.1 {
        var rest := InsertByCount(x, tail);
        InsertByCountOrdered(x, tail);
        forall k | 0 <= k < |rest| ensures sorted[0].1 >= rest[k].1 {
          assert rest[k] in rest;
          if rest[k] != x {
            var m :| 0 <= m < |tail| && tail[m] == rest[k];
            assert sorted[m + 1] == rest[k];
          }
        }
        var r := [sorted[0]] + rest;
        forall i, j | 0 <= i < j < |r| ensures r[i].1 >= r[j].1 {
          assert r[j] == rest[j - 1];
          if i > 0 {
            assert r[i] == rest[i - 1];
          }
        }
      } else {
        var r := [x] + sorted;
        forall i, j | 0 <= i < j < |r| ensures r[i].1 >= r[j].1 {
          assert r[j] == sorted[j - 1];
          if i > 0 {
            assert r[i] == sorted[i - 1];
          }
        }
      }
    }
  }

  /** `.sort((a, b) => b[1] - a[1])`: a stable sort by descending count. */
  function SortByCount(xs: seq<(string, nat)>): (r: seq<(string, nat)>)
    ensures ByCountDescending(r)
    ensures multiset(r) == multiset(xs)
    decreases |xs|
  {
    if |xs| == 0 then []
    else
      assert xs == xs[..|xs| - 1] + [xs[|xs| - 1]];
      InsertByCountPermutes(xs[|xs| - 1], SortByCount(xs[..|xs| - 1]));
      InsertByCountOrdered(xs[|xs| - 1], SortByCount(xs[..|xs| - 1]));
      InsertByCount(xs[|xs| - 1], SortByCount(xs[..|xs| - 1]))
  }

  /** `activeSets`: the sets with at least two pieces, most pieces first. */
  function ActiveSets(arts: seq<Artifact>): seq<(string, nat)> {
    SortByCount(AtLeastTwo(SetEntries(arts)))
  }

  /** The active sets are exactly the non-empty sets with two or more pieces,
      each with its piece count, listed by non-increasing count. */
  lemma ActiveSetsAre(arts: seq<Artifact>, name: string, c: nat)
    ensures (name, c) in ActiveSets(arts) <==> name != "" && c == Count(arts, name) && c >= 2
    ensures ByCountDescending(ActiveSets(arts))
  {
    var f := AtLeastTwo(SetEntries(arts));
    assert (name, c) in ActiveSets(arts) <==> (name, c) in multiset(f);
    SetEntriesCount(arts, name, c);
  }

  /** Five pieces make at most two active sets. */
  lemma {:induction false} ActiveSetsOfFive(arts: seq<Artifact>)
    requires |arts| == 5
    ensures |ActiveSets(arts)| <= 2
  {
    var active := ActiveSets(arts);
    if |active| > 2 {
      var x, y, z := active[0], active[1], active[2];
      forall e | e in [x, y, z] ensures e.0 != "" && e.1 == Count(arts, e.0) && e.1 >= 2 {
        ActiveSetsAre(arts, e.0, e.1);
      }
      DistinctActive(arts, 0, 1);
      DistinctActive(arts, 0, 2);
      DistinctActive(arts, 1, 2);
      ThreeSetsNeedSix(arts, x.0, y.0, z.0);
    }
  }

  /** No set appears twice among the active sets. */
  lemma DistinctActive(arts: seq<Artifact>, i: nat, j: nat)
    requires i < j < |ActiveSets(arts)|
    ensures ActiveSets(arts)[i].0 != ActiveSets(arts)[j].0
  {
    var active := ActiveSets(arts);
    var f := AtLeastTwo(SetEntries(arts));
    var keys := SetOrder(arts);
    SetOrderKeys(arts, "");
    assert active[i] in multiset(f) && active[j] in multiset(f);
    if active[i].0 == active[j].0 {
      ActiveSetsAre(arts, active[i].0, active[i].1);
      ActiveSetsAre(arts, active[j].0, active[j].1);
      assert active[i] == active[j];
      SetEntriesDistinct(arts);
      CountedOnce(f, SetEntries(arts), active[i]);
      assert multiset(active)[active[i]] == 1;
      MultisetAtTwo(active, i, j);
    }
  }

  /** Every entry of `Object.entries(setCounts)` occurs once. */
  lemma SetEntriesDistinct(arts: seq<Artifact>)
    ensures forall i, j :: 0 <= i < j < |SetEntries(arts)| ==> SetEntries(arts)[i] != SetEntries(arts)[j]
  {
    SetOrderKeys(arts, "");
  }

  /** Filtering a list whose entries are distinct keeps them distinct. */
  lemma {:induction false} CountedOnce(f: seq<(string, nat)>, entries: seq<(string, nat)>, e: (string, nat))
    requires f == AtLeastTwo(entries)
    requires forall i, j :: 0 <= i < j < |entries| ==> entries[i] != entries[j]
    requires e in f
    ensures multiset(f)[e] == 1
    decreases |entries|
  {
    var init := entries[..|entries| - 1];
    var rest := AtLeastTwo(init);
    var last := entries[|entries| - 1];
    if last.1 >= 2 && e == last {
      assert forall k :: 0 <= k < |init| ==> init[k] == entries[k] && entries[k] != last;
      assert last !in init;
      assert e !in rest;
      assert multiset(rest)[e] == 0;
    } else {
      CountedOnce(rest, init, e);
    }
  }

  /** An entry at two positions occurs at least twice. */
  lemma MultisetAtTwo(xs: seq<(string, nat)>, i: nat, j: nat)
    requires i < j < |xs| && xs[i] == xs[j]
    ensures multiset(xs)[xs[i]] >= 2
  {
    assert xs == xs[..j] + [xs[j]] + xs[j + 1..];
    assert xs[i] in xs[..j];
    assert multiset(xs) == multiset(xs[..j]) + multiset{xs[j]} + multiset(xs[j + 1..]);
  }

  /** Three different sets together count no more pieces than there are, so
      three sets with two pieces each need six pieces. */
  lemma {:induction false} ThreeSetsNeedSix(arts: seq<Artifact>, x: string, y: string, z: string)
    requires x != y && x != z && y != z
    ensures Count(arts, x) + Count(arts, y) + Count(arts, z) <= |arts|
    decreases |arts|
  {
    if |arts| > 0 {
      ThreeSetsNeedSix(arts[..|arts| - 1], x, y, z);
    }
  }

  // ---- Scores and grades ----

  /** The sum of a score over the artifacts, taken in order. */
  function ScoreSum(arts: seq<Artifact>, score: Artifact -> real): real
    decreases |arts|
  {
    if |arts| == 0 then 0.0
    else ScoreSum(arts[..|arts| - 1], score) + score(arts[|arts| - 1])
  }

  /** The score each piece has on the card under a score base. */
  function PieceScore(baseStat: Option<ScoreBase>): Artifact -> real {
    a => Score.ArtifactScore(a, baseStat)
  }

  /** The total score: the reduce over the artifacts under the build's score
      base; the piece scores are rounded, their sum is not. */
  function TotalScore(data: BuildData): real {
    ScoreSum(data.artifacts, PieceScore(data.scoreBase))
  }

  /** `getTotalScoreRank(totalScore)` */
  function TotalGrade(data: BuildData): Score.Grade {
    Score.TotalRank(TotalScore(data))
  }

  /** Each piece's grade: its score against the table chosen by its slot as
      the build record spells it. */
  function PieceGrade(a: Artifact, baseStat: Option<ScoreBase>): Score.Grade {
    Score.ArtifactRank(Score.ArtifactScore(a, baseStat), SlotName(a.slot))
  }

  /** Every piece, flower and plume included, is graded on the 45/40/30
      table: the slot names the record uses never select the strict one. */
  lemma PieceGradeStandardTable(a: Artifact, baseStat: Option<ScoreBase>)
    ensures PieceGrade(a, baseStat) == Score.ArtifactRank(Score.ArtifactScore(a, baseStat), "goblet")
  {
    Score.EnglishSlotNamesUseStandardTable(a.slot);
  }

  /** A flower scoring 45.0 is graded SS on the card, one grade above what
      the strict table would give it. */
  lemma FlowerAtFortyFive()
    ensures Score.ArtifactRank(45.0, SlotName(Flower)) == Score.SS
    ensures Score.ArtifactRank(45.0, "生の花") == Score.S
  {
  }

  /** Splitting the artifacts splits the total. */
  lemma {:induction false} ScoreSumAppend(xs: seq<Artifact>, ys: seq<Artifact>, score: Artifact -> real)
    ensures ScoreSum(xs + ys, score) == ScoreSum(xs, score) + ScoreSum(ys, score)
    decreases |ys|
  {
    if |ys| > 0 {
      var ys' := ys[..|ys| - 1];
      assert (xs + ys)[..|xs + ys| - 1] == xs + ys';
      assert (xs + ys)[|xs + ys| - 1] == ys[|ys| - 1];
      ScoreSumAppend(xs, ys', score);
    } else {
      assert xs + ys == xs;
    }
  }

  /** Pieces that each score at least `m` total at least `m` per piece. */
  lemma {:induction false} ScoreSumAtLeast(arts: seq<Artifact>, score: Artifact -> real, m: real)
    requires forall i :: 0 <= i < |arts| ==> score(arts[i]) >= m
    ensures ScoreSum(arts, score) >= |arts| as real * m
    decreases |arts|
  {
    if |arts| > 0 {
      var init := arts[..|arts| - 1];
      assert forall i :: 0 <= i < |init| ==> init[i] == arts[i];
      ScoreSumAtLeast(init, score, m);
    }
  }

  /** With no negative piece score, the total is not negative and is at
      least the score of any one piece. */
  lemma {:induction false} ScoreSumBounds(arts: seq<Artifact>, score: Artifact -> real)
    requires forall i :: 0 <= i < |arts| ==> score(arts[i]) >= 0.0
    ensures ScoreSum(arts, score) >= 0.0
    ensures forall i :: 0 <= i < |arts| ==> score(arts[i]) <= ScoreSum(arts, score)
    decreases |arts|
  {
    if |arts| > 0 {
      var init := arts[..|arts| - 1];
      assert forall i :: 0 <= i < |init| ==> init[i] == arts[i];
      ScoreSumBounds(init, score);
    }
  }

  /** Two lists of pieces with the same scores, place by place, have the same total. */
  lemma {:induction false} ScoreSumPointwise(xs: seq<Artifact>, ys: seq<Artifact>, score: Artifact -> real)
    requires |xs| == |ys|
    requires forall i :: 0 <= i < |xs| ==> score(xs[i]) == score(ys[i])
    ensures ScoreSum(xs, score) == ScoreSum(ys, score)
    decreases |xs|
  {
    if |xs| > 0 {
      var xs', ys' := xs[..|xs| - 1], ys[..|ys| - 1];
      assert forall i :: 0 <= i < |xs'| ==> xs'[i] == xs[i] && ys'[i] == ys[i];
      ScoreSumPointwise(xs', ys', score);
    }
  }

  /** The total reads only the substats of each piece and the score base:
      edits to set, level, main stat or images leave it unchanged. */
  lemma TotalScoreReadsOnlySubStats(data: BuildData, other: BuildData)
    requires data.scoreBase == other.scoreBase && |data.artifacts| == |other.artifacts|
    requires forall i :: 0 <= i < |data.artifacts| ==> data.artifacts[i].subStats == other.artifacts[i].subStats
    ensures TotalScore(data) == TotalScore(other)
  {
    var f := PieceScore(data.scoreBase);
    forall i | 0 <= i < |data.artifacts| ensures f(data.artifacts[i]) == f(other.artifacts[i]) {
      Score.ScoreReadsOnlySubStats(data.artifacts[i], other.artifacts[i], data.scoreBase);
    }
    ScoreSumPointwise(data.artifacts, other.artifacts, f);
  }

  /** Five pieces that each reach SS on the card reach SS in total
      (5 * 45 = 225 >= 220). */
  lemma FiveSSPiecesMakeSSTotal(data: BuildData)
    requires |data.artifacts| == 5
    requires forall i :: 0 <= i < 5 ==> PieceGrade(data.artifacts[i], data.scoreBase) == Score.SS
    ensures TotalGrade(data) == Score.SS
  {
    var f := PieceScore(data.scoreBase);
    forall i | 0 <= i < 5 ensures f(data.artifacts[i]) >= 45.0 {
      Score.EnglishSlotNamesUseStandardTable(data.artifacts[i].slot);
    }
    ScoreSumAtLeast(data.artifacts, f, 45.0);
  }

  /** No substat of the piece reads as a negative number. */
  predicate NoNegativeSubstat(a: Artifact) {
    forall k :: 0 <= k < |a.subStats| && Score.ParsedValue(a.subStats[k]).Some? ==>
      Score.ParsedValue(a.subStats[k]).value >= 0.0
  }

  /** With no substat reading as a negative number, the total is not
      negative and is at least the score of any one piece. */
  lemma TotalScoreBounds(data: BuildData)
    requires forall i :: 0 <= i < |data.artifacts| ==> NoNegativeSubstat(data.artifacts[i])
    ensures TotalScore(data) >= 0.0
    ensures forall i :: 0 <= i < |data.artifacts| ==>
      Score.ArtifactScore(data.artifacts[i], data.scoreBase) <= TotalScore(data)
  {
    var f := PieceScore(data.scoreBase);
    forall i | 0 <= i < |data.artifacts| ensures f(data.artifacts[i]) >= 0.0 {
      Score.ScoreNonNegative(data.artifacts[i], data.scoreBase);
    }
    ScoreSumBounds(data.artifacts, f);
  }

  // ---- Highlighted substats ----

  /** The highlight test of one substat row: a flag set by the crit test,
      else by the switch on the score base (default `atk`). */
  method IsHighlighted(sub: StatEntry, scoreBase: Option<ScoreBase>) returns (isHighlight: bool)
    ensures isHighlight <==> sub.name in Score.ScoringLabels(Score.ResolveBase(scoreBase))
  {
    isHighlight := false;
    var base := scoreBase.GetOr(Atk);
    if sub.name == "会心率" || sub.name == "会心ダメージ" {
      isHighlight := true;
    } else {
      match base
      case Atk => if sub.name == "攻撃力%" { isHighlight := true; }
      case Hp => if sub.name == "HP%" { isHighlight := true; }
      case Def => if sub.name == "防御力%" { isHighlight := true; }
      case Er => if sub.name == "元素チャージ効率" { isHighlight := true; }
    }
  }

  /** The highlighted labels are exactly the ones that score: a substat with
      a non-zero number adds to the score exactly when it is highlighted. */
  lemma HighlightMatchesScoring(sub: StatEntry, base: ScoreBase, v: real)
    requires Score.ParsedValue(sub) == Some(v) && v != 0.0
    ensures Score.Contribution(sub, base) != 0.0 <==> sub.name in Score.ScoringLabels(base)
  {
    Score.InScoringLabels(base, sub.name);
    if sub.name == Score.CritRateLabel {
      Score.CritRateCountsTwice(sub, base, v);
    } else if sub.name == Score.CritDamageLabel || sub.name == Score.BaseLabel(base) {
      Score.ContributionOfParsed(sub, base, v);
    }
  }

  // ---- Lookups ----

  /** `getWeaponRarityColor(weapon.rarity || 0)` */
  function RarityColor(rarity: Option<int>): (c: string)
    ensures var r := rarity.GetOr(0); (1 <= r <= 5) <==> c != "#25252D"
  {
    match rarity.GetOr(0)
    case 1 => "#757575"
    case 2 => "#6ab48e"
    case 3 => "#5aa5c8"
    case 4 => "#9d78b8"
    case 5 => "#cfaa52"
    case _ => "#25252D"
  }

  /** The five rarities have five different colours. */
  lemma RarityColorsDistinct(x: int, y: int)
    requires 1 <= x <= 5 && 1 <= y <= 5 && x != y
    ensures RarityColor(Some(x)) != RarityColor(Some(y))
  {
  }

  /** `getScoreBaseLabel(data.scoreBase)`: the base the score used, in words. */
  function ScoreBaseLabel(scoreBase: Option<ScoreBase>): (r: string)
    ensures r == "攻撃力換算" <==> Score.ResolveBase(scoreBase) == Atk
  {
    match scoreBase.GetOr(Atk)
    case Hp => "HP換算"
    case Def => "防御力換算"
    case Er => "元チャ効率換算"
    case Atk => "攻撃力換算"
  }

  /** The label names the base the score was computed with: two builds show
      the same label exactly when they are scored on the same base. */
  lemma ScoreBaseLabelNamesBase(x: Option<ScoreBase>, y: Option<ScoreBase>)
    ensures ScoreBaseLabel(x) == ScoreBaseLabel(y) <==> Score.ResolveBase(x) == Score.ResolveBase(y)
  {
  }

  /** Constellation icon `idx` is drawn as unlocked. */
  predicate ConstellationActive(c: Character, idx: nat) {
    idx < c.constellation
  }

  /** The number of icons drawn as unlocked. */
  function ActiveIcons(c: Character, n: nat): (r: nat)
    ensures r <= n
    decreases n
  {
    if n == 0 then 0 else ActiveIcons(c, n - 1) + (if ConstellationActive(c, n - 1) then 1 else 0)
  }

  /** Of `n` icons, the first `constellation` are unlocked (none for a
      constellation of 0 or below, all when it is at least `n`). */
  lemma {:induction false} ActiveIconsCount(c: Character, n: nat)
    ensures ActiveIcons(c, n) == if c.constellation <= 0 then 0 else if c.constellation >= n then n else c.constellation
    decreases n
  {
    if n > 0 {
      ActiveIconsCount(c, n - 1);
    }
  }
}
