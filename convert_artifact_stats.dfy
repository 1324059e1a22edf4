/** The offline converter of the artifact main-stat tables
    (scripts/convert-artifact-stats.js): each CSV file becomes a table from
    rarity to the row of per-level values, keyed by the file's stat label,
    and two labels are then aliased. Listing the directory, reading the files
    and writing the result are not part of this model: the files arrive as
    (name, content) pairs. */
module ConvertArtifactStats {
  import opened Wrappers
  import opened JsString
  import opened Dict

  // ---- Splitting one CSV line ----

  /** The scanner's state: the fields so far, the field being read, and
      whether a quote is open. */
  datatype Scan = Scan(fields: seq<string>, current: string, inQuote: bool)

  /** One character: a quote toggles the mode and is dropped, a comma outside
      quotes closes the field, anything else extends it. */
  function Step(s: Scan, c: char): Scan {
    if c == '"' then s.(inQuote := !s.inQuote)
    else if c == ',' && !s.inQuote then Scan(s.fields + [s.current], "", s.inQuote)
    else s.(current := s.current + [c])
  }

  function ScanAll(line: string): Scan
    decreases |line|
  {
    if |line| == 0 then Scan([], "", false)
    else Step(ScanAll(line[..|line| - 1]), line[|line| - 1])
  }

  /** The fields of a line: those closed by commas, then the last one. */
  function SplitCsvLine(line: string): (r: seq<string>)
    ensures |r| > 0
  {
    ScanAll(line).fields + [ScanAll(line).current]
  }

  /** `parseCSVLine` */
  method ParseCsvLine(line: string) returns (result: seq<string>)
    ensures result == SplitCsvLine(line)
  {
    result := [];
    var current := "";
    var inQuote := false;
    for i := 0 to |line|
      invariant Scan(result, current, inQuote) == ScanAll(line[..i])
    {
      assert line[..i + 1][..i] == line[..i];
      var c := line[i];
      if c == '"' {
        inQuote := !inQuote;
      } else if c == ',' && !inQuote {
        result := result + [current];
        current := "";
      } else {
        current := current + [c];
      }
    }
    assert line[..|line|] == line;
    result := result + [current];
  }

  /** `xs.join(sep)` */
  function Join(xs: seq<string>, sep: char): string
    requires |xs| > 0
    decreases |xs|
  {
    if |xs| == 1 then xs[0] else Join(xs[..|xs| - 1], sep) + [sep] + xs[|xs| - 1]
  }

  lemma JoinAppendChar(xs: seq<string>, x: string, c: char, sep: char)
    ensures Join(xs + [x + [c]], sep) == Join(xs + [x], sep) + [c]
  {
    if |xs| > 0 {
      assert (xs + [x + [c]])[..|xs|] == xs;
      assert (xs + [x])[..|xs|] == xs;
    }
  }

  lemma JoinAppendEmpty(xs: seq<string>, sep: char)
    requires |xs| > 0
    ensures Join(xs + [""], sep) == Join(xs, sep) + [sep]
  {
    assert (xs + [""])[..|xs|] == xs;
  }

  /** The number of occurrences of `c`. */
  function Occurrences(s: string, c: char): nat
    decreases |s|
  {
    if |s| == 0 then 0 else Occurrences(s[..|s| - 1], c) + (if s[|s| - 1] == c then 1 else 0)
  }

  /** The commas preceded by an even number of quotes. */
  function UnquotedCommas(line: string): nat
    decreases |line|
  {
    if |line| == 0 then 0
    else
      var init := line[..|line| - 1];
      UnquotedCommas(init) + (if line[|line| - 1] == ',' && Occurrences(init, '"') % 2 == 0 then 1 else 0)
  }

  /** The scanner's invariant: the fields joined back with commas are the
      text read so far without its quotes; a quote is open after an odd
      number of quotes; a field was closed for every comma outside quotes;
      no field holds a quote. */
  lemma {:induction false} ScanInvariant(line: string)
    ensures Join(ScanAll(line).fields + [ScanAll(line).current], ',') == RemoveAll(line, '"')
    ensures ScanAll(line).inQuote <==> Occurrences(line, '"') % 2 == 1
    ensures |ScanAll(line).fields| == UnquotedCommas(line)
    ensures '"' !in ScanAll(line).current
    ensures forall i :: 0 <= i < |ScanAll(line).fields| ==> '"' !in ScanAll(line).fields[i]
    decreases |line|
  {
    if |line| > 0 {
      var init, c := line[..|line| - 1], line[|line| - 1];
      var s := ScanAll(init);
      ScanInvariant(init);
      if c == '"' {
      } else if c == ',' && !s.inQuote {
        JoinAppendEmpty(s.fields + [s.current], ',');
        assert s.fields + [s.current] + [""] == (s.fields + [s.current]) + [""];
      } else {
        JoinAppendChar(s.fields, s.current, c, ',');
      }
    }
  }

  /** Joining the fields with `,` gives the line back without its quotes. */
  lemma SplitJoin(line: string)
    ensures Join(SplitCsvLine(line), ',') == RemoveAll(line, '"')
  {
    ScanInvariant(line);
  }

  /** There is one field more than there are commas outside quotes, and no
      field holds a quote; an empty line is one empty field. */
  lemma SplitCount(line: string)
    ensures |SplitCsvLine(line)| == UnquotedCommas(line) + 1
    ensures forall i :: 0 <= i < |SplitCsvLine(line)| ==> '"' !in SplitCsvLine(line)[i]
    ensures SplitCsvLine("") == [""]
  {
    ScanInvariant(line);
  }

  // ---- Lines of a file ----

  /** `s.split(sep)` for a one-character separator. */
  function SplitOn(s: string, sep: char): (r: seq<string>)
    ensures |r| > 0
    decreases |s|
  {
    if |s| == 0 then [""]
    else
      var parts := SplitOn(s[..|s| - 1], sep);
      if s[|s| - 1] == sep then parts + [""]
      else parts[..|parts| - 1] + [parts[|parts| - 1] + [s[|s| - 1]]]
  }

  /** Splitting and joining with the same separator gives the text back, and
      no piece holds the separator. */
  lemma {:induction false} SplitOnJoin(s: string, sep: char)
    ensures Join(SplitOn(s, sep), sep) == s
    ensures forall i :: 0 <= i < |SplitOn(s, sep)| ==> sep !in SplitOn(s, sep)[i]
    decreases |s|
  {
    if |s| > 0 {
      var init := s[..|s| - 1];
      var parts := SplitOn(init, sep);
      SplitOnJoin(init, sep);
      if s[|s| - 1] == sep {
        JoinAppendEmpty(parts, sep);
      } else {
        var front := parts[..|parts| - 1];
        assert front + [parts[|parts| - 1]] == parts;
        JoinAppendChar(front, parts[|parts| - 1], s[|s| - 1], sep);
      }
    }
  }

  /** A piece followed by a line feed loses one trailing carriage return. */
  function DropCr(x: string): string {
    if |x| > 0 && x[|x| - 1] == '\r' then x[..|x| - 1] else x
  }

  /** `content.split(/\r?\n/)` */
  function Lines(content: string): (r: seq<string>)
    ensures |r| == |SplitOn(content, '\n')|
  {
    var ps := SplitOn(content, '\n');
    seq(|ps|, i requires 0 <= i < |ps| => if i < |ps| - 1 then DropCr(ps[i]) else ps[i])
  }

  /** `lines.filter(line => line.trim() !== '')` */
  function NonBlank(lines: seq<string>): (r: seq<string>)
    ensures forall i :: 0 <= i < |r| ==> Trim(r[i]) != ""
    ensures |r| <= |lines|
    decreases |lines|
  {
    if |lines| == 0 then []
    else
      var rest := NonBlank(lines[..|lines| - 1]);
      if Trim(lines[|lines| - 1]) != "" then rest + [lines[|lines| - 1]] else rest
  }

  /** The filter drops exactly the blank lines: what it keeps comes from the
      input, and no non-blank line is lost. */
  lemma {:induction false} NonBlankMembers(lines: seq<string>)
    ensures forall x :: x in NonBlank(lines) ==> x in lines
    ensures forall i :: 0 <= i < |lines| && Trim(lines[i]) != "" ==> lines[i] in NonBlank(lines)
    decreases |lines|
  {
    if |lines| > 0 {
      var init, last := lines[..|lines| - 1], lines[|lines| - 1];
      var rest := NonBlank(init);
      NonBlankMembers(init);
      assert NonBlank(lines) == if Trim(last) != "" then rest + [last] else rest;
      forall x | x in NonBlank(lines)
        ensures x in lines
      {
        if x in rest {
          assert x in init;
        }
      }
      forall i | 0 <= i < |lines| && Trim(lines[i]) != ""
        ensures lines[i] in NonBlank(lines)
      {
        if i < |init| {
          assert lines[i] == init[i];
          assert lines[i] in rest;
        }
      }
    }
  }

  /** The filter keeps the order of the lines it keeps. */
  lemma {:induction false} NonBlankAppend(xs: seq<string>, ys: seq<string>)
    ensures NonBlank(xs + ys) == NonBlank(xs) + NonBlank(ys)
    decreases |ys|
  {
    if |ys| == 0 {
      assert xs + ys == xs;
    } else {
      var init := ys[..|ys| - 1];
      assert (xs + ys)[..|xs + ys| - 1] == xs + init;
      NonBlankAppend(xs, init);
    }
  }

  /** The data rows: the non-blank lines after the first (the header), in order. */
  function Rows(content: string): (r: seq<string>)
    ensures forall i :: 0 <= i < |r| ==> Trim(r[i]) != ""
    ensures NonBlank(Lines(content)) == [] ==> r == []
    ensures NonBlank(Lines(content)) != [] ==> [NonBlank(Lines(content))[0]] + r == NonBlank(Lines(content))
  {
    var ls := NonBlank(Lines(content));
    if |ls| == 0 then [] else ls[1..]
  }

  // ---- One row ----

  /** `s.match(/★(\d+)/)`: the digits after the first `★` that is followed by one. */
  function Rarity(s: string): Option<nat>
    decreases |s|
  {
    if |s| < 2 then None
    else if s[0] == '★' && IsDigit(s[1]) then Some(DigitsValue(LeadingDigits(s[1..])))
    else Rarity(s[1..])
  }

  /** `★n` read back gives `n`; a text without `★` has no rarity. */
  lemma RarityOf(n: nat, rest: string)
    requires |rest| > 0 ==> !IsDigit(rest[0])
    ensures Rarity("★" + NatToString(n) + rest) == Some(n)
  {
    var d := NatToString(n);
    var s := "★" + d + rest;
    assert |s| >= 2 && s[0] == '★' && s[1] == d[0] && IsDigit(d[0]);
    assert s[1..] == d + rest;
    assert Rarity(s) == Some(DigitsValue(LeadingDigits(d + rest)));
    LeadingDigitsOf(d, rest);
    NatToStringRoundTrip(n);
  }

  lemma {:induction false} NoStarNoRarity(s: string)
    requires '★' !in s
    ensures Rarity(s).None?
    decreases |s|
  {
    if |s| >= 2 {
      assert s[0] != '★';
      assert forall c :: c in s[1..] ==> c in s;
      NoStarNoRarity(s[1..]);
    }
  }

  /** A value cell: quotes removed and trimmed; `--` and empty cells are null. */
  function CleanCell(v: string): (r: Option<string>)
    ensures r.None? <==> Trim(RemoveAll(v, '"')) == "--" || Trim(RemoveAll(v, '"')) == ""
    ensures r.Some? ==> r.value == Trim(RemoveAll(v, '"'))
    ensures r.Some? ==> r.value != "" && r.value != "--" && '"' !in r.value
    ensures r.Some? ==> Trim(r.value) == r.value
  {
    var t := Trim(RemoveAll(v, '"'));
    TrimOfTrimmed(RemoveAll(v, '"'));
    TrimKeepsAbsent(RemoveAll(v, '"'), '"');
    if t == "--" || t == "" then None else Some(t)
  }

  /** Trimming twice is trimming once. */
  lemma TrimOfTrimmed(s: string)
    ensures Trim(Trim(s)) == Trim(s)
  {
    var t := Trim(s);
    if |t| > 0 {
      var u := TrimStart(s);
      assert t == u[..|t|];
      assert !IsWhiteSpace(t[0]) by { assert t[0] == u[0]; }
      assert TrimStart(t) == t;
    }
  }

  /** Trimming only removes characters. */
  lemma TrimKeepsAbsent(s: string, c: char)
    requires c !in s
    ensures c !in Trim(s)
  {
    var u := TrimStart(s);
    assert forall x :: x in u ==> x in s;
    assert forall x :: x in Trim(s) ==> x in u;
  }

  /** The cleaned value columns, one per column and in order. */
  function CellValues(cols: seq<string>): (r: seq<Option<string>>)
    ensures |r| == |cols|
    ensures forall i :: 0 <= i < |cols| ==> r[i] == CleanCell(cols[i])
  {
    seq(|cols|, i requires 0 <= i < |cols| => CleanCell(cols[i]))
  }

  /** What one row writes into its file's table: nothing unless its first
      column carries a rarity; then the cleaned values of the other columns. */
  function RowEntry(row: string): Option<(int, seq<Option<string>>)> {
    var cols := SplitCsvLine(row);
    match Rarity(cols[0])
    case None => None
    case Some(r) => Some((r as int, CellValues(cols[1..])))
  }

  // ---- Files ----

  datatype CsvFile = CsvFile(name: string, content: string)

  /** `FILE_MAPPING` */
  function MappedKey(name: string): Option<string> {
    match name
    case "HP.csv" => Some("HP")
    case "HP%.csv" => Some("HP%")
    case "ダメージバフ.csv" => Some("Elemental_Dmg")
    case "与える治療効果.csv" => Some("Healing_Bonus")
    case "会心ダメージ.csv" => Some("会心ダメージ")
    case "会心率.csv" => Some("会心率")
    case "元素チャージ効率.csv" => Some("元素チャージ効率")
    case "元素熟知.csv" => Some("元素熟知")
    case "攻撃力%.csv" => Some("攻撃力%")
    case "攻撃力.csv" => Some("攻撃力")
    case "物理ダメージバフ.csv" => Some("物理ダメージ")
    case "防御力%.csv" => Some("防御力%")
    case _ => None
  }

  /** The mapped key, else the name without its first `.csv`. */
  function FileKey(name: string): string {
    MappedKey(name).GetOr(ReplaceFirst(name, ".csv", ""))
  }

  /** An unmapped `<base>.csv` is keyed by `<base>` when the base has no dot. */
  lemma FileKeyFallback(base: string)
    requires '.' !in base && MappedKey(base + ".csv").None?
    ensures FileKey(base + ".csv") == base
  {
    ReplaceFirstSuffix(base, ".csv");
  }

  type StatTables = map<string, map<int, seq<Option<string>>>>

  /** What one file writes: a fresh table under its key, for `.csv` files only. */
  function FileEntry(f: CsvFile): Option<(string, map<int, seq<Option<string>>>)> {
    if EndsWith(f.name, ".csv") then Some((FileKey(f.name), Collect(Rows(f.content), RowEntry))) else None
  }

  const ElementalLabels: seq<string> :=
    ["炎元素ダメージ", "水元素ダメージ", "風元素ダメージ", "雷元素ダメージ", "草元素ダメージ", "氷元素ダメージ", "岩元素ダメージ"]

  /** Every key of `keys` set to `v`, in order. */
  function CopyTo(data: StatTables, keys: seq<string>, v: map<int, seq<Option<string>>>): (r: StatTables)
    ensures forall i :: 0 <= i < |keys| ==> keys[i] in r && r[keys[i]] == v
    ensures forall k :: k !in keys ==> (k in r <==> k in data) && (k in data ==> r[k] == data[k])
    decreases |keys|
  {
    if |keys| == 0 then data else CopyTo(data, keys[..|keys| - 1], v)[keys[|keys| - 1] := v]
  }

  /** The two aliases: the healing table also under the label the app uses,
      and the elemental table under each of the seven elemental labels. */
  function WithAliases(data: StatTables): StatTables {
    var d := if "Healing_Bonus" in data then data["与える治癒効果" := data["Healing_Bonus"]] else data;
    if "Elemental_Dmg" in d then CopyTo(d, ElementalLabels, d["Elemental_Dmg"]) else d
  }

  /** The file the script writes. */
  function MainStats(files: seq<CsvFile>): StatTables {
    WithAliases(Collect(files, FileEntry))
  }

  /** The loop over one file's rows. */
  method ReadTable(rows: seq<string>) returns (table: map<int, seq<Option<string>>>)
    ensures table == Collect(rows, RowEntry)
  {
    table := map[];
    for j := 0 to |rows|
      invariant table == Collect(rows[..j], RowEntry)
    {
      assert rows[..j + 1][..j] == rows[..j];
      var cols := ParseCsvLine(rows[j]);
      var rarity := Rarity(cols[0]);
      if rarity.Some? {
        table := table[rarity.value as int := CellValues(cols[1..])];
      }
    }
    assert rows[..|rows|] == rows;
  }

  /** The loop that stores one table under several keys. */
  method CopyLoop(data: StatTables, keys: seq<string>, v: map<int, seq<Option<string>>>) returns (r: StatTables)
    ensures r == CopyTo(data, keys, v)
  {
    r := data;
    for k := 0 to |keys|
      invariant r == CopyTo(data, keys[..k], v)
    {
      assert keys[..k + 1][..k] == keys[..k];
      r := r[keys[k] := v];
    }
    assert keys[..|keys|] == keys;
  }

  /** The loop over the files: each `.csv` file's table under its key, a
      later file with the same key replacing an earlier one. */
  method ReadFiles(files: seq<CsvFile>) returns (data: StatTables)
    ensures data == Collect(files, FileEntry)
  {
    data := map[];
    for i := 0 to |files|
      invariant data == Collect(files[..i], FileEntry)
    {
      CollectStep(files, FileEntry, i);
      var f := files[i];
      if EndsWith(f.name, ".csv") {
        var table := ReadTable(Rows(f.content));
        assert FileEntry(f) == Some((FileKey(f.name), table));
        data := data[FileKey(f.name) := table];
      } else {
        assert FileEntry(f).None?;
      }
    }
    assert files[..|files|] == files;
  }

  /** The two alias steps, healing first. */
  method AddAliases(data: StatTables) returns (r: StatTables)
    ensures r == WithAliases(data)
  {
    r := data;
    if "Healing_Bonus" in r {
      r := r["与える治癒効果" := r["Healing_Bonus"]];
    }
    if "Elemental_Dmg" in r {
      r := CopyLoop(r, ElementalLabels, r["Elemental_Dmg"]);
    }
  }

  /** The script's loops over files and rows, then the aliases. */
  method ConvertAll(files: seq<CsvFile>) returns (data: StatTables)
    ensures data == MainStats(files)
  {
    var tables := ReadFiles(files);
    data := AddAliases(tables);
  }

  /** With an elemental file, every elemental label shares its table. */
  lemma ElementalAliasesShareTable(data: StatTables)
    requires "Elemental_Dmg" in data
    ensures forall i :: 0 <= i < |ElementalLabels| ==>
      ElementalLabels[i] in WithAliases(data) && WithAliases(data)[ElementalLabels[i]] == data["Elemental_Dmg"]
  {
    var d := if "Healing_Bonus" in data then data["与える治癒効果" := data["Healing_Bonus"]] else data;
    assert "Elemental_Dmg"[0] != "与える治癒効果"[0];
    assert d["Elemental_Dmg"] == data["Elemental_Dmg"];
  }

  /** With a healing file, the app's healing label shares that table. */
  lemma HealingAliasSharesTable(data: StatTables)
    requires "Healing_Bonus" in data
    ensures "与える治癒効果" in WithAliases(data) && WithAliases(data)["与える治癒効果"] == data["Healing_Bonus"]
  {
    var d := data["与える治癒効果" := data["Healing_Bonus"]];
    if "Elemental_Dmg" in d {
      HealingLabelNotElemental();
      CopyToKeeps(d, ElementalLabels, d["Elemental_Dmg"], "与える治癒効果");
    }
  }

  /** Copying leaves a key outside `keys` as it was. */
  lemma CopyToKeeps(data: StatTables, keys: seq<string>, v: map<int, seq<Option<string>>>, k: string)
    requires k in data && k !in keys
    ensures k in CopyTo(data, keys, v) && CopyTo(data, keys, v)[k] == data[k]
  {
  }

  /** The elemental copy never overwrites the healing alias: every
      elemental label ends in `ジ`, the healing label in `果`. */
  lemma HealingLabelNotElemental()
    ensures "与える治癒効果" !in ElementalLabels
  {
    forall i | 0 <= i < |ElementalLabels|
      ensures ElementalLabels[i] != "与える治癒効果"
    {
      assert ElementalLabels[i][|ElementalLabels[i]| - 1] == 'ジ';
    }
  }

  /** A row is stored under its rarity, with one value per column after the
      first, when no later row has the same rarity. */
  lemma RowStored(rows: seq<string>, i: nat, n: nat, values: seq<Option<string>>)
    requires i < |rows| && RowEntry(rows[i]) == Some((n as int, values))
    requires forall j :: i < j < |rows| ==> RowEntry(rows[j]).None? || RowEntry(rows[j]).value.0 != n
    ensures n in Collect(rows, RowEntry) && Collect(rows, RowEntry)[n] == values
    ensures |values| == |SplitCsvLine(rows[i])| - 1
  {
    CollectLast(rows, RowEntry, i);
  }
}
