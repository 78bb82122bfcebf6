/**
 * The geojson rule of the high-poly model (`_check_json_properties`): the
 * first feature's FNO code must follow one of the patterns XXX, XXX XXX,
 * XXX XXX XXX, must be found in the classifier with a matching name, and
 * the feature must carry all required properties. Landscaping files only
 * need the code "000"; lighting files may lack a geojson file.
 *
 * The classifier (a semicolon-separated file in the user's documents
 * directory) is a parameter: its rows, already split into fields.
 */
module GeoJsonProperties {
  import opened Wrappers
  import opened Text
  import opened Findings
  import opened Scene

  const CheckName := "Проверка geojson. Поля"
  const UnreadableHead := "Не удалось получить данные из geojson файла "
  const GroundCodeMsg := "Для благоустройства рекомендуется использовать FNO_code - \"000\""
  const PatternTail := ": код не соответствует шаблонам - XXX, XXX XXX, XXX XXX XXX"
  const NameMismatchTail := ": код не соответсвует наименованию\n"
  const NotFoundTail := ": код не найден в классификаторе"

  /** The properties every building's geojson must carry, in the order they are reported. */
  const Required := ["address", "okrug", "rajon", "name", "developer", "designer", "cadNum",
    "FNO_code", "FNO_name", "ZU_area", "h_relief", "h_otn", "h_abs", "s_obsh",
    "s_naz", "s_podz", "spp_gns", "act_AGR", "imageBase64"]

  /** `s.replace(" ", "")` */
  function Squeeze(s: string): string {
    ReplaceAll(s, " ", "")
  }

  /** The classifier column of a code of 3, 6 or 9 digits: `code_len / 3 * 2 - 1`. */
  function Column(codeLength: int): (col: int)
    requires codeLength == 3 || codeLength == 6 || codeLength == 9
    ensures col == 1 || col == 3 || col == 5
    ensures codeLength == 3 * (col + 1) / 2
  {
    codeLength / 3 * 2 - 1
  }

  /** The line for a classifier row that holds the code under another name. */
  function MismatchLine(code: string, name: string, row: seq<string>, col: int): string
    requires 1 <= col < |row|
  {
    code + NameMismatchTail + name + ", должно быть\n" + row[col - 1]
  }

  predicate RowMatches(row: seq<string>, col: int, codeKey: string)
    requires 0 <= col < |row|
  {
    Squeeze(row[col]) == codeKey
  }

  /** The classifier lines: one per row that holds the code but whose name, spaces removed, differs. */
  function RowLines(rows: seq<seq<string>>, col: int, code: string, name: string): (r: seq<string>)
    requires 1 <= col && forall k :: 0 <= k < |rows| ==> col < |rows[k]|
    ensures |r| <= |rows|
  {
    if rows == [] then []
    else
      var n := |rows| - 1;
      var row := rows[n];
      RowLines(rows[..n], col, code, name)
        + (if RowMatches(row, col, Squeeze(code)) && Squeeze(name) != Squeeze(row[col - 1]) then [MismatchLine(code, name, row, col)] else [])
  }

  predicate Found(rows: seq<seq<string>>, col: int, codeKey: string)
    requires 0 <= col && forall k :: 0 <= k < |rows| ==> col < |rows[k]|
  {
    exists k :: 0 <= k < |rows| && RowMatches(rows[k], col, codeKey)
  }

  /** The required properties the feature lacks, in the required order. */
  function Missing(props: seq<string>, keys: set<string>): (r: seq<string>)
    ensures |r| <= |props|
  {
    if props == [] then []
    else
      var n := |props| - 1;
      Missing(props[..n], keys) + (if props[n] !in keys then [props[n]] else [])
  }

  /** A property is reported missing exactly when it is required and absent. */
  lemma {:induction false} MissingExact(props: seq<string>, keys: set<string>, x: string)
    ensures x in Missing(props, keys) <==> x in props && x !in keys
  {
    if props != [] {
      var n := |props| - 1;
      MissingExact(props[..n], keys, x);
      assert props == props[..n] + [props[n]];
    }
  }

  /** Nothing is missing exactly when every required property is present. */
  lemma {:induction false} MissingNone(props: seq<string>, keys: set<string>)
    ensures Missing(props, keys) == [] <==> forall k :: 0 <= k < |props| ==> props[k] in keys
  {
    if props != [] {
      var n := |props| - 1;
      MissingNone(props[..n], keys);
      assert forall k :: 0 <= k < n ==> props[..n][k] == props[k];
    }
  }

  function MissingLines(missing: seq<string>): (r: seq<string>)
    ensures |r| == |missing|
    ensures forall k :: 0 <= k < |r| ==> r[k] == "Не найдено свойство \"" + missing[k] + "\""
  {
    if missing == [] then []
    else MissingLines(missing[..|missing| - 1]) + ["Не найдено свойство \"" + missing[|missing| - 1] + "\""]
  }

  /** What the rule does with one file: raise, report and go on, or report and end the rule. */
  datatype Outcome = Fault | Next(f: Finding) | Stop(f: Finding)

  function Report(fbx: Fbx, errors: seq<string>): Finding {
    Finding(CheckName, fbx.name, errors == [], "", "", ["2.2.1"], "", errors, 0)
  }

  /** A classifier row too short for the column read. */
  predicate ShortRow(rows: seq<seq<string>>, col: int) {
    exists k :: 0 <= k < |rows| && |rows[k]| <= col
  }

  /** What a building file's report receives: classifier mismatches, an unknown code, missing properties. */
  function BuildingErrors(p: map<string, string>, rows: seq<seq<string>>, col: int, code: string, name: string): seq<string>
    requires 1 <= col && forall k :: 0 <= k < |rows| ==> col < |rows[k]|
  {
    RowLines(rows, col, code, name)
      + (if Found(rows, col, Squeeze(code)) then [] else [code + NotFoundTail])
      + MissingLines(Missing(Required, p.Keys))
  }

  /** The rule's treatment of a file whose geojson has a first feature with properties. */
  function DocumentOutcome(fbx: Fbx, p: map<string, string>, rows: seq<seq<string>>): Outcome {
    if "FNO_code" !in p || "FNO_name" !in p then Fault
    else
      var code, name := p["FNO_code"], p["FNO_name"];
      var key := Squeeze(code);
      if HasLower(fbx.name, "ground") then
        Next(Report(fbx, if key != "000" then [GroundCodeMsg] else []))
      else if |key| != 3 && |key| != 6 && |key| != 9 then
        Stop(Report(fbx, [code + PatternTail]))
      else
        var col := Column(|key|);
        if ShortRow(rows, col) then Fault
        else Next(Report(fbx, BuildingErrors(p, rows, col, code, name)))
  }

  /** The rule's treatment of one file. */
  function FileOutcome(fbx: Fbx, rows: seq<seq<string>>): Outcome {
    match fbx.json
    case Unreadable =>
      Next(Report(fbx, if !HasLower(fbx.name, "light") then [UnreadableHead + fbx.jsonName] else []))
    case Document(None) => Fault
    case Document(Some(p)) => DocumentOutcome(fbx, p, rows)
  }

  /** The rule over the files: a fault anywhere empties it; a malformed code ends it after that file's report. */
  function Run(files: seq<Fbx>, rows: seq<seq<string>>): Option<seq<Finding>> {
    if files == [] then Some([])
    else
      match FileOutcome(files[0], rows)
      case Fault => None
      case Stop(f) => Some([f])
      case Next(f) =>
        match Run(files[1..], rows)
        case None => None
        case Some(rest) => Some([f] + rest)
  }

  function Prepend(done: seq<Finding>, rest: Option<seq<Finding>>): Option<seq<Finding>> {
    match rest
    case None => None
    case Some(r) => Some(done + r)
  }

  /** The classifier scan: the mismatch lines and whether any row holds the code. */
  method ScanRows(rows: seq<seq<string>>, col: int, code: string, name: string) returns (lines: seq<string>, found: bool)
    requires 1 <= col && forall k :: 0 <= k < |rows| ==> col < |rows[k]|
    ensures lines == RowLines(rows, col, code, name)
    ensures found == Found(rows, col, Squeeze(code))
  {
    var key, nameKey := Squeeze(code), Squeeze(name);
    lines, found := [], false;
    var i := 0;
    while i < |rows|
      invariant 0 <= i <= |rows|
      invariant lines == RowLines(rows[..i], col, code, name)
      invariant found == exists k :: 0 <= k < i && RowMatches(rows[k], col, key)
    {
      var row := rows[i];
      assert rows[..i + 1][..i] == rows[..i];
      if Squeeze(row[col]) == key {
        found := true;
        if nameKey != Squeeze(row[col - 1]) {
          lines := lines + [MismatchLine(code, name, row, col)];
        }
      }
      i := i + 1;
    }
    assert rows[..i] == rows;
  }

  /** The properties loop: each required property the feature lacks, in order. */
  method MissingProperties(keys: set<string>) returns (missing: seq<string>)
    ensures missing == Missing(Required, keys)
  {
    missing := [];
    var i := 0;
    while i < |Required|
      invariant 0 <= i <= |Required|
      invariant missing == Missing(Required[..i], keys)
    {
      assert Required[..i + 1][..i] == Required[..i];
      if Required[i] !in keys {
        missing := missing + [Required[i]];
      }
      i := i + 1;
    }
    assert Required[..i] == Required;
  }

  /** A building file's report once its code has a known pattern. */
  method CheckBuilding(fbx: Fbx, p: map<string, string>, rows: seq<seq<string>>, col: int, code: string, name: string)
    returns (f: Finding)
    requires 1 <= col && forall k :: 0 <= k < |rows| ==> col < |rows[k]|
    ensures f == Report(fbx, BuildingErrors(p, rows, col, code, name))
  {
    var lines, found := ScanRows(rows, col, code, name);
    var missing := MissingProperties(p.Keys);
    var c := new Check(CheckName, fbx.name, true, "", "", ["2.2.1"]);
    AddErrors(c, lines + (if found then [] else [code + NotFoundTail]) + MissingLines(missing));
    f := c.Snapshot();
  }

  /** A report that receives at most one line. */
  method Single(fbx: Fbx, failed: bool, msg: string) returns (f: Finding)
    ensures f == Report(fbx, if failed then [msg] else [])
  {
    f := Verdict(CheckName, fbx.name, "", ["2.2.1"], failed, msg);
  }

  /** A file with properties: its report, or the fault it raises. */
  method CheckDocument(fbx: Fbx, p: map<string, string>, rows: seq<seq<string>>) returns (o: Outcome)
    ensures o == DocumentOutcome(fbx, p, rows)
  {
    if "FNO_code" !in p || "FNO_name" !in p {
      return Fault;
    }
    var code, name := p["FNO_code"], p["FNO_name"];
    var key := Squeeze(code);
    if HasLower(fbx.name, "ground") {
      var f := Single(fbx, key != "000", GroundCodeMsg);
      return Next(f);
    }
    if |key| != 3 && |key| != 6 && |key| != 9 {
      var f := Single(fbx, true, code + PatternTail);
      return Stop(f);
    }
    var col := Column(|key|);
    if ShortRow(rows, col) {
      return Fault;
    }
    var f := CheckBuilding(fbx, p, rows, col, code, name);
    o := Next(f);
  }

  /** One file's report, or the fault the file raises. */
  method CheckFile(fbx: Fbx, rows: seq<seq<string>>) returns (o: Outcome)
    ensures o == FileOutcome(fbx, rows)
  {
    match fbx.json {
      case Unreadable =>
        var f := Single(fbx, !HasLower(fbx.name, "light"), UnreadableHead + fbx.jsonName);
        o := Next(f);
      case Document(None) =>
        o := Fault;
      case Document(Some(p)) =>
        o := CheckDocument(fbx, p, rows);
    }
  }

  /** The geojson rule over the high-poly files. */
  method CheckJsonProperties(files: seq<Fbx>, rows: seq<seq<string>>) returns (r: seq<Finding>)
    ensures r == match Run(files, rows) case None => [] case Some(fs) => fs
  {
    var done: seq<Finding> := [];
    var i := 0;
    assert files[i..] == files;
    match Run(files, rows) {
      case None =>
      case Some(all) => assert done + all == all;
    }
    while i < |files|
      invariant 0 <= i <= |files|
      invariant Run(files, rows) == Prepend(done, Run(files[i..], rows))
    {
      assert files[i..][0] == files[i] && files[i..][1..] == files[i + 1..];
      var o := CheckFile(files[i], rows);
      match o {
        case Fault =>
          return [];
        case Stop(f) =>
          return done + [f];
        case Next(f) =>
          match Run(files[i + 1..], rows) {
            case None =>
            case Some(rest) => assert done + ([f] + rest) == (done + [f]) + rest;
          }
          done := done + [f];
      }
      i := i + 1;
    }
    assert files[i..] == [];
    r := done;
  }

  /** A malformed code ends the rule: the files after it receive no report. */
  lemma {:induction false} StopEnds(files: seq<Fbx>, rows: seq<seq<string>>, k: int)
    requires 0 <= k < |files| && FileOutcome(files[k], rows).Stop?
    requires forall j :: 0 <= j < k ==> FileOutcome(files[j], rows).Next?
    ensures Run(files, rows).Some? && |Run(files, rows).value| == k + 1
  {
    if k > 0 {
      StopEnds(files[1..], rows, k - 1);
    }
  }

  /** A file whose geojson is missing passes exactly when it is a lighting file. */
  lemma UnreadablePassesForLights(fbx: Fbx, rows: seq<seq<string>>)
    requires fbx.json.Unreadable?
    ensures FileOutcome(fbx, rows).Next?
    ensures FileOutcome(fbx, rows).f.verified <==> HasLower(fbx.name, "light")
  {
  }

  /** A building file's report is clean exactly when the classifier holds its code, always under its name, and no property is missing. */
  lemma BuildingClean(p: map<string, string>, rows: seq<seq<string>>, col: int, code: string, name: string)
    requires 1 <= col && forall k :: 0 <= k < |rows| ==> col < |rows[k]|
    ensures BuildingErrors(p, rows, col, code, name) == [] <==>
      && Found(rows, col, Squeeze(code))
      && (forall k :: 0 <= k < |rows| && RowMatches(rows[k], col, Squeeze(code)) ==> Squeeze(rows[k][col - 1]) == Squeeze(name))
      && (forall k :: 0 <= k < |Required| ==> Required[k] in p.Keys)
  {
    RowLinesClean(rows, col, code, name);
    MissingNone(Required, p.Keys);
  }

  /** Every row holding the code key carries the name key. */
  predicate Agrees(rows: seq<seq<string>>, col: int, key: string, nameKey: string)
    requires 1 <= col && forall k :: 0 <= k < |rows| ==> col < |rows[k]|
  {
    forall k :: 0 <= k < |rows| && RowMatches(rows[k], col, key) ==> Squeeze(rows[k][col - 1]) == nameKey
  }

  lemma AgreesLast(rows: seq<seq<string>>, col: int, key: string, nameKey: string)
    requires 1 <= col && forall k :: 0 <= k < |rows| ==> col < |rows[k]|
    requires |rows| > 0
    ensures Agrees(rows, col, key, nameKey) <==>
      Agrees(rows[..|rows| - 1], col, key, nameKey) && (RowMatches(rows[|rows| - 1], col, key) ==> Squeeze(rows[|rows| - 1][col - 1]) == nameKey)
  {
    var front := rows[..|rows| - 1];
    assert forall k :: 0 <= k < |front| ==> front[k] == rows[k];
  }

  /** No mismatch line when every row holding the code names it the same way. */
  lemma {:induction false} RowLinesClean(rows: seq<seq<string>>, col: int, code: string, name: string)
    requires 1 <= col && forall k :: 0 <= k < |rows| ==> col < |rows[k]|
    ensures RowLines(rows, col, code, name) == [] <==> Agrees(rows, col, Squeeze(code), Squeeze(name))
  {
    if rows != [] {
      var n := |rows| - 1;
      RowLinesClean(rows[..n], col, code, name);
      AgreesLast(rows, col, Squeeze(code), Squeeze(name));
    }
  }
}
