/**
 * The client-onboarding wizard: a CSV of pipeline stages is uploaded, the
 * distinct values of its "Stage" column become one mapping each, the user
 * assigns every mapping one of the standard categories, and the submission
 * payload groups the stage names by category into one field per category.
 *
 * The CSV tokeniser is not modelled: its output (rows of header -> cell and
 * a list of error messages) is an input here.
 */
module Onboarding {
  import opened Wrappers
  import opened Text

  /** The fixed category taxonomy, in the order the selector lists it. */
  const StandardCategories: seq<string> := [
    "No Show Demo", "Trattative", "Dead Lead", "Setting", "Demo Set", "Non Qualificato",
    "New Lead", "Fuori Target", "No Show Diagnosi", "Won", "Lost", "Diagnosi Set"
  ]

  /** One parsed data row: its keys in the order Object.keys reports them, and its cells. */
  datatype Row = Row(keys: seq<string>, cells: map<string, string>)

  /** What the CSV parser hands back: its error messages and the data rows. */
  datatype ParseResult = ParseResult(errors: seq<string>, data: seq<Row>)

  /** One discovered stage and the category the user gave it ("" while unassigned). */
  datatype StageMapping = StageMapping(stageName: string, category: string)

  /** The ways stage extraction stops short of a mapping table. */
  datatype CsvError =
    | ParseFailed(message: string)
    | EmptyData
    | StageColumnMissing(headers: seq<string>)
    | NoStages(column: string)

  /** The client identifiers typed into the form, copied verbatim into the payload. */
  datatype ClientIds = ClientIds(
    ghlSubaccountId: string,
    metaAdAccountId: string,
    diagnosisCalendarId: string,
    demoCalendarId: string)

  /**
   * The message tells the kind of error apart; for a parse failure it
   * gives the parser's message and for an empty column the column's name.
   * (A missing column lists the headers joined, which loses where one
   * header ends if a header itself contains ", ".)
   */
  lemma {:induction false} ErrorMessageIdentifiesError(e1: CsvError, e2: CsvError)
    requires ErrorMessage(e1) == ErrorMessage(e2)
    ensures e1.StageColumnMissing? <==> e2.StageColumnMissing?
    ensures !e1.StageColumnMissing? ==> e1 == e2
  {
    var m := ErrorMessage(e1);
    ErrorMessageInitial(e1);
    ErrorMessageInitial(e2);
    if e1.ParseFailed? && e2.ParseFailed? {
      var prefix := "Errore nel parsing del CSV: ";
      assert e1.message == m[|prefix|..] == e2.message;
    } else if e1.NoStages? && e2.NoStages? {
      var prefix := "Nessuno stage trovato nella colonna \"";
      assert e1.column == m[|prefix|..|m| - 2] == e2.column;
    }
  }

  /** Each kind of message opens with its own letter. */
  lemma ErrorMessageInitial(e: CsvError)
    ensures |ErrorMessage(e)| > 0
    ensures ErrorMessage(e)[0] ==
              if e.ParseFailed? then 'E' else if e.EmptyData? then 'I' else if e.StageColumnMissing? then 'C' else 'N'
  {
    match e
    case ParseFailed(message) =>
      assert ErrorMessage(e)[0] == "Errore nel parsing del CSV: "[0];
    case EmptyData =>
    case StageColumnMissing(headers) =>
      assert ErrorMessage(e)[0] == "Colonna \"Stage\" non trovata. "[0];
    case NoStages(column) =>
      assert ErrorMessage(e)[0] == "Nessuno stage trovato nella colonna \""[0];
  }

  /** The message the wizard shows for each extraction error. */
  function ErrorMessage(e: CsvError): string
  {
    match e
    case ParseFailed(message) => "Errore nel parsing del CSV: " + message
    case EmptyData => "Il CSV \U{00E8} vuoto o non contiene dati validi"
    case StageColumnMissing(headers) =>
      "Colonna \"Stage\" non trovata. " + "Colonne disponibili: " + Join(headers, ", ")
    case NoStages(column) => "Nessuno stage trovato nella colonna \"" + column + "\"."
  }

  // ---------------------------------------------------------------------
  // File name check
  // ---------------------------------------------------------------------

  /** Only files whose lower-cased name ends in ".csv" are read. */
  predicate AcceptsFileName(name: string)
  {
    EndsWith(Lower(name), ".csv")
  }

  /** The check is case-insensitive on the extension and looks at nothing but the last four characters. */
  lemma AcceptsFileNameByExtension(name: string)
    ensures AcceptsFileName(name) <==>
              |name| >= 4 && Lower(name[|name| - 4..]) == ".csv"
  {
    var low := Lower(name);
    if |name| >= 4 {
      assert Lower(name[|name| - 4..]) == low[|name| - 4..];
    }
  }

  // ---------------------------------------------------------------------
  // Stage column discovery
  // ---------------------------------------------------------------------

  /** A header names the stage column when, lower-cased and trimmed, it reads "stage". */
  predicate IsStageHeader(h: string)
  {
    Trim(Lower(h)) == "stage"
  }

  /** Header i is a stage header and no earlier header is. */
  predicate FirstStageHeaderAt(headers: seq<string>, i: nat)
  {
    i < |headers| && IsStageHeader(headers[i]) && forall j :: 0 <= j < i ==> !IsStageHeader(headers[j])
  }

  /** The position of the first true flag, or the number of flags when there is none. */
  function FirstTrue(flags: seq<bool>): (i: nat)
    ensures i <= |flags|
    ensures i < |flags| ==> flags[i]
    ensures forall j :: 0 <= j < i ==> !flags[j]
  {
    if |flags| == 0 || flags[0] then 0
    else
      var k := FirstTrue(flags[1..]);
      assert forall j :: 1 <= j < k + 1 ==> flags[j] == flags[1..][j - 1];
      k + 1
  }

  /** The position of the first stage header, or the number of headers when there is none. */
  function FirstStageIndex(headers: seq<string>): (i: nat)
    ensures i <= |headers|
    ensures i < |headers| ==> IsStageHeader(headers[i])
    ensures forall j :: 0 <= j < i ==> !IsStageHeader(headers[j])
  {
    FirstTrue(StageFlags(headers))
  }

  /** Whether each header is a stage header, position by position. */
  function StageFlags(headers: seq<string>): (flags: seq<bool>)
    ensures |flags| == |headers|
    ensures forall j :: 0 <= j < |headers| ==> flags[j] == IsStageHeader(headers[j])
  {
    seq(|headers|, j requires 0 <= j < |headers| => IsStageHeader(headers[j]))
  }

  /** Case and surrounding white space do not matter: " STAGE " names the stage column. */
  lemma StageHeaderIgnoresCaseAndSpaces()
    ensures IsStageHeader(" STAGE ")
  {
    LowerSpacedStage();
    TrimSpacedStage();
  }

  lemma LowerSpacedStage()
    ensures Lower(" STAGE ") == " stage "
  {
    var r := Lower(" STAGE ");
    assert r[0] == ' ' && r[1] == 's' && r[2] == 't' && r[3] == 'a' && r[4] == 'g' && r[5] == 'e' && r[6] == ' ';
  }

  lemma TrimSpacedStage()
    ensures Trim(" stage ") == "stage"
  {
    assert " stage "[1..] == "stage ";
    assert LeadingWhiteSpace("stage ") == 0;
    assert LeadingWhiteSpace(" stage ") == 1;
    assert "stage "[..5] == "stage";
    assert TrailingWhiteSpace("stage") == 0;
    assert TrailingWhiteSpace("stage ") == 1;
  }

  /** Array.prototype.find over the headers: the first stage header, if any. */
  function StageColumn(headers: seq<string>): (r: Option<string>)
    ensures r.None? <==> forall i :: 0 <= i < |headers| ==> !IsStageHeader(headers[i])
    ensures r.Some? ==> exists i: nat :: FirstStageHeaderAt(headers, i) && headers[i] == r.value
  {
    var i := FirstStageIndex(headers);
    if i < |headers| then
      assert FirstStageHeaderAt(headers, i);
      Some(headers[i])
    else None
  }

  // ---------------------------------------------------------------------
  // Stage extraction
  // ---------------------------------------------------------------------

  /** The stage a row contributes: its cell under `key`, if present, non-empty, and non-empty once trimmed. */
  function CellStage(row: Row, key: string): (r: Option<string>)
    ensures r.Some? <==> key in row.cells && Trim(row.cells[key]) != ""
    ensures r.Some? ==> r.value == Trim(row.cells[key])
    ensures r.Some? ==> r.value != "" && Trim(r.value) == r.value
  {
    if key in row.cells && row.cells[key] != "" && Trim(row.cells[key]) != "" then
      TrimIdempotent(row.cells[key]);
      Some(Trim(row.cells[key]))
    else None
  }

  /** The stage column as the rows contribute it, one entry per row. */
  function StageCells(data: seq<Row>, key: string): (cells: seq<Option<string>>)
    ensures |cells| == |data|
    ensures forall n :: 0 <= n < |data| ==> cells[n] == CellStage(data[n], key)
  {
    seq(|data|, n requires 0 <= n < |data| => CellStage(data[n], key))
  }

  /** An insertion-ordered set filled from `cells` in order: the present values, each at its first occurrence. */
  function FirstSeen(cells: seq<Option<string>>): seq<string>
  {
    if |cells| == 0 then []
    else
      var seen := FirstSeen(cells[..|cells| - 1]);
      match cells[|cells| - 1]
      case Some(s) => if s in seen then seen else seen + [s]
      case None => seen
  }

  /** The distinct stages found under `key`, in first-seen order: pairwise distinct, trimmed and non-empty. */
  function UniqueStages(data: seq<Row>, key: string): (stages: seq<string>)
    ensures Distinct(stages)
    ensures forall s :: s in stages ==> s != "" && Trim(s) == s
  {
    var cells := StageCells(data, key);
    FirstSeenDistinct(cells);
    FirstSeenExact(cells);
    FirstSeen(cells)
  }

  predicate Distinct(xs: seq<string>)
  {
    forall i, j :: 0 <= i < j < |xs| ==> xs[i] != xs[j]
  }

  /** Every collected value is present in some cell, and every present cell value is collected. */
  lemma {:induction false} FirstSeenExact(cells: seq<Option<string>>)
    ensures forall s :: s in FirstSeen(cells) ==> exists n :: 0 <= n < |cells| && cells[n] == Some(s)
    ensures forall n :: 0 <= n < |cells| && cells[n].Some? ==> cells[n].value in FirstSeen(cells)
  {
    if |cells| > 0 {
      var prefix := cells[..|cells| - 1];
      FirstSeenExact(prefix);
      assert forall n :: 0 <= n < |prefix| ==> cells[n] == prefix[n];
    }
  }

  /** No value is collected twice. */
  lemma {:induction false} FirstSeenDistinct(cells: seq<Option<string>>)
    ensures Distinct(FirstSeen(cells))
  {
    if |cells| > 0 {
      FirstSeenDistinct(cells[..|cells| - 1]);
    }
  }

  /** Some cell before position n holds value v. */
  predicate OccursBefore(cells: seq<Option<string>>, n: int, v: string)
  {
    exists m :: 0 <= m < n && m < |cells| && cells[m] == Some(v)
  }

  /**
   * First-seen order: when value i is listed before value j, every cell
   * holding value j is preceded by a cell holding value i.
   */
  lemma {:induction false} FirstSeenOrder(cells: seq<Option<string>>, i: nat, j: nat, n: nat)
    requires i < j < |FirstSeen(cells)| && n < |cells| && cells[n] == Some(FirstSeen(cells)[j])
    ensures OccursBefore(cells, n, FirstSeen(cells)[i])
  {
    var prefix := cells[..|cells| - 1];
    var last := |cells| - 1;
    var before := FirstSeen(prefix);
    var seen := FirstSeen(cells);
    FirstSeenExact(prefix);
    assert before <= seen;
    assert seen[i] == before[i];
    if n == last || j == |before| {
      // seen[i] occurs before the last cell; the value added last occurs in the last cell only
      assert seen[i] in before;
      var m :| 0 <= m < |prefix| && prefix[m] == Some(seen[i]);
      assert n == last;
      assert cells[m] == Some(seen[i]);
    } else {
      assert seen[j] == before[j];
      assert prefix[n] == cells[n];
      FirstSeenOrder(prefix, i, j, n);
      var m :| 0 <= m < n && m < |prefix| && prefix[m] == Some(before[i]);
      assert cells[m] == Some(seen[i]);
    }
  }

  /** Every extracted stage is some row's stage value, and every row's stage value is extracted. */
  lemma UniqueStagesExact(data: seq<Row>, key: string)
    ensures forall s :: s in UniqueStages(data, key) ==>
              exists n :: 0 <= n < |data| && CellStage(data[n], key) == Some(s)
    ensures forall n :: 0 <= n < |data| && CellStage(data[n], key).Some? ==>
              CellStage(data[n], key).value in UniqueStages(data, key)
  {
    FirstSeenExact(StageCells(data, key));
  }

  /** Some row has a stage under `key`. */
  predicate SomeRowHasStage(data: seq<Row>, key: string)
  {
    exists n :: 0 <= n < |data| && CellStage(data[n], key).Some?
  }

  /** Nothing is collected exactly when no cell holds a value. */
  lemma {:induction false} FirstSeenEmptyIff(cells: seq<Option<string>>)
    ensures FirstSeen(cells) == [] <==> forall n :: 0 <= n < |cells| ==> cells[n].None?
  {
    if |cells| > 0 {
      var prefix := cells[..|cells| - 1];
      FirstSeenEmptyIff(prefix);
      assert forall n :: 0 <= n < |prefix| ==> prefix[n] == cells[n];
    }
  }

  /** No stage is extracted exactly when no row has a stage under `key`. */
  lemma UniqueStagesEmptyIff(data: seq<Row>, key: string)
    ensures UniqueStages(data, key) == [] <==> !SomeRowHasStage(data, key)
  {
    FirstSeenEmptyIff(StageCells(data, key));
  }

  /** Some row before row n has stage value v. */
  predicate RowBefore(data: seq<Row>, key: string, n: int, v: string)
  {
    exists m :: 0 <= m < n && m < |data| && CellStage(data[m], key) == Some(v)
  }

  /** Stages are listed in the order of the rows where they first occur. */
  lemma UniqueStagesFirstSeenOrder(data: seq<Row>, key: string)
    ensures var stages := UniqueStages(data, key);
            forall i, j, n :: 0 <= i < j < |stages| && 0 <= n < |data| && CellStage(data[n], key) == Some(stages[j]) ==>
              RowBefore(data, key, n, stages[i])
  {
    var cells := StageCells(data, key);
    var stages := FirstSeen(cells);
    forall i, j, n | 0 <= i < j < |stages| && 0 <= n < |data| && CellStage(data[n], key) == Some(stages[j])
      ensures RowBefore(data, key, n, stages[i])
    {
      assert cells[n] == Some(stages[j]);
      FirstSeenOrder(cells, i, j, n);
      var m :| 0 <= m < n && m < |cells| && cells[m] == Some(stages[i]);
      assert CellStage(data[m], key) == Some(stages[i]);
    }
  }

  /**
   * The forEach loop that fills the insertion-ordered Set of stages; the
   * sequence is the Set's iteration order and `seen` its membership.
   */
  method CollectStages(data: seq<Row>, key: string) returns (stages: seq<string>)
    ensures stages == UniqueStages(data, key)
    ensures Distinct(stages)
  {
    ghost var cells := StageCells(data, key);
    stages := [];
    var seen: set<string> := {};
    for n := 0 to |data|
      invariant stages == FirstSeen(cells[..n])
      invariant seen == set s | s in stages
    {
      assert cells[..n + 1][..n] == cells[..n];
      assert cells[..n + 1][n] == CellStage(data[n], key);
      var row := data[n];
      if key in row.cells {
        var value := row.cells[key];
        if value != "" {
          var s := Trim(value);
          if s != "" && s !in seen {
            stages := stages + [s];
            seen := seen + {s};
          }
        }
      }
    }
    assert cells[..|data|] == cells;
    assert stages == UniqueStages(data, key);
  }

  /**
   * What processing the parsed CSV decides: the first applicable error, in
   * the order the checks are made, or the non-empty list of stages.
   */
  function ExtractStages(parsed: ParseResult): (r: Result<seq<string>, CsvError>)
    ensures |parsed.errors| > 0 ==> r == Failure(ParseFailed(parsed.errors[0]))
    ensures parsed.errors == [] && parsed.data == [] ==> r == Failure(EmptyData)
    ensures parsed.errors == [] && parsed.data != [] ==>
              (r == Failure(StageColumnMissing(parsed.data[0].keys)) <==>
                 forall h :: h in parsed.data[0].keys ==> !IsStageHeader(h))
    ensures r.Success? ==>
              && parsed.errors == [] && parsed.data != []
              && StageColumn(parsed.data[0].keys).Some?
              && r.value == UniqueStages(parsed.data, StageColumn(parsed.data[0].keys).value)
              && r.value != []
    ensures r.Success? <==>
              && parsed.errors == [] && parsed.data != []
              && StageColumn(parsed.data[0].keys).Some?
              && SomeRowHasStage(parsed.data, StageColumn(parsed.data[0].keys).value)
    ensures r.Failure? && r.error.ParseFailed? ==> |parsed.errors| > 0
    ensures r == Failure(EmptyData) ==> parsed.errors == [] && parsed.data == []
    ensures r.Failure? && r.error.StageColumnMissing? ==>
              parsed.errors == [] && parsed.data != [] && StageColumn(parsed.data[0].keys).None?
    ensures r.Failure? && r.error.NoStages? <==>
              && parsed.errors == [] && parsed.data != []
              && StageColumn(parsed.data[0].keys).Some?
              && !SomeRowHasStage(parsed.data, StageColumn(parsed.data[0].keys).value)
    ensures r.Failure? && r.error.NoStages? ==> StageColumn(parsed.data[0].keys) == Some(r.error.column)
  {
    if |parsed.errors| > 0 then Failure(ParseFailed(parsed.errors[0]))
    else if |parsed.data| == 0 then Failure(EmptyData)
    else
      var headers := parsed.data[0].keys;
      match StageColumn(headers)
      case None => Failure(StageColumnMissing(headers))
      case Some(key) =>
        var stages := UniqueStages(parsed.data, key);
        UniqueStagesEmptyIff(parsed.data, key);
        if |stages| == 0 then Failure(NoStages(key)) else Success(stages)
  }

  /** One mapping per stage, in order, none assigned yet. */
  function FreshMappings(stages: seq<string>): (ms: seq<StageMapping>)
    ensures |ms| == |stages|
    ensures forall i :: 0 <= i < |ms| ==> ms[i] == StageMapping(stages[i], "")
  {
    if stages == [] then [] else [StageMapping(stages[0], "")] + FreshMappings(stages[1..])
  }

  function StageNames(ms: seq<StageMapping>): (names: seq<string>)
    ensures |names| == |ms|
    ensures forall i :: 0 <= i < |ms| ==> names[i] == ms[i].stageName
  {
    if ms == [] then [] else [ms[0].stageName] + StageNames(ms[1..])
  }

  /** What the category selector offers: unassigned, or one of the standard categories. */
  predicate IsCategoryChoice(category: string)
  {
    category == "" || category in StandardCategories
  }

  /**
   * The mapping table's own invariant: stage names are distinct, trimmed and
   * non-empty, and every category is one the selector offers.
   */
  predicate WellFormedMappings(ms: seq<StageMapping>)
  {
    && Distinct(StageNames(ms))
    && (forall i :: 0 <= i < |ms| ==> ms[i].stageName != "" && Trim(ms[i].stageName) == ms[i].stageName)
    && (forall i :: 0 <= i < |ms| ==> IsCategoryChoice(ms[i].category))
  }

  /** A successful extraction yields a well-formed mapping table, every category unassigned. */
  lemma {:induction false} ExtractedMappingsWellFormed(parsed: ParseResult)
    requires ExtractStages(parsed).Success?
    ensures var ms := FreshMappings(ExtractStages(parsed).value);
            WellFormedMappings(ms) && |ms| > 0 && forall i :: 0 <= i < |ms| ==> ms[i].category == ""
  {
    var stages := ExtractStages(parsed).value;
    var key := StageColumn(parsed.data[0].keys).value;
    var ms := FreshMappings(stages);
    assert StageNames(ms) == stages;
    forall i | 0 <= i < |ms|
      ensures ms[i].stageName != "" && Trim(ms[i].stageName) == ms[i].stageName
    {
      assert ms[i].stageName == stages[i] && stages[i] in stages;
    }
  }

  // ---------------------------------------------------------------------
  // Category assignment
  // ---------------------------------------------------------------------

  /** The table after the user picks `category` for row `index`. */
  function WithCategory(ms: seq<StageMapping>, index: nat, category: string): (r: seq<StageMapping>)
    requires index < |ms|
    ensures |r| == |ms|
    ensures r[index].category == category
    ensures forall i :: 0 <= i < |ms| ==> r[i].stageName == ms[i].stageName
    ensures forall i :: 0 <= i < |ms| && i != index ==> r[i] == ms[i]
  {
    ms[index := ms[index].(category := category)]
  }

  /** Assigning a category the selector offers keeps the table well-formed. */
  lemma WithCategoryKeepsWellFormed(ms: seq<StageMapping>, index: nat, category: string)
    requires index < |ms| && WellFormedMappings(ms) && IsCategoryChoice(category)
    ensures WellFormedMappings(WithCategory(ms, index, category))
  {
    assert StageNames(WithCategory(ms, index, category)) == StageNames(ms);
  }

  // ---------------------------------------------------------------------
  // Grouping by category
  // ---------------------------------------------------------------------

  /** The stage names assigned to `category`, in table order. */
  function Bucket(ms: seq<StageMapping>, category: string): seq<string>
  {
    if |ms| == 0 then []
    else
      var last := ms[|ms| - 1];
      Bucket(ms[..|ms| - 1], category) + (if last.category == category then [last.stageName] else [])
  }

  /** The categories that at least one mapping has been given. */
  function AssignedCategories(ms: seq<StageMapping>): set<string>
  {
    set m | m in ms && m.category != "" :: m.category
  }

  /** The dictionary the submission builds: one entry per assigned category, holding its bucket. */
  predicate IsGrouping(groups: map<string, seq<string>>, ms: seq<StageMapping>)
  {
    && groups.Keys == AssignedCategories(ms)
    && forall c :: c in groups ==> groups[c] == Bucket(ms, c)
  }

  /** A name is in a bucket exactly when some mapping with that name has that category. */
  lemma {:induction false} BucketMembers(ms: seq<StageMapping>, category: string, name: string)
    ensures name in Bucket(ms, category) <==>
              exists i :: 0 <= i < |ms| && ms[i].category == category && ms[i].stageName == name
  {
    if |ms| > 0 {
      var prefix := ms[..|ms| - 1];
      BucketMembers(prefix, category, name);
      assert forall i :: 0 <= i < |prefix| ==> ms[i] == prefix[i];
    }
  }

  /** Buckets keep table order: the bucket of a concatenation is the concatenation of the buckets. */
  lemma {:induction false} BucketConcat(a: seq<StageMapping>, b: seq<StageMapping>, category: string)
    ensures Bucket(a + b, category) == Bucket(a, category) + Bucket(b, category)
  {
    if |b| > 0 {
      assert (a + b)[..|a + b| - 1] == a + b[..|b| - 1];
      BucketConcat(a, b[..|b| - 1], category);
    } else {
      assert a + b == a;
    }
  }

  /** A category nobody was given has an empty bucket. */
  lemma BucketEmptyWhenUnused(ms: seq<StageMapping>, category: string)
    requires forall i :: 0 <= i < |ms| ==> ms[i].category != category
    ensures Bucket(ms, category) == []
  {
    if Bucket(ms, category) != [] {
      BucketMembers(ms, category, Bucket(ms, category)[0]);
    }
  }

  /**
   * With distinct stage names, an assigned stage sits in the bucket of its
   * own category and in no other.
   */
  lemma StageInItsBucketOnly(ms: seq<StageMapping>, index: nat, category: string)
    requires index < |ms| && Distinct(StageNames(ms))
    ensures ms[index].stageName in Bucket(ms, category) <==> ms[index].category == category
  {
    BucketMembers(ms, category, ms[index].stageName);
    if ms[index].stageName in Bucket(ms, category) {
      var i :| 0 <= i < |ms| && ms[i].category == category && ms[i].stageName == ms[index].stageName;
      assert StageNames(ms)[i] == StageNames(ms)[index];
    }
  }

  /** The dictionary described by IsGrouping. */
  ghost function Grouped(ms: seq<StageMapping>): map<string, seq<string>>
  {
    map c | c in AssignedCategories(ms) :: Bucket(ms, c)
  }

  /** The grouping of a table is determined by the table. */
  lemma GroupingUnique(groups: map<string, seq<string>>, ms: seq<StageMapping>)
    requires IsGrouping(groups, ms)
    ensures groups == Grouped(ms)
  {
  }

  /** Buckets agree for tables with the same names that agree on who has `category`. */
  lemma {:induction false} BucketDependsOnlyOnMembers(a: seq<StageMapping>, b: seq<StageMapping>, category: string)
    requires |a| == |b|
    requires forall i :: 0 <= i < |a| ==> a[i].stageName == b[i].stageName
    requires forall i :: 0 <= i < |a| ==> (a[i].category == category <==> b[i].category == category)
    ensures Bucket(a, category) == Bucket(b, category)
  {
    if |a| > 0 {
      BucketDependsOnlyOnMembers(a[..|a| - 1], b[..|b| - 1], category);
    }
  }

  /**
   * The forEach loop that skips unassigned mappings and pushes every other
   * stage name onto its category's list, creating the list on first use.
   */
  method GroupByCategory(ms: seq<StageMapping>) returns (groups: map<string, seq<string>>)
    ensures IsGrouping(groups, ms)
    ensures forall c :: c in groups ==> groups[c] != []
  {
    groups := map[];
    for i := 0 to |ms|
      invariant IsGrouping(groups, ms[..i])
    {
      var m := ms[i];
      assert ms[..i + 1][..i] == ms[..i];
      assert AssignedCategories(ms[..i + 1]) == AssignedCategories(ms[..i]) + (if m.category != "" then {m.category} else {});
      if m.category != "" {
        if m.category !in groups {
          BucketEmptyWhenUnused(ms[..i], m.category);
          groups := groups[m.category := []];
        }
        groups := groups[m.category := groups[m.category] + [m.stageName]];
      }
    }
    assert ms[..|ms|] == ms;
    forall c | c in groups
      ensures groups[c] != []
    {
      var m :| m in ms && m.category != "" && m.category == c;
      var i :| 0 <= i < |ms| && ms[i] == m;
      BucketMembers(ms, c, m.stageName);
    }
  }

  // ---------------------------------------------------------------------
  // Submission payload
  // ---------------------------------------------------------------------

  /** A category's field: its bucket joined with ", ", or "" when the category has no bucket. */
  function FieldValue(groups: map<string, seq<string>>, category: string): string
  {
    if category in groups then Join(groups[category], ", ") else ""
  }

  /** The flat record sent for submission: the four identifiers and one field per standard category. */
  function BuildPayload(ids: ClientIds, groups: map<string, seq<string>>): map<string, string>
  {
    map[
      "ghl_subaccount_id" := ids.ghlSubaccountId,
      "meta_ad_account_id" := ids.metaAdAccountId,
      "calendar_diagnosis_id" := ids.diagnosisCalendarId,
      "calendar_demo_id" := ids.demoCalendarId,
      "map_no_show_demo" := FieldValue(groups, "No Show Demo"),
      "map_trattative" := FieldValue(groups, "Trattative"),
      "map_dead_lead" := FieldValue(groups, "Dead Lead"),
      "map_setting" := FieldValue(groups, "Setting"),
      "map_demo_set" := FieldValue(groups, "Demo Set"),
      "map_non_qualificato" := FieldValue(groups, "Non Qualificato"),
      "map_new_lead" := FieldValue(groups, "New Lead"),
      "map_fuori_target" := FieldValue(groups, "Fuori Target"),
      "map_no_show_diagnosi" := FieldValue(groups, "No Show Diagnosi"),
      "map_won" := FieldValue(groups, "Won"),
      "map_lost" := FieldValue(groups, "Lost"),
      "map_diagnosi_set" := FieldValue(groups, "Diagnosi Set")
    ]
  }

  /** The payload submitted for a mapping table. */
  ghost function SubmissionPayload(ids: ClientIds, ms: seq<StageMapping>): map<string, string>
  {
    BuildPayload(ids, Grouped(ms))
  }

  /** A category character as it appears in a field name: lower-cased, a space as an underscore. */
  function FieldChar(c: char): char
  {
    if c == ' ' then '_' else LowerChar(c)
  }

  /** The naming rule behind the category fields: "map_", then the label lower-cased with spaces as underscores. */
  function FieldKey(category: string): string
  {
    "map_" + seq(|category|, k requires 0 <= k < |category| => FieldChar(category[k]))
  }

  const IdentifierKeys: set<string> :=
    {"ghl_subaccount_id", "meta_ad_account_id", "calendar_diagnosis_id", "calendar_demo_id"}

  /** The payload field of each standard category, in the order of StandardCategories. */
  const CategoryFields: seq<string> := [
    "map_no_show_demo", "map_trattative", "map_dead_lead", "map_setting", "map_demo_set",
    "map_non_qualificato", "map_new_lead", "map_fuori_target", "map_no_show_diagnosi",
    "map_won", "map_lost", "map_diagnosi_set"
  ]

  /** An assigned category's field holds its bucket joined with ", ", and "" when nobody was given it. */
  lemma GroupedFieldValue(ms: seq<StageMapping>, category: string)
    requires category != ""
    ensures FieldValue(Grouped(ms), category) == Join(Bucket(ms, category), ", ")
  {
    if category !in AssignedCategories(ms) {
      forall i | 0 <= i < |ms|
        ensures ms[i].category != category
      {
        assert ms[i] in ms;
      }
      BucketEmptyWhenUnused(ms, category);
    }
  }

  /** The payload has exactly the four identifier fields and the twelve category fields. */
  lemma PayloadKeys(ids: ClientIds, groups: map<string, seq<string>>)
    ensures BuildPayload(ids, groups).Keys == IdentifierKeys + (set k | k in CategoryFields)
  {
  }

  /** The identifier fields are copied verbatim. */
  lemma PayloadIdentifiers(ids: ClientIds, groups: map<string, seq<string>>)
    ensures BuildPayload(ids, groups)["ghl_subaccount_id"] == ids.ghlSubaccountId
    ensures BuildPayload(ids, groups)["meta_ad_account_id"] == ids.metaAdAccountId
    ensures BuildPayload(ids, groups)["calendar_diagnosis_id"] == ids.diagnosisCalendarId
    ensures BuildPayload(ids, groups)["calendar_demo_id"] == ids.demoCalendarId
  {
  }

  /** The payload's field for a category is read from that category's entry in the groups. */
  lemma PayloadCategoryField(ids: ClientIds, groups: map<string, seq<string>>, i: nat)
    requires i < |StandardCategories|
    ensures BuildPayload(ids, groups)[CategoryFields[i]] == FieldValue(groups, StandardCategories[i])
  {
    var p := BuildPayload(ids, groups);
    if i == 0 {
      assert p["map_no_show_demo"] == FieldValue(groups, "No Show Demo");
    } else if i == 1 {
      assert p["map_trattative"] == FieldValue(groups, "Trattative");
    } else if i == 2 {
      assert p["map_dead_lead"] == FieldValue(groups, "Dead Lead");
    } else if i == 3 {
      assert p["map_setting"] == FieldValue(groups, "Setting");
    } else if i == 4 {
      assert p["map_demo_set"] == FieldValue(groups, "Demo Set");
    } else if i == 5 {
      assert p["map_non_qualificato"] == FieldValue(groups, "Non Qualificato");
    } else if i == 6 {
      assert p["map_new_lead"] == FieldValue(groups, "New Lead");
    } else if i == 7 {
      assert p["map_fuori_target"] == FieldValue(groups, "Fuori Target");
    } else if i == 8 {
      assert p["map_no_show_diagnosi"] == FieldValue(groups, "No Show Diagnosi");
    } else if i == 9 {
      assert p["map_won"] == FieldValue(groups, "Won");
    } else if i == 10 {
      assert p["map_lost"] == FieldValue(groups, "Lost");
    } else if i == 11 {
      assert p["map_diagnosi_set"] == FieldValue(groups, "Diagnosi Set");
    }
  }

  /** Each category field holds that category's bucket joined with ", ", and "" for an empty bucket. */
  lemma PayloadCategoryFields(ids: ClientIds, ms: seq<StageMapping>)
    ensures forall i :: 0 <= i < |StandardCategories| ==>
              SubmissionPayload(ids, ms)[CategoryFields[i]] == Join(Bucket(ms, StandardCategories[i]), ", ")
  {
    forall i | 0 <= i < |StandardCategories|
      ensures SubmissionPayload(ids, ms)[CategoryFields[i]] == Join(Bucket(ms, StandardCategories[i]), ", ")
    {
      PayloadCategoryField(ids, Grouped(ms), i);
      GroupedFieldValue(ms, StandardCategories[i]);
    }
  }

  /** The literal field names are the naming rule applied to the categories (first three). */
  lemma FieldKeysOfCategoriesOneToThree()
    ensures FieldKey("No Show Demo") == "map_no_show_demo"
    ensures FieldKey("Trattative") == "map_trattative"
    ensures FieldKey("Dead Lead") == "map_dead_lead"
  {
  }

  /** The literal field names are the naming rule applied to the categories (fourth to sixth). */
  lemma FieldKeysOfCategoriesFourToSix()
    ensures FieldKey("Setting") == "map_setting"
    ensures FieldKey("Demo Set") == "map_demo_set"
    ensures FieldKey("Non Qualificato") == "map_non_qualificato"
  {
  }

  /** The literal field names are the naming rule applied to the categories (seventh to ninth). */
  lemma FieldKeysOfCategoriesSevenToNine()
    ensures FieldKey("New Lead") == "map_new_lead"
    ensures FieldKey("Fuori Target") == "map_fuori_target"
    ensures FieldKey("No Show Diagnosi") == "map_no_show_diagnosi"
  {
  }

  /** The literal field names are the naming rule applied to the categories (last three). */
  lemma FieldKeysOfCategoriesTenToTwelve()
    ensures FieldKey("Won") == "map_won"
    ensures FieldKey("Lost") == "map_lost"
    ensures FieldKey("Diagnosi Set") == "map_diagnosi_set"
  {
  }

  /** Every standard category's field is named by the rule FieldKey applied to its label. */
  lemma CategoryFieldsFollowNamingRule()
    ensures forall i :: 0 <= i < |StandardCategories| ==> CategoryFields[i] == FieldKey(StandardCategories[i])
  {
    FieldKeysOfCategoriesOneToThree();
    FieldKeysOfCategoriesFourToSix();
    FieldKeysOfCategoriesSevenToNine();
    FieldKeysOfCategoriesTenToTwelve();
  }

  /**
   * In a well-formed table an assigned stage's category is a standard one,
   * and each stage is in the bucket of that category and of no other
   * standard category; an unassigned stage is in none of the twelve.
   */
  lemma StageInOneStandardBucket(ms: seq<StageMapping>, index: nat)
    requires WellFormedMappings(ms) && index < |ms|
    ensures ms[index].category != "" ==>
              exists k :: 0 <= k < |StandardCategories| && StandardCategories[k] == ms[index].category
    ensures forall k :: 0 <= k < |StandardCategories| ==>
              (ms[index].stageName in Bucket(ms, StandardCategories[k]) <==> StandardCategories[k] == ms[index].category)
  {
    assert IsCategoryChoice(ms[index].category);
    forall k | 0 <= k < |StandardCategories|
      ensures ms[index].stageName in Bucket(ms, StandardCategories[k]) <==> StandardCategories[k] == ms[index].category
    {
      StageInItsBucketOnly(ms, index, StandardCategories[k]);
    }
  }

  /** Stages A and B mapped to Won and C left unassigned: the Won field reads "A, B". */
  lemma MappingExample(ids: ClientIds)
    ensures SubmissionPayload(ids, [StageMapping("A", "Won"), StageMapping("B", "Won"), StageMapping("C", "")])["map_won"] == "A, B"
  {
    var ms := [StageMapping("A", "Won"), StageMapping("B", "Won"), StageMapping("C", "")];
    assert ms[..2][..1] == ms[..1] == [StageMapping("A", "Won")];
    assert ms[..1][..0] == [];
    assert Bucket(ms[..1], "Won") == ["A"];
    assert Bucket(ms[..2], "Won") == ["A", "B"];
    assert Bucket(ms, "Won") == ["A", "B"];
    assert Join(["A", "B"], ", ") == "A, B";
    assert CategoryFields[9] == "map_won" && StandardCategories[9] == "Won";
    PayloadCategoryFields(ids, ms);
  }

  /** In the same mapping, the unassigned stage C is in no category's bucket. */
  lemma UnassignedExample()
    ensures forall c :: c != "" ==> "C" !in Bucket([StageMapping("A", "Won"), StageMapping("B", "Won"), StageMapping("C", "")], c)
  {
    var ms := [StageMapping("A", "Won"), StageMapping("B", "Won"), StageMapping("C", "")];
    forall c | c != ""
      ensures "C" !in Bucket(ms, c)
    {
      BucketMembers(ms, c, "C");
    }
  }

  // ---------------------------------------------------------------------
  // The wizard's state
  // ---------------------------------------------------------------------

  /** The page's state: the step shown, the error line, the mapping table and the identifier fields. */
  class Wizard {
    var step: int
    var error: string
    var mappings: seq<StageMapping>
    var ids: ClientIds

    /** Step 1 (upload) or 2 (mapping); the table's stage names are distinct, trimmed and non-empty. */
    ghost predicate Valid()
      reads this
    {
      (step == 1 || step == 2) && WellFormedMappings(mappings)
    }

    constructor ()
      ensures Valid()
      ensures step == 1 && error == "" && mappings == [] && ids == ClientIds("", "", "", "")
    {
      step := 1;
      error := "";
      mappings := [];
      ids := ClientIds("", "", "", "");
    }

    /** The identifier inputs of the form. */
    method SetIdentifiers(newIds: ClientIds)
      requires Valid()
      modifies this`ids
      ensures Valid() && ids == newIds
    {
      ids := newIds;
    }

    /**
     * A file was chosen (or the choice was cancelled). A name that does not
     * end in ".csv" in any case is refused with a message; otherwise the
     * message is cleared and the file goes on to be read.
     */
    method HandleFileUpload(fileName: Option<string>)
      requires Valid()
      modifies this`error
      ensures Valid()
      ensures fileName.None? ==> error == old(error)
      ensures fileName.Some? && !AcceptsFileName(fileName.value) ==> error == "Per favore, carica un file CSV (.csv)"
      ensures fileName.Some? && AcceptsFileName(fileName.value) ==> error == ""
    {
      if fileName.None? {
        return;
      }
      if !AcceptsFileName(fileName.value) {
        error := "Per favore, carica un file CSV (.csv)";
        return;
      }
      error := "";
    }

    /**
     * Turns the parsed CSV into the mapping table. On the first failing
     * check it shows that check's message and leaves step and table as they
     * were; on success it installs one unassigned mapping per stage, clears
     * the message and moves to step 2.
     */
    method ProcessCsvData(parsed: ParseResult) returns (ok: bool)
      requires Valid()
      modifies this`error, this`step, this`mappings
      ensures Valid()
      ensures ok <==> ExtractStages(parsed).Success?
      ensures ExtractStages(parsed).Success? ==>
                mappings == FreshMappings(ExtractStages(parsed).value) && error == "" && step == 2
      ensures ExtractStages(parsed).Failure? ==>
                error == ErrorMessage(ExtractStages(parsed).error) && step == old(step) && mappings == old(mappings)
    {
      if |parsed.errors| > 0 {
        error := ErrorMessage(ParseFailed(parsed.errors[0]));
        return false;
      }
      var data := parsed.data;
      if |data| == 0 {
        error := ErrorMessage(EmptyData);
        return false;
      }
      var headers := data[0].keys;
      var column := StageColumn(headers);
      if column.None? {
        error := ErrorMessage(StageColumnMissing(headers));
        return false;
      }
      var key := column.value;
      var stages := CollectStages(data, key);
      if |stages| == 0 {
        error := ErrorMessage(NoStages(key));
        return false;
      }
      ExtractedMappingsWellFormed(parsed);
      mappings := FreshMappings(stages);
      error := "";
      step := 2;
      return true;
    }

    /** "Continua": refuses blank CSV text, otherwise processes the parse of it. */
    method HandleCsvSubmit(csvText: string, parsed: ParseResult)
      requires Valid()
      modifies this`error, this`step, this`mappings
      ensures Valid()
      ensures Trim(csvText) == "" ==>
                error == "Per favore, carica un file CSV valido" && step == old(step) && mappings == old(mappings)
      ensures Trim(csvText) != "" && ExtractStages(parsed).Success? ==>
                mappings == FreshMappings(ExtractStages(parsed).value) && error == "" && step == 2
      ensures Trim(csvText) != "" && ExtractStages(parsed).Failure? ==>
                error == ErrorMessage(ExtractStages(parsed).error) && step == old(step) && mappings == old(mappings)
    {
      if Trim(csvText) == "" {
        error := "Per favore, carica un file CSV valido";
        return;
      }
      var _ := ProcessCsvData(parsed);
    }

    /** The user picks `category` for row `index`: only that row's category changes. */
    method UpdateStageMapping(index: nat, category: string)
      requires Valid() && index < |mappings| && IsCategoryChoice(category)
      modifies this`mappings
      ensures Valid()
      ensures mappings == WithCategory(old(mappings), index, category)
    {
      WithCategoryKeepsWellFormed(mappings, index, category);
      var updated := mappings;
      updated := updated[index := updated[index].(category := category)];
      mappings := updated;
    }

    /** "Indietro": back to the upload step, message cleared, table kept. */
    method Back()
      requires Valid()
      modifies this`step, this`error
      ensures Valid() && step == 1 && error == ""
    {
      step := 1;
      error := "";
    }

    /**
     * Submission up to the network call: clears the message, groups the
     * stage names by category and builds the payload that is sent.
     */
    method HandleSubmit() returns (payload: map<string, string>)
      requires Valid()
      modifies this`error
      ensures Valid() && error == ""
      ensures payload == SubmissionPayload(ids, mappings)
    {
      error := "";
      var groups := GroupByCategory(mappings);
      GroupingUnique(groups, mappings);
      payload := BuildPayload(ids, groups);
    }

    /** A failed submission shows the relay's detail and keeps the step, the table and the identifiers. */
    method SubmissionFailed(detail: string)
      requires Valid()
      modifies this`error
      ensures Valid() && error == "Errore nell'invio: " + detail
    {
      error := "Errore nell'invio: " + detail;
    }
  }
}
