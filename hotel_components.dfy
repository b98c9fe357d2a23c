// Text formatting of the hotel search front end: the summary of the active
// filters, the amenity lines of a hotel with the requested ones highlighted,
// and the country flag that leads a hotel's header. The text is Markdown
// with Streamlit's colour directives.

module HotelComponents {
  import opened Common

  type Dict = map<string, Json>

  const Uncategorized: string := "UNCATEGORIZED"

  const CountryFlags: map<string, string> := map[
    "Argentina" := "\U{1F1E6}\U{1F1F7}",
    "Brazil" := "\U{1F1E7}\U{1F1F7}",
    "Canada" := "\U{1F1E8}\U{1F1E6}",
    "France" := "\U{1F1EB}\U{1F1F7}",
    "Georgia" := "\U{1F1EC}\U{1F1EA}",
    "Germany" := "\U{1F1E9}\U{1F1EA}",
    "Hungary" := "\U{1F1ED}\U{1F1FA}",
    "Indonesia" := "\U{1F1EE}\U{1F1E9}",
    "Israel" := "\U{1F1EE}\U{1F1F1}",
    "Italy" := "\U{1F1EE}\U{1F1F9}",
    "Japan" := "\U{1F1EF}\U{1F1F5}",
    "Malaysia" := "\U{1F1F2}\U{1F1FE}",
    "Norway" := "\U{1F1F3}\U{1F1F4}",
    "Spain" := "\U{1F1EA}\U{1F1F8}",
    "Sweden" := "\U{1F1F8}\U{1F1EA}",
    "Thailand" := "\U{1F1F9}\U{1F1ED}",
    "Turkey" := "\U{1F1F9}\U{1F1F7}",
    "USA" := "\U{1F1FA}\U{1F1F8}",
    "United Kingdom" := "\U{1F1EC}\U{1F1E7}"
  ]

  /** The columns `format_filters` visits, in order. */
  const FilterColumns: seq<string> := [
    "accomodation_types",
    "property_amenities",
    "room_amenities",
    "wellness_spa",
    "accessibility",
    "for_children"
  ]

  /** The columns `format_amenities` visits, in order. */
  const AmenityColumns: seq<string> := [
    "property_amenities",
    "room_amenities",
    "wellness_spa",
    "accessibility",
    "for_children"
  ]

  const AmenityEmoji: map<string, string> := map[
    "accomodation_types" := "\U{1F3D8}\U{FE0F}",
    "property_amenities" := "\U{1F3E8}",
    "room_amenities" := "\U{1F6CF}\U{FE0F}",
    "wellness_spa" := "\U{1F9D8}",
    "accessibility" := "\U{1F9D1}\U{200D}\U{1F9AF}\U{200D}\U{27A1}\U{FE0F}",
    "for_children" := "\U{1F476}"
  ]

  /** The parameter suffixes `format_filters` reads for each column, in order. */
  const Suffixes: seq<string> := ["include", "exclude", "include_all", "include_any"]

  /** A column's heading: its name with spaces for underscores in title case,
      led by the column's emoji when it has one. */
  function NiceName(column: string): string {
    var plain := Title(ReplaceChar(column, '_', ' '));
    if column in AmenityEmoji && AmenityEmoji[column] != "" then AmenityEmoji[column] + " " + plain else plain
  }

  /** A parameter that is absent or `None`. */
  predicate Unset(params: Dict, key: string) {
    key !in params || params[key] == JNull
  }

  // ---------------------------------------------------------------------------
  // format_filters

  /** `"include" in suffix`. */
  predicate IsInclude(suffix: string) {
    Contains(suffix, "include")
  }

  /** Three of the suffixes ask for values and `exclude` rules them out. */
  lemma SuffixKinds()
    ensures IsInclude("include") && IsInclude("include_all") && IsInclude("include_any")
    ensures !IsInclude("exclude")
  {
    assert OccursAt("include", "include", 0);
    assert OccursAt("include_all", "include", 0) by { assert "include_all"[0..7] == "include"; }
    assert OccursAt("include_any", "include", 0) by { assert "include_any"[0..7] == "include"; }
    assert !OccursAt("exclude", "include", 0) by { assert "exclude"[0..7][0] == 'e'; }
  }

  /** How one option is shown: blue when asked for, struck through in red
      when excluded. */
  function Styled(option: Json, wanted: bool): string {
    if wanted then ":blue-background[" + Str(option) + "]" else "~~:red-background[" + Str(option) + "]~~"
  }

  function StyleAll(options: seq<Json>, wanted: bool): (r: seq<string>)
    ensures |r| == |options|
    ensures forall i :: 0 <= i < |options| ==> r[i] == Styled(options[i], wanted)
    decreases |options|
  {
    if options == [] then []
    else
      var front := options[..|options| - 1];
      assert forall i :: 0 <= i < |front| ==> front[i] == options[i];
      StyleAll(front, wanted) + [Styled(options[|options| - 1], wanted)]
  }

  /** The options under `<column>_<suffix>`: none when the parameter is unset;
      a lone accommodation type counts as a one-element list; anything else
      is iterated. */
  function OptionsAt(params: Dict, column: string, suffix: string): (r: Result<seq<Json>>)
    ensures Unset(params, column + "_" + suffix) ==> r == Ok([])
    ensures (!Unset(params, column + "_" + suffix) && column == "accomodation_types" &&
             !params[column + "_" + suffix].JArr?) ==> r == Ok([params[column + "_" + suffix]])
  {
    var key := column + "_" + suffix;
    if Unset(params, key) then Ok([])
    else if column == "accomodation_types" && !params[key].JArr? then Ok([params[key]])
    else Iterate(params[key])
  }

  /** The styled options of a column over its first `n` suffixes. */
  function SuffixHighlights(params: Dict, column: string, n: nat): Result<seq<string>>
    requires n <= |Suffixes|
  {
    if n == 0 then Ok([])
    else
      match SuffixHighlights(params, column, n - 1)
      case Err(m) => Err(m)
      case Ok(earlier) =>
        match OptionsAt(params, column, Suffixes[n - 1])
        case Err(m) => Err(m)
        case Ok(options) => Ok(earlier + StyleAll(options, IsInclude(Suffixes[n - 1])))
  }

  /** A column's line in both formatters: the bold heading, then the items
      joined by commas. */
  function HeadedLine(column: string, items: seq<string>): (line: string)
    ensures StartsWith(line, "**")
  {
    var line := "**" + NiceName(column) + "**: " + Join(", ", items);
    assert line[..2] == "**";
    line
  }

  /** Lines as both formatters build them: each line of Markdown, starting
      with a bold heading, is followed by a `"\n"` element. */
  predicate Paired(lines: seq<string>) {
    |lines| % 2 == 0 &&
    forall i :: 0 <= i < |lines| ==> if i % 2 == 1 then lines[i] == "\n" else StartsWith(lines[i], "**")
  }

  lemma PairedAppend(lines: seq<string>, line: string)
    requires Paired(lines) && StartsWith(line, "**")
    ensures Paired(lines + [line, "\n"])
  {
  }

  /** The lines of the first `n` columns: a column with something to show
      contributes its line followed by a `"\n"` element. */
  function FilterLines(params: Dict, n: nat): (r: Result<seq<string>>)
    requires n <= |FilterColumns|
    ensures r.Ok? ==> Paired(r.value)
  {
    if n == 0 then Ok([])
    else
      match FilterLines(params, n - 1)
      case Err(m) => Err(m)
      case Ok(earlier) =>
        match SuffixHighlights(params, FilterColumns[n - 1], |Suffixes|)
        case Err(m) => Err(m)
        case Ok(highlights) =>
          if highlights == [] then Ok(earlier)
          else
            var line := HeadedLine(FilterColumns[n - 1], highlights);
            PairedAppend(earlier, line);
            Ok(earlier + [line, "\n"])
  }

  /** What `format_filters` returns. */
  function FilterText(params: Dict): Result<string> {
    match FilterLines(params, |FilterColumns|)
    case Err(m) => Err(m)
    case Ok(lines) => Ok(Join("\n", lines))
  }

  lemma {:induction false} SuffixErrorPersists(params: Dict, column: string, k: nat, n: nat, m: string)
    requires k <= n <= |Suffixes| && SuffixHighlights(params, column, k) == Err(m)
    ensures SuffixHighlights(params, column, n) == Err(m)
    decreases n - k
  {
    if k < n {
      SuffixErrorPersists(params, column, k + 1, n, m);
    }
  }

  lemma {:induction false} FilterErrorPersists(params: Dict, k: nat, n: nat, m: string)
    requires k <= n <= |FilterColumns| && FilterLines(params, k) == Err(m)
    ensures FilterLines(params, n) == Err(m)
    decreases n - k
  {
    if k < n {
      FilterErrorPersists(params, k + 1, n, m);
    }
  }

  /** `format_filters`: for each column, gather its styled options; keep the
      columns that have any. */
  method FormatFilters(params: Dict) returns (r: Result<string>)
    ensures r == FilterText(params)
  {
    var lines: seq<string> := [];
    var c := 0;
    while c < |FilterColumns|
      invariant 0 <= c <= |FilterColumns|
      invariant FilterLines(params, c) == Ok(lines)
    {
      var column := FilterColumns[c];
      var highlighted := ColumnFilters(params, column);
      FilterLinesStep(params, c, lines, highlighted);
      if highlighted.Err? {
        FilterErrorPersists(params, c + 1, |FilterColumns|, highlighted.msg);
        return Err(highlighted.msg);
      }
      if highlighted.value != [] {
        lines := lines + [HeadedLine(column, highlighted.value), "\n"];
      }
      c := c + 1;
    }
    r := Ok(Join("\n", lines));
  }

  /** One column's step of `FilterLines`. */
  lemma FilterLinesStep(params: Dict, c: nat, lines: seq<string>, highlights: Result<seq<string>>)
    requires c < |FilterColumns| && FilterLines(params, c) == Ok(lines)
    requires SuffixHighlights(params, FilterColumns[c], |Suffixes|) == highlights
    ensures highlights.Err? ==> FilterLines(params, c + 1) == Err(highlights.msg)
    ensures highlights.Ok? ==>
              FilterLines(params, c + 1) ==
              Ok(if highlights.value == [] then lines else lines + [HeadedLine(FilterColumns[c], highlights.value), "\n"])
  {
  }

  /** The suffix loop of `format_filters` for one column. */
  method ColumnFilters(params: Dict, column: string) returns (r: Result<seq<string>>)
    ensures r == SuffixHighlights(params, column, |Suffixes|)
  {
    var highlighted: seq<string> := [];
    var s := 0;
    while s < |Suffixes|
      invariant 0 <= s <= |Suffixes|
      invariant SuffixHighlights(params, column, s) == Ok(highlighted)
    {
      var suffix := Suffixes[s];
      var key := column + "_" + suffix;
      if Unset(params, key) {
        assert OptionsAt(params, column, suffix) == Ok([]);
        assert highlighted + StyleAll([], IsInclude(suffix)) == highlighted;
      } else {
        var options: seq<Json>;
        if column == "accomodation_types" && !params[key].JArr? {
          options := [params[key]];
        } else {
          var items := Iterate(params[key]);
          if items.Err? {
            SuffixErrorPersists(params, column, s + 1, |Suffixes|, items.msg);
            return Err(items.msg);
          }
          options := items.value;
        }
        assert OptionsAt(params, column, suffix) == Ok(options);
        highlighted := StyleOptions(highlighted, options, IsInclude(suffix));
      }
      s := s + 1;
    }
    r := Ok(highlighted);
  }

  /** The option loop of `format_filters`: appends each option's styled form. */
  method StyleOptions(before: seq<string>, options: seq<Json>, wanted: bool) returns (highlighted: seq<string>)
    ensures highlighted == before + StyleAll(options, wanted)
  {
    highlighted := before;
    var j := 0;
    while j < |options|
      invariant 0 <= j <= |options|
      invariant highlighted == before + StyleAll(options[..j], wanted)
    {
      assert options[..j + 1][..j] == options[..j];
      if wanted {
        highlighted := highlighted + [":blue-background[" + Str(options[j]) + "]"];
      } else {
        highlighted := highlighted + ["~~:red-background[" + Str(options[j]) + "]~~"];
      }
      j := j + 1;
    }
    assert options[..j] == options;
  }

  /** None of the four parameters of a column is set. */
  predicate ColumnUnset(params: Dict, column: string) {
    forall s :: 0 <= s < |Suffixes| ==> Unset(params, column + "_" + Suffixes[s])
  }

  lemma {:induction false} UnsetColumnHighlightsNothing(params: Dict, column: string, n: nat)
    requires n <= |Suffixes| && ColumnUnset(params, column)
    ensures SuffixHighlights(params, column, n) == Ok([])
  {
    if n > 0 {
      UnsetColumnHighlightsNothing(params, column, n - 1);
      assert Unset(params, column + "_" + Suffixes[n - 1]);
      assert OptionsAt(params, column, Suffixes[n - 1]) == Ok([]);
      var none: seq<Json> := [];
      assert StyleAll(none, IsInclude(Suffixes[n - 1])) == [];
      var empty: seq<string> := [];
      assert SuffixHighlights(params, column, n - 1) == Ok(empty);
      assert SuffixHighlights(params, column, n) == Ok(empty + StyleAll(none, IsInclude(Suffixes[n - 1])));
      assert empty + StyleAll(none, IsInclude(Suffixes[n - 1])) == empty;
    }
  }

  /** A column with no parameter set adds no line. */
  lemma UnsetColumnAddsNothing(params: Dict, c: nat)
    requires c < |FilterColumns| && ColumnUnset(params, FilterColumns[c])
    requires FilterLines(params, c).Ok?
    ensures FilterLines(params, c + 1) == FilterLines(params, c)
  {
    UnsetColumnHighlightsNothing(params, FilterColumns[c], |Suffixes|);
  }

  lemma {:induction false} NoFilterLines(params: Dict, n: nat)
    requires n <= |FilterColumns|
    requires forall c :: 0 <= c < n ==> ColumnUnset(params, FilterColumns[c])
    ensures FilterLines(params, n) == Ok([])
  {
    if n > 0 {
      NoFilterLines(params, n - 1);
      UnsetColumnAddsNothing(params, n - 1);
    }
  }

  /** With no filter set at all the summary is empty. */
  lemma NoFiltersNoText(params: Dict)
    requires forall c :: 0 <= c < |FilterColumns| ==> ColumnUnset(params, FilterColumns[c])
    ensures FilterText(params) == Ok("")
  {
    NoFilterLines(params, |FilterColumns|);
  }

  /** Columns from `k` on with no parameter set add no line. */
  lemma {:induction false} UnsetRestAddsNothing(params: Dict, k: nat, n: nat)
    requires k <= n <= |FilterColumns| && FilterLines(params, k).Ok?
    requires forall c :: k <= c < n ==> ColumnUnset(params, FilterColumns[c])
    ensures FilterLines(params, n) == FilterLines(params, k)
    decreases n - k
  {
    if k < n {
      UnsetColumnAddsNothing(params, k);
      UnsetRestAddsNothing(params, k + 1, n);
    }
  }

  /** The first column with something to show contributes the first line. */
  lemma FirstLine(params: Dict, c: nat, highlights: seq<string>)
    requires c < |FilterColumns| && FilterLines(params, c) == Ok([])
    requires SuffixHighlights(params, FilterColumns[c], |Suffixes|) == Ok(highlights) && highlights != []
    ensures FilterLines(params, c + 1) == Ok([HeadedLine(FilterColumns[c], highlights), "\n"])
  {
    var none: seq<string> := [];
    assert none + [HeadedLine(FilterColumns[c], highlights), "\n"] == [HeadedLine(FilterColumns[c], highlights), "\n"];
  }

  /** When only column `c` has parameters set, its line is the only one. */
  lemma SingleColumnLines(params: Dict, c: nat, highlights: seq<string>)
    requires c < |FilterColumns|
    requires forall d :: 0 <= d < |FilterColumns| && d != c ==> ColumnUnset(params, FilterColumns[d])
    requires SuffixHighlights(params, FilterColumns[c], |Suffixes|) == Ok(highlights) && highlights != []
    ensures FilterLines(params, |FilterColumns|) == Ok([HeadedLine(FilterColumns[c], highlights), "\n"])
  {
    NoFilterLines(params, c);
    FirstLine(params, c, highlights);
    UnsetRestAddsNothing(params, c + 1, |FilterColumns|);
  }

  /** When only column `c` has parameters set, and they give the styled
      options `highlights`, the summary is that column's line followed by a
      blank line. */
  lemma SingleLineText(params: Dict, c: nat, highlights: seq<string>)
    requires c < |FilterColumns|
    requires forall d :: 0 <= d < |FilterColumns| && d != c ==> ColumnUnset(params, FilterColumns[d])
    requires SuffixHighlights(params, FilterColumns[c], |Suffixes|) == Ok(highlights) && highlights != []
    ensures FilterText(params) == Ok(HeadedLine(FilterColumns[c], highlights) + "\n\n")
  {
    SingleColumnLines(params, c, highlights);
    JoinPair(HeadedLine(FilterColumns[c], highlights));
  }

  lemma JoinPair(line: string)
    ensures Join("\n", [line, "\n"]) == line + "\n\n"
  {
    assert [line, "\n"][1..] == ["\n"];
  }

  // ---------------------------------------------------------------------------
  // format_amenities

  /** `[o for o in options if o != UNCATEGORIZED]`. */
  function KeepCategorized(options: seq<Json>): (r: seq<Json>)
    ensures JStr(Uncategorized) !in r
    ensures forall x :: x != JStr(Uncategorized) ==> multiset(r)[x] == multiset(options)[x]
    ensures |r| <= |options|
    decreases |options|
  {
    if options == [] then []
    else
      var front := options[..|options| - 1];
      var last := options[|options| - 1];
      assert options == front + [last];
      var earlier := KeepCategorized(front);
      if last == JStr(Uncategorized) then earlier else earlier + [last]
  }

  /** The kept options stay in row order: filtering a concatenation
      filters each part in turn ... */
  lemma {:induction false} KeepCategorizedAppend(a: seq<Json>, b: seq<Json>)
    ensures KeepCategorized(a + b) == KeepCategorized(a) + KeepCategorized(b)
    decreases |b|
  {
    if b == [] {
      assert a + b == a;
    } else {
      var front := b[..|b| - 1];
      var last := b[|b| - 1];
      assert (a + b)[..|a + b| - 1] == a + front;
      assert b[..|b| - 1] == front;
      KeepCategorizedAppend(a, front);
    }
  }

  /** ... and a single option is kept exactly when it is not `UNCATEGORIZED`. */
  lemma KeepCategorizedOne(x: Json)
    ensures KeepCategorized([x]) == if x == JStr(Uncategorized) then [] else [x]
  {
    assert [x][..0] == [];
  }

  /** Options without `UNCATEGORIZED` are all kept, in order. */
  lemma {:induction false} KeepCategorizedAll(options: seq<Json>)
    requires JStr(Uncategorized) !in options
    ensures KeepCategorized(options) == options
    decreases |options|
  {
    if options != [] {
      var front := options[..|options| - 1];
      assert options == front + [options[|options| - 1]];
      KeepCategorizedAll(front);
    }
  }

  /** The values of a parameter, `None` or absent counting as none. */
  function Listed(params: Dict, key: string): (r: Result<seq<Json>>)
    ensures Unset(params, key) ==> r == Ok([])
  {
    if Unset(params, key) then Ok([]) else Iterate(params[key])
  }

  /** `param_options`: the column's `include_all` values, then its
      `include_any` values. */
  function ParamOptions(params: Dict, column: string): (r: Result<seq<Json>>)
    ensures r.Ok? <==> Listed(params, column + "_include_all").Ok? && Listed(params, column + "_include_any").Ok?
    ensures r.Ok? ==> forall x :: x in r.value <==>
              x in Listed(params, column + "_include_all").value || x in Listed(params, column + "_include_any").value
  {
    match Listed(params, column + "_include_all")
    case Err(m) => Err(m)
    case Ok(all) =>
      match Listed(params, column + "_include_any")
      case Err(m) => Err(m)
      case Ok(any) => Ok(all + any)
  }

  /** An option as it enters `options_highlighted`: marked blue when asked
      for, otherwise the option itself. */
  function Marked(option: Json, asked: seq<Json>): Json {
    if option in asked then JStr(":blue-background[" + Str(option) + "]") else option
  }

  function MarkAll(options: seq<Json>, asked: seq<Json>): (r: seq<Json>)
    ensures |r| == |options|
    ensures forall i :: 0 <= i < |options| ==> r[i] == Marked(options[i], asked)
    decreases |options|
  {
    if options == [] then [] else MarkAll(options[..|options| - 1], asked) + [Marked(options[|options| - 1], asked)]
  }

  /** The marked options of one column of a hotel. The parameters are read
      once per option, so they are only consulted when there is one. */
  function ColumnAmenities(row: Dict, params: Dict, column: string): Result<seq<Json>> {
    if column !in row then Err(Repr(JStr(column)))
    else
      match Iterate(row[column])
      case Err(m) => Err(m)
      case Ok(all) =>
        var options := KeepCategorized(all);
        if options == [] then Ok([])
        else
          match ParamOptions(params, column)
          case Err(m) => Err(m)
          case Ok(asked) => Ok(MarkAll(options, asked))
  }

  /** The strings of a list `", ".join` accepts; any other element raises. */
  function Texts(items: seq<Json>): (r: Result<seq<string>>)
    ensures r.Ok? <==> forall i :: 0 <= i < |items| ==> items[i].JStr?
    ensures r.Ok? ==> |r.value| == |items| && forall i :: 0 <= i < |items| ==> r.value[i] == items[i].s
    decreases |items|
  {
    if items == [] then Ok([])
    else
      var front := items[..|items| - 1];
      var last := items[|items| - 1];
      assert forall i :: 0 <= i < |front| ==> front[i] == items[i];
      match Texts(front)
      case Err(m) => Err(m)
      case Ok(earlier) =>
        if last.JStr? then Ok(earlier + [last.s])
        else Err("sequence item " + IntToString(|front|) + ": expected str instance, " + TypeName(last) + " found")
  }

  /** What one amenity column adds to the lines: nothing when it has no
      options, else its line and a `"\n"` element. */
  function AmenityColumnLines(row: Dict, params: Dict, column: string): (r: Result<seq<string>>)
    ensures r.Ok? ==> r.value == [] || (|r.value| == 2 && StartsWith(r.value[0], "**") && r.value[1] == "\n")
  {
    match ColumnAmenities(row, params, column)
    case Err(m) => Err(m)
    case Ok(marked) =>
      if marked == [] then Ok([])
      else
        match Texts(marked)
        case Err(m) => Err(m)
        case Ok(texts) =>
          var line := HeadedLine(column, texts);
          Ok([line, "\n"])
  }

  /** The lines of the first `n` amenity columns. */
  function AmenityLines(row: Dict, params: Dict, n: nat): (r: Result<seq<string>>)
    requires n <= |AmenityColumns|
    ensures r.Ok? ==> Paired(r.value)
  {
    if n == 0 then Ok([])
    else
      match AmenityLines(row, params, n - 1)
      case Err(m) => Err(m)
      case Ok(earlier) =>
        match AmenityColumnLines(row, params, AmenityColumns[n - 1])
        case Err(m) => Err(m)
        case Ok(added) =>
          if added == [] then Ok(earlier)
          else
            PairedAppend(earlier, added[0]);
            assert earlier + added == earlier + [added[0], "\n"];
            Ok(earlier + added)
  }

  /** What `format_amenities` returns. */
  function AmenityText(row: Dict, params: Dict): Result<string> {
    match AmenityLines(row, params, |AmenityColumns|)
    case Err(m) => Err(m)
    case Ok(lines) => Ok(Join("\n", lines))
  }

  lemma {:induction false} AmenityErrorPersists(row: Dict, params: Dict, k: nat, n: nat, m: string)
    requires k <= n <= |AmenityColumns| && AmenityLines(row, params, k) == Err(m)
    ensures AmenityLines(row, params, n) == Err(m)
    decreases n - k
  {
    if k < n {
      AmenityErrorPersists(row, params, k + 1, n, m);
    }
  }

  /** `format_amenities`: for each column, for each categorized option, look
      up the asked-for options and mark it; keep the columns that have any. */
  method FormatAmenities(row: Dict, params: Dict) returns (r: Result<string>)
    ensures r == AmenityText(row, params)
  {
    var lines: seq<string> := [];
    var c := 0;
    while c < |AmenityColumns|
      invariant 0 <= c <= |AmenityColumns|
      invariant AmenityLines(row, params, c) == Ok(lines)
    {
      var added := AmenityColumnText(row, params, AmenityColumns[c]);
      if added.Err? {
        AmenityErrorPersists(row, params, c + 1, |AmenityColumns|, added.msg);
        return Err(added.msg);
      }
      if added.value != [] {
        lines := lines + added.value;
      }
      c := c + 1;
    }
    r := Ok(Join("\n", lines));
  }

  /** The body of the column loop of `format_amenities`: the column's marked
      options joined into its line, when it has any. */
  method AmenityColumnText(row: Dict, params: Dict, column: string) returns (r: Result<seq<string>>)
    ensures r == AmenityColumnLines(row, params, column)
  {
    var marked := AmenityColumn(row, params, column);
    if marked.Err? {
      return Err(marked.msg);
    }
    if marked.value == [] {
      return Ok([]);
    }
    var texts := Texts(marked.value);
    if texts.Err? {
      return Err(texts.msg);
    }
    r := Ok([HeadedLine(column, texts.value), "\n"]);
  }

  /** The inner loop of `format_amenities` for one column. */
  method AmenityColumn(row: Dict, params: Dict, column: string) returns (r: Result<seq<Json>>)
    ensures r == ColumnAmenities(row, params, column)
  {
    if column !in row {
      return Err(Repr(JStr(column)));
    }
    var all := Iterate(row[column]);
    if all.Err? {
      return Err(all.msg);
    }
    var options := KeepCategorized(all.value);
    var highlighted: seq<Json> := [];
    var j := 0;
    while j < |options|
      invariant 0 <= j <= |options|
      invariant j == 0 ==> highlighted == []
      invariant j > 0 ==> ParamOptions(params, column).Ok? &&
                          highlighted == MarkAll(options[..j], ParamOptions(params, column).value)
    {
      var asked := ParamOptions(params, column);
      if asked.Err? {
        return Err(asked.msg);
      }
      assert options[..j + 1][..j] == options[..j];
      if options[j] in asked.value {
        highlighted := highlighted + [JStr(":blue-background[" + Str(options[j]) + "]")];
      } else {
        highlighted := highlighted + [options[j]];
      }
      j := j + 1;
    }
    if options != [] {
      assert options[..j] == options;
    }
    r := Ok(highlighted);
  }

  /** An option of a column is highlighted exactly when it is among the
      column's `include_all` or `include_any` values, and shown as it is
      otherwise; `UNCATEGORIZED` never appears. */
  lemma AmenityHighlighting(row: Dict, params: Dict, column: string, i: int)
    requires ColumnAmenities(row, params, column).Ok?
    requires 0 <= i < |ColumnAmenities(row, params, column).value|
    ensures column in row && Iterate(row[column]).Ok?
    ensures var options := KeepCategorized(Iterate(row[column]).value);
      var marked := ColumnAmenities(row, params, column).value;
      |marked| == |options| && options[i] != JStr(Uncategorized) &&
      Listed(params, column + "_include_all").Ok? && Listed(params, column + "_include_any").Ok? &&
      (options[i] in Listed(params, column + "_include_all").value ||
       options[i] in Listed(params, column + "_include_any").value ==>
         marked[i] == JStr(":blue-background[" + Str(options[i]) + "]")) &&
      (options[i] !in Listed(params, column + "_include_all").value &&
       options[i] !in Listed(params, column + "_include_any").value ==>
         marked[i] == options[i])
  {
    var options := KeepCategorized(Iterate(row[column]).value);
    assert options[i] in options;
  }

  // ---------------------------------------------------------------------------
  // format_header

  /** `country_flags[country]`: a list or dict country cannot be hashed and
      raises `TypeError`; any other missing country raises `KeyError`. */
  function CountryFlag(country: Json): (r: Result<string>)
    ensures r.Ok? <==> country.JStr? && country.s in CountryFlags
    ensures r.Ok? ==> r.value == CountryFlags[country.s]
    ensures (country.JArr? || country.JObj?) ==> r == Err("unhashable type: '" + TypeName(country) + "'")
    ensures r.Err? && !country.JArr? && !country.JObj? ==> r.msg == Repr(country)
  {
    if UnhashableError(country).Some? then Err(UnhashableError(country).value)
    else if country.JStr? && country.s in CountryFlags then Ok(CountryFlags[country.s])
    else Err(Repr(country))
  }

  predicate RegionalIndicator(c: char) {
    '\U{1F1E6}' <= c <= '\U{1F1FF}'
  }

  /** Every flag is a pair of regional indicator letters. */
  lemma FlagsAreLetterPairs()
    ensures forall k :: k in CountryFlags ==>
              |CountryFlags[k]| == 2 && RegionalIndicator(CountryFlags[k][0]) && RegionalIndicator(CountryFlags[k][1])
  {
  }

  /** The first line of `format_header`: flag, city, then the hotel's id in
      bold and its accommodation type. A country without a flag raises before
      anything else is read. */
  function HeaderTitle(row: Dict): (r: Result<string>)
    ensures "country" in row && CountryFlag(row["country"]).Err? ==> r == Err(CountryFlag(row["country"]).msg)
    ensures r.Ok? ==> "country" in row && StartsWith(r.value, CountryFlag(row["country"]).value + " ")
  {
    if "country" !in row then Err("'country'")
    else
      match CountryFlag(row["country"])
      case Err(m) => Err(m)
      case Ok(flag) =>
        if "city" !in row then Err("'city'")
        else if !row["city"].JStr? then Err("can only concatenate str (not \"" + TypeName(row["city"]) + "\") to str")
        else if "id" !in row then Err("'id'")
        else if "accomodation_type" !in row then Err("'accomodation_type'")
        else
          var line := flag + " " + row["city"].s + " " + "**" + Str(row["id"]) + "** (" + Str(row["accomodation_type"]) + ")";
          assert line[..|flag + " "|] == flag + " ";
          Ok(line)
  }
}
