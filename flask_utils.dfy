/** The data helpers of the shop front end: picking rows of the products table
    by SKU, filtering by category levels, building the category tree and the
    per-level category lists, sampling rows, rewriting image URLs, and reading
    recommendation ids out of an API reply. A table is its column names and a
    sequence of rows, each row a map from column name to cell. */
module FlaskUtils {
  import opened Common

  type Row = map<string, Json>

  datatype Frame = Frame(columns: seq<string>, rows: seq<Row>)

  /** The cell of `row` in column `col` (a missing cell reads as null). */
  function Cell(row: Row, col: string): Json {
    if col in row then row[col] else JNull
  }

  const Level1: string := "product_category_level_1"
  const Level2: string := "product_category_level_2"
  const Level3: string := "product_category_level_3"

  /** The message of the `KeyError` for a missing column. */
  function KeyError(col: string): string {
    "'" + col + "'"
  }

  // ---------------------------------------------------------------------------
  // Filtering and ordering

  /** The elements of `s` satisfying `p`, in order (a boolean mask). */
  function Filter(s: seq<Row>, p: Row -> bool): (r: seq<Row>)
    ensures |r| <= |s|
    ensures forall x :: x in r <==> x in s && p(x)
    decreases |s|
  {
    if s == [] then []
    else
      var q := s[..|s| - 1];
      assert s == q + [s[|s| - 1]];
      Filter(q, p) + (if p(s[|s| - 1]) then [s[|s| - 1]] else [])
  }

  /** Two masks applied in turn are the mask of their conjunction. */
  lemma {:induction false} FilterFilter(s: seq<Row>, p: Row -> bool, q: Row -> bool, both: Row -> bool)
    requires forall x :: both(x) == (p(x) && q(x))
    ensures Filter(Filter(s, p), q) == Filter(s, both)
    decreases |s|
  {
    if s != [] {
      var pre := s[..|s| - 1];
      FilterFilter(pre, p, q, both);
      var x := s[|s| - 1];
      var fp := Filter(pre, p);
      assert pre + [x] == s;
      assert Filter(s, p) == fp + (if p(x) then [x] else []);
      assert Filter(s, both) == Filter(pre, both) + (if both(x) then [x] else []);
      if p(x) {
        var t := fp + [x];
        assert t[..|t| - 1] == fp;
        assert Filter(t, q) == Filter(fp, q) + (if q(x) then [x] else []);
        assert Filter(Filter(s, p), q) == Filter(s, both);
      } else {
        assert !both(x);
        assert Filter(s, p) == fp;
        assert Filter(s, both) == Filter(pre, both);
      }
    }
  }

  lemma {:induction false} FilterExt(s: seq<Row>, p: Row -> bool, q: Row -> bool)
    requires forall x :: p(x) == q(x)
    ensures Filter(s, p) == Filter(s, q)
    decreases |s|
  {
    if s != [] {
      FilterExt(s[..|s| - 1], p, q);
    }
  }

  lemma {:induction false} FilterAll(s: seq<Row>, p: Row -> bool)
    requires forall x :: p(x)
    ensures Filter(s, p) == s
    decreases |s|
  {
    if s != [] {
      var pre := s[..|s| - 1];
      FilterAll(pre, p);
      assert Filter(s, p) == Filter(pre, p) + [s[|s| - 1]];
      assert pre + [s[|s| - 1]] == s;
    }
  }

  // ---------------------------------------------------------------------------
  // Rows by SKU

  /** `[int(sku) for sku in skus]`, raising on the first SKU that is not an integer. */
  function SkuInts(skus: seq<Json>): (r: Result<seq<int>>)
    ensures r.Ok? ==> |r.value| == |skus| && forall i :: 0 <= i < |skus| ==> PyInt(skus[i]) == Some(r.value[i])
    ensures r.Err? ==> exists i :: 0 <= i < |skus| && PyInt(skus[i]).None? && r.msg == IntError(skus[i])
    decreases |skus|
  {
    if skus == [] then Ok([])
    else match PyInt(skus[0])
      case None => Err(IntError(skus[0]))
      case Some(n) =>
        match SkuInts(skus[1..])
        case Err(m) => Err(m)
        case Ok(rest) => Ok([n] + rest)
  }

  predicate HasSku(row: Row, sku: int) {
    Cell(row, "sku") == JNum(sku)
  }

  function SkuMask(sku: int): Row -> bool {
    row => HasSku(row, sku)
  }

  /** The rows whose SKU is `sku`, in table order (`.loc[sku]` on the SKU index). */
  function RowsWithSku(rows: seq<Row>, sku: int): seq<Row> {
    Filter(rows, SkuMask(sku))
  }

  predicate SkuIn(row: Row, skus: seq<int>) {
    exists i :: 0 <= i < |skus| && HasSku(row, skus[i])
  }

  /** `df['sku'].isin(skus)`. */
  function IsInMask(skus: seq<int>): Row -> bool {
    row => SkuIn(row, skus)
  }

  /** The requested SKUs the table does not have. */
  function MissingSkus(rows: seq<Row>, skus: seq<int>): (r: seq<int>)
    ensures forall x :: x in r <==> x in skus && RowsWithSku(rows, x) == []
    ensures r == [] <==> forall x :: x in skus ==> RowsWithSku(rows, x) != []
    decreases |skus|
  {
    if skus == [] then []
    else
      (if RowsWithSku(rows, skus[0]) == [] then [skus[0]] else []) + MissingSkus(rows, skus[1..])
  }

  /** `df[df['sku'].isin(skus)].set_index('sku').loc[skus].reset_index()`:
      for every requested SKU in request order, the rows that have it. A SKU
      the table lacks raises. */
  function ProductsBySkus(df: Frame, skus: seq<Json>): (r: Result<seq<Row>>)
    ensures r.Ok? ==> forall row :: row in r.value ==> row in df.rows
  {
    match SkuInts(skus)
    case Err(m) => Err(m)
    case Ok(ints) =>
      if "sku" !in df.columns then Err(KeyError("sku"))
      else
        var pool := Filter(df.rows, IsInMask(ints));
        var missing := MissingSkus(pool, ints);
        if missing != [] then Err(Str(JArr(seq(|missing|, i requires 0 <= i < |missing| => JNum(missing[i])))) + " not in index")
        else
          var picked := seq(|ints|, i requires 0 <= i < |ints| => RowsWithSku(pool, ints[i]));
          FlattenFrom(picked, df.rows);
          Ok(Flatten(picked))
  }

  lemma {:induction false} FlattenFrom(picked: seq<seq<Row>>, rows: seq<Row>)
    requires forall i, row :: 0 <= i < |picked| && row in picked[i] ==> row in rows
    ensures forall row :: row in Flatten(picked) ==> row in rows
    decreases |picked|
  {
    if picked != [] {
      FlattenFrom(picked[..|picked| - 1], rows);
    }
  }

  /** Narrowing the table to the requested SKUs first does not change which
      rows a requested SKU picks. */
  lemma PoolKeepsRequested(rows: seq<Row>, ints: seq<int>, k: int)
    requires 0 <= k < |ints|
    ensures RowsWithSku(Filter(rows, IsInMask(ints)), ints[k]) == RowsWithSku(rows, ints[k])
  {
    var sku := ints[k];
    forall row: Row
      ensures SkuMask(sku)(row) == (IsInMask(ints)(row) && SkuMask(sku)(row))
    {
      if HasSku(row, sku) { assert HasSku(row, ints[k]); }
    }
    FilterFilter(rows, IsInMask(ints), SkuMask(sku), SkuMask(sku));
  }

  lemma {:induction false} FlattenSingletons<T>(ss: seq<seq<T>>)
    requires forall i :: 0 <= i < |ss| ==> |ss[i]| == 1
    ensures |Flatten(ss)| == |ss|
    ensures forall i :: 0 <= i < |ss| ==> Flatten(ss)[i] == ss[i][0]
    decreases |ss|
  {
    if ss != [] {
      FlattenSingletons(ss[..|ss| - 1]);
    }
  }

  /** When every requested SKU names exactly one row, the result has one row
      per request, and row `i` has the `i`-th requested SKU. */
  lemma ProductsBySkusOrder(df: Frame, skus: seq<Json>, ints: seq<int>)
    requires "sku" in df.columns
    requires SkuInts(skus) == Ok(ints)
    requires forall i :: 0 <= i < |ints| ==> |RowsWithSku(df.rows, ints[i])| == 1
    ensures ProductsBySkus(df, skus).Ok?
    ensures |ProductsBySkus(df, skus).value| == |skus|
    ensures forall i :: 0 <= i < |skus| ==>
              ProductsBySkus(df, skus).value[i] == RowsWithSku(df.rows, ints[i])[0] &&
              HasSku(ProductsBySkus(df, skus).value[i], ints[i])
  {
    var pool := Filter(df.rows, IsInMask(ints));
    forall k | 0 <= k < |ints|
      ensures RowsWithSku(pool, ints[k]) == RowsWithSku(df.rows, ints[k])
    {
      PoolKeepsRequested(df.rows, ints, k);
    }
    assert MissingSkus(pool, ints) == [] by {
      forall x | x in ints ensures RowsWithSku(pool, x) != [] {
        var k :| 0 <= k < |ints| && ints[k] == x;
      }
    }
    var picked := seq(|ints|, i requires 0 <= i < |ints| => RowsWithSku(pool, ints[i]));
    assert ProductsBySkus(df, skus) == Ok(Flatten(picked));
    FlattenSingletons(picked);
    var out := Flatten(picked);
    forall i | 0 <= i < |ints|
      ensures out[i] == RowsWithSku(df.rows, ints[i])[0] && HasSku(out[i], ints[i])
    {
      assert picked[i] == RowsWithSku(pool, ints[i]) == RowsWithSku(df.rows, ints[i]);
      assert RowsWithSku(df.rows, ints[i])[0] in RowsWithSku(df.rows, ints[i]);
    }
  }

  /** A SKU the table does not have makes the lookup fail. */
  lemma ProductsBySkusMissing(df: Frame, skus: seq<Json>, ints: seq<int>, k: int)
    requires SkuInts(skus) == Ok(ints)
    requires 0 <= k < |ints| && RowsWithSku(df.rows, ints[k]) == []
    ensures ProductsBySkus(df, skus).Err?
  {
    if "sku" in df.columns {
      PoolKeepsRequested(df.rows, ints, k);
      assert ints[k] in MissingSkus(Filter(df.rows, IsInMask(ints)), ints);
    }
  }

  // ---------------------------------------------------------------------------
  // Category filter

  /** Whether a row passes the category filter: each level is compared only
      when it and every level above it are given. */
  predicate Matches(row: Row, level1: Option<string>, level2: Option<string>, level3: Option<string>) {
    (Given(level1) ==> Cell(row, Level1) == JStr(level1.value)) &&
    (Given(level1) && Given(level2) ==> Cell(row, Level2) == JStr(level2.value)) &&
    (Given(level1) && Given(level2) && Given(level3) ==> Cell(row, Level3) == JStr(level3.value))
  }

  /** The first category column the filter reads that the table lacks:
      a level's column is read only when that level and those above it are
      given. */
  function MissingLevel(columns: seq<string>, level1: Option<string>, level2: Option<string>, level3: Option<string>): Option<string> {
    if !Given(level1) then None
    else if Level1 !in columns then Some(Level1)
    else if !Given(level2) then None
    else if Level2 !in columns then Some(Level2)
    else if !Given(level3) then None
    else if Level3 !in columns then Some(Level3)
    else None
  }

  /** `df[col] == value` as a mask. */
  function LevelMask(col: string, value: string): Row -> bool {
    row => Cell(row, col) == JStr(value)
  }

  function MatchMask(level1: Option<string>, level2: Option<string>, level3: Option<string>): Row -> bool {
    row => Matches(row, level1, level2, level3)
  }

  /** `get_filtered_products`: narrows the table level by level. */
  method GetFilteredProducts(df: Frame, level1: Option<string>, level2: Option<string>, level3: Option<string>)
    returns (r: Result<seq<Row>>)
    ensures r.Err? <==> MissingLevel(df.columns, level1, level2, level3).Some?
    ensures r.Err? ==> r.msg == KeyError(MissingLevel(df.columns, level1, level2, level3).value)
    ensures r.Ok? ==> r.value == Filter(df.rows, MatchMask(level1, level2, level3))
  {
    var filtered := df.rows;
    if Given(level1) {
      if Level1 !in df.columns {
        return Err(KeyError(Level1));
      }
      filtered := Filter(filtered, LevelMask(Level1, level1.value));
      if Given(level2) {
        if Level2 !in df.columns {
          return Err(KeyError(Level2));
        }
        filtered := Filter(filtered, LevelMask(Level2, level2.value));
        if Given(level3) {
          if Level3 !in df.columns {
            return Err(KeyError(Level3));
          }
          filtered := Filter(filtered, LevelMask(Level3, level3.value));
        }
      }
    }
    StepwiseIsMatch(df.rows, level1, level2, level3);
    r := Ok(filtered);
  }

  /** The successive masks of `get_filtered_products` select the rows that
      `Matches` admits. */
  lemma StepwiseIsMatch(rows: seq<Row>, level1: Option<string>, level2: Option<string>, level3: Option<string>)
    ensures !Given(level1) ==> rows == Filter(rows, MatchMask(level1, level2, level3))
    ensures Given(level1) && !Given(level2) ==>
              Filter(rows, LevelMask(Level1, level1.value)) == Filter(rows, MatchMask(level1, level2, level3))
    ensures Given(level1) && Given(level2) && !Given(level3) ==>
              Filter(Filter(rows, LevelMask(Level1, level1.value)), LevelMask(Level2, level2.value)) ==
              Filter(rows, MatchMask(level1, level2, level3))
    ensures Given(level1) && Given(level2) && Given(level3) ==>
              Filter(Filter(Filter(rows, LevelMask(Level1, level1.value)), LevelMask(Level2, level2.value)),
                     LevelMask(Level3, level3.value)) ==
              Filter(rows, MatchMask(level1, level2, level3))
  {
    var m := MatchMask(level1, level2, level3);
    if !Given(level1) {
      FilterAll(rows, m);
    } else if !Given(level2) {
      FilterExt(rows, LevelMask(Level1, level1.value), m);
    } else {
      var m1 := LevelMask(Level1, level1.value);
      var m2 := LevelMask(Level2, level2.value);
      var m12 := MatchMask(level1, level2, None);
      FilterFilter(rows, m1, m2, m12);
      if !Given(level3) {
        FilterExt(rows, m12, m);
      } else {
        FilterFilter(rows, m12, LevelMask(Level3, level3.value), m);
      }
    }
  }

  /** Without a first level every row is kept, whatever the other levels say. */
  lemma NoLevelKeepsAll(rows: seq<Row>, level2: Option<string>, level3: Option<string>)
    ensures Filter(rows, MatchMask(None, level2, level3)) == rows
  {
    FilterAll(rows, MatchMask(None, level2, level3));
  }

  // ---------------------------------------------------------------------------
  // Category tree

  datatype Category = Category(level1: Json, level2: Json, level3: Json)

  function CategoriesOf(rows: seq<Row>): (r: seq<Category>)
    ensures |r| == |rows|
    ensures forall i :: 0 <= i < |rows| ==> r[i] == Category(Cell(rows[i], Level1), Cell(rows[i], Level2), Cell(rows[i], Level3))
  {
    seq(|rows|, i requires 0 <= i < |rows| => Category(Cell(rows[i], Level1), Cell(rows[i], Level2), Cell(rows[i], Level3)))
  }

  type Tree = map<Json, map<Json, seq<Json>>>

  /** The truthy third levels under `level1`/`level2`, in row order. */
  function Leaves(cats: seq<Category>, level1: Json, level2: Json): seq<Json>
    decreases |cats|
  {
    if cats == [] then []
    else
      var c := cats[|cats| - 1];
      Leaves(cats[..|cats| - 1], level1, level2) +
      (if c.level1 == level1 && c.level2 == level2 && Truthy(c.level3) then [c.level3] else [])
  }

  /** `h` is the tree of `cats`: one top key per first level, one inner key
      per (first, second) pair seen, and under it the distinct truthy third
      levels in first-seen order. */
  ghost predicate IsTree(h: Tree, cats: seq<Category>) {
    TopKeys(h, cats) && InnerKeys(h, cats) && LeafLists(h, cats)
  }

  ghost predicate TopKeys(h: Tree, cats: seq<Category>) {
    forall l1 :: l1 in h <==> exists c :: c in cats && c.level1 == l1
  }

  ghost predicate InnerKeys(h: Tree, cats: seq<Category>) {
    forall l1, l2 :: l1 in h ==> (l2 in h[l1] <==> exists c :: c in cats && c.level1 == l1 && c.level2 == l2)
  }

  ghost predicate LeafLists(h: Tree, cats: seq<Category>) {
    forall l1, l2 :: l1 in h && l2 in h[l1] ==> h[l1][l2] == Dedup(Leaves(cats, l1, l2))
  }

  function InnerOf(h: Tree, l1: Json): map<Json, seq<Json>> {
    if l1 in h then h[l1] else map[]
  }

  function LeavesOf(inner: map<Json, seq<Json>>, l2: Json): seq<Json> {
    if l2 in inner then inner[l2] else []
  }

  /** One step of the loop: adds a row's categories to the tree. */
  method AddCategory(h: Tree, ghost cats: seq<Category>, c: Category) returns (r: Tree)
    requires IsTree(h, cats)
    ensures IsTree(r, cats + [c])
  {
    var inner := if c.level1 in h then h[c.level1] else map[];
    var leaves := if c.level2 in inner then inner[c.level2] else [];
    if Truthy(c.level3) && c.level3 !in leaves {
      leaves := leaves + [c.level3];
    }
    r := h[c.level1 := inner[c.level2 := leaves]];
    AddTop(h, cats, c, inner[c.level2 := leaves]);
    AddInner(h, cats, c, leaves);
    AddLeaves(h, cats, c, leaves);
  }

  lemma AddTop(h: Tree, cats: seq<Category>, c: Category, v: map<Json, seq<Json>>)
    requires TopKeys(h, cats)
    ensures TopKeys(h[c.level1 := v], cats + [c])
  {
    var all := cats + [c];
    assert c in all;
    forall l1 | l1 in h
      ensures exists d :: d in all && d.level1 == l1
    {
      var d :| d in cats && d.level1 == l1;
      assert d in all;
    }
  }

  lemma AddInner(h: Tree, cats: seq<Category>, c: Category, leaves: seq<Json>)
    requires TopKeys(h, cats) && InnerKeys(h, cats)
    ensures InnerKeys(h[c.level1 := InnerOf(h, c.level1)[c.level2 := leaves]], cats + [c])
  {
    var all := cats + [c];
    var r := h[c.level1 := InnerOf(h, c.level1)[c.level2 := leaves]];
    assert c in all;
    forall l1, l2 | l1 in r
      ensures l2 in r[l1] <==> exists d :: d in all && d.level1 == l1 && d.level2 == l2
    {
      if exists d :: d in cats && d.level1 == l1 && d.level2 == l2 {
        var d :| d in cats && d.level1 == l1 && d.level2 == l2;
        assert d in all;
      }
      if l1 == c.level1 && c.level1 !in h {
        assert !exists d :: d in cats && d.level1 == l1;
      }
    }
  }

  lemma AddLeaves(h: Tree, cats: seq<Category>, c: Category, leaves: seq<Json>)
    requires IsTree(h, cats)
    requires var before := LeavesOf(InnerOf(h, c.level1), c.level2);
             leaves == if Truthy(c.level3) && c.level3 !in before then before + [c.level3] else before
    ensures LeafLists(h[c.level1 := InnerOf(h, c.level1)[c.level2 := leaves]], cats + [c])
  {
    var all := cats + [c];
    var r := h[c.level1 := InnerOf(h, c.level1)[c.level2 := leaves]];
    assert all[..|all| - 1] == cats;
    forall l1, l2 | l1 in r && l2 in r[l1]
      ensures r[l1][l2] == Dedup(Leaves(all, l1, l2))
    {
      var before := Leaves(cats, l1, l2);
      if l1 == c.level1 && l2 == c.level2 {
        if !(c.level1 in h && c.level2 in h[c.level1]) {
          assert !exists d :: d in cats && d.level1 == l1 && d.level2 == l2;
          LeavesEmpty(cats, l1, l2);
        }
        assert LeavesOf(InnerOf(h, c.level1), c.level2) == Dedup(before);
        if Truthy(c.level3) {
          var t := before + [c.level3];
          assert Leaves(all, l1, l2) == t;
          assert t[..|t| - 1] == before;
        } else {
          assert Leaves(all, l1, l2) == before;
        }
      } else {
        assert Leaves(all, l1, l2) == before;
      }
    }
  }

  lemma {:induction false} LeavesEmpty(cats: seq<Category>, l1: Json, l2: Json)
    requires !exists d :: d in cats && d.level1 == l1 && d.level2 == l2
    ensures Leaves(cats, l1, l2) == []
    decreases |cats|
  {
    if cats != [] {
      LeavesEmpty(cats[..|cats| - 1], l1, l2);
    }
  }

  /** `get_nested_category_hierarchy`: the tree over the distinct category
      triples of the table; a table without the three columns raises. */
  method NestedCategoryHierarchy(df: Frame) returns (r: Result<Tree>)
    ensures r.Err? <==> Level1 !in df.columns || Level2 !in df.columns || Level3 !in df.columns
    ensures r.Ok? ==> IsTree(r.value, Dedup(CategoriesOf(df.rows)))
  {
    if Level1 !in df.columns || Level2 !in df.columns || Level3 !in df.columns {
      return Err("not in index");
    }
    var cats := Dedup(CategoriesOf(df.rows));
    var h: Tree := map[];
    var k := 0;
    while k < |cats|
      invariant 0 <= k <= |cats|
      invariant IsTree(h, cats[..k])
    {
      assert cats[..k + 1] == cats[..k] + [cats[k]];
      h := AddCategory(h, cats[..k], cats[k]);
      k := k + 1;
    }
    assert cats[..k] == cats;
    r := Ok(h);
  }

  /** Each list of third levels has no repeats, holds only truthy values, and
      holds exactly the truthy third levels seen under its two parents; taking
      the distinct triples first changes none of this. */
  lemma TreeLeaves(h: Tree, rows: seq<Row>, l1: Json, l2: Json)
    requires IsTree(h, Dedup(CategoriesOf(rows)))
    requires l1 in h && l2 in h[l1]
    ensures Distinct(h[l1][l2])
    ensures forall x :: x in h[l1][l2] <==> Truthy(x) && Category(l1, l2, x) in CategoriesOf(rows)
  {
    var cats := Dedup(CategoriesOf(rows));
    DedupSpec(CategoriesOf(rows));
    DedupSpec(Leaves(cats, l1, l2));
    LeavesMembers(cats, l1, l2);
  }

  lemma {:induction false} LeavesMembers(cats: seq<Category>, l1: Json, l2: Json)
    ensures forall x :: x in Leaves(cats, l1, l2) <==> Truthy(x) && Category(l1, l2, x) in cats
    decreases |cats|
  {
    if cats != [] {
      LeavesMembers(cats[..|cats| - 1], l1, l2);
      assert cats == cats[..|cats| - 1] + [cats[|cats| - 1]];
    }
  }

  /** Every (first, second) pair of the table is a key path of the tree. */
  lemma TreePairs(h: Tree, rows: seq<Row>, i: int)
    requires IsTree(h, Dedup(CategoriesOf(rows)))
    requires 0 <= i < |rows|
    ensures Cell(rows[i], Level1) in h && Cell(rows[i], Level2) in h[Cell(rows[i], Level1)]
  {
    DedupSpec(CategoriesOf(rows));
    assert CategoriesOf(rows)[i] in Dedup(CategoriesOf(rows));
  }

  // ---------------------------------------------------------------------------
  // Per-level category lists

  /** Python's `<` between two category values of the same kind. */
  predicate JsonLess(a: Json, b: Json) {
    || (a.JStr? && b.JStr? && LexLess(a.s, b.s))
    || (a.JNum? && b.JNum? && a.n < b.n)
    || (a.JBool? && b.JBool? && !a.b && b.b)
  }

  lemma JsonLessTransitive(a: Json, b: Json, c: Json)
    requires JsonLess(a, b) && JsonLess(b, c)
    ensures JsonLess(a, c)
  {
    if a.JStr? {
      LexLessTransitive(a.s, b.s, c.s);
    }
  }

  lemma JsonLessAsymmetric(a: Json, b: Json)
    requires JsonLess(a, b)
    ensures !JsonLess(b, a)
  {
    if a.JStr? && JsonLess(b, a) {
      LexLessTransitive(a.s, b.s, a.s);
      LexLessIrreflexive(a.s);
    }
  }

  /** Values `sorted` can order without raising: all strings, all numbers
      or all booleans, or fewer than two values. */
  predicate Comparable(vs: seq<Json>) {
    || |vs| <= 1
    || (forall i :: 0 <= i < |vs| ==> vs[i].JStr?)
    || (forall i :: 0 <= i < |vs| ==> vs[i].JNum?)
    || (forall i :: 0 <= i < |vs| ==> vs[i].JBool?)
  }

  predicate Ascending(s: seq<Json>) {
    forall i, j :: 0 <= i < j < |s| ==> !JsonLess(s[j], s[i])
  }

  function InsertJson(s: seq<Json>, x: Json): (r: seq<Json>)
    ensures multiset(r) == multiset(s) + multiset{x}
    decreases |s|
  {
    if s == [] then [x]
    else if JsonLess(x, s[0]) then [x] + s
    else
      assert s == [s[0]] + s[1..];
      [s[0]] + InsertJson(s[1..], x)
  }

  lemma {:induction false} InsertJsonAscending(s: seq<Json>, x: Json)
    requires Ascending(s)
    ensures Ascending(InsertJson(s, x))
    decreases |s|
  {
    if s == [] {
    } else if JsonLess(x, s[0]) {
      var r := [x] + s;
      forall j | 0 < j < |r|
        ensures !JsonLess(r[j], x)
      {
        assert r[j] == s[j - 1];
        if j == 1 {
          JsonLessAsymmetric(x, s[0]);
        } else {
          assert !JsonLess(s[j - 1], s[0]);
          if JsonLess(s[j - 1], x) { JsonLessTransitive(s[j - 1], x, s[0]); }
        }
      }
    } else {
      var rest := InsertJson(s[1..], x);
      InsertJsonAscending(s[1..], x);
      var r := [s[0]] + rest;
      forall j | 0 < j < |r|
        ensures !JsonLess(r[j], s[0])
      {
        assert r[j] in multiset(rest);
        if r[j] != x {
          assert r[j] in multiset(s[1..]);
          var k :| 0 <= k < |s[1..]| && s[1..][k] == r[j];
          assert s[k + 1] == r[j];
        }
      }
    }
  }

  /** Python's `sorted` on values it can compare. */
  function SortJson(s: seq<Json>): (r: seq<Json>)
    ensures multiset(r) == multiset(s)
    ensures Ascending(r)
    decreases |s|
  {
    if s == [] then []
    else
      var p := s[..|s| - 1];
      assert s == p + [s[|s| - 1]];
      InsertJsonAscending(SortJson(p), s[|s| - 1]);
      InsertJson(SortJson(p), s[|s| - 1])
  }

  /** `df[col].unique().tolist()`: the distinct cells of a column, in row order. */
  function Unique(rows: seq<Row>, col: string): seq<Json> {
    Dedup(seq(|rows|, i requires 0 <= i < |rows| => Cell(rows[i], col)))
  }

  /** `sorted(unique values)` of one column, or the `TypeError` of comparing
      a string with a non-string. */
  function SortedLevel(rows: seq<Row>, col: string): Result<seq<Json>> {
    var values := Unique(rows, col);
    if Comparable(values) then Ok(SortJson(values))
    else Err("'<' not supported between instances of different types")
  }

  /** `get_category_hierarchy`: level number to the sorted distinct values of
      that level's column, for the levels whose column the table has. */
  function CategoryHierarchy(df: Frame): Result<map<int, seq<Json>>> {
    var cols := [Level1, Level2, Level3];
    HierarchyFrom(df, cols, 3)
  }

  function HierarchyFrom(df: Frame, cols: seq<string>, n: nat): Result<map<int, seq<Json>>>
    requires n <= |cols|
    decreases n
  {
    if n == 0 then Ok(map[])
    else
      match HierarchyFrom(df, cols, n - 1)
      case Err(m) => Err(m)
      case Ok(h) =>
        if cols[n - 1] !in df.columns then Ok(h)
        else match SortedLevel(df.rows, cols[n - 1])
          case Err(m) => Err(m)
          case Ok(vs) => Ok(h[n := vs])
  }

  /** The cells of one column, in row order. */
  function Column(rows: seq<Row>, col: string): (r: seq<Json>)
    ensures |r| == |rows|
    ensures forall i :: 0 <= i < |rows| ==> r[i] == Cell(rows[i], col)
  {
    seq(|rows|, i requires 0 <= i < |rows| => Cell(rows[i], col))
  }

  /** `vs` lists the distinct values of column `col`, ascending. */
  ghost predicate LevelList(vs: seq<Json>, rows: seq<Row>, col: string) {
    Ascending(vs) && Distinct(vs) && forall v :: v in vs <==> v in Column(rows, col)
  }

  lemma SortedLevelSpec(rows: seq<Row>, col: string)
    requires SortedLevel(rows, col).Ok?
    ensures LevelList(SortedLevel(rows, col).value, rows, col)
  {
    var u := Unique(rows, col);
    assert u == Dedup(Column(rows, col));
    DedupSpec(Column(rows, col));
    var vs := SortJson(u);
    DistinctPermuted(u, vs);
    forall v ensures v in vs <==> v in u {
      assert v in vs <==> v in multiset(vs);
    }
  }

  lemma {:induction false} HierarchyFromSpec(df: Frame, cols: seq<string>, n: nat)
    requires n <= |cols|
    requires HierarchyFrom(df, cols, n).Ok?
    ensures forall level :: level in HierarchyFrom(df, cols, n).value <==> 1 <= level <= n && cols[level - 1] in df.columns
    ensures forall level :: level in HierarchyFrom(df, cols, n).value ==>
              LevelList(HierarchyFrom(df, cols, n).value[level], df.rows, cols[level - 1])
    decreases n
  {
    if n > 0 {
      HierarchyFromSpec(df, cols, n - 1);
      if cols[n - 1] in df.columns {
        SortedLevelSpec(df.rows, cols[n - 1]);
      }
    }
  }

  lemma DistinctPermuted<T>(s: seq<T>, r: seq<T>)
    requires Distinct(s) && multiset(r) == multiset(s)
    ensures Distinct(r)
  {
    forall i, j | 0 <= i < j < |r|
      ensures r[i] != r[j]
    {
      if r[i] == r[j] {
        var x := r[i];
        assert multiset(r)[x] >= 2 by {
          assert r == r[..i] + [x] + r[i + 1..j] + [x] + r[j + 1..];
        }
        DistinctCount(s, x);
        assert false;
      }
    }
  }

  lemma {:induction false} DistinctCount<T>(s: seq<T>, x: T)
    requires Distinct(s)
    ensures multiset(s)[x] <= 1
    decreases |s|
  {
    if s != [] {
      var p := s[..|s| - 1];
      assert s == p + [s[|s| - 1]];
      DistinctCount(p, x);
      if x == s[|s| - 1] {
        assert x !in p;
      }
    }
  }

  /** The levels present are exactly those whose column exists, and each
      maps to the distinct values of its column in ascending order. */
  lemma CategoryHierarchySpec(df: Frame)
    requires CategoryHierarchy(df).Ok?
    ensures forall level :: level in CategoryHierarchy(df).value <==>
              1 <= level <= 3 && [Level1, Level2, Level3][level - 1] in df.columns
    ensures forall level :: level in CategoryHierarchy(df).value ==>
              LevelList(CategoryHierarchy(df).value[level], df.rows, [Level1, Level2, Level3][level - 1])
  {
    HierarchyFromSpec(df, [Level1, Level2, Level3], 3);
  }

  // ---------------------------------------------------------------------------
  // Random rows

  /** `df.sample(n=min(n, len(df)))`: that many rows, drawn without
      replacement in some order; a negative count raises. */
  method RandomProducts(df: Frame, n: int) returns (r: Result<seq<Row>>)
    ensures r.Ok? <==> n >= 0
    ensures r.Ok? ==> |r.value| == Min(n, |df.rows|) && multiset(r.value) <= multiset(df.rows)
  {
    var m := Min(n, |df.rows|);
    if m < 0 {
      return Err("A negative number of rows requested. Please provide `n` >= 0.");
    }
    assert df.rows == df.rows[..m] + df.rows[m..];
    assert multiset(df.rows[..m]) <= multiset(df.rows);
    var picked: seq<Row> :| |picked| == m && multiset(picked) <= multiset(df.rows);
    r := Ok(picked);
  }

  // ---------------------------------------------------------------------------
  // Image URLs

  /** `process_image_url`. `reachable(u)` says whether a HEAD request to `u`
      answers 200 without raising; `proxy(u)` is the external URL of the
      image-proxy route for `u`. A truthy non-string raises. */
  function ImageUrl(url: Json, reachable: string -> bool, proxy: string -> string): (r: Result<Option<string>>)
    ensures r.Err? <==> Truthy(url) && !url.JStr?
  {
    if !Truthy(url) then Ok(None)
    else if !url.JStr? then Err("'" + TypeName(url) + "' object has no attribute 'startswith'")
    else
      var s := url.s;
      if StartsWith(s, "https://") then Ok(Some(s))
      else if StartsWith(s, "http://") then
        var secure := "https://" + s[7..];
        if reachable(secure) then Ok(Some(secure)) else Ok(Some(proxy(s)))
      else Ok(Some(s))
  }

  /** The outcomes of `process_image_url`: nothing for an empty URL; https
      and non-http URLs unchanged; an http URL upgraded when the https form
      answers and proxied otherwise. */
  lemma ImageUrlCases(url: string, reachable: string -> bool, proxy: string -> string)
    ensures url == "" ==> ImageUrl(JStr(url), reachable, proxy) == Ok(None)
    ensures url != "" && !StartsWith(url, "http://") ==> ImageUrl(JStr(url), reachable, proxy) == Ok(Some(url))
    ensures StartsWith(url, "http://") && reachable("https://" + url[7..]) ==>
              ImageUrl(JStr(url), reachable, proxy) == Ok(Some("https://" + url[7..]))
    ensures StartsWith(url, "http://") && !reachable("https://" + url[7..]) ==>
              ImageUrl(JStr(url), reachable, proxy) == Ok(Some(proxy(url)))
  {
    if StartsWith(url, "http://") {
      assert url[4] == ':' by { assert url[..7][4] == url[4]; }
    }
  }

  /** An https result is a fixed point: processing it again returns it
      unchanged, whatever the network answers the second time. */
  lemma ImageUrlIdempotent(url: Json, reachable: string -> bool, reachable2: string -> bool, proxy: string -> string)
    requires ImageUrl(url, reachable, proxy).Ok? && ImageUrl(url, reachable, proxy).value.Some?
    requires StartsWith(ImageUrl(url, reachable, proxy).value.value, "https://")
    ensures ImageUrl(JStr(ImageUrl(url, reachable, proxy).value.value), reachable2, proxy) == ImageUrl(url, reachable, proxy)
  {
  }

  // ---------------------------------------------------------------------------
  // API calls made by the front end

  /** What an HTTP call produced: a status and the decoded body (or the
      decoding error), or an exception raised before any response. */
  datatype HttpReply = HttpReply(status: int, body: Result<Json>) | HttpFailed(reason: string)

  /** `raise_for_status()`. */
  predicate RaisesForStatus(status: int) {
    400 <= status < 600
  }

  function IdsOf(items: seq<Json>): (r: Option<seq<Json>>)
    ensures r.Some? <==> forall i :: 0 <= i < |items| ==> Subscript(items[i], "id").Ok?
    ensures r.Some? ==> |r.value| == |items| && forall i :: 0 <= i < |items| ==> r.value[i] == items[i].fields["id"]
    decreases |items|
  {
    if items == [] then Some([])
    else match Subscript(items[0], "id")
      case Err(_) => None
      case Ok(id) =>
        match IdsOf(items[1..])
        case None => None
        case Some(rest) =>
          assert forall i :: 1 <= i < |items| ==> items[1..][i - 1] == items[i];
          Some([id] + rest)
  }

  /** `get_recommendations` after the request: the `id` of each item of the
      reply, in reply order, or `[]` when anything raises (a failed request,
      an error status, an undecodable body, an item without `id`). Iterating
      a body that is not a list yields nothing usable either. */
  function RecommendationIds(reply: HttpReply): (ids: seq<Json>)
  {
    if reply.HttpFailed? || RaisesForStatus(reply.status) || reply.body.Err? then []
    else match reply.body.value
      case JArr(items) => (match IdsOf(items) case Some(ids) => ids case None => [])
      case _ => []
  }

  /** Either the ids of every item, one per item and in order, or nothing. */
  lemma RecommendationIdsSpec(reply: HttpReply)
    ensures var ids := RecommendationIds(reply);
      ids == [] ||
      (reply.HttpReply? && !RaisesForStatus(reply.status) && reply.body.Ok? && reply.body.value.JArr? &&
       |ids| == |reply.body.value.elems| &&
       forall i :: 0 <= i < |ids| ==> Subscript(reply.body.value.elems[i], "id") == Ok(ids[i]))
    ensures reply.HttpReply? && !RaisesForStatus(reply.status) && reply.body.Ok? && reply.body.value.JArr? &&
            (forall i :: 0 <= i < |reply.body.value.elems| ==> Subscript(reply.body.value.elems[i], "id").Ok?) ==>
              |RecommendationIds(reply)| == |reply.body.value.elems|
  {
  }

  function RecommendationsUrl(base: string, endpoint: string): string {
    base + "/api/search/" + endpoint
  }

  /** `get_recommendations(endpoint, **params)` against a network oracle. */
  function GetRecommendations(base: string, endpoint: string, params: map<string, Json>,
                              net: (string, map<string, Json>) -> HttpReply): (ids: seq<Json>)
    ensures ids == RecommendationIds(net(RecommendationsUrl(base, endpoint), params))
  {
    RecommendationIds(net(base + "/api/search/" + endpoint, params))
  }

  /** `fire_event`: posts the event with the current time and reports whether
      the call went through without raising. */
  function FireEvent(base: string, userId: Json, sku: Json, eventType: string, now: int,
                     net: (string, map<string, Json>) -> HttpReply): (r: (bool, map<string, Json>))
    ensures r.1 == map["user" := userId, "product" := sku, "event_type" := JStr(eventType), "created_at" := JNum(now)]
    ensures r.0 <==> net(base + "/api/ingest/event", r.1).HttpReply? && !RaisesForStatus(net(base + "/api/ingest/event", r.1).status)
  {
    var data := map["user" := userId, "product" := sku, "event_type" := JStr(eventType), "created_at" := JNum(now)];
    var reply := net(base + "/api/ingest/event", data);
    (reply.HttpReply? && !RaisesForStatus(reply.status), data)
  }
}
