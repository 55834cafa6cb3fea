/** encoders.py: the one-hot encoder. `fit` records the categories of the
    input column; `transform` selects every other column as it is and, in
    place of the input column, one 0/1 indicator column per category. */
module Encoders {

  import opened Results
  import opened Terms
  import Dataframes

  /** The `categories` argument: `"auto"`, or the categories themselves. */
  datatype Categories = Auto | Explicit(values: seq<string>)

  /** `_get_categories(df, categories, cat_col)`. For `"auto"` the categories
      are what a grouped query over the column returns; that query is run by
      the database, so its answer is the parameter `discovered`. */
  function GetCategories(categories: Categories, discovered: seq<string>): (r: seq<string>)
    ensures categories.Explicit? ==> r == categories.values
    ensures categories.Auto? ==> r == discovered
  {
    match categories
    case Auto => discovered
    case Explicit(values) => values
  }

  // ---------------------------------------------------------------------
  // The keyword dictionary `transform` builds

  /** A Python dictionary from output names to terms, in insertion order. */
  type Entries = seq<(string, Term)>

  /** The keys of a dictionary, in order. */
  function Keys(d: Entries): (r: seq<string>)
    ensures |r| == |d|
    ensures forall i :: 0 <= i < |d| ==> r[i] == d[i].0
  {
    seq(|d|, i requires 0 <= i < |d| => d[i].0)
  }

  predicate Distinct(keys: seq<string>) {
    forall i, j :: 0 <= i < j < |keys| ==> keys[i] != keys[j]
  }

  /** The position of key `k`, if the dictionary has it. */
  function Find(d: Entries, k: string): (r: Option<nat>)
    ensures r.Some? ==> r.value < |d| && d[r.value].0 == k
    ensures r.None? ==> forall i :: 0 <= i < |d| ==> d[i].0 != k
  {
    if d == [] then None
    else if d[0].0 == k then Some(0)
    else match Find(d[1..], k)
      case None => None
      case Some(i) => Some(i + 1)
  }

  /** `d[k] = v`: a present key keeps its position and takes the new value;
      a new key goes last. */
  function Put(d: Entries, k: string, v: Term): Entries {
    match Find(d, k)
    case Some(i) => d[i := (k, v)]
    case None => d + [(k, v)]
  }

  /** The dictionary the assignments of `entries` build, one after another,
      starting from `{}`. */
  function Fold(entries: Entries): Entries {
    if entries == [] then [] else
      var last := entries[|entries| - 1];
      Put(Fold(entries[..|entries| - 1]), last.0, last.1)
  }

  lemma FoldSnoc(entries: Entries, e: (string, Term))
    ensures Fold(entries + [e]) == Put(Fold(entries), e.0, e.1)
  {
    assert (entries + [e])[..|entries|] == entries;
  }

  /** A dictionary never holds a key twice. */
  lemma PutKeeps(d: Entries, k: string, v: Term)
    requires Distinct(Keys(d))
    ensures Distinct(Keys(Put(d, k, v)))
    ensures k in Keys(Put(d, k, v))
    ensures forall x :: x in Keys(Put(d, k, v)) <==> x == k || x in Keys(d)
    ensures (k, v) in Put(d, k, v)
    ensures forall e :: e in d && e.0 != k ==> e in Put(d, k, v)
  {
    var r := Put(d, k, v);
    if Find(d, k).Some? {
      var i := Find(d, k).value;
      assert r == d[i := (k, v)];
      assert r[i] == (k, v);
      forall x | x in Keys(d)
        ensures x in Keys(r)
      {
        var j :| 0 <= j < |d| && Keys(d)[j] == x;
        assert Keys(r)[j] == x;
      }
      forall e | e in d && e.0 != k
        ensures e in r
      {
        var j :| 0 <= j < |d| && d[j] == e;
        assert r[j] == e;
      }
    } else {
      assert r == d + [(k, v)];
      assert Keys(r) == Keys(d) + [k];
      assert r[|d|] == (k, v);
      forall e | e in d && e.0 != k
        ensures e in r
      {
        var j :| 0 <= j < |d| && d[j] == e;
        assert r[j] == e;
      }
    }
  }

  /** However the assignments repeat keys, the dictionary holds each key once,
      and exactly the keys assigned. */
  lemma {:induction false} FoldKeys(entries: Entries)
    ensures Distinct(Keys(Fold(entries)))
    ensures forall x :: x in Keys(Fold(entries)) <==> x in Keys(entries)
  {
    if entries != [] {
      var init := entries[..|entries| - 1];
      var last := entries[|entries| - 1];
      assert entries == init + [last];
      FoldKeys(init);
      FoldSnoc(init, last);
      PutKeeps(Fold(init), last.0, last.1);
      assert Keys(entries) == Keys(init) + [last.0];
    }
  }

  /** Each key ends up with the value of its last assignment. */
  lemma {:induction false} FoldLastWins(entries: Entries, j: nat)
    requires j < |entries|
    requires forall l :: j < l < |entries| ==> entries[l].0 != entries[j].0
    ensures entries[j] in Fold(entries)
  {
    var init := entries[..|entries| - 1];
    var last := entries[|entries| - 1];
    assert entries == init + [last];
    FoldSnoc(init, last);
    FoldKeys(init);
    PutKeeps(Fold(init), last.0, last.1);
    if j < |entries| - 1 {
      FoldLastWins(init, j);
      assert init[j] == entries[j];
    }
  }

  /** Without repeated keys, the dictionary is the assignments in order. */
  lemma {:induction false} FoldDistinct(entries: Entries)
    requires Distinct(Keys(entries))
    ensures Fold(entries) == entries
  {
    if entries != [] {
      var init := entries[..|entries| - 1];
      var last := entries[|entries| - 1];
      assert entries == init + [last];
      assert Distinct(Keys(init)) by {
        forall i, j | 0 <= i < j < |init|
          ensures Keys(init)[i] != Keys(init)[j]
        {
          assert Keys(entries)[i] != Keys(entries)[j];
        }
      }
      FoldDistinct(init);
      FoldSnoc(init, last);
      assert forall i :: 0 <= i < |init| ==> Keys(entries)[i] != Keys(entries)[|init|];
      assert Find(init, last.0).None?;
    }
  }

  // ---------------------------------------------------------------------
  // The assignments `transform` makes

  /** `Case().when(df[input] == category, 1).else_(0)` under the name
      `input_category`, for each category in order. */
  function Indicators(input: string, categories: seq<string>, df: Dataframes.SqlDataFrame): (r: Entries)
    ensures |r| == |categories|
    ensures forall i :: 0 <= i < |categories| ==>
              r[i] == (input + "_" + categories[i], Case(Equals(df.Field(input), categories[i]), 1, 0))
  {
    seq(|categories|, i requires 0 <= i < |categories| =>
      (input + "_" + categories[i], Case(Equals(df.Field(input), categories[i]), 1, 0)))
  }

  /** The assignments made for one column: the column itself, or the
      indicators when it is the input column. */
  function ColumnEntries(column: string, input: Option<string>, categories: seq<string>, df: Dataframes.SqlDataFrame): Entries {
    if Some(column) != input then [(column, df.Field(column))] else Indicators(column, categories, df)
  }

  /** The assignments made for the columns, in order. */
  function Assignments(columns: seq<string>, input: Option<string>, categories: seq<string>, df: Dataframes.SqlDataFrame): Entries {
    if columns == [] then [] else
      Assignments(columns[..|columns| - 1], input, categories, df)
      + ColumnEntries(columns[|columns| - 1], input, categories, df)
  }

  /** The keyword arguments `transform` passes to `select`. */
  function Kwargs(d: Entries): (r: seq<(string, Dataframes.Arg)>)
    ensures |r| == |d|
    ensures forall i :: 0 <= i < |d| ==> r[i] == (d[i].0, Dataframes.Value(d[i].1))
  {
    seq(|d|, i requires 0 <= i < |d| => (d[i].0, Dataframes.Value(d[i].1)))
  }

  /** The selectors of the frame `transform` returns. */
  function Selected(columns: seq<string>, input: Option<string>, categories: seq<string>, df: Dataframes.SqlDataFrame): seq<Term> {
    Dataframes.NamedTerms(Kwargs(Fold(Assignments(columns, input, categories, df))), df)
  }

  lemma AssignmentsStep(columns: seq<string>, i: nat, input: Option<string>, categories: seq<string>, df: Dataframes.SqlDataFrame)
    requires i < |columns|
    ensures Assignments(columns[..i + 1], input, categories, df)
         == Assignments(columns[..i], input, categories, df) + ColumnEntries(columns[i], input, categories, df)
  {
    assert columns[..i + 1][..i] == columns[..i];
  }

  /** A column other than the input column is assigned as it is. */
  lemma FieldStep(columns: seq<string>, i: nat, input: Option<string>, categories: seq<string>, df: Dataframes.SqlDataFrame)
    requires i < |columns| && Some(columns[i]) != input
    ensures Fold(Assignments(columns[..i + 1], input, categories, df))
         == Put(Fold(Assignments(columns[..i], input, categories, df)), columns[i], df.Field(columns[i]))
  {
    AssignmentsStep(columns, i, input, categories, df);
    FoldSnoc(Assignments(columns[..i], input, categories, df), (columns[i], df.Field(columns[i])));
  }

  /** The input column is assigned its indicators. */
  lemma InputStep(columns: seq<string>, i: nat, input: Option<string>, categories: seq<string>, df: Dataframes.SqlDataFrame)
    requires i < |columns| && Some(columns[i]) == input
    ensures Assignments(columns[..i + 1], input, categories, df)
         == Assignments(columns[..i], input, categories, df) + Indicators(columns[i], categories, df)
  {
    AssignmentsStep(columns, i, input, categories, df);
  }

  lemma IndicatorStep(before: Entries, column: string, categories: seq<string>, j: nat, df: Dataframes.SqlDataFrame)
    requires j < |categories|
    ensures Fold(before + Indicators(column, categories[..j + 1], df))
         == Put(Fold(before + Indicators(column, categories[..j], df)),
                column + "_" + categories[j], Case(Equals(df.Field(column), categories[j]), 1, 0))
  {
    var e := (column + "_" + categories[j], Case(Equals(df.Field(column), categories[j]), 1, 0));
    assert Indicators(column, categories[..j + 1], df) == Indicators(column, categories[..j], df) + [e];
    assert before + Indicators(column, categories[..j + 1], df)
        == (before + Indicators(column, categories[..j], df)) + [e];
    FoldSnoc(before + Indicators(column, categories[..j], df), e);
  }

  // ---------------------------------------------------------------------
  // The encoder

  class OneHotEncoder {
    const inputCol: Option<string>
    const categories: Categories
    /** `_fitted_values`, absent until `fit`. */
    var fittedValues: Option<seq<string>>

    /** `OneHotEncoder(input_col=..., categories=...)`. */
    constructor (inputCol: Option<string>, categories: Categories)
      ensures this.inputCol == inputCol && this.categories == categories
      ensures fittedValues == None
    {
      this.inputCol := inputCol;
      this.categories := categories;
      fittedValues := None;
    }

    /** `fit(df)`: records the categories and returns the encoder itself. */
    method Fit(discovered: seq<string>) returns (r: OneHotEncoder)
      modifies this
      ensures r == this
      ensures fittedValues == Some(GetCategories(categories, discovered))
    {
      fittedValues := Some(GetCategories(categories, discovered));
      r := this;
    }

    /** `transform(df)` over the frame's `columns`. Reaching the input column
        before `fit` fails; otherwise the result selects the dictionary the
        loop builds, in its insertion order. */
    method Transform(df: Dataframes.SqlDataFrame, columns: seq<string>, freshAlias: string)
      returns (r: Result<Dataframes.SqlDataFrame>)
      requires df.Valid() && Dataframes.IsGeneratedAlias(freshAlias)
      ensures fittedValues.None? && inputCol.Some? && inputCol.value in columns ==> r == Err(NotFitted)
      ensures fittedValues.Some? || inputCol.None? || inputCol.value !in columns ==>
                r.Ok? && fresh(r.value) && r.value.Valid()
                && r.value.transformation
                   == Some(Dataframes.Transformation.Select(df, Selected(columns, inputCol, Fitted(), df)))
    {
      var terms := CollectTerms(df, columns);
      if terms.Err? {
        return Err(terms.error);
      }
      var frame := df.Select(Kwargs(terms.value), freshAlias);
      r := Ok(frame);
    }

    /** The dictionary `transform` builds, column by column: every other
        column as it is, the input column as its indicators. Reaching the
        input column before `fit` fails. */
    method CollectTerms(df: Dataframes.SqlDataFrame, columns: seq<string>) returns (r: Result<Entries>)
      ensures r.Err? <==> fittedValues.None? && inputCol.Some? && inputCol.value in columns
      ensures r.Err? ==> r.error == NotFitted
      ensures r.Ok? ==> r.value == Fold(Assignments(columns, inputCol, Fitted(), df))
    {
      var terms: Entries := [];
      var fitted := Fitted();
      for i := 0 to |columns|
        invariant fittedValues.None? && inputCol.Some? ==> inputCol.value !in columns[..i]
        invariant terms == Fold(Assignments(columns[..i], inputCol, fitted, df))
      {
        var column := columns[i];
        if Some(column) != inputCol {
          assert columns[..i + 1] == columns[..i] + [column];
          FieldStep(columns, i, inputCol, fitted, df);
          terms := Put(terms, column, df.Field(column));
        } else {
          if fittedValues.None? {
            return Err(NotFitted);
          }
          InputStep(columns, i, inputCol, fitted, df);
          terms := PutIndicators(terms, column, fitted, df, Assignments(columns[..i], inputCol, fitted, df));
        }
      }
      assert columns[..|columns|] == columns;
      r := Ok(terms);
    }

    /** The inner loop of `transform`: one indicator per category, assigned
        in order into the dictionary built from `before`. */
    static method PutIndicators(terms: Entries, column: string, fitted: seq<string>, df: Dataframes.SqlDataFrame, ghost before: Entries)
      returns (r: Entries)
      requires terms == Fold(before)
      ensures r == Fold(before + Indicators(column, fitted, df))
    {
      r := terms;
      assert before + Indicators(column, fitted[..0], df) == before;
      for j := 0 to |fitted|
        invariant r == Fold(before + Indicators(column, fitted[..j], df))
      {
        var category := fitted[j];
        IndicatorStep(before, column, fitted, j, df);
        r := Put(r, column + "_" + category, Case(Equals(df.Field(column), category), 1, 0));
      }
      assert fitted[..|fitted|] == fitted;
    }

    /** The categories `transform` uses: none before `fit`, when they are
        never reached. */
    function Fitted(): seq<string>
      reads this
    {
      if fittedValues.Some? then fittedValues.value else []
    }

    /** `fit_transform(df)`: `fit(df)` followed by `transform(df)`, which then
        cannot fail. */
    method FitTransform(df: Dataframes.SqlDataFrame, columns: seq<string>, discovered: seq<string>, freshAlias: string)
      returns (r: Result<Dataframes.SqlDataFrame>)
      requires df.Valid() && Dataframes.IsGeneratedAlias(freshAlias)
      modifies this
      ensures fittedValues == Some(GetCategories(categories, discovered))
      ensures r.Ok? && fresh(r.value) && r.value.Valid()
      ensures r.value.transformation
              == Some(Dataframes.Transformation.Select(df, Selected(columns, inputCol, GetCategories(categories, discovered), df)))
    {
      var encoder := Fit(discovered);
      r := encoder.Transform(df, columns, freshAlias);
    }
  }

  // ---------------------------------------------------------------------
  // What the selected columns are

  /** The number of output columns when no name repeats: every other column
      once, the input column replaced by one column per category. */
  lemma {:induction false} AssignmentsCount(columns: seq<string>, input: string, categories: seq<string>, df: Dataframes.SqlDataFrame)
    requires input in columns
    requires forall i, j :: 0 <= i < j < |columns| ==> columns[i] != columns[j]
    ensures |Assignments(columns, Some(input), categories, df)| == |columns| - 1 + |categories|
  {
    var init := columns[..|columns| - 1];
    var last := columns[|columns| - 1];
    if last == input {
      assert input !in init;
      NoInputCount(init, input, categories, df);
    } else {
      assert input in init;
      AssignmentsCount(init, input, categories, df);
    }
  }

  lemma {:induction false} NoInputCount(columns: seq<string>, input: string, categories: seq<string>, df: Dataframes.SqlDataFrame)
    requires input !in columns
    ensures Assignments(columns, Some(input), categories, df) == seq(|columns|, i requires 0 <= i < |columns| => (columns[i], df.Field(columns[i])))
  {
    if columns != [] {
      var init := columns[..|columns| - 1];
      NoInputCount(init, input, categories, df);
    }
  }

  /** Every selected term is one of the assignments, under its own name, and
      the last assignment to each name is the one selected. */
  lemma SelectedFromAssignments(columns: seq<string>, input: Option<string>, categories: seq<string>, df: Dataframes.SqlDataFrame, j: nat)
    requires var a := Assignments(columns, input, categories, df);
             j < |a| && forall l :: j < l < |a| ==> a[l].0 != a[j].0
    ensures var a := Assignments(columns, input, categories, df);
            As(a[j].1, a[j].0) in Selected(columns, input, categories, df)
  {
    var a := Assignments(columns, input, categories, df);
    FoldLastWins(a, j);
    var d := Fold(a);
    var k :| 0 <= k < |d| && d[k] == a[j];
    assert Selected(columns, input, categories, df)[k] == As(a[j].1, a[j].0);
  }

  /** The encoded test table: `id, category, val` with categories `A, B`
      becomes `id, category_A, category_B, val`. */
  lemma EncodeTestTable(df: Dataframes.SqlDataFrame)
    ensures Selected(["id", "category", "val"], Some("category"), ["A", "B"], df)
         == [ As(df.Field("id"), "id"),
              As(Case(Equals(df.Field("category"), "A"), 1, 0), "category_A"),
              As(Case(Equals(df.Field("category"), "B"), 1, 0), "category_B"),
              As(df.Field("val"), "val") ]
  {
    var a := Assignments(["id", "category", "val"], Some("category"), ["A", "B"], df);
    TestTableAssignments(df);
    assert Keys(a) == ["id", "category_A", "category_B", "val"];
    TestTableKeys();
    FoldDistinct(a);
  }

  lemma TestTableKeys()
    ensures Distinct(["id", "category_A", "category_B", "val"])
  {
    var keys := ["id", "category_A", "category_B", "val"];
    assert |keys[0]| == 2 && |keys[1]| == 10 && |keys[2]| == 10 && |keys[3]| == 3;
    assert keys[1][9] != keys[2][9];
  }

  lemma TestTableAssignments(df: Dataframes.SqlDataFrame)
    ensures Assignments(["id", "category", "val"], Some("category"), ["A", "B"], df)
         == [ ("id", df.Field("id")),
              ("category_A", Case(Equals(df.Field("category"), "A"), 1, 0)),
              ("category_B", Case(Equals(df.Field("category"), "B"), 1, 0)),
              ("val", df.Field("val")) ]
  {
    var input := Some("category");
    var cats := ["A", "B"];
    var none: seq<string> := [];
    assert ["id", "category", "val"][..2] == ["id", "category"];
    assert ["id", "category"][..1] == ["id"];
    assert ["id"][..0] == none;
    assert "id" != "category" && "val" != "category";
    assert Assignments(none, input, cats, df) == [];
    var a1 := Assignments(["id"], input, cats, df);
    assert a1 == [] + ColumnEntries("id", input, cats, df);
    var a2 := Assignments(["id", "category"], input, cats, df);
    assert a2 == a1 + Indicators("category", cats, df);
    assert "category" + "_" + "A" == "category_A" && "category" + "_" + "B" == "category_B";
  }
}
