/** groupby_transformation.py: a `GROUP BY` over one source with its aggregates. */
module GroupbyTransformation {

  import opened Text
  import opened Terms

  /** The SELECT list: the keys, then the aggregates, all rendered with alias. */
  function SelectList(keys: seq<Term>, aggs: seq<Term>, d: Dialect): string {
    Indent(Join(",\n", RenderAll(keys, d, true) + RenderAll(aggs, d, true)), TAB)
  }

  /** The GROUP BY list: the keys only, rendered without alias. */
  function KeyList(keys: seq<Term>, d: Dialect): string {
    Indent(Join(",\n", RenderAll(keys, d, false)), TAB)
  }

  /** `GroupbyTransformation.get_sql`, given the text the source's alias resolves to. */
  function GetSql(source: string, keys: seq<Term>, aggs: seq<Term>, d: Dialect): string {
    "SELECT\n" + SelectList(keys, aggs, d) + "\nFROM " + source + "\nGROUP BY\n" + KeyList(keys, d)
  }

  /** One key and one aggregate that print on one line each: the key comes
      first in the SELECT list with its alias, and alone, without alias, in
      the GROUP BY list. */
  lemma OneKeyOneAggregate(source: string, k: Term, a: Term, d: Dialect)
    requires OneLine(d.render(k, true)) && OneLine(d.render(a, true)) && OneLine(d.render(k, false))
    ensures GetSql(source, [k], [a], d)
         == "SELECT\n\t" + d.render(k, true) + ",\n\t" + d.render(a, true) + "\nFROM " + source
            + "\nGROUP BY\n\t" + d.render(k, false)
  {
    TwoLineSelectList(k, a, d);
    OneKeyList(k, d);
    TwoColumnLayout(source, SelectList([k], [a], d), KeyList([k], d), d.render(k, true), d.render(a, true), d.render(k, false));
  }

  lemma OneKeyList(k: Term, d: Dialect)
    requires OneLine(d.render(k, false))
    ensures KeyList([k], d) == "\t" + d.render(k, false)
  {
    IndentOneLine(d.render(k, false), TAB);
  }

  lemma TwoLineSelectList(k: Term, a: Term, d: Dialect)
    requires OneLine(d.render(k, true)) && OneLine(d.render(a, true))
    ensures SelectList([k], [a], d) == "\t" + d.render(k, true) + ",\n\t" + d.render(a, true)
  {
    var rk, ra := d.render(k, true), d.render(a, true);
    assert RenderAll([k], d, true) + RenderAll([a], d, true) == [rk, ra];
    assert Join(",\n", [rk, ra]) == rk + ",\n" + ra;
    IndentCommaLines(rk, ra, TAB);
  }

  /** `aggregate()` with no aggregates is allowed: the SELECT list is the keys alone. */
  lemma NoAggregates(source: string, k: Term, d: Dialect)
    requires OneLine(d.render(k, true)) && OneLine(d.render(k, false))
    ensures GetSql(source, [k], [], d)
         == "SELECT\n\t" + d.render(k, true) + "\nFROM " + source + "\nGROUP BY\n\t" + d.render(k, false)
  {
    OneKeySelectList(k, d);
    OneKeyList(k, d);
    Layout(source, SelectList([k], [], d), KeyList([k], d), d.render(k, true), d.render(k, false));
  }

  lemma OneKeySelectList(k: Term, d: Dialect)
    requires OneLine(d.render(k, true))
    ensures SelectList([k], [], d) == "\t" + d.render(k, true)
  {
    assert RenderAll([k], d, true) + RenderAll([], d, true) == [d.render(k, true)];
    IndentOneLine(d.render(k, true), TAB);
  }

  lemma TwoColumnLayout(source: string, selectList: string, keyList: string, s: string, t: string, k: string)
    requires selectList == "\t" + s + ",\n\t" + t && keyList == "\t" + k
    ensures "SELECT\n" + selectList + "\nFROM " + source + "\nGROUP BY\n" + keyList
         == "SELECT\n\t" + s + ",\n\t" + t + "\nFROM " + source + "\nGROUP BY\n\t" + k
  {
    Layout(source, selectList, keyList, s + ",\n\t" + t, k);
    assert "SELECT\n\t" + (s + ",\n\t" + t) == "SELECT\n\t" + s + ",\n\t" + t;
  }

  /** The statement around a SELECT list and a GROUP BY list that each start
      with a tab. */
  lemma Layout(source: string, selectList: string, keyList: string, s: string, k: string)
    requires selectList == "\t" + s && keyList == "\t" + k
    ensures "SELECT\n" + selectList + "\nFROM " + source + "\nGROUP BY\n" + keyList
         == "SELECT\n\t" + s + "\nFROM " + source + "\nGROUP BY\n\t" + k
  {
    assert "SELECT\n" + "\t" == "SELECT\n\t" && "\nGROUP BY\n" + "\t" == "\nGROUP BY\n\t";
  }
}
