/** select_transformation.py: `SELECT` of a list of aliased terms over one source. */
module SelectTransformation {

  import opened Text
  import opened Terms

  /** The selector list: each selector rendered with its alias, in the given
      order, one per line, tab-indented. */
  function SelectList(selectors: seq<Term>, d: Dialect): string {
    Indent(Join(",\n", RenderAll(selectors, d, true)), TAB)
  }

  /** `SelectTransformation.get_sql`, given the text the source's alias resolves to. */
  function GetSql(source: string, selectors: seq<Term>, d: Dialect): string {
    "SELECT\n" + SelectList(selectors, d) + "\nFROM " + source
  }

  /** One selector that prints on one line: a single tab-indented line. */
  lemma OneSelector(source: string, t: Term, d: Dialect)
    requires OneLine(d.render(t, true))
    ensures GetSql(source, [t], d) == "SELECT\n\t" + d.render(t, true) + "\nFROM " + source
  {
    IndentOneLine(d.render(t, true), TAB);
  }

  /** A selector added at the end is indented on its own and follows the
      earlier ones after ",\n": the order of the list is the order of the text. */
  lemma AppendSelector(source: string, selectors: seq<Term>, t: Term, d: Dialect)
    requires selectors != []
    ensures GetSql(source, selectors + [t], d)
         == "SELECT\n" + Indent(Join(",\n", RenderAll(selectors, d, true)) + ",\n", TAB)
            + Indent(d.render(t, true), TAB) + "\nFROM " + source
  {
    var head := Indent(Join(",\n", RenderAll(selectors, d, true)) + ",\n", TAB);
    var last := Indent(d.render(t, true), TAB);
    AppendedList(selectors, t, d);
    assert GetSql(source, selectors + [t], d) == "SELECT\n" + (head + last) + "\nFROM " + source;
    assert "SELECT\n" + (head + last) == "SELECT\n" + head + last;
  }

  lemma AppendedList(selectors: seq<Term>, t: Term, d: Dialect)
    requires selectors != []
    ensures SelectList(selectors + [t], d)
         == Indent(Join(",\n", RenderAll(selectors, d, true)) + ",\n", TAB) + Indent(d.render(t, true), TAB)
  {
    var parts := RenderAll(selectors, d, true);
    var r := d.render(t, true);
    RenderAllSnoc(selectors, t, d, true);
    JoinSnoc(",\n", parts, r);
    var head := Join(",\n", parts) + ",\n";
    assert Join(",\n", parts + [r]) == head + r;
    assert head[|head| - 1] == '\n';
    IndentConcat(head, r, TAB);
  }
}
