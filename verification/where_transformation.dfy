/** where_transformation.py: a `WHERE` over one source, filters conjoined with AND. */
module WhereTransformation {

  import opened Text
  import opened Terms

  /** `WhereTransformation.get_sql`, given the text the source's alias resolves to. */
  function GetSql(source: string, filters: seq<Term>, d: Dialect): string {
    "SELECT * \nFROM " + source + " \nWHERE " + Join(" AND ", RenderAll(filters, d, false))
  }

  /** A single filter is printed alone, without any AND. */
  lemma OneFilter(source: string, f: Term, d: Dialect)
    ensures GetSql(source, [f], d) == "SELECT * \nFROM " + source + " \nWHERE " + d.render(f, false)
  {
  }

  /** Each further filter adds " AND " and the filter, at the end. */
  lemma AppendFilter(source: string, filters: seq<Term>, f: Term, d: Dialect)
    requires filters != []
    ensures GetSql(source, filters + [f], d) == GetSql(source, filters, d) + " AND " + d.render(f, false)
  {
    RenderAllSnoc(filters, f, d, false);
    JoinSnoc(" AND ", RenderAll(filters, d, false), d.render(f, false));
  }
}
