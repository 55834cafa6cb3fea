/** orderby_transformation.py: an `ORDER BY` over one source with one direction for every key. */
module OrderbyTransformation {

  import opened Text
  import opened Terms

  /** The direction `order_by` uses when none is given. */
  const DefaultDirection: string := "ASC"

  /** Each sort key rendered without alias and followed by the one direction. */
  function SortKeys(sorters: seq<Term>, direction: string, d: Dialect): (r: seq<string>)
    ensures |r| == |sorters|
    ensures forall i :: 0 <= i < |sorters| ==> r[i] == d.render(sorters[i], false) + " " + direction
  {
    if sorters == [] then []
    else [d.render(sorters[0], false) + " " + direction] + SortKeys(sorters[1..], direction, d)
  }

  /** `OrderbyTransformation.get_sql`, given the text the source's alias resolves to. */
  function GetSql(source: string, sorters: seq<Term>, direction: string, d: Dialect): string {
    "SELECT * \nFROM " + source + " \nORDER BY " + Join(", ", SortKeys(sorters, direction, d))
  }

  /** Each further key adds ", ", the key and the same direction, at the end. */
  lemma AppendSortKey(source: string, sorters: seq<Term>, s: Term, direction: string, d: Dialect)
    requires sorters != []
    ensures GetSql(source, sorters + [s], direction, d)
         == GetSql(source, sorters, direction, d) + ", " + d.render(s, false) + " " + direction
  {
    var keys := SortKeys(sorters, direction, d);
    assert SortKeys(sorters + [s], direction, d) == keys + [d.render(s, false) + " " + direction];
    JoinSnoc(", ", keys, d.render(s, false) + " " + direction);
  }

  /** One key in the default direction. */
  lemma OneKeyAscending(source: string, s: Term, d: Dialect)
    ensures GetSql(source, [s], DefaultDirection, d)
         == "SELECT * \nFROM " + source + " \nORDER BY " + d.render(s, false) + " ASC"
  {
  }
}
