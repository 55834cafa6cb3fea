/** set_transformation.py: a set operation between exactly two sources. */
module SetTransformation {

  import opened Text

  /** `SetTransformation.get_sql`, given the texts the two operands print as
      (see `Dataframes.GetSql`: this renderer prints the un-called
      `get_alias_name` method, not the alias). The keyword is emitted as stored. */
  function GetSql(source: string, setType: string, other: string): string {
    "SELECT *\nFROM " + source + "\n" + setType + "\n" + other
  }

  /** The statement determines its parts: when the source text and the
      keyword have no newline, equal statements have the same two operands
      and the same keyword. */
  lemma PartsDetermined(s1: string, k1: string, o1: string, s2: string, k2: string, o2: string)
    requires NoNewline(s1) && NoNewline(s2) && NoNewline(k1) && NoNewline(k2)
    requires GetSql(s1, k1, o1) == GetSql(s2, k2, o2)
    ensures s1 == s2 && k1 == k2 && o1 == o2
  {
    var p := "SELECT *\nFROM ";
    Layout(s1, k1, o1);
    Layout(s2, k2, o2);
    PrefixedLineUnique(p, s1, k1 + "\n" + o1, s2, k2 + "\n" + o2);
    FirstLineUnique(k1, o1, k2, o2);
  }

  lemma Layout(s: string, k: string, o: string)
    ensures GetSql(s, k, o) == "SELECT *\nFROM " + s + "\n" + (k + "\n" + o)
  {
  }
}
