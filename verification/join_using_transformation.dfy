/** join_using_transformation.py: a join of two sources on one shared column. */
module JoinUsingTransformation {

  import opened Text
  import opened Terms

  /** `JoinUsingTransformation.get_sql`, given the texts the two aliases
      resolve to. There is exactly one USING column, rendered without alias;
      the join type is emitted as stored. */
  function GetSql(source: string, joinType: string, other: string, using: Term, d: Dialect): string {
    "SELECT *\nFROM " + source + "\n" + joinType + " " + other + "\nUSING (" + d.render(using, false) + ")"
  }

  /** The statement determines its parts: when the source text and the join
      line have no newline, equal statements have the same source, the same
      join line and the same rendered column. */
  lemma PartsDetermined(s1: string, j1: string, o1: string, u1: Term,
                        s2: string, j2: string, o2: string, u2: Term, d: Dialect)
    requires NoNewline(s1) && NoNewline(s2)
    requires NoNewline(j1 + " " + o1) && NoNewline(j2 + " " + o2)
    requires GetSql(s1, j1, o1, u1, d) == GetSql(s2, j2, o2, u2, d)
    ensures s1 == s2 && j1 + " " + o1 == j2 + " " + o2 && d.render(u1, false) == d.render(u2, false)
  {
    var p := "SELECT *\nFROM ";
    var r1, r2 := "USING (" + d.render(u1, false) + ")", "USING (" + d.render(u2, false) + ")";
    Layout(s1, j1, o1, u1, d);
    Layout(s2, j2, o2, u2, d);
    PrefixedLineUnique(p, s1, (j1 + " " + o1) + "\n" + r1, s2, (j2 + " " + o2) + "\n" + r2);
    FirstLineUnique(j1 + " " + o1, r1, j2 + " " + o2, r2);
    UsingCancel(d.render(u1, false), d.render(u2, false));
  }

  lemma Layout(s: string, j: string, o: string, u: Term, d: Dialect)
    ensures GetSql(s, j, o, u, d)
         == "SELECT *\nFROM " + s + "\n" + ((j + " " + o) + "\n" + ("USING (" + d.render(u, false) + ")"))
  {
  }

  lemma UsingCancel(x: string, y: string)
    requires "USING (" + x + ")" == "USING (" + y + ")"
    ensures x == y
  {
    assert "USING (" + x + ")" == "USING (" + (x + ")");
    assert "USING (" + y + ")" == "USING (" + (y + ")");
    PrefixCancel("USING (", x + ")", y + ")");
    assert x == (x + ")")[..|x|];
    assert y == (y + ")")[..|y|];
  }
}
