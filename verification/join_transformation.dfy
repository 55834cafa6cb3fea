/** join_transformation.py: a join of two sources on a list of predicates. */
module JoinTransformation {

  import opened Text
  import opened Terms

  /** The predicates rendered without alias and joined by "AND\n": no space
      before the AND, none between the line break and the next predicate. */
  function OnTerm(on: seq<Term>, d: Dialect): string {
    Join("AND\n", RenderAll(on, d, false))
  }

  /** `JoinTransformation.get_sql`, given the texts the two aliases resolve to.
      The join type is emitted as stored. */
  function GetSql(source: string, joinType: string, other: string, on: seq<Term>, d: Dialect): string {
    "SELECT *\nFROM " + source + "\n" + joinType + " " + other + "\nON " + OnTerm(on, d)
  }

  /** A single predicate is printed alone, without any AND. */
  lemma OnePredicate(source: string, joinType: string, other: string, t: Term, d: Dialect)
    ensures GetSql(source, joinType, other, [t], d)
         == "SELECT *\nFROM " + source + "\n" + joinType + " " + other + "\nON " + d.render(t, false)
  {
  }

  /** Each further predicate adds "AND\n" and the predicate, at the end. */
  lemma AppendPredicate(source: string, joinType: string, other: string, on: seq<Term>, t: Term, d: Dialect)
    requires on != []
    ensures GetSql(source, joinType, other, on + [t], d)
         == GetSql(source, joinType, other, on, d) + "AND\n" + d.render(t, false)
  {
    RenderAllSnoc(on, t, d, false);
    JoinSnoc("AND\n", RenderAll(on, d, false), d.render(t, false));
  }

  /** The statement determines its parts: when the source text and the join
      line have no newline, equal statements have the same source, the same
      join line and the same ON text. */
  lemma PartsDetermined(s1: string, j1: string, o1: string, on1: seq<Term>,
                        s2: string, j2: string, o2: string, on2: seq<Term>, d: Dialect)
    requires NoNewline(s1) && NoNewline(s2)
    requires NoNewline(j1 + " " + o1) && NoNewline(j2 + " " + o2)
    requires GetSql(s1, j1, o1, on1, d) == GetSql(s2, j2, o2, on2, d)
    ensures s1 == s2 && j1 + " " + o1 == j2 + " " + o2 && OnTerm(on1, d) == OnTerm(on2, d)
  {
    var p := "SELECT *\nFROM ";
    var r1, r2 := "ON " + OnTerm(on1, d), "ON " + OnTerm(on2, d);
    Layout(s1, j1, o1, on1, d);
    Layout(s2, j2, o2, on2, d);
    PrefixedLineUnique(p, s1, (j1 + " " + o1) + "\n" + r1, s2, (j2 + " " + o2) + "\n" + r2);
    FirstLineUnique(j1 + " " + o1, r1, j2 + " " + o2, r2);
    PrefixCancel("ON ", OnTerm(on1, d), OnTerm(on2, d));
  }

  lemma Layout(s: string, j: string, o: string, on: seq<Term>, d: Dialect)
    ensures GetSql(s, j, o, on, d) == "SELECT *\nFROM " + s + "\n" + ((j + " " + o) + "\n" + ("ON " + OnTerm(on, d)))
  {
  }
}
