/** raw_sql_transformation.py: a hand-written statement whose placeholders
    are replaced by the aliases of the relations it reads. */
module RawSqlTransformation {

  import opened Text

  /** The placeholder for `key`: the key between double braces. */
  function Placeholder(key: string): (r: string)
    ensures |r| == |key| + 4 && r[..2] == "{{"
  {
    "{{" + key + "}}"
  }

  /** The key under which the receiver of `sql(...)` is referred to. */
  const SourceKey: string := "source"

  /** The placeholders of the additional sources replaced one source after
      the other, in the order of the dictionary, each by that source's alias. */
  function SubstituteExtra(sql: string, extra: seq<(string, string)>): string
    decreases |extra|
  {
    if extra == [] then sql
    else SubstituteExtra(Replace(sql, Placeholder(extra[0].0), extra[0].1), extra[1..])
  }

  /** What `get_sql` returns: `{{source}}` replaced by the source's alias, then
      the additional sources' placeholders. `extra` pairs each key with the
      alias of the relation stored under it. */
  function Substitute(sql: string, source: string, extra: seq<(string, string)>): string {
    SubstituteExtra(Replace(sql, Placeholder(SourceKey), source), extra)
  }

  /** `RawSqlTransformation.get_sql`: the text is rewritten in place, one
      replacement after the other. */
  method GetSql(sql: string, source: string, extra: seq<(string, string)>) returns (r: string)
    ensures r == Substitute(sql, source, extra)
  {
    r := Replace(sql, Placeholder(SourceKey), source);
    for i := 0 to |extra|
      invariant SubstituteExtra(r, extra[i..]) == Substitute(sql, source, extra)
    {
      assert extra[i..][1..] == extra[i + 1..];
      r := Replace(r, Placeholder(extra[i].0), extra[i].1);
    }
    assert extra[|extra|..] == [];
  }

  /** A source added at the end of the dictionary is substituted last, into
      the text the earlier ones left. */
  lemma {:induction false} SubstituteExtraSnoc(sql: string, extra: seq<(string, string)>, key: string, alias: string)
    ensures SubstituteExtra(sql, extra + [(key, alias)])
         == Replace(SubstituteExtra(sql, extra), Placeholder(key), alias)
    decreases |extra|
  {
    if extra != [] {
      assert (extra + [(key, alias)])[1..] == extra[1..] + [(key, alias)];
      SubstituteExtraSnoc(Replace(sql, Placeholder(extra[0].0), extra[0].1), extra[1..], key, alias);
    }
  }

  /** No placeholder of any key can occur in a text without "{{". */
  lemma NoPlaceholderWithoutBraces(s: string, key: string)
    requires !Occurs(s, "{{")
    ensures !Occurs(s, Placeholder(key))
  {
    if Occurs(s, Placeholder(key)) {
      assert Placeholder(key) == "{{" + (key + "}}");
      OccursPrefixOf(s, "{{", key + "}}");
    }
  }

  lemma {:induction false} SubstituteExtraAbsent(sql: string, extra: seq<(string, string)>)
    requires !Occurs(sql, "{{")
    ensures SubstituteExtra(sql, extra) == sql
    decreases |extra|
  {
    if extra != [] {
      NoPlaceholderWithoutBraces(sql, extra[0].0);
      ReplaceAbsent(sql, Placeholder(extra[0].0), extra[0].1);
      SubstituteExtraAbsent(sql, extra[1..]);
    }
  }

  /** A statement without "{{" comes back unchanged, whatever the sources. */
  lemma NoPlaceholder(sql: string, source: string, extra: seq<(string, string)>)
    requires !Occurs(sql, "{{")
    ensures Substitute(sql, source, extra) == sql
  {
    NoPlaceholderWithoutBraces(sql, SourceKey);
    ReplaceAbsent(sql, Placeholder(SourceKey), source);
    SubstituteExtraAbsent(sql, extra);
  }

  /** The source's alias is spliced in verbatim, without quoting or checks:
      a single `{{source}}` becomes exactly the alias, and the text around it
      is kept. */
  lemma SourceSpliced(x: string, y: string, alias: string)
    requires forall i: nat :: i < |x| ==> !OccursAt(x + Placeholder(SourceKey) + y, Placeholder(SourceKey), i)
    requires !Occurs(y, Placeholder(SourceKey))
    ensures Substitute(x + Placeholder(SourceKey) + y, alias, []) == x + alias + y
  {
    ReplaceSplice(x, Placeholder(SourceKey), y, alias);
    ReplaceAbsent(y, Placeholder(SourceKey), alias);
  }

  /** The chained-query test's statement `SELECT * FROM {{{source}}}`: the
      innermost double braces are the placeholder, and one brace stays on
      either side of the alias. */
  lemma TripleBraceTemplate(alias: string)
    ensures Substitute("SELECT * FROM {{{source}}}", alias, []) == "SELECT * FROM {" + alias + "}"
  {
    var x, y := "SELECT * FROM {", "}";
    var p := Placeholder(SourceKey);
    assert x + p + y == "SELECT * FROM {{{source}}}";
    assert p[2] == 's';
    forall i: nat | i < |x| ensures !OccursAt(x + p + y, p, i) {
      var s := x + p + y;
      assert s[i..i + |p|][2] == s[i + 2];
      assert s[i + 2] in "LECT * FROM {{{";
    }
    SourceSpliced(x, y, alias);
  }
}
