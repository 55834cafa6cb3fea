/** `DataframeTransformation`: the mutable accumulator of select, join, filter,
    group-by, order-by, qualify and limit operations over one source frame,
    with the statement it renders and the dependencies it reports. */
module DataframeTransformations {

  import opened Results
  import opened Text
  import opened Terms
  import Dataframes

  type Frame = Dataframes.SqlDataFrame

  /** `JoinDefiniton`: the joined frame, the join keyword, the predicate terms
      and the predicate kind (`ON` or `USING`). */
  datatype JoinDefinition = JoinDefinition(source: Frame, joinType: string, joinTerms: seq<Term>, joinTermsType: string)

  /** What an accumulator holds besides its source, as one value. */
  datatype Accumulated = Accumulated(
    selectors: seq<Term>,
    joins: seq<JoinDefinition>,
    filters: seq<Term>,
    groupby: seq<Term>,
    aggs: seq<Term>,
    orderby: seq<(Term, string)>,
    deps: seq<Frame>,
    limit: Option<int>,
    qualify: Option<Term>)
  {
    /** `is_sealed`: the output columns are fixed by a select list or a grouping. */
    predicate Sealed() {
      groupby != [] || selectors != []
    }
  }

  class DataframeTransformation {
    const source: Frame
    var selectors: seq<Term>
    var joins: seq<JoinDefinition>
    var filters: seq<Term>
    var groupby: seq<Term>
    var aggs: seq<Term>
    var orderby: seq<(Term, string)>
    var deps: seq<Frame>
    var limit: Option<int>
    var qualify: Option<Term>

    function State(): Accumulated
      reads this
    {
      Accumulated(selectors, joins, filters, groupby, aggs, orderby, deps, limit, qualify)
    }

    predicate IsSealed()
      reads this
    {
      State().Sealed()
    }

    /** `DataframeTransformation(source, ...)`: a missing list is an empty one. */
    constructor (source: Frame, selectors: seq<Term>, joins: seq<JoinDefinition>, filters: seq<Term>,
                 groupby: seq<Term>, aggs: seq<Term>, orderby: seq<(Term, string)>, deps: seq<Frame>,
                 limit: Option<int>, qualify: Option<Term>)
      ensures this.source == source
      ensures State() == Accumulated(selectors, joins, filters, groupby, aggs, orderby, deps, limit, qualify)
    {
      this.source := source;
      this.selectors := selectors;
      this.joins := joins;
      this.filters := filters;
      this.groupby := groupby;
      this.aggs := aggs;
      this.orderby := orderby;
      this.deps := deps;
      this.limit := limit;
      this.qualify := qualify;
    }

    /** `copy`: a new accumulator over the same source with the same lists and
        limit; the ordering and the qualify term are not carried over. */
    method Copy() returns (c: DataframeTransformation)
      ensures fresh(c)
      ensures c.source == source
      ensures c.State() == State().(orderby := [], qualify := None)
      ensures c.IsSealed() == IsSealed()
    {
      c := new DataframeTransformation(source, selectors, joins, filters, groupby, aggs, [], deps, limit, None);
    }

    /** `add_join`: one more join at the end, and its frame as a dependency. */
    method AddJoin(other: Frame, joinType: string, termTypes: string, terms: seq<Term>)
      modifies this
      ensures State() == old(State()).(joins := old(joins) + [JoinDefinition(other, joinType, terms, termTypes)],
                                       deps := old(deps) + [other])
      ensures IsSealed() == old(IsSealed())
    {
      joins := joins + [JoinDefinition(other, joinType, terms, termTypes)];
      deps := deps + [other];
    }

    /** `add_groupby`: more grouping keys and more aggregates, each at the end. */
    method AddGroupby(keys: seq<Term>, aggregates: seq<Term>)
      modifies this
      ensures State() == old(State()).(groupby := old(groupby) + keys, aggs := old(aggs) + aggregates)
      ensures keys != [] ==> IsSealed()
      ensures keys == [] ==> IsSealed() == old(IsSealed())
    {
      groupby := groupby + keys;
      aggs := aggs + aggregates;
    }

    /** `add_filter`: more predicates at the end. */
    method AddFilter(more: seq<Term>)
      modifies this
      ensures State() == old(State()).(filters := old(filters) + more)
      ensures IsSealed() == old(IsSealed())
    {
      filters := filters + more;
    }

    /** `add_select`: more output terms at the end. */
    method AddSelect(more: seq<Term>)
      modifies this
      ensures State() == old(State()).(selectors := old(selectors) + more)
      ensures more != [] ==> IsSealed()
      ensures more == [] ==> IsSealed() == old(IsSealed())
    {
      selectors := selectors + more;
    }

    /** `add_orderby`: more ordering keys at the end. */
    method AddOrderby(more: seq<(Term, string)>)
      modifies this
      ensures State() == old(State()).(orderby := old(orderby) + more)
      ensures IsSealed() == old(IsSealed())
    {
      orderby := orderby + more;
    }

    /** `add_limit`: replaces any earlier limit. */
    method AddLimit(n: int)
      modifies this
      ensures State() == old(State()).(limit := Some(n))
    {
      limit := Some(n);
    }

    /** `add_qualify`: replaces any earlier qualify term. */
    method AddQualify(term: Term)
      modifies this
      ensures State() == old(State()).(qualify := Some(term))
    {
      qualify := Some(term);
    }

    /** `get_sql`, with the column lists of the frames as `columns`. Every
        term is printed with the keyword arguments of the source's session's
        `get_kwargs_defaults()`. */
    function GetSql(d: Dialect, columns: Frame -> seq<string>): Result<string>
      reads this
    {
      RenderSql(source, State(), d.WithDefaults(source.session), columns)
    }

    /** `get_dependencies`: the source's chain, then each dependency's chain. */
    method GetDependencies() returns (r: Result<seq<Dataframes.Dep>>)
      requires source.Valid() && forall x <- deps :: x.Valid()
      ensures r == Dataframes.ExtendAll([source] + deps)
      ensures r.Ok? ==> Dataframes.UpstreamFirst(r.value)
    {
      r := WalkAll([source] + deps);
      if r.Ok? {
        Dataframes.ExtendAllUpstreamFirst([source] + deps);
      }
    }
  }

  /** The walk of `get_dependencies` over the source and then the
      dependencies, one `extend_transformations` after the other. */
  method WalkAll(fs: seq<Frame>) returns (r: Result<seq<Dataframes.Dep>>)
    requires forall f <- fs :: f.Valid()
    ensures r == Dataframes.ExtendAll(fs)
  {
    var list: seq<Dataframes.Dep> := [];
    for i := 0 to |fs|
      invariant Dataframes.ExtendAll(fs[..i]) == Ok(list)
    {
      var e := Dataframes.Extend(fs[i]);
      WalkStep(fs, i, list);
      if e.Err? {
        WalkStop(fs, i);
        return e;
      }
      list := list + e.value;
    }
    assert fs[..|fs|] == fs;
    r := Ok(list);
  }

  lemma WalkStep(fs: seq<Frame>, i: nat, list: seq<Dataframes.Dep>)
    requires forall f <- fs :: f.Valid()
    requires i < |fs| && Dataframes.ExtendAll(fs[..i]) == Ok(list)
    ensures Dataframes.ExtendAll(fs[..i + 1])
         == if Dataframes.Extend(fs[i]).Err? then Dataframes.Extend(fs[i])
            else Ok(list + Dataframes.Extend(fs[i]).value)
  {
    assert fs[..i + 1] == fs[..i] + [fs[i]];
    Dataframes.ExtendAllOne(fs[i]);
    ExtendAllAppend(fs[..i], [fs[i]]);
  }

  lemma WalkStop(fs: seq<Frame>, i: nat)
    requires forall f <- fs :: f.Valid()
    requires i < |fs| && Dataframes.ExtendAll(fs[..i + 1]).Err?
    ensures Dataframes.ExtendAll(fs) == Dataframes.ExtendAll(fs[..i + 1])
  {
    assert fs == fs[..i + 1] + fs[i + 1..];
    ExtendAllAppend(fs[..i + 1], fs[i + 1..]);
  }

  /** Walking a list of frames in two parts: the first failure wins, otherwise
      the chains are concatenated. */
  lemma {:induction false} ExtendAllAppend(fs: seq<Frame>, gs: seq<Frame>)
    requires forall f <- fs :: f.Valid()
    requires forall g <- gs :: g.Valid()
    ensures Dataframes.ExtendAll(fs + gs)
         == if Dataframes.ExtendAll(fs).Err? then Dataframes.ExtendAll(fs)
            else if Dataframes.ExtendAll(gs).Err? then Dataframes.ExtendAll(gs)
            else Ok(Dataframes.ExtendAll(fs).value + Dataframes.ExtendAll(gs).value)
    decreases |fs|
  {
    if fs == [] {
      assert fs + gs == gs;
      if Dataframes.ExtendAll(gs).Ok? {
        assert [] + Dataframes.ExtendAll(gs).value == Dataframes.ExtendAll(gs).value;
      }
    } else {
      assert (fs + gs)[0] == fs[0];
      assert (fs + gs)[1..] == fs[1..] + gs;
      ExtendAllAppend(fs[1..], gs);
      if Dataframes.Extend(fs[0]).Ok? && Dataframes.ExtendAll(fs[1..]).Ok? && Dataframes.ExtendAll(gs).Ok? {
        var h, a, b := Dataframes.Extend(fs[0]).value, Dataframes.ExtendAll(fs[1..]).value, Dataframes.ExtendAll(gs).value;
        assert h + (a + b) == (h + a) + b;
      }
    }
  }

  // ---------------------------------------------------------------------
  // Column disambiguation

  predicate AllFields(ts: seq<Term>) {
    forall t <- ts :: t.Field?
  }

  function Names(fields: seq<Term>): (r: seq<string>)
    requires AllFields(fields)
    ensures |r| == |fields|
    ensures forall i :: 0 <= i < |fields| ==> r[i] == fields[i].name
  {
    if fields == [] then [] else [fields[0].name] + Names(fields[1..])
  }

  /** The result of `_disambiguate` once `result` holds the fields kept so far
      and `right` those still to be looked at. */
  function Disambiguated(result: seq<Term>, right: seq<Term>): (r: seq<Term>)
    requires AllFields(result) && AllFields(right)
    ensures AllFields(r)
    decreases |right|
  {
    if right == [] then result
    else if right[0].name in Names(result) then Disambiguated(result, right[1..])
    else Disambiguated(result + [right[0]], right[1..])
  }

  /** `_disambiguate(left, right)`: the left fields, then each right field whose
      name has not been seen yet. */
  method Disambiguate(left: seq<Term>, right: seq<Term>) returns (result: seq<Term>)
    requires AllFields(left) && AllFields(right)
    ensures result == Disambiguated(left, right)
    ensures result == left + FirstSeen(left, right, |right|)
  {
    DisambiguatedFirstSeen(left, right);
    result := left;
    var keys := Names(left);
    for i := 0 to |right|
      invariant AllFields(result)
      invariant keys == Names(result)
      invariant Disambiguated(result, right[i..]) == Disambiguated(left, right)
    {
      assert right[i..][1..] == right[i + 1..];
      if right[i].name !in keys {
        result := result + [right[i]];
        keys := keys + [right[i].name];
      }
    }
  }

  /** Every field kept so far stays, in place. */
  lemma {:induction false} DisambiguatedPrefix(result: seq<Term>, right: seq<Term>)
    requires AllFields(result) && AllFields(right)
    ensures |result| <= |Disambiguated(result, right)|
    ensures Disambiguated(result, right)[..|result|] == result
    decreases |right|
  {
    if right != [] {
      if right[0].name in Names(result) {
        DisambiguatedPrefix(result, right[1..]);
      } else {
        var next := result + [right[0]];
        DisambiguatedPrefix(next, right[1..]);
        var r := Disambiguated(result, right);
        assert r[..|result|] == r[..|next|][..|result|];
      }
    }
  }

  /** A field is added only from the right and only under a name not seen
      before it, so no name is added twice. */
  lemma {:induction false} DisambiguatedAdds(result: seq<Term>, right: seq<Term>)
    requires AllFields(result) && AllFields(right)
    ensures AddedFresh(|result|, Disambiguated(result, right), right)
    decreases |right|
  {
    if right != [] {
      var f := right[0];
      var r := Disambiguated(result, right);
      if f.name in Names(result) {
        DisambiguatedAdds(result, right[1..]);
        forall i | |result| <= i < |r| ensures r[i] in right {
          assert r[i] in right[1..];
        }
      } else {
        var next := result + [f];
        DisambiguatedAdds(next, right[1..]);
        DisambiguatedPrefix(next, right[1..]);
        assert r[..|result|] == r[..|next|][..|result|] == result;
        assert r[|result|] == r[..|next|][|result|] == f;
      }
    }
  }

  /** From position `n` on, each field of `r` comes from `right` and carries a
      name not seen before it. */
  predicate AddedFresh(n: nat, r: seq<Term>, right: seq<Term>)
    requires AllFields(r)
  {
    forall i :: n <= i < |r| ==> r[i] in right && r[i].name !in Names(r[..i])
  }

  /** Every right field's name ends up present, and every left field keeps
      its name in its place. */
  lemma {:induction false} DisambiguatedCovers(result: seq<Term>, right: seq<Term>)
    requires AllFields(result) && AllFields(right)
    ensures forall g <- right :: g.name in Names(Disambiguated(result, right))
    decreases |right|
  {
    if right != [] {
      var f := right[0];
      var r := Disambiguated(result, right);
      if f.name in Names(result) {
        DisambiguatedCovers(result, right[1..]);
        DisambiguatedPrefix(result, right[1..]);
        var k :| 0 <= k < |result| && Names(result)[k] == f.name;
        assert r[k] == r[..|result|][k] == result[k];
        assert Names(r)[k] == f.name;
      } else {
        var next := result + [f];
        DisambiguatedCovers(next, right[1..]);
        DisambiguatedPrefix(next, right[1..]);
        assert r[|result|] == r[..|next|][|result|] == f;
        assert Names(r)[|result|] == f.name;
      }
    }
  }

  /** `right[j]` is the first field of `right` under its name, and no kept
      field has that name. */
  predicate FirstOfName(result: seq<Term>, right: seq<Term>, j: nat)
    requires AllFields(result) && AllFields(right)
  {
    j < |right| && right[j].name !in Names(result)
    && forall k :: 0 <= k < j ==> right[k].name != right[j].name
  }

  /** The first-of-name fields among the first `n` of `right`, in the order
      of `right`. */
  function FirstSeen(result: seq<Term>, right: seq<Term>, n: nat): (r: seq<Term>)
    requires AllFields(result) && AllFields(right) && n <= |right|
    ensures AllFields(r)
  {
    if n == 0 then []
    else FirstSeen(result, right, n - 1) + (if FirstOfName(result, right, n - 1) then [right[n - 1]] else [])
  }

  /** First seen wins: the result is the left fields followed by exactly the
      right fields that are the first under a name the left does not have,
      in their order on the right. */
  lemma DisambiguatedFirstSeen(result: seq<Term>, right: seq<Term>)
    requires AllFields(result) && AllFields(right)
    ensures Disambiguated(result, right) == result + FirstSeen(result, right, |right|)
  {
    DisambiguatedUpTo(result, right, |right|);
    assert right[|right|..] == [];
  }

  lemma {:induction false} DisambiguatedUpTo(result: seq<Term>, right: seq<Term>, n: nat)
    requires AllFields(result) && AllFields(right) && n <= |right|
    ensures AllFields(result + FirstSeen(result, right, n))
    ensures Disambiguated(result, right) == Disambiguated(result + FirstSeen(result, right, n), right[n..])
  {
    if n == 0 {
      assert result + FirstSeen(result, right, 0) == result;
    } else {
      DisambiguatedUpTo(result, right, n - 1);
      DisambiguatedStep(result, right, n - 1);
    }
  }

  /** One more right field: kept exactly when it is the first of its name. */
  lemma DisambiguatedStep(result: seq<Term>, right: seq<Term>, j: nat)
    requires AllFields(result) && AllFields(right) && j < |right|
    ensures AllFields(result + FirstSeen(result, right, j + 1))
    ensures Disambiguated(result + FirstSeen(result, right, j), right[j..])
         == Disambiguated(result + FirstSeen(result, right, j + 1), right[j + 1..])
  {
    var seen := FirstSeen(result, right, j);
    var acc := result + seen;
    var f := right[j];
    assert right[j..][0] == f && right[j..][1..] == right[j + 1..];
    FirstOfNameIff(result, right, j);
    if f.name in Names(acc) {
      assert FirstSeen(result, right, j + 1) == seen;
    } else {
      assert FirstSeen(result, right, j + 1) == seen + [f];
      assert acc + [f] == result + (seen + [f]);
    }
  }

  /** A right field is the first of its name exactly when no field kept
      before it has that name. */
  lemma FirstOfNameIff(result: seq<Term>, right: seq<Term>, n: nat)
    requires AllFields(result) && AllFields(right) && n < |right|
    ensures AllFields(result + FirstSeen(result, right, n))
    ensures FirstOfName(result, right, n) <==> right[n].name !in Names(result + FirstSeen(result, right, n))
  {
    SeenNames(result, right, n);
    var x := right[n].name;
    var earlier := Names(right[..n]);
    if x in earlier {
      var i :| 0 <= i < |earlier| && earlier[i] == x;
      assert right[..n][i] == right[i];
    } else {
      forall k | 0 <= k < n ensures right[k].name != x {
        assert earlier[k] == right[..n][k].name == right[k].name;
      }
    }
  }

  /** The names kept after `n` right fields: the left names and the names of
      those `n` fields. */
  lemma {:induction false} SeenNames(result: seq<Term>, right: seq<Term>, n: nat)
    requires AllFields(result) && AllFields(right) && n <= |right|
    ensures AllFields(result + FirstSeen(result, right, n))
    ensures forall x :: x in Names(result + FirstSeen(result, right, n))
                        <==> x in Names(result) || x in Names(right[..n])
  {
    var seen := FirstSeen(result, right, n);
    NamesConcat(result, seen);
    if n > 0 {
      SeenNames(result, right, n - 1);
      var prev := FirstSeen(result, right, n - 1);
      var f := right[n - 1];
      NamesConcat(result, prev);
      assert right[..n] == right[..n - 1] + [f];
      NamesConcat(right[..n - 1], [f]);
      if FirstOfName(result, right, n - 1) {
        assert seen == prev + [f];
        NamesConcat(prev, [f]);
      } else {
        assert seen == prev;
        FirstOfNameNot(result, right, n - 1);
      }
    }
  }

  /** A right field that is not the first of its name has a name the left or
      an earlier right field already has. */
  lemma FirstOfNameNot(result: seq<Term>, right: seq<Term>, j: nat)
    requires AllFields(result) && AllFields(right) && j < |right|
    requires !FirstOfName(result, right, j)
    ensures right[j].name in Names(result) || right[j].name in Names(right[..j])
  {
    if right[j].name !in Names(result) {
      var k :| 0 <= k < j && right[k].name == right[j].name;
      assert Names(right[..j])[k] == right[j].name;
    }
  }

  lemma NamesConcat(a: seq<Term>, b: seq<Term>)
    requires AllFields(a) && AllFields(b)
    ensures AllFields(a + b)
    ensures Names(a + b) == Names(a) + Names(b)
  {
    assert forall i :: 0 <= i < |a + b| ==> Names(a + b)[i] == (Names(a) + Names(b))[i];
  }

  /** Two right fields under one new name: the first one is kept. */
  lemma FirstFieldKept(a: Frame, b: Frame)
    ensures Disambiguated([], [Field("x", a), Field("x", b)]) == [Field("x", a)]
  {
    var none: seq<Term> := [];
    var kept, right := [Field("x", a)], [Field("x", a), Field("x", b)];
    assert right[1..] == [Field("x", b)] && right[1..][1..] == none;
    assert Names(kept) == ["x"];
    assert Disambiguated(kept, right[1..]) == Disambiguated(kept, none) == kept;
    assert none + [right[0]] == kept;
  }

  /** The two frames of the left-join example: `id`, `name` on the left and
      `id`, `role` on the right give `id`, `name`, `role`, with the left `id`. */
  lemma DisambiguateExample(l: Frame, r: Frame)
    ensures Disambiguated([Field("id", l), Field("name", l)], [Field("id", r), Field("role", r)])
         == [Field("id", l), Field("name", l), Field("role", r)]
  {
    var left := [Field("id", l), Field("name", l)];
    var role := Field("role", r);
    var right := [Field("id", r), role];
    assert Names(left) == ["id", "name"];
    assert right[1..] == [role];
    assert Disambiguated(left, right) == Disambiguated(left, [role]);
    assert "role" !in Names(left);
    assert Disambiguated(left, [role]) == Disambiguated(left + [role], []);
  }

  // ---------------------------------------------------------------------
  // The select list

  /** A frame's columns as fields of that frame. */
  function ColumnFields(table: Frame, cols: seq<string>): (r: seq<Term>)
    ensures AllFields(r) && |r| == |cols|
    ensures forall i :: 0 <= i < |cols| ==> r[i] == Field(cols[i], table)
  {
    seq(|cols|, i requires 0 <= i < |cols| => Field(cols[i], table))
  }

  /** The columns of every joined frame, join by join. */
  function JoinFields(joins: seq<JoinDefinition>, columns: Frame -> seq<string>): (r: seq<Term>)
    ensures AllFields(r)
  {
    if joins == [] then []
    else ColumnFields(joins[0].source, columns(joins[0].source)) + JoinFields(joins[1..], columns)
  }

  /** `_infer_selectors`: the source's columns, then the joined frames' columns
      under names not seen yet. */
  function InferredSelectors(source: Frame, joins: seq<JoinDefinition>, columns: Frame -> seq<string>): (r: seq<Term>)
    ensures AllFields(r)
  {
    Disambiguated(ColumnFields(source, columns(source)), JoinFields(joins, columns))
  }

  /** The terms of the select list, each with its alias. */
  function SelectTerms(source: Frame, a: Accumulated, d: Dialect, columns: Frame -> seq<string>): seq<string> {
    if a.groupby != [] then RenderAll(a.groupby, d, true) + RenderAll(a.aggs, d, true)
    else if a.selectors != [] then RenderAll(a.selectors, d, true)
    else if a.joins != [] then RenderAll(InferredSelectors(source, a.joins, columns), d, true)
    else []
  }

  /** `get_select_term`. */
  function SelectTerm(source: Frame, a: Accumulated, d: Dialect, columns: Frame -> seq<string>): string {
    var terms := SelectTerms(source, a, d, columns);
    if terms == [] then "*" else Join(",\n", terms)
  }

  /** A grouping fixes the select list: the selectors and the joins then do
      not matter, and every key and aggregate is listed. */
  lemma GroupbyFixesSelect(source: Frame, a: Accumulated, b: Accumulated, d: Dialect, columns: Frame -> seq<string>)
    requires a.groupby != [] && b.groupby == a.groupby && b.aggs == a.aggs
    ensures SelectTerm(source, a, d, columns) == SelectTerm(source, b, d, columns)
    ensures forall i :: 0 <= i < |a.groupby| ==> Occurs(SelectTerm(source, a, d, columns), d.render(a.groupby[i], true))
    ensures forall i :: 0 <= i < |a.aggs| ==> Occurs(SelectTerm(source, a, d, columns), d.render(a.aggs[i], true))
  {
    var terms := SelectTerms(source, a, d, columns);
    forall i | 0 <= i < |a.groupby| ensures Occurs(SelectTerm(source, a, d, columns), d.render(a.groupby[i], true)) {
      JoinOccurs(",\n", terms, i);
    }
    forall i | 0 <= i < |a.aggs| ensures Occurs(SelectTerm(source, a, d, columns), d.render(a.aggs[i], true)) {
      JoinOccurs(",\n", terms, |a.groupby| + i);
    }
  }

  /** Without a grouping, selectors fix the select list: the joins then do not
      matter, and every selector is listed. */
  lemma SelectorsFixSelect(source: Frame, a: Accumulated, b: Accumulated, d: Dialect, columns: Frame -> seq<string>)
    requires a.groupby == [] && b.groupby == [] && a.selectors != [] && b.selectors == a.selectors
    ensures SelectTerm(source, a, d, columns) == SelectTerm(source, b, d, columns)
    ensures forall i :: 0 <= i < |a.selectors| ==> Occurs(SelectTerm(source, a, d, columns), d.render(a.selectors[i], true))
  {
    var terms := SelectTerms(source, a, d, columns);
    forall i | 0 <= i < |a.selectors| ensures Occurs(SelectTerm(source, a, d, columns), d.render(a.selectors[i], true)) {
      JoinOccurs(",\n", terms, i);
    }
  }

  /** With neither grouping, selectors nor joins, everything is selected. */
  lemma StarWithoutColumns(source: Frame, a: Accumulated, d: Dialect, columns: Frame -> seq<string>)
    requires a.groupby == [] && a.selectors == [] && a.joins == []
    ensures SelectTerm(source, a, d, columns) == "*"
  {
  }

  /** With joins alone, the inferred fields are listed, the source's first. */
  lemma JoinsInferSelect(source: Frame, a: Accumulated, d: Dialect, columns: Frame -> seq<string>)
    requires a.groupby == [] && a.selectors == [] && a.joins != []
    ensures var cols := columns(source);
            forall i :: 0 <= i < |cols| ==> Occurs(SelectTerm(source, a, d, columns), d.render(Field(cols[i], source), true))
  {
    var left := ColumnFields(source, columns(source));
    var inferred := InferredSelectors(source, a.joins, columns);
    DisambiguatedPrefix(left, JoinFields(a.joins, columns));
    var terms := SelectTerms(source, a, d, columns);
    forall i | 0 <= i < |columns(source)|
      ensures Occurs(SelectTerm(source, a, d, columns), d.render(Field(columns(source)[i], source), true))
    {
      assert inferred[i] == inferred[..|left|][i] == left[i];
      JoinOccurs(",\n", terms, i);
    }
  }

  // ---------------------------------------------------------------------
  // Joins

  predicate KnownKind(kind: string) {
    kind == "ON" || kind == "USING"
  }

  /** `create_join_term`: the join keyword, the joined frame's reference, and
      the predicates, AND-ed for ON and comma-separated for USING. */
  function JoinTerm(j: JoinDefinition, d: Dialect): (r: Result<string>)
    ensures r.Ok? <==> KnownKind(j.joinTermsType)
    ensures r.Err? ==> r.error == UnknownJoinKind(j.joinTermsType)
  {
    var terms := RenderAll(j.joinTerms, d, false);
    if j.joinTermsType == "ON" then
      Ok(j.joinType + " " + d.methodRef(j.source) + " ON\n" + Indent(Join("AND\n", terms), TAB))
    else if j.joinTermsType == "USING" then
      Ok(j.joinType + " " + d.methodRef(j.source) + " USING\n(" + Indent(Join(",", terms), TAB) + ")")
    else Err(UnknownJoinKind(j.joinTermsType))
  }

  /** `get_join_terms`: one text per join, in order; the first join of an
      unknown kind aborts. */
  function JoinTerms(joins: seq<JoinDefinition>, d: Dialect): (r: Result<seq<string>>)
    ensures r.Ok? <==> forall j <- joins :: KnownKind(j.joinTermsType)
    ensures r.Ok? ==> |r.value| == |joins| && forall i :: 0 <= i < |joins| ==> r.value[i] == JoinTerm(joins[i], d).value
    ensures r.Err? ==> exists i :: 0 <= i < |joins| && r.error == UnknownJoinKind(joins[i].joinTermsType)
                                 && !KnownKind(joins[i].joinTermsType)
                                 && forall k :: 0 <= k < i ==> KnownKind(joins[k].joinTermsType)
  {
    if joins == [] then Ok([])
    else
      var h := JoinTerm(joins[0], d);
      if h.Err? then Err(h.error)
      else
        var rest := JoinTerms(joins[1..], d);
        if rest.Err? then
          assert forall k :: 1 <= k < |joins| ==> joins[k] == joins[1..][k - 1];
          Err(rest.error)
        else Ok([h.value] + rest.value)
  }

  /** One ON predicate that fits on a line is written on the line after the
      join, behind one tab. */
  lemma OnOnePredicate(other: Frame, joinType: string, p: Term, d: Dialect)
    requires OneLine(d.render(p, false))
    ensures JoinTerm(JoinDefinition(other, joinType, [p], "ON"), d)
         == Ok(joinType + " " + d.methodRef(other) + " ON\n" + TAB + d.render(p, false))
  {
    assert RenderAll([p], d, false) == [d.render(p, false)];
    assert Join("AND\n", [d.render(p, false)]) == d.render(p, false);
    IndentOneLine(d.render(p, false), TAB);
    var head := joinType + " " + d.methodRef(other) + " ON\n";
    assert head + (TAB + d.render(p, false)) == head + TAB + d.render(p, false);
  }

  // ---------------------------------------------------------------------
  // The other clauses

  function WhereTerm(a: Accumulated, d: Dialect): Option<string> {
    if a.filters != [] then Some(Join("\nAND ", RenderAll(a.filters, d, false))) else None
  }

  function GroupbyTerm(a: Accumulated, d: Dialect): Option<string> {
    if a.groupby != [] then Some(Join(",\n", RenderAll(a.groupby, d, false))) else None
  }

  /** Each ordering key followed by its direction. */
  function OrderItems(orderby: seq<(Term, string)>, d: Dialect): (r: seq<string>)
    ensures |r| == |orderby|
    ensures forall i :: 0 <= i < |orderby| ==> r[i] == d.render(orderby[i].0, false) + " " + orderby[i].1
  {
    if orderby == [] then []
    else [d.render(orderby[0].0, false) + " " + orderby[0].1] + OrderItems(orderby[1..], d)
  }

  function OrderbyTerm(a: Accumulated, d: Dialect): Option<string> {
    if a.orderby != [] then Some(Join("\n, ", OrderItems(a.orderby, d))) else None
  }

  function QualifyTerm(a: Accumulated, d: Dialect): Option<string> {
    if a.qualify.Some? then Some(d.render(a.qualify.value, false)) else None
  }

  /** A clause keyword with its indented body, or nothing for an absent or
      empty body. */
  function Section(keyword: string, body: Option<string>): string {
    if body.Some? && body.value != "" then keyword + "\n" + Indent(body.value, TAB) else ""
  }

  function LimitSection(limit: Option<int>): string {
    if limit.Some? then "LIMIT " + IntToString(limit.value) else ""
  }

  function SelectSection(source: Frame, a: Accumulated, d: Dialect, columns: Frame -> seq<string>): string {
    "SELECT\n" + Indent(SelectTerm(source, a, d, columns), TAB)
  }

  /** The seven clauses before LIMIT, in their fixed order; the first two are
      never empty. */
  function Clauses(source: Frame, a: Accumulated, d: Dialect, columns: Frame -> seq<string>, joinTerms: seq<string>): (r: seq<string>)
    ensures |r| == 7 && r[0] != "" && r[1] != ""
  {
    [ SelectSection(source, a, d, columns),
      "FROM " + d.methodRef(source),
      if |joinTerms| > 0 then Join("\n", joinTerms) else "",
      Section("WHERE", WhereTerm(a, d)),
      Section("GROUP BY", GroupbyTerm(a, d)),
      Section("ORDER BY", OrderbyTerm(a, d)),
      Section("QUALIFY", QualifyTerm(a, d)) ]
  }

  /** The eight candidate parts of the statement. */
  function Segments(source: Frame, a: Accumulated, d: Dialect, columns: Frame -> seq<string>, joinTerms: seq<string>): (r: seq<string>)
    ensures |r| == 8 && r[0] != "" && r[1] != ""
  {
    Clauses(source, a, d, columns, joinTerms) + [LimitSection(a.limit)]
  }

  /** The non-empty parts, in order. */
  function NonEmpty(parts: seq<string>): seq<string>
  {
    if parts == [] then []
    else if parts[0] == "" then NonEmpty(parts[1..])
    else [parts[0]] + NonEmpty(parts[1..])
  }

  /** Exactly the non-empty parts are kept. */
  lemma {:induction false} NonEmptyKeeps(parts: seq<string>)
    ensures forall s <- NonEmpty(parts) :: s != "" && s in parts
    ensures forall s <- parts :: s != "" ==> s in NonEmpty(parts)
  {
    if parts != [] {
      NonEmptyKeeps(parts[1..]);
    }
  }

  lemma {:induction false} NonEmptySnoc(parts: seq<string>, x: string)
    ensures NonEmpty(parts + [x]) == NonEmpty(parts) + (if x == "" then [] else [x])
  {
    if parts == [] {
      assert NonEmpty([x]) == (if x == "" then [] else [x]) + NonEmpty([]);
    } else {
      assert (parts + [x])[1..] == parts[1..] + [x];
      NonEmptySnoc(parts[1..], x);
    }
  }

  lemma {:induction false} NonEmptyCons(x: string, rest: seq<string>)
    ensures NonEmpty([x] + rest) == (if x == "" then [] else [x]) + NonEmpty(rest)
  {
    assert ([x] + rest)[1..] == rest;
  }

  /** A part added at the end after a non-empty first part lands after one
      more newline, or not at all when it is empty. */
  lemma LastPart(parts: seq<string>, x: string)
    requires parts != [] && parts[0] != ""
    ensures Assemble(parts, x) == Assemble(parts, "") + (if x == "" then "" else "\n" + x)
  {
    NonEmptySnoc(parts, x);
    NonEmptySnoc(parts, "");
    var kept := NonEmpty(parts);
    NonEmptyKeeps(parts);
    assert parts[0] in kept;
    assert kept + [] == kept;
    JoinSnoc("\n", kept, x);
  }

  /** Empty parts at the end change nothing. */
  lemma {:induction false} BlankTail(parts: seq<string>, k: nat)
    requires k <= |parts|
    requires forall i :: k <= i < |parts| ==> parts[i] == ""
    ensures NonEmpty(parts) == NonEmpty(parts[..k])
  {
    if parts != [] {
      if k == 0 {
        BlankTail(parts[1..], 0);
      } else {
        assert parts[..k][1..] == parts[1..][..k - 1];
        BlankTail(parts[1..], k - 1);
      }
    }
  }

  lemma {:induction false} NonEmptyAppend(xs: seq<string>, ys: seq<string>)
    ensures NonEmpty(xs + ys) == NonEmpty(xs) + NonEmpty(ys)
  {
    if xs != [] {
      assert (xs + ys)[1..] == xs[1..] + ys;
      NonEmptyAppend(xs[1..], ys);
    } else {
      assert xs + ys == ys;
    }
  }

  /** Kept parts in front of another: their lines and a newline, or nothing. */
  function Before(kept: seq<string>): string {
    if kept == [] then "" else Join("\n", kept) + "\n"
  }

  /** Kept parts after another: a newline and their lines, or nothing. */
  function After(kept: seq<string>): string {
    if kept == [] then "" else "\n" + Join("\n", kept)
  }

  lemma JoinAfterKept(kept: seq<string>, ys: seq<string>)
    requires ys != []
    ensures Join("\n", kept + ys) == Before(kept) + Join("\n", ys)
  {
    if kept == [] {
      assert kept + ys == ys;
    } else {
      JoinAppend("\n", kept, ys);
    }
  }

  lemma JoinFront(x: string, rest: seq<string>)
    ensures Join("\n", [x] + rest) == x + After(rest)
  {
    if rest != [] {
      assert ([x] + rest)[1..] == rest;
    }
  }

  /** Two non-empty parts keep their order in the joined statement, one line
      break apart: what comes before, between and after them is the kept
      parts there, each on its own line. */
  lemma PartsInOrder(parts: seq<string>, i: nat, j: nat)
    requires i < j < |parts| && parts[i] != "" && parts[j] != ""
    ensures Join("\n", NonEmpty(parts))
         == Before(NonEmpty(parts[..i])) + parts[i] + "\n" + Before(NonEmpty(parts[i + 1..j]))
            + parts[j] + After(NonEmpty(parts[j + 1..]))
  {
    KeptAround(parts, i, j);
    JoinAround(NonEmpty(parts[..i]), parts[i], NonEmpty(parts[i + 1..j]), parts[j], NonEmpty(parts[j + 1..]));
  }

  lemma KeptAround(parts: seq<string>, i: nat, j: nat)
    requires i < j < |parts| && parts[i] != "" && parts[j] != ""
    ensures NonEmpty(parts)
         == NonEmpty(parts[..i]) + ([parts[i]] + (NonEmpty(parts[i + 1..j]) + ([parts[j]] + NonEmpty(parts[j + 1..]))))
  {
    assert parts[j..] == [parts[j]] + parts[j + 1..];
    assert parts[i + 1..] == parts[i + 1..j] + parts[j..];
    assert parts[i..] == [parts[i]] + parts[i + 1..];
    assert parts == parts[..i] + parts[i..];
    KeptFive(parts[..i], parts[i], parts[i + 1..j], parts[j], parts[j + 1..]);
  }

  lemma KeptFive(xs: seq<string>, x: string, ys: seq<string>, y: string, zs: seq<string>)
    requires x != "" && y != ""
    ensures NonEmpty(xs + ([x] + (ys + ([y] + zs))))
         == NonEmpty(xs) + ([x] + (NonEmpty(ys) + ([y] + NonEmpty(zs))))
  {
    NonEmptyAppend(xs, [x] + (ys + ([y] + zs)));
    NonEmptyCons(x, ys + ([y] + zs));
    NonEmptyAppend(ys, [y] + zs);
    NonEmptyCons(y, zs);
  }

  lemma JoinAround(xs: seq<string>, x: string, ys: seq<string>, y: string, zs: seq<string>)
    ensures Join("\n", xs + ([x] + (ys + ([y] + zs))))
         == Before(xs) + x + "\n" + Before(ys) + y + After(zs)
  {
    var tail := ys + ([y] + zs);
    var inner := Join("\n", tail);
    JoinAfterKept(xs, [x] + tail);
    JoinFront(x, tail);
    assert Join("\n", xs + ([x] + tail)) == Before(xs) + (x + ("\n" + inner));
    JoinAfterKept(ys, [y] + zs);
    JoinFront(y, zs);
    assert inner == Before(ys) + (y + After(zs));
    Regroup(Before(xs), x, Before(ys), y, After(zs));
  }

  lemma Regroup(a: string, b: string, c: string, d: string, e: string)
    ensures a + (b + ("\n" + (c + (d + e)))) == a + b + "\n" + c + d + e
  {
  }

  /** The non-empty parts among a SELECT, a FROM and a WHERE part. */
  lemma ThreeParts(parts: seq<string>)
    requires |parts| == 8 && parts[0] != "" && parts[1] != "" && parts[2] == ""
    requires forall i :: 4 <= i < 8 ==> parts[i] == ""
    ensures Join("\n", NonEmpty(parts))
         == parts[0] + "\n" + parts[1] + (if parts[3] == "" then "" else "\n" + parts[3])
  {
    BlankTail(parts, 4);
    var q3: seq<string> := [parts[3]];
    var q2 := [""] + q3;
    var q1 := [parts[1]] + q2;
    assert parts[..4] == [parts[0]] + q1;
    NonEmptyCons(parts[3], []);
    assert q3 == [parts[3]] + [];
    NonEmptyCons("", q3);
    NonEmptyCons(parts[1], q2);
    NonEmptyCons(parts[0], q1);
    var kept := NonEmpty(parts[..4]);
    if parts[3] == "" {
      assert kept == [parts[0], parts[1]];
    } else {
      assert kept == [parts[0], parts[1], parts[3]];
      assert kept[1..] == [parts[1], parts[3]];
      assert kept[1..][1..] == [parts[3]];
      assert Join("\n", kept[1..]) == parts[1] + "\n" + parts[3];
      assert Join("\n", kept) == parts[0] + "\n" + (parts[1] + "\n" + parts[3]);
    }
  }

  /** The clauses and the LIMIT part that are not empty, joined by newlines. */
  function Assemble(clauses: seq<string>, limit: string): string {
    Join("\n", NonEmpty(clauses + [limit]))
  }

  /** `get_sql`: the non-empty parts joined by newlines. `d` is the printing
      in effect, which `GetSql` gives the session's defaults. */
  function RenderSql(source: Frame, a: Accumulated, d: Dialect, columns: Frame -> seq<string>): (r: Result<string>)
    ensures r.Ok? <==> forall j <- a.joins :: KnownKind(j.joinTermsType)
  {
    var joinTerms := JoinTerms(a.joins, d);
    if joinTerms.Err? then Err(joinTerms.error)
    else Ok(Assemble(Clauses(source, a, d, columns, joinTerms.value), LimitSection(a.limit)))
  }

  /** A join of an unknown predicate kind makes `get_sql` fail, naming the
      first such kind. */
  lemma UnknownJoinFails(source: Frame, a: Accumulated, d: Dialect, columns: Frame -> seq<string>, i: nat)
    requires i < |a.joins| && !KnownKind(a.joins[i].joinTermsType)
    requires forall k :: 0 <= k < i ==> KnownKind(a.joins[k].joinTermsType)
    ensures RenderSql(source, a, d, columns) == Err(UnknownJoinKind(a.joins[i].joinTermsType))
  {
    FirstUnknownJoin(a.joins, d, i);
  }

  lemma {:induction false} FirstUnknownJoin(joins: seq<JoinDefinition>, d: Dialect, i: nat)
    requires i < |joins| && !KnownKind(joins[i].joinTermsType)
    requires forall k :: 0 <= k < i ==> KnownKind(joins[k].joinTermsType)
    ensures JoinTerms(joins, d) == Err(UnknownJoinKind(joins[i].joinTermsType))
  {
    if i > 0 {
      assert KnownKind(joins[0].joinTermsType);
      assert joins[1..][i - 1] == joins[i];
      FirstUnknownJoin(joins[1..], d, i - 1);
    }
  }

  /** The LIMIT clause comes last, whenever there is a limit, zero included:
      the statement is the one without a limit followed by `LIMIT n`. */
  lemma LimitLast(source: Frame, a: Accumulated, d: Dialect, columns: Frame -> seq<string>)
    ensures RenderSql(source, a, d, columns).Ok? == RenderSql(source, a.(limit := None), d, columns).Ok?
    ensures RenderSql(source, a, d, columns).Ok? ==>
              RenderSql(source, a, d, columns).value
              == RenderSql(source, a.(limit := None), d, columns).value
                 + (if a.limit.Some? then "\nLIMIT " + IntToString(a.limit.value) else "")
  {
    var jt := JoinTerms(a.joins, d);
    if jt.Ok? {
      var c := Clauses(source, a, d, columns, jt.value);
      WithoutLimit(source, a, d, columns);
      WithLimit(source, a, d, columns);
      LastPart(c, LimitSection(a.limit));
      if a.limit.Some? {
        LimitText(a.limit.value);
      }
    } else {
      assert a.(limit := None).joins == a.joins;
    }
  }

  lemma LimitText(n: int)
    ensures LimitSection(Some(n)) != ""
    ensures "\n" + LimitSection(Some(n)) == "\nLIMIT " + IntToString(n)
  {
  }

  lemma WithLimit(source: Frame, a: Accumulated, d: Dialect, columns: Frame -> seq<string>)
    requires JoinTerms(a.joins, d).Ok?
    ensures RenderSql(source, a, d, columns)
         == Ok(Assemble(Clauses(source, a, d, columns, JoinTerms(a.joins, d).value), LimitSection(a.limit)))
  {
  }

  lemma WithoutLimit(source: Frame, a: Accumulated, d: Dialect, columns: Frame -> seq<string>)
    requires JoinTerms(a.joins, d).Ok?
    ensures RenderSql(source, a.(limit := None), d, columns)
         == Ok(Assemble(Clauses(source, a, d, columns, JoinTerms(a.joins, d).value), ""))
  {
    ClausesIgnoreLimit(source, a, d, columns, JoinTerms(a.joins, d).value);
  }

  lemma ClausesIgnoreLimit(source: Frame, a: Accumulated, d: Dialect, columns: Frame -> seq<string>, jt: seq<string>)
    ensures Clauses(source, a.(limit := None), d, columns, jt) == Clauses(source, a, d, columns, jt)
  {
    var b := a.(limit := None);
    assert SelectTerms(source, b, d, columns) == SelectTerms(source, a, d, columns);
    assert WhereTerm(b, d) == WhereTerm(a, d);
    assert GroupbyTerm(b, d) == GroupbyTerm(a, d);
    assert OrderbyTerm(b, d) == OrderbyTerm(a, d);
    assert QualifyTerm(b, d) == QualifyTerm(a, d);
  }

  /** Every part that is not empty is in the statement. */
  lemma PartsPresent(source: Frame, a: Accumulated, d: Dialect, columns: Frame -> seq<string>, i: nat)
    requires RenderSql(source, a, d, columns).Ok?
    requires i < 8
    ensures var parts := Segments(source, a, d, columns, JoinTerms(a.joins, d).value);
            parts[i] != "" ==> Occurs(RenderSql(source, a, d, columns).value, parts[i])
  {
    var parts := Segments(source, a, d, columns, JoinTerms(a.joins, d).value);
    if parts[i] != "" {
      var kept := NonEmpty(parts);
      NonEmptyKeeps(parts);
      assert parts[i] in parts;
      var k :| 0 <= k < |kept| && kept[k] == parts[i];
      JoinOccurs("\n", kept, k);
    }
  }

  /** The clauses come in their fixed order: SELECT, FROM, the joins, WHERE,
      GROUP BY, ORDER BY, QUALIFY, LIMIT. Of any two parts that are present,
      the earlier one's text comes first, a line break follows it, and in
      between are exactly the parts present between them. */
  lemma ClauseOrder(source: Frame, a: Accumulated, d: Dialect, columns: Frame -> seq<string>, i: nat, j: nat)
    requires RenderSql(source, a, d, columns).Ok?
    requires i < j < 8
    ensures var parts := Segments(source, a, d, columns, JoinTerms(a.joins, d).value);
            parts[i] != "" && parts[j] != "" ==>
              RenderSql(source, a, d, columns).value
              == Before(NonEmpty(parts[..i])) + parts[i] + "\n" + Before(NonEmpty(parts[i + 1..j]))
                 + parts[j] + After(NonEmpty(parts[j + 1..]))
  {
    var parts := Segments(source, a, d, columns, JoinTerms(a.joins, d).value);
    if parts[i] != "" && parts[j] != "" {
      PartsInOrder(parts, i, j);
    }
  }

  /** With every clause present, the statement in full. */
  lemma FullStatement(source: Frame, a: Accumulated, d: Dialect, columns: Frame -> seq<string>)
    requires RenderSql(source, a, d, columns).Ok?
    requires forall k :: 0 <= k < 8 ==> Segments(source, a, d, columns, JoinTerms(a.joins, d).value)[k] != ""
    ensures a.filters != [] && a.groupby != [] && a.orderby != [] && a.qualify.Some? && a.limit.Some?
    ensures RenderSql(source, a, d, columns).value
         == SelectSection(source, a, d, columns) + "\nFROM " + d.methodRef(source)
            + "\n" + Join("\n", JoinTerms(a.joins, d).value)
            + "\nWHERE\n" + Indent(WhereTerm(a, d).value, TAB)
            + "\nGROUP BY\n" + Indent(GroupbyTerm(a, d).value, TAB)
            + "\nORDER BY\n" + Indent(OrderbyTerm(a, d).value, TAB)
            + "\nQUALIFY\n" + Indent(QualifyTerm(a, d).value, TAB)
            + "\nLIMIT " + IntToString(a.limit.value)
  {
    var jt := JoinTerms(a.joins, d).value;
    var p := Segments(source, a, d, columns, jt);
    assert p[3] != "" && p[4] != "" && p[5] != "" && p[6] != "" && p[7] != "";
    WithLimit(source, a, d, columns);
    assert RenderSql(source, a, d, columns).value == Join("\n", NonEmpty(p));
    NonEmptyAll(p);
    JoinEight(p);
    EightLines(p, SelectSection(source, a, d, columns), d.methodRef(source), Join("\n", jt),
               Indent(WhereTerm(a, d).value, TAB), Indent(GroupbyTerm(a, d).value, TAB),
               Indent(OrderbyTerm(a, d).value, TAB), Indent(QualifyTerm(a, d).value, TAB),
               IntToString(a.limit.value));
  }

  lemma EightLines(p: seq<string>, sel: string, m: string, jn: string, w: string, g: string, o: string,
                   q: string, n: string)
    requires |p| == 8 && p[0] == sel && p[1] == "FROM " + m && p[2] == jn
    requires p[3] == "WHERE" + "\n" + w && p[4] == "GROUP BY" + "\n" + g
    requires p[5] == "ORDER BY" + "\n" + o && p[6] == "QUALIFY" + "\n" + q && p[7] == "LIMIT " + n
    ensures p[0] + "\n" + p[1] + "\n" + p[2] + "\n" + p[3] + "\n" + p[4] + "\n" + p[5] + "\n" + p[6] + "\n" + p[7]
         == sel + "\nFROM " + m + "\n" + jn + "\nWHERE\n" + w + "\nGROUP BY\n" + g + "\nORDER BY\n" + o
            + "\nQUALIFY\n" + q + "\nLIMIT " + n
  {
    var s1 := sel + "\nFROM " + m;
    Glue(sel, "FROM ", m, "\nFROM ");
    var s2 := s1 + "\n" + jn;
    var s3 := s2 + "\nWHERE\n" + w;
    Glue(s2, "WHERE" + "\n", w, "\nWHERE\n");
    var s4 := s3 + "\nGROUP BY\n" + g;
    Glue(s3, "GROUP BY" + "\n", g, "\nGROUP BY\n");
    var s5 := s4 + "\nORDER BY\n" + o;
    Glue(s4, "ORDER BY" + "\n", o, "\nORDER BY\n");
    var s6 := s5 + "\nQUALIFY\n" + q;
    Glue(s5, "QUALIFY" + "\n", q, "\nQUALIFY\n");
    Glue(s6, "LIMIT ", n, "\nLIMIT ");
  }

  lemma Glue(s: string, head: string, body: string, glued: string)
    requires glued == "\n" + head
    ensures s + "\n" + (head + body) == s + glued + body
  {
  }

  lemma {:induction false} NonEmptyAll(parts: seq<string>)
    requires forall k :: 0 <= k < |parts| ==> parts[k] != ""
    ensures NonEmpty(parts) == parts
  {
    if parts != [] {
      NonEmptyAll(parts[1..]);
    }
  }

  lemma JoinEight(p: seq<string>)
    requires |p| == 8
    ensures Join("\n", p)
         == p[0] + "\n" + p[1] + "\n" + p[2] + "\n" + p[3] + "\n" + p[4] + "\n" + p[5] + "\n" + p[6] + "\n" + p[7]
  {
    assert Join("\n", p[..1]) == p[0];
    JoinPrefixStep(p, 1);
    JoinPrefixStep(p, 2);
    JoinPrefixStep(p, 3);
    JoinPrefixStep(p, 4);
    JoinPrefixStep(p, 5);
    JoinPrefixStep(p, 6);
    JoinPrefixStep(p, 7);
    assert p[..8] == p;
  }

  lemma JoinPrefixStep(p: seq<string>, k: nat)
    requires 1 <= k < |p|
    ensures Join("\n", p[..k + 1]) == Join("\n", p[..k]) + "\n" + p[k]
  {
    assert p[..k + 1] == p[..k] + [p[k]];
    JoinSnoc("\n", p[..k], p[k]);
  }

  /** An accumulator that only selects renders as a single SELECT ... FROM;
      one that also filters has its WHERE clause right after the FROM line. */
  lemma SelectFromWhere(source: Frame, a: Accumulated, d: Dialect, columns: Frame -> seq<string>)
    requires a.joins == [] && a.groupby == [] && a.orderby == []
    requires a.qualify.None? && a.limit.None?
    ensures a.filters == [] ==>
              RenderSql(source, a, d, columns)
              == Ok(SelectSection(source, a, d, columns) + "\nFROM " + d.methodRef(source))
    ensures a.filters != [] && WhereTerm(a, d).value != "" ==>
              RenderSql(source, a, d, columns)
              == Ok(SelectSection(source, a, d, columns) + "\nFROM " + d.methodRef(source)
                    + "\nWHERE\n" + Indent(WhereTerm(a, d).value, TAB))
  {
    var parts := Segments(source, a, d, columns, []);
    var sel, from := SelectSection(source, a, d, columns), d.methodRef(source);
    PlainParts(source, a, d, columns);
    assert parts[0] == sel && parts[1] == "FROM " + from;
    ThreeParts(parts);
    var body := Join("\n", NonEmpty(parts));
    assert RenderSql(source, a, d, columns) == Ok(body);
    if a.filters == [] {
      assert parts[3] == "";
      assert body == sel + "\n" + ("FROM " + from) + "";
      FromLine(sel, from);
    } else if WhereTerm(a, d).value != "" {
      var w := Indent(WhereTerm(a, d).value, TAB);
      assert parts[3] == "WHERE\n" + w;
      assert body == sel + "\n" + ("FROM " + from) + ("\n" + ("WHERE\n" + w));
      WhereLine(sel, from, w);
    }
  }

  /** The parts of a statement with no join, grouping, ordering, QUALIFY or
      LIMIT: the SELECT, FROM and WHERE parts and blanks. */
  lemma PlainParts(source: Frame, a: Accumulated, d: Dialect, columns: Frame -> seq<string>)
    requires a.joins == [] && a.groupby == [] && a.orderby == []
    requires a.qualify.None? && a.limit.None?
    ensures RenderSql(source, a, d, columns) == Ok(Join("\n", NonEmpty(Segments(source, a, d, columns, []))))
    ensures var p := Segments(source, a, d, columns, []);
            p[0] == SelectSection(source, a, d, columns) && p[1] == "FROM " + d.methodRef(source)
            && p[2] == "" && p[3] == Section("WHERE", WhereTerm(a, d))
            && forall i :: 4 <= i < 8 ==> p[i] == ""
  {
    NoJoinSql(source, a, d, columns);
  }

  /** Without joins, the statement is the non-empty parts of the eight. */
  lemma NoJoinSql(source: Frame, a: Accumulated, d: Dialect, columns: Frame -> seq<string>)
    requires a.joins == []
    ensures RenderSql(source, a, d, columns) == Ok(Join("\n", NonEmpty(Segments(source, a, d, columns, []))))
  {
    assert JoinTerms(a.joins, d) == Ok([]);
  }

  lemma FromLine(sel: string, from: string)
    ensures sel + "\n" + ("FROM " + from) + "" == sel + "\nFROM " + from
  {
    assert "\n" + "FROM " == "\nFROM ";
  }

  lemma WhereLine(sel: string, from: string, w: string)
    ensures sel + "\n" + ("FROM " + from) + ("\n" + ("WHERE\n" + w)) == sel + "\nFROM " + from + "\nWHERE\n" + w
  {
    assert "\n" + "FROM " == "\nFROM ";
    assert "\n" + "WHERE\n" == "\nWHERE\n";
  }
}
