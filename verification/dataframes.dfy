/** sql_dataframe.py, session.py and transformations.py: relation handles,
    the graph of transformations between them, the dependency walk and the
    statement `to_sql` compiles from it.

    A frame is an object: `alias()` overwrites its alias in place. The
    select, where, order-by, group-by, join, join-using and raw-SQL renderers
    call `get_alias_name()` on the frames they refer to when they run, so a
    later `alias()` shows in what they write. The set-operation renderer and
    the accumulator's FROM and join lines print the bound method
    `get_alias_name` without calling it (`Dialect.methodRef`), which no
    `alias()` changes. The
    transformation a frame is built from never changes; it refers to its
    source frames, which were all built before it. The ghost `Depth` of a frame
    is larger than that of each of its sources, which is what makes the walk
    over the graph terminate. */
module Dataframes {

  import opened Results
  import opened Text
  import opened Terms
  import SelectTransformation
  import WhereTransformation
  import OrderbyTransformation
  import GroupbyTransformation
  import JoinTransformation
  import JoinUsingTransformation
  import SetTransformation
  import RawSqlTransformation

  /** The stored parts of each kind of transformation; the frames are the
      transformation's sources. */
  datatype Transformation =
    | Select(source: SqlDataFrame, selectors: seq<Term>)
    | Where(source: SqlDataFrame, filters: seq<Term>)
    | Orderby(source: SqlDataFrame, sorters: seq<Term>, direction: string)
    | Groupby(source: SqlDataFrame, keys: seq<Term>, aggs: seq<Term>)
    | JoinOn(source: SqlDataFrame, other: SqlDataFrame, joinType: string, on: seq<Term>)
    | JoinUsing(source: SqlDataFrame, other: SqlDataFrame, joinType: string, using: Term)
    | SetOp(source: SqlDataFrame, other: SqlDataFrame, setType: string)
    /** `additional` keeps the dictionary's insertion order. */
    | RawSql(sql: string, source: SqlDataFrame, additional: seq<(string, SqlDataFrame)>)

  /** The frames of a list of named frames, in order. */
  function Frames(named: seq<(string, SqlDataFrame)>): (r: seq<SqlDataFrame>)
    ensures |r| == |named|
    ensures forall i :: 0 <= i < |named| ==> r[i] == named[i].1
  {
    if named == [] then [] else [named[0].1] + Frames(named[1..])
  }

  /** The frames a transformation reads, source first. */
  function Sources(t: Transformation): (r: seq<SqlDataFrame>)
    ensures r != [] && r[0] == t.source
    ensures t.JoinOn? || t.JoinUsing? || t.SetOp? ==> r == [t.source, t.other]
    ensures t.RawSql? ==> r == [t.source] + Frames(t.additional)
  {
    match t
    case JoinOn(s, o, _, _) => [s, o]
    case JoinUsing(s, o, _, _) => [s, o]
    case SetOp(s, o, _) => [s, o]
    case RawSql(_, s, more) => [s] + Frames(more)
    case _ => [t.source]
  }

  /** The frames from which each of `fs` is reachable, together. */
  ghost function ReachAll(fs: seq<SqlDataFrame>): set<SqlDataFrame> {
    if fs == [] then {} else fs[0].Reach() + ReachAll(fs[1..])
  }

  lemma {:induction false} ReachAllContains(fs: seq<SqlDataFrame>, i: nat)
    requires i < |fs|
    ensures fs[i].Reach() <= ReachAll(fs)
  {
    if i > 0 {
      ReachAllContains(fs[1..], i - 1);
    }
  }

  /** The largest depth among `fs`, 0 for none. */
  ghost function MaxDepth(fs: seq<SqlDataFrame>): (r: nat)
    ensures forall f <- fs :: f.Depth <= r
    ensures fs != [] ==> exists f <- fs :: f.Depth == r
  {
    if fs == [] then 0
    else
      var m := MaxDepth(fs[1..]);
      if fs[0].Depth >= m then fs[0].Depth else m
  }

  /** `string.ascii_uppercase` drawn ten times: the shape of an alias a new
      frame gets. The draw itself is a parameter of the constructors. */
  predicate IsGeneratedAlias(a: string) {
    |a| == 10 && forall i :: 0 <= i < |a| ==> 'A' <= a[i] <= 'Z'
  }

  /** A connection to a database; which one is not part of this model. */
  class Session {

    constructor () {}

    /** `Session.dataset(name, schema)`: a bare table of this session. */
    method Dataset(name: string, schema: Option<string>, freshAlias: string) returns (ds: SqlDataFrame)
      requires IsGeneratedAlias(freshAlias)
      ensures fresh(ds) && ds.Valid()
      ensures ds.datasetName == Some(name) && ds.schema == schema && ds.session == this
      ensures ds.transformation == None && ds.AliasName() == name
    {
      ds := new SqlDataFrame.Dataset(name, schema, this, freshAlias);
    }
  }

  /** A relation handle: a `SqlDataFrame`, or a `Dataset` when `datasetName`
      holds the table's name. */
  class SqlDataFrame {
    var alias: string
    const session: Session?
    const transformation: Option<Transformation>
    const datasetName: Option<string>
    const schema: Option<string>
    /** The frames this one is built from, directly or not. */
    ghost const Upstream: set<SqlDataFrame>
    ghost const Depth: nat

    ghost function Reach(): set<SqlDataFrame> {
      {this} + Upstream
    }

    /** The graph below this frame is built bottom-up: every source is an
        older frame of smaller depth. Only constant fields are involved, so
        `alias()` keeps every frame valid. */
    ghost predicate Valid()
      decreases Depth
    {
      match transformation
      case None => Upstream == {}
      case Some(t) =>
        Upstream == ReachAll(Sources(t))
        && forall s <- Sources(t) :: s.Depth < Depth && s.Valid()
    }

    /** `SqlDataFrame(session, transformation)` with the random alias drawn as
        `freshAlias`. */
    constructor (session: Session?, t: Transformation, freshAlias: string)
      requires IsGeneratedAlias(freshAlias)
      requires forall s <- Sources(t) :: s.Valid()
      ensures Valid()
      ensures this.session == session && transformation == Some(t) && alias == freshAlias
      ensures datasetName == None && schema == None
    {
      this.session := session;
      alias := freshAlias;
      transformation := Some(t);
      datasetName := None;
      schema := None;
      Upstream := ReachAll(Sources(t));
      Depth := MaxDepth(Sources(t)) + 1;
    }

    /** `Dataset(name, schema, session)`: no transformation. */
    constructor Dataset(name: string, schema: Option<string>, session: Session?, freshAlias: string)
      requires IsGeneratedAlias(freshAlias)
      ensures Valid()
      ensures this.session == session && transformation == None && alias == freshAlias
      ensures datasetName == Some(name) && this.schema == schema
    {
      this.session := session;
      alias := freshAlias;
      transformation := None;
      datasetName := Some(name);
      this.schema := schema;
      Upstream := {};
      Depth := 0;
    }

    /** `get_alias_name` (and `get_table_name`, which calls it): a dataset's
        table name, otherwise the alias. */
    function AliasName(): string
      reads this
    {
      if datasetName.Some? then datasetName.value else alias
    }

    /** `alias(name)`: renames this frame in place and returns it. A dataset
        keeps answering its table name. */
    method Alias(name: string) returns (r: SqlDataFrame)
      modifies this
      ensures r == this && alias == name
      ensures datasetName.None? ==> AliasName() == name
      ensures datasetName.Some? ==> AliasName() == old(AliasName())
    {
      alias := name;
      r := this;
    }

    /** `frame.name` and `frame[name]`: a column of this frame. */
    function Field(name: string): (t: Term)
      ensures t.Field? && t.name == name && t.table == this
    {
      Term.Field(name, this)
    }

    /** `join`, `left_join`, `right_join`, `inner_join`: the join types. */
    function Join(other: SqlDataFrame): (e: JoinExpression)
      ensures e == JoinExpression(this, other, "JOIN")
    {
      JoinExpression(this, other, "JOIN")
    }

    function LeftJoin(other: SqlDataFrame): (e: JoinExpression)
      ensures e == JoinExpression(this, other, "LEFT JOIN")
    {
      JoinExpression(this, other, "LEFT JOIN")
    }

    function RightJoin(other: SqlDataFrame): (e: JoinExpression)
      ensures e == JoinExpression(this, other, "RIGHT JOIN")
    {
      JoinExpression(this, other, "RIGHT JOIN")
    }

    function InnerJoin(other: SqlDataFrame): (e: JoinExpression)
      ensures e == JoinExpression(this, other, "INNER JOIN")
    {
      JoinExpression(this, other, "INNER JOIN")
    }

    /** `select(**kwargs)`: one aliased term per keyword, in keyword order. */
    method Select(kwargs: seq<(string, Arg)>, freshAlias: string) returns (r: SqlDataFrame)
      requires Valid() && IsGeneratedAlias(freshAlias)
      ensures fresh(r) && r.Valid() && r.session == session && r.alias == freshAlias
      ensures r.transformation == Some(Transformation.Select(this, NamedTerms(kwargs, this)))
    {
      r := new SqlDataFrame(session, Transformation.Select(this, NamedTerms(kwargs, this)), freshAlias);
    }

    /** `where(*args)`. */
    method Where(args: seq<Arg>, freshAlias: string) returns (r: SqlDataFrame)
      requires Valid() && IsGeneratedAlias(freshAlias)
      ensures fresh(r) && r.Valid() && r.session == session && r.alias == freshAlias
      ensures r.transformation == Some(Transformation.Where(this, PlainTerms(args, this)))
    {
      r := new SqlDataFrame(session, Transformation.Where(this, PlainTerms(args, this)), freshAlias);
    }

    /** `groupby(*args)`: the keys, waiting for `aggregate`. */
    function GroupBy(args: seq<Arg>): (e: GroupbyExpression)
      ensures e.selectable == this && e.keys == PlainTerms(args, this)
    {
      GroupbyExpression(this, PlainTerms(args, this))
    }

    /** `sql(statement)` without keyword arguments. */
    method Sql(sql: string, freshAlias: string) returns (r: SqlDataFrame)
      requires Valid() && IsGeneratedAlias(freshAlias)
      ensures fresh(r) && r.Valid() && r.session == session && r.alias == freshAlias
      ensures r.transformation == Some(RawSql(sql, this, []))
    {
      r := new SqlDataFrame(session, RawSql(sql, this, []), freshAlias);
    }

    /** `union` as written: it calls the frame constructor without the
        `session` argument, which has no default, so every call fails before
        a frame exists, and so before `__init__` draws an alias. */
    method Union(other: SqlDataFrame) returns (r: Result<SqlDataFrame>)
      ensures r == Err(MissingSession)
    {
      r := Err(MissingSession);
    }

    /** `union` as the other set operations are written: the frame is built
        in the receiver's session. */
    method UnionInSession(other: SqlDataFrame, freshAlias: string) returns (r: SqlDataFrame)
      requires Valid() && other.Valid() && IsGeneratedAlias(freshAlias)
      ensures fresh(r) && r.Valid() && r.session == session && r.alias == freshAlias
      ensures r.transformation == Some(SetOp(this, other, "UNION"))
    {
      r := new SqlDataFrame(session, SetOp(this, other, "UNION"), freshAlias);
    }

    /** `union_all`, `intersect`, `except_of`, `minus`. */
    method UnionAll(other: SqlDataFrame, freshAlias: string) returns (r: SqlDataFrame)
      requires Valid() && other.Valid() && IsGeneratedAlias(freshAlias)
      ensures fresh(r) && r.Valid() && r.session == session && r.alias == freshAlias
      ensures r.transformation == Some(SetOp(this, other, "UNION ALL"))
    {
      r := new SqlDataFrame(session, SetOp(this, other, "UNION ALL"), freshAlias);
    }

    method Intersect(other: SqlDataFrame, freshAlias: string) returns (r: SqlDataFrame)
      requires Valid() && other.Valid() && IsGeneratedAlias(freshAlias)
      ensures fresh(r) && r.Valid() && r.session == session && r.alias == freshAlias
      ensures r.transformation == Some(SetOp(this, other, "INTERSECT"))
    {
      r := new SqlDataFrame(session, SetOp(this, other, "INTERSECT"), freshAlias);
    }

    method ExceptOf(other: SqlDataFrame, freshAlias: string) returns (r: SqlDataFrame)
      requires Valid() && other.Valid() && IsGeneratedAlias(freshAlias)
      ensures fresh(r) && r.Valid() && r.session == session && r.alias == freshAlias
      ensures r.transformation == Some(SetOp(this, other, "EXCEPT"))
    {
      r := new SqlDataFrame(session, SetOp(this, other, "EXCEPT"), freshAlias);
    }

    method Minus(other: SqlDataFrame, freshAlias: string) returns (r: SqlDataFrame)
      requires Valid() && other.Valid() && IsGeneratedAlias(freshAlias)
      ensures fresh(r) && r.Valid() && r.session == session && r.alias == freshAlias
      ensures r.transformation == Some(SetOp(this, other, "MINUS"))
    {
      r := new SqlDataFrame(session, SetOp(this, other, "MINUS"), freshAlias);
    }

    /** `order_by(*args, direction)`; `direction` is "ASC" unless given. */
    method OrderBy(args: seq<Arg>, direction: string, freshAlias: string) returns (r: SqlDataFrame)
      requires Valid() && IsGeneratedAlias(freshAlias)
      ensures fresh(r) && r.Valid() && r.session == session && r.alias == freshAlias
      ensures r.transformation == Some(Orderby(this, PlainTerms(args, this), direction))
    {
      r := new SqlDataFrame(session, Orderby(this, PlainTerms(args, this), direction), freshAlias);
    }
  }

  /** An argument of an operation: a term, or a callable applied to the
      receiving frame to get one. */
  datatype Arg = Value(term: Term) | Callable(apply: SqlDataFrame -> Term)

  /** `parse_array_from_context`. */
  function ParseArray(v: Arg, selectable: SqlDataFrame): Term {
    match v
    case Value(t) => t
    case Callable(f) => f(selectable)
  }

  /** `parse_from_context` over every positional argument, in order. */
  function PlainTerms(args: seq<Arg>, selectable: SqlDataFrame): (r: seq<Term>)
    ensures |r| == |args|
    ensures forall i :: 0 <= i < |args| ==> r[i] == ParseArray(args[i], selectable)
  {
    if args == [] then [] else [ParseArray(args[0], selectable)] + PlainTerms(args[1..], selectable)
  }

  /** `parse_from_context` over every keyword argument, in keyword order:
      each term is aliased with its keyword. */
  function NamedTerms(kwargs: seq<(string, Arg)>, selectable: SqlDataFrame): (r: seq<Term>)
    ensures |r| == |kwargs|
    ensures forall i :: 0 <= i < |kwargs| ==> r[i] == As(ParseArray(kwargs[i].1, selectable), kwargs[i].0)
  {
    if kwargs == [] then []
    else [As(ParseArray(kwargs[0].1, selectable), kwargs[0].0)] + NamedTerms(kwargs[1..], selectable)
  }

  /** `JoinExpression`: a pending join, completed by `on` or `using`. */
  datatype JoinExpression = JoinExpression(source: SqlDataFrame, other: SqlDataFrame, joinType: string)
  {
    /** `on(*args)`: the predicates are stored as given. */
    method On(args: seq<Term>, freshAlias: string) returns (r: SqlDataFrame)
      requires source.Valid() && other.Valid() && IsGeneratedAlias(freshAlias)
      ensures fresh(r) && r.Valid() && r.session == source.session && r.alias == freshAlias
      ensures r.transformation == Some(JoinOn(source, other, joinType, args))
    {
      r := new SqlDataFrame(source.session, JoinOn(source, other, joinType, args), freshAlias);
    }

    /** `using(field)`. */
    method Using(field: Term, freshAlias: string) returns (r: SqlDataFrame)
      requires source.Valid() && other.Valid() && IsGeneratedAlias(freshAlias)
      ensures fresh(r) && r.Valid() && r.session == source.session && r.alias == freshAlias
      ensures r.transformation == Some(JoinUsing(source, other, joinType, field))
    {
      r := new SqlDataFrame(source.session, JoinUsing(source, other, joinType, field), freshAlias);
    }
  }

  /** `GroupbyExpression`: grouping keys, completed by `aggregate`. */
  datatype GroupbyExpression = GroupbyExpression(selectable: SqlDataFrame, keys: seq<Term>)
  {
    /** `aggregate(**kwargs)`: one aliased aggregate per keyword, in keyword
        order; none at all is allowed. */
    method Aggregate(kwargs: seq<(string, Arg)>, freshAlias: string) returns (r: SqlDataFrame)
      requires selectable.Valid() && IsGeneratedAlias(freshAlias)
      ensures fresh(r) && r.Valid() && r.session == selectable.session && r.alias == freshAlias
      ensures r.transformation == Some(Groupby(selectable, keys, NamedTerms(kwargs, selectable)))
    {
      r := new SqlDataFrame(selectable.session, Groupby(selectable, keys, NamedTerms(kwargs, selectable)), freshAlias);
    }
  }

  // ---------------------------------------------------------------------
  // Rendering one transformation

  /** The aliases of a list of named frames, read now. */
  function AliasPairs(named: seq<(string, SqlDataFrame)>): (r: seq<(string, string)>)
    reads Frames(named)
    ensures |r| == |named|
    ensures forall i :: 0 <= i < |named| ==> r[i] == (named[i].0, named[i].1.AliasName())
  {
    if named == [] then [] else [(named[0].0, named[0].1.AliasName())] + AliasPairs(named[1..])
  }

  /** `get_sql` of each kind of transformation, with the aliases of its
      sources as they are now. The set operation prints `d.methodRef` of its
      operands: set_transformation.py formats `get_alias_name` without calling it. */
  function GetSql(t: Transformation, d: Dialect): string
    reads set x <- Sources(t)
  {
    match t
    case Select(s, sel) => SelectTransformation.GetSql(s.AliasName(), sel, d)
    case Where(s, fs) => WhereTransformation.GetSql(s.AliasName(), fs, d)
    case Orderby(s, ss, dir) => OrderbyTransformation.GetSql(s.AliasName(), ss, dir, d)
    case Groupby(s, ks, ags) => GroupbyTransformation.GetSql(s.AliasName(), ks, ags, d)
    case JoinOn(s, o, jt, on) =>
      assert o in Sources(t);
      JoinTransformation.GetSql(s.AliasName(), jt, o.AliasName(), on, d)
    case JoinUsing(s, o, jt, u) =>
      assert o in Sources(t);
      JoinUsingTransformation.GetSql(s.AliasName(), jt, o.AliasName(), u, d)
    case SetOp(s, o, st) => SetTransformation.GetSql(d.methodRef(s), st, d.methodRef(o))
    case RawSql(sql, s, more) =>
      assert forall x <- Frames(more) :: x in Sources(t);
      RawSqlTransformation.Substitute(sql, s.AliasName(), AliasPairs(more))
  }

  // ---------------------------------------------------------------------
  // Dependencies

  /** A common table expression to be: the table name and the transformation. */
  type Dep = (string, Transformation)

  /** The pair `extend_transformations` adds for a frame with a transformation. */
  function Entry(g: SqlDataFrame): Dep
    requires g.transformation.Some?
    reads g
  {
    (g.AliasName(), g.transformation.value)
  }

  /** Every frame that an entry of `deps` reads lies in `S`. */
  ghost predicate Within(deps: seq<Dep>, S: set<SqlDataFrame>) {
    forall e, x :: e in deps && x in Sources(e.1) ==> x in S
  }

  /** `extend_transformations(f)`: nothing for a frame without transformation,
      otherwise the transformation's dependencies followed by the frame's own
      entry. */
  function Extend(f: SqlDataFrame): (r: Result<seq<Dep>>)
    requires f.Valid()
    reads f.Reach()
    ensures f.transformation.None? ==> r == Ok([])
    ensures r.Ok? ==> Within(r.value, f.Reach())
    ensures f.transformation.Some? ==> (r.Ok? <==> Dependencies(f.transformation.value).Ok?)
    ensures r.Ok? && f.transformation.Some?
            ==> r.value == Dependencies(f.transformation.value).value + [Entry(f)]
    decreases f.Depth, 2
  {
    match f.transformation
    case None => Ok([])
    case Some(t) =>
      var deps := Dependencies(t);
      if deps.Err? then deps
      else
        SourcesReached(t);
        Ok(deps.value + [(f.AliasName(), t)])
  }

  /** `get_dependencies` of each kind of transformation: the chains of its
      sources, source first. The raw-SQL one iterates its dictionary's keys,
      which are strings, so it fails as soon as there is one. */
  function Dependencies(t: Transformation): (r: Result<seq<Dep>>)
    requires forall s <- Sources(t) :: s.Valid()
    reads ReachAll(Sources(t))
    ensures r.Ok? ==> Within(r.value, ReachAll(Sources(t)))
    ensures t.RawSql? && t.additional != [] ==> r.Err?
    ensures !(t.RawSql? && t.additional != []) ==> r == ExtendAll(Sources(t))
    decreases MaxDepth(Sources(t)) + 1, 1
  {
    match t
    case Select(s, _) => ExtendAllOne(s); Extend(s)
    case Where(s, _) => ExtendAllOne(s); Extend(s)
    case Orderby(s, _, _) => ExtendAllOne(s); Extend(s)
    case Groupby(s, _, _) => ExtendAllOne(s); Extend(s)
    case JoinOn(s, o, _, _) => ExtendAll([s, o])
    case JoinUsing(s, o, _, _) => ExtendAll([s, o])
    case SetOp(s, o, _) => ExtendAll([s, o])
    case RawSql(_, s, more) =>
      var r := Extend(s);
      if r.Err? then r else if more != [] then Err(NotARelation(more[0].0)) else ExtendAllOne(s); r
  }

  /** The chains of several frames, one after the other; the first failure wins. */
  function ExtendAll(fs: seq<SqlDataFrame>): (r: Result<seq<Dep>>)
    requires forall f <- fs :: f.Valid()
    reads ReachAll(fs)
    ensures r.Ok? ==> Within(r.value, ReachAll(fs))
    decreases MaxDepth(fs) + 1, 0, |fs|
  {
    if fs == [] then Ok([])
    else
      var h := Extend(fs[0]);
      if h.Err? then h
      else
        var rest := ExtendAll(fs[1..]);
        if rest.Err? then rest else Ok(h.value + rest.value)
  }

  lemma ExtendAllOne(f: SqlDataFrame)
    requires f.Valid()
    ensures ExtendAll([f]) == Extend(f)
    decreases f.Depth + 1, 0, 2
  {
    assert [f][1..] == [];
    if Extend(f).Ok? {
      assert Extend(f).value + [] == Extend(f).value;
    }
  }

  // ---------------------------------------------------------------------
  // to_sql

  /** One common table expression: the name, then the tab-indented statement
      between parentheses. */
  function Cte(name: string, sql: string): string {
    name + " AS (\n" + Indent(sql, TAB) + "\n)"
  }

  /** The common table expressions of `deps`, in order. */
  function RenderCtes(deps: seq<Dep>, ghost S: set<SqlDataFrame>, d: Dialect): (r: seq<string>)
    requires Within(deps, S)
    reads S
    ensures |r| == |deps|
    ensures forall i :: 0 <= i < |deps| ==> r[i] == Cte(deps[i].0, GetSql(deps[i].1, d))
  {
    if deps == [] then []
    else [Cte(deps[0].0, GetSql(deps[0].1, d))] + RenderCtes(deps[1..], S, d)
  }

  /** The statement: the final one alone without common table expressions,
      otherwise behind a WITH list and a `--final` comment line. */
  function Compile(ctes: seq<string>, final: string): string {
    if ctes == [] then final
    else "WITH\n\n" + Text.Join(",\n\n", ctes) + "\n\n--final\n" + final
  }

  /** `to_sql`. A frame without transformation fails, as does a dependency
      walk that fails. */
  function ToSql(f: SqlDataFrame, d: Dialect): (r: Result<string>)
    requires f.Valid()
    reads f.Reach()
    ensures f.transformation.None? ==> r == Err(MissingTransformation)
    ensures f.transformation.Some? ==> (r.Ok? <==> Dependencies(f.transformation.value).Ok?)
  {
    match f.transformation
    case None => Err(MissingTransformation)
    case Some(t) =>
      var deps := Dependencies(t);
      if deps.Err? then Err(deps.error)
      else
        SourcesReached(t);
        Ok(Compile(RenderCtes(deps.value, f.Upstream, d), GetSql(t, d)))
  }

  lemma SourcesReached(t: Transformation)
    ensures forall s <- Sources(t) :: s in ReachAll(Sources(t))
  {
    forall i | 0 <= i < |Sources(t)| ensures Sources(t)[i] in ReachAll(Sources(t)) {
      ReachAllContains(Sources(t), i);
    }
  }

  // ---------------------------------------------------------------------
  // Properties of the dependency walk

  /** Upstream before self: whenever an entry reads a frame that has a
      transformation, that frame's own entry comes earlier in the list. */
  ghost predicate UpstreamFirst(deps: seq<Dep>)
    reads *
  {
    forall i, s :: 0 <= i < |deps| && s in Sources(deps[i].1) && s.transformation.Some? ==>
      EntryBefore(deps, i, s)
  }

  /** The entry of `s` is among the first `i` of `deps`. */
  ghost predicate EntryBefore(deps: seq<Dep>, i: nat, s: SqlDataFrame)
    requires s.transformation.Some?
    reads s
  {
    exists j :: 0 <= j < i && j < |deps| && deps[j] == Entry(s)
  }

  lemma UpstreamFirstConcat(a: seq<Dep>, b: seq<Dep>)
    requires UpstreamFirst(a) && UpstreamFirst(b)
    ensures UpstreamFirst(a + b)
  {
    var c := a + b;
    forall i, s | 0 <= i < |c| && s in Sources(c[i].1) && s.transformation.Some?
      ensures EntryBefore(c, i, s)
    {
      if i < |a| {
        assert c[i] == a[i];
        assert EntryBefore(a, i, s);
        var j :| 0 <= j < i && j < |a| && a[j] == Entry(s);
        assert c[j] == a[j];
      } else {
        assert c[i] == b[i - |a|];
        assert EntryBefore(b, i - |a|, s);
        var j :| 0 <= j < i - |a| && j < |b| && b[j] == Entry(s);
        assert c[j + |a|] == b[j];
      }
    }
  }

  lemma UpstreamFirstSnoc(a: seq<Dep>, e: Dep)
    requires UpstreamFirst(a)
    requires forall s <- Sources(e.1) :: s.transformation.Some? ==> Entry(s) in a
    ensures UpstreamFirst(a + [e])
  {
    var c := a + [e];
    forall i, s | 0 <= i < |c| && s in Sources(c[i].1) && s.transformation.Some?
      ensures EntryBefore(c, i, s)
    {
      if i < |a| {
        assert c[i] == a[i];
        assert EntryBefore(a, i, s);
        var j :| 0 <= j < i && j < |a| && a[j] == Entry(s);
        assert c[j] == a[j];
      } else {
        assert Entry(s) in a;
        var j :| 0 <= j < |a| && a[j] == Entry(s);
        assert c[j] == a[j];
      }
    }
  }

  /** `extend_transformations` lists every frame after all the frames it
      reads: the common table expressions of `to_sql` are defined before use. */
  lemma {:induction false} ExtendUpstreamFirst(f: SqlDataFrame)
    requires f.Valid() && Extend(f).Ok?
    ensures UpstreamFirst(Extend(f).value)
    decreases f.Depth, 2
  {
    if f.transformation.Some? {
      var t := f.transformation.value;
      DependenciesUpstreamFirst(t);
      UpstreamFirstSnoc(Dependencies(t).value, Entry(f));
    }
  }

  lemma {:induction false} DependenciesUpstreamFirst(t: Transformation)
    requires forall s <- Sources(t) :: s.Valid()
    requires Dependencies(t).Ok?
    ensures UpstreamFirst(Dependencies(t).value)
    ensures forall s <- Sources(t) :: s.transformation.Some? ==> Entry(s) in Dependencies(t).value
    decreases MaxDepth(Sources(t)) + 1, 1
  {
    ExtendAllUpstreamFirst(Sources(t));
  }

  lemma {:induction false} ExtendAllUpstreamFirst(fs: seq<SqlDataFrame>)
    requires forall f <- fs :: f.Valid()
    requires ExtendAll(fs).Ok?
    ensures UpstreamFirst(ExtendAll(fs).value)
    ensures forall f <- fs :: f.transformation.Some? ==> Entry(f) in ExtendAll(fs).value
    decreases MaxDepth(fs) + 1, 0, |fs|
  {
    if fs != [] {
      var h := Extend(fs[0]).value;
      var rest := ExtendAll(fs[1..]).value;
      ExtendUpstreamFirst(fs[0]);
      ExtendAllUpstreamFirst(fs[1..]);
      UpstreamFirstConcat(h, rest);
      forall f <- fs | f.transformation.Some? ensures Entry(f) in h + rest {
        if f == fs[0] {
          assert h[|h| - 1] == Entry(f);
        } else {
          assert f in fs[1..];
        }
      }
    }
  }

  /** `e` is the entry of some frame of `S`. */
  ghost predicate EntryOf(e: Dep, S: set<SqlDataFrame>)
    reads S
  {
    exists g <- S :: g.transformation.Some? && e == Entry(g)
  }

  /** The entries of `extend_transformations(f)` are exactly those of the
      frames `f` is built from, itself included, that have a transformation. */
  lemma {:induction false} ExtendExact(f: SqlDataFrame)
    requires f.Valid() && Extend(f).Ok?
    ensures forall g <- f.Reach() :: g.transformation.Some? ==> Entry(g) in Extend(f).value
    ensures forall e <- Extend(f).value :: EntryOf(e, f.Reach())
    decreases f.Depth, 2
  {
    if f.transformation.Some? {
      var t := f.transformation.value;
      DependenciesExact(t);
      assert f in f.Reach();
    }
  }

  lemma {:induction false} DependenciesExact(t: Transformation)
    requires forall s <- Sources(t) :: s.Valid()
    requires Dependencies(t).Ok?
    ensures forall g <- ReachAll(Sources(t)) :: g.transformation.Some? ==> Entry(g) in Dependencies(t).value
    ensures forall e <- Dependencies(t).value :: EntryOf(e, ReachAll(Sources(t)))
    decreases MaxDepth(Sources(t)) + 1, 1
  {
    ExtendAllExact(Sources(t));
  }

  lemma {:induction false} ExtendAllExact(fs: seq<SqlDataFrame>)
    requires forall f <- fs :: f.Valid()
    requires ExtendAll(fs).Ok?
    ensures forall g <- ReachAll(fs) :: g.transformation.Some? ==> Entry(g) in ExtendAll(fs).value
    ensures forall e <- ExtendAll(fs).value :: EntryOf(e, ReachAll(fs))
    decreases MaxDepth(fs) + 1, 0, |fs|
  {
    if fs != [] {
      ExtendExact(fs[0]);
      ExtendAllExact(fs[1..]);
      var h, rest := Extend(fs[0]).value, ExtendAll(fs[1..]).value;
      assert ExtendAll(fs).value == h + rest;
      forall e <- h + rest ensures EntryOf(e, ReachAll(fs)) {
        if e in h {
          var g :| g in fs[0].Reach() && g.transformation.Some? && e == Entry(g);
          assert g in ReachAll(fs);
        } else {
          var g :| g in ReachAll(fs[1..]) && g.transformation.Some? && e == Entry(g);
          assert g in ReachAll(fs);
        }
      }
    }
  }

  /** A set operation lists the chain of its first operand, then the chain
      of the second; the first failure wins. */
  lemma SetOpDependencies(s: SqlDataFrame, o: SqlDataFrame, setType: string)
    requires s.Valid() && o.Valid()
    ensures Dependencies(SetOp(s, o, setType))
         == if Extend(s).Err? then Extend(s)
            else if Extend(o).Err? then Extend(o)
            else Ok(Extend(s).value + Extend(o).value)
  {
    assert [s, o][1..] == [o];
    ExtendAllOne(o);
  }

  /** The union of two tables, built in a session, compiles to the set
      statement alone, its operands printed as `d.methodRef` prints them. */
  lemma UnionOfTables(a: SqlDataFrame, b: SqlDataFrame, u: SqlDataFrame, d: Dialect)
    requires a.Valid() && b.Valid() && u.Valid()
    requires a.transformation.None? && b.transformation.None?
    requires u.transformation == Some(SetOp(a, b, "UNION"))
    ensures ToSql(u, d) == Ok("SELECT *\nFROM " + d.methodRef(a) + "\nUNION\n" + d.methodRef(b))
  {
    ToSqlOverTables(u, d);
    var ma, mb := d.methodRef(a), d.methodRef(b);
    assert GetSql(SetOp(a, b, "UNION"), d) == "SELECT *\nFROM " + ma + "\n" + "UNION" + "\n" + mb;
    assert "SELECT *\nFROM " + ma + "\n" + "UNION" + "\n" + mb == "SELECT *\nFROM " + ma + "\nUNION\n" + mb;
  }

  /** No deduplication: a frame joined with itself has its whole chain listed
      twice, its own entry at the end of each copy. */
  lemma SelfJoinRepeats(f: SqlDataFrame, joinType: string, on: seq<Term>)
    requires f.Valid() && f.transformation.Some? && Extend(f).Ok?
    ensures var r := Dependencies(JoinOn(f, f, joinType, on));
            var n := |Extend(f).value|;
            r.Ok? && |r.value| == 2 * n && r.value[n - 1] == Entry(f) && r.value[2 * n - 1] == Entry(f)
  {
    var t := JoinOn(f, f, joinType, on);
    assert Sources(t) == [f, f];
    assert [f, f][1..] == [f];
    ExtendAllOne(f);
    assert Dependencies(t) == Ok(Extend(f).value + Extend(f).value);
  }

  lemma {:induction false} ExtendAllTables(fs: seq<SqlDataFrame>)
    requires forall f <- fs :: f.Valid() && f.transformation.None?
    ensures ExtendAll(fs) == Ok([])
  {
    if fs != [] {
      ExtendAllTables(fs[1..]);
      var none: seq<Dep> := [];
      assert Extend(fs[0]) == Ok(none);
      assert none + none == none;
    }
  }

  /** A transformation over tables only needs no common table expression:
      `to_sql` is the transformation's own statement. */
  lemma ToSqlOverTables(f: SqlDataFrame, d: Dialect)
    requires f.Valid() && f.transformation.Some?
    requires forall s <- Sources(f.transformation.value) :: s.transformation.None?
    requires !(f.transformation.value.RawSql? && f.transformation.value.additional != [])
    ensures ToSql(f, d) == Ok(GetSql(f.transformation.value, d))
  {
    ExtendAllTables(Sources(f.transformation.value));
  }

  /** With at least one common table expression, the statement starts the
      WITH list, contains every expression and ends with the final statement
      after its comment line. */
  lemma CompileLayout(ctes: seq<string>, final: string, i: nat)
    requires i < |ctes|
    ensures Occurs(Compile(ctes, final), ctes[i])
    ensures var tail := "\n\n--final\n" + final;
            var r := Compile(ctes, final);
            |tail| <= |r| && r[|r| - |tail|..] == tail && r[..6] == "WITH\n\n"
  {
    var body := Text.Join(",\n\n", ctes);
    var tail := "\n\n--final\n" + final;
    var r := Compile(ctes, final);
    assert r == "WITH\n\n" + body + tail;
    JoinOccurs(",\n\n", ctes, i);
    OccursWithin("WITH\n\n", body, tail, ctes[i]);
    assert r[|r| - |tail|..] == tail;
  }

  /** `to_sql` holds one common table expression per dependency, and ends
      with the frame's own statement. */
  lemma ToSqlLayout(f: SqlDataFrame, d: Dialect, i: nat)
    requires f.Valid() && f.transformation.Some? && ToSql(f, d).Ok?
    requires i < |Dependencies(f.transformation.value).value|
    ensures var e := Dependencies(f.transformation.value).value[i];
            Occurs(ToSql(f, d).value, Cte(e.0, GetSql(e.1, d)))
    ensures var tail := "\n\n--final\n" + GetSql(f.transformation.value, d);
            var r := ToSql(f, d).value;
            |tail| <= |r| && r[|r| - |tail|..] == tail && r[..6] == "WITH\n\n"
  {
    var t := f.transformation.value;
    ToSqlIsCompile(f, d);
    CompileLayout(RenderCtes(Dependencies(t).value, f.Upstream, d), GetSql(t, d), i);
  }

  lemma ToSqlIsCompile(f: SqlDataFrame, d: Dialect)
    requires f.Valid() && f.transformation.Some? && ToSql(f, d).Ok?
    ensures ToSql(f, d).value
         == Compile(RenderCtes(Dependencies(f.transformation.value).value, f.Upstream, d),
                    GetSql(f.transformation.value, d))
  {
    SourcesReached(f.transformation.value);
  }

  /** A select over a filter over a table: the filter becomes the one common
      table expression, named by the filter frame's alias, and the select reads
      it by that alias. */
  lemma SelectOverWhere(ds: SqlDataFrame, w: SqlDataFrame, f: SqlDataFrame,
                        filters: seq<Term>, selectors: seq<Term>, d: Dialect)
    requires ds.Valid() && w.Valid() && f.Valid()
    requires ds.datasetName.Some? && ds.transformation.None?
    requires w.datasetName.None? && w.transformation == Some(Where(ds, filters))
    requires f.transformation == Some(Select(w, selectors))
    ensures ToSql(f, d) == Ok("WITH\n\n" + w.alias + " AS (\n"
                              + Indent(WhereTransformation.GetSql(ds.datasetName.value, filters, d), TAB)
                              + "\n)\n\n--final\n"
                              + SelectTransformation.GetSql(w.alias, selectors, d))
  {
    var tw := Where(ds, filters);
    ChainDependencies(ds, w, filters, selectors);
    ToSqlIsCompile(f, d);
    assert RenderCtes([(w.alias, tw)], f.Upstream, d) == [Cte(w.alias, GetSql(tw, d))];
    CompileOne(w.alias, GetSql(tw, d), GetSql(Select(w, selectors), d));
  }

  lemma ChainDependencies(ds: SqlDataFrame, w: SqlDataFrame, filters: seq<Term>, selectors: seq<Term>)
    requires ds.Valid() && w.Valid()
    requires ds.transformation.None?
    requires w.datasetName.None? && w.transformation == Some(Where(ds, filters))
    ensures Dependencies(Select(w, selectors)) == Ok([(w.alias, Where(ds, filters))])
  {
    var tw := Where(ds, filters);
    ExtendAllOne(ds);
    ExtendAllOne(w);
    assert Dependencies(tw) == Ok([]);
    assert Entry(w) == (w.alias, tw);
    var none: seq<Dep> := [];
    assert none + [(w.alias, tw)] == [(w.alias, tw)];
  }

  lemma CompileOne(name: string, sql: string, final: string)
    ensures Compile([Cte(name, sql)], final)
         == "WITH\n\n" + name + " AS (\n" + Indent(sql, TAB) + "\n)\n\n--final\n" + final
  {
  }
}
