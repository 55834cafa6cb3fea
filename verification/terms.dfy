/** The part of the term algebra the compiler touches. The term classes
    themselves (fields, operators, functions, CASE) are not part of this
    model: a term is known here only by how it was built from the pieces the
    compiler and the encoder construct, and every other expression is an
    `Opaque` value. How a term prints is injected as a `Dialect`. */
module Terms {

  import Text

  datatype Term =
    /** `Field(name, table=frame)`: a column of a relation (`frame.name`, `frame[name]`). */
    | Field(name: string, table: object)
    /** `term.as_(alias)`: the term under an output alias. */
    | As(inner: Term, alias: string)
    /** `term == value`. */
    | Equals(left: Term, value: string)
    /** `Case().when(condition, whenTrue).else_(otherwise)`. */
    | Case(condition: Term, whenTrue: int, otherwise: int)
    /** Any other expression of the term algebra. */
    | Opaque(id: nat)

  /** What printing depends on and the model does not define.
      `render(t, withAlias)` is `t.get_sql(with_alias=withAlias)` with no
      other argument, as the single-purpose transformations call it.
      `sessionRender(session, t, withAlias)` is the same call with the keyword
      arguments `session.get_kwargs_defaults()` supplies added, as the
      accumulating transformation calls it; nothing ties the two texts
      together. `methodRef(frame)` is the text an f-string makes of
      `frame.get_alias_name` written WITHOUT a call: the representation of a
      bound method, which names the object but is not its alias. */
  datatype Dialect = Dialect(render: (Term, bool) -> string,
                             sessionRender: (object?, Term, bool) -> string,
                             methodRef: object -> string)
  {
    /** The printing in effect inside a transformation that passes the
        session's defaults to every term: `render` becomes `sessionRender`
        for that session, and frame references are unchanged. */
    function WithDefaults(session: object?): Dialect
    {
      this.(render := (t: Term, withAlias: bool) => sessionRender(session, t, withAlias))
    }
  }

  /** Under `WithDefaults(session)` a term prints as `sessionRender` prints
      it for that session, and a frame reference prints as before. */
  lemma DefaultsRender(d: Dialect, session: object?, t: Term, withAlias: bool)
    ensures d.WithDefaults(session).render(t, withAlias) == d.sessionRender(session, t, withAlias)
    ensures d.WithDefaults(session).methodRef == d.methodRef
  {
  }

  /** The terms of a list rendered one by one, in order. */
  function RenderAll(terms: seq<Term>, d: Dialect, withAlias: bool): (r: seq<string>)
    ensures |r| == |terms|
    ensures forall i :: 0 <= i < |terms| ==> r[i] == d.render(terms[i], withAlias)
  {
    if terms == [] then [] else [d.render(terms[0], withAlias)] + RenderAll(terms[1..], d, withAlias)
  }

  lemma RenderAllSnoc(terms: seq<Term>, t: Term, d: Dialect, withAlias: bool)
    ensures RenderAll(terms + [t], d, withAlias) == RenderAll(terms, d, withAlias) + [d.render(t, withAlias)]
  {
  }
}
