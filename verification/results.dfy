/** Optional values, and the outcome of an operation that the Python code
    can abort with an exception. */
module Results {

  datatype Option<+T> = None | Some(value: T)

  /** The exceptions the modelled code raises, one per failure site. */
  datatype Error =
    /** `to_sql` on a frame without a transformation: `None.get_dependencies()`. */
    | MissingTransformation
    /** `extend_transformations(key)` on a dictionary key of a raw-SQL transformation:
        a string has no `get_transformation`. */
    | NotARelation(key: string)
    /** `create_join_term` on a join whose predicate kind is neither ON nor USING. */
    | UnknownJoinKind(kind: string)
    /** `transform` before `fit`: the encoder has no `_fitted_values`. */
    | NotFitted
    /** `_get_batches` over a cursor that produced no batch: `None.rename(...)`. */
    | NoBatches
    /** `SqlDataFrame(transformation=...)` without its required `session`
        argument: a TypeError. */
    | MissingSession

  datatype Result<+T> = Ok(value: T) | Err(error: Error)
}
