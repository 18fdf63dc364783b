/** Option and Result, the two wrappers the rest of the model is written with. */
module Wrappers {

  /** A value that may be absent. */
  datatype Option<+T> = None | Some(value: T) {

    /** The wrapped value, or `default` when there is none. */
    function GetOr(default: T): T
    {
      match this
      case Some(v) => v
      case None => default
    }
  }

  /** The outcome of a Go call returning `(T, error)`: a value, or the error's text. */
  datatype Result<+T, +E> = Ok(value: T) | Err(error: E)
}

/** Go slices: a slice is either nil or a (possibly empty) sequence of elements. */
module Slices {
  import opened Wrappers

  /** `None` is the nil slice, `Some(xs)` a non-nil slice holding `xs`. */
  type Slice<T> = Option<seq<T>>

  /** The elements a `range` loop visits: none for a nil slice. */
  function Elems<T>(s: Slice<T>): seq<T>
  {
    if s.Some? then s.value else []
  }

  /** Go's `append(s, x)`: never nil, and `x` comes after the elements already there. */
  function Append<T>(s: Slice<T>, x: T): (r: Slice<T>)
    ensures r.Some? && |Elems(r)| == |Elems(s)| + 1
    ensures Elems(r)[..|Elems(s)|] == Elems(s) && Elems(r)[|Elems(s)|] == x
  {
    Some(Elems(s) + [x])
  }
}

/** The few pieces of the Terraform plugin framework the resources rely on. */
module Framework {
  import opened Wrappers

  /**
   * `types.String.ValueString()`: the string held, or "" for a null value.
   * (A framework string is modelled as `Option<string>`; unknown values are not modelled.)
   */
  function ValueString(s: Option<string>): string
  {
    s.GetOr("")
  }

  /** An error diagnostic added with `AddError(summary, detail)`. */
  datatype Diagnostic = Error(summary: string, detail: string)

  /** The diagnostic for a failed client call: `summary`, then `summary: <error>`. */
  function CallFailure(summary: string, err: string): Diagnostic
  {
    Error(summary, summary + ": " + err)
  }
}
