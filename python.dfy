/**
 * The pieces of the Python runtime that the post-processor relies on and that
 * this model does not define itself: number parsing and formatting, and the
 * exceptions the core can raise.
 */
module Python {
  import opened Wrappers

  /** The exceptions that the analysis and rewrite passes can raise. */
  datatype Exception =
    | IndexError              // `re.findall(...)[0]` on a line without digits; `steps[i]` out of range
    | ValueError(text: string) // `int(...)` or `float(...)` of a token that is not a number
    | AttributeError          // `self.currentZ` read before it was ever assigned
    | MissingBox(key: int)    // KeyError from `sizes[box]`
    | MissingGlyph(c: char)   // KeyError from `digits[c]`

  /**
   * Number conversions of the interpreter: `int(s)` and `float(s)` (None where
   * they raise ValueError), `str(x)` of a float, the f-string `f"{x:.Nf}"`, and
   * `math.sqrt`.
   */
  datatype Host = Host(
    parseInt: string -> Option<int>,
    parseFloat: string -> Option<real>,
    repr: real -> string,
    fixed: (real, nat) -> string,
    sqrt: real -> real)

  /** `xs[i]`, including Python's negative indices counted from the end. */
  function PyIndex<T>(xs: seq<T>, i: int): (r: Option<T>)
    ensures r.Some? <==> -|xs| <= i < |xs|
    ensures 0 <= i < |xs| ==> r == Some(xs[i])
    ensures -|xs| <= i < 0 ==> r == Some(xs[|xs| + i])
  {
    if 0 <= i < |xs| then Some(xs[i])
    else if -|xs| <= i < 0 then Some(xs[|xs| + i])
    else None
  }
}
