/** The few JavaScript string semantics the claim site's decisions rest on. */
module JsText {
  import opened Wrappers

  /** Truthiness of a possibly-missing string: `undefined` and `''` are falsy,
      everything else (whitespace included, since nothing is trimmed) is truthy. */
  predicate Present(o: Option<string>) {
    o.Some? && o.value != ""
  }

  /** `a || b` for a possibly-missing string `a`. */
  function Or(a: Option<string>, b: string): (r: string)
    ensures Present(a) ==> Some(r) == a
    ensures !Present(a) ==> r == b
  {
    if a.Some? && a.value != "" then a.value else b
  }

  /** The text a template literal `${x}` produces for a possibly-missing string. */
  function Interpolate(o: Option<string>): (r: string)
    ensures o.None? ==> r == "undefined"
    ensures o.Some? ==> r == o.value
  {
    o.GetOr("undefined")
  }
}
