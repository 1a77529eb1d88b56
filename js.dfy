/** The JavaScript value rules the pipeline leans on, for string-valued
    fields that may be absent (`undefined`). */
module Js {
  import opened Wrappers

  /** JavaScript truthiness of an optional string: `undefined` and the empty
      string are falsy, every other string is truthy. */
  predicate Truthy(v: Option<string>) {
    v.Some? && v.value != ""
  }

  /** `v || fallback`. */
  function OrElse(v: Option<string>, fallback: string): string {
    if Truthy(v) then v.value else fallback
  }

  /** `${v}` inside a template literal: an absent value prints as
      "undefined". */
  function Interpolate(v: Option<string>): string {
    match v
    case None => "undefined"
    case Some(s) => s
  }
}
