/** The few JavaScript value rules the modelled code depends on. An optional
    string stands for a property that may be `undefined`. */
module Js {
  import opened Wrappers

  /** Truthiness of an optional string: `undefined` and `""` are falsy. */
  predicate Truthy(s: Option<string>)
  {
    s.Some? && s.value != ""
  }

  /** How a template literal renders an optional string: `undefined` is
      rendered as the text "undefined". */
  function Text(s: Option<string>): string
  {
    match s
    case Some(v) => v
    case None => "undefined"
  }

  /** The value of `a || b`. */
  function Or(a: Option<string>, b: Option<string>): Option<string>
  {
    if Truthy(a) then a else b
  }
}
