/** The few JavaScript value rules the services depend on. */
module Js {
  import opened Results

  /** `!!v` for a string that may be undefined: undefined and `''` are falsy. */
  predicate Truthy(v: Option<string>) {
    v.Some? && v.value != ""
  }

  /** `!!v` for a number that may be undefined: undefined and `0` are falsy. */
  predicate TruthyNumber(v: Option<int>) {
    v.Some? && v.value != 0
  }

  /** `v || fallback` for a string that may be undefined. */
  function OrElse(v: Option<string>, fallback: string): string
  {
    if Truthy(v) then v.value else fallback
  }

  /** How a template literal renders a property that may be undefined. */
  function OrUndefined(v: Option<string>): string
  {
    match v
    case Some(s) => s
    case None => "undefined"
  }

  /** How a template literal renders a Redis reply that may be `null`. */
  function OrNull(v: Option<string>): string
  {
    match v
    case Some(s) => s
    case None => "null"
  }
}
