/**
 * Truthiness of the values the query passes around. Python and JavaScript
 * agree on these two kinds: a string is truthy when it is non-empty, a
 * number when it is non-zero, and an absent value is falsy.
 */
module Truthiness {
  import opened Wrappers

  /** `if city:` / `if (city)` for an optional string. */
  predicate TruthyText(s: Option<string>) {
    s.Some? && s.value != ""
  }

  /** `if lat:` / `if (lat)` for an optional number; 0 is falsy. */
  predicate TruthyNumber(x: Option<real>) {
    x.Some? && x.value != 0.0
  }
}
