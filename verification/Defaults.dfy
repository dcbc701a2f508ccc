/** The store's rule for blank column values. */
module Defaults {
  predicate IsSpace(c: char) {
    || c in "\t\n\U{000B}\U{000C}\r \U{0085}\U{00A0}\U{1680}\U{2028}\U{2029}\U{202F}\U{205F}\U{3000}"
    || '\U{2000}' <= c <= '\U{200A}'
  }

  function OrDefault(value: string, fallback: string): string {
    if forall i :: 0 <= i < |value| ==> IsSpace(value[i]) then fallback else value
  }
}
