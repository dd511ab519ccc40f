/** PHP value semantics the gateway relies on. */
module Php {

  /** PHP's truthiness of a string: only "" and "0" are false. */
  predicate Truthy(s: string)
  {
    s != "" && s != "0"
  }
}
