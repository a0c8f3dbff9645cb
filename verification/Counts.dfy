/** Counting words and bytes. */
module Counts {
  function Min(a: nat, b: nat): nat { if a < b then a else b }
}
