/** Byte strings, which every layer cuts up and puts together again. */
module Octets {
  type Bytes = seq<bv8>

  /** The pieces one behind the other. */
  function Concat(pieces: seq<Bytes>): Bytes {
    if pieces == [] then [] else Concat(pieces[..|pieces| - 1]) + pieces[|pieces| - 1]
  }
}
