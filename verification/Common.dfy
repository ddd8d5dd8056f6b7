/** Types that several modules share. */
module Common {

  datatype Option<+T> = None | Some(value: T)

  // Bytes as bit vectors, for the ciphers, and as numbers, where lengths are computed from them.
  type Bytes = seq<bv8>

  type Octet = x: int | 0 <= x < 256
  type Octets = seq<Octet>
}
