/** Types shared by all components. */
module Common {
  datatype Option<+T> = None | Some(value: T)

  /** The hash of a tag or address: four shifted copies combined, reduced to the number of buckets. */
  function Hash(tag: nat, hsize: nat): (h: nat)
    requires hsize > 0
    ensures h < hsize
  {
    var k := (tag % 0x1_0000_0000) as bv32;
    ((k >> 24) ^ (k >> 16) ^ (k >> 8) ^ k) as nat % hsize
  }
}
