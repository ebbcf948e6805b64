/** Values as they arrive from the server's JSON payload, already parsed. */
module Values {

  /** A JavaScript value that may be absent: `None` stands for `null` or `undefined`. */
  datatype Option<+T> = None | Some(value: T)

  /** One entry of a chart series: a JSON number or `null`. */
  datatype Value = Num(n: real) | Null

  /** Reading `data[i]` in JavaScript: an index past the end yields `undefined`,
      which behaves like `null` in every comparison the hooks make. */
  function Lookup(data: seq<Value>, i: nat): (v: Value)
    ensures i < |data| ==> v == data[i]
    ensures |data| <= i ==> v == Null
  {
    if i < |data| then data[i] else Null
  }

  /** The guard `value > 0` of both label plugins: `null > 0` and
      `undefined > 0` are false in JavaScript, so only a positive number passes. */
  predicate IsPositive(v: Value) {
    v.Num? && v.n > 0.0
  }
}
