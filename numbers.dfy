/** Integer minimum and maximum, as `Math.min` and `Math.max` compute them on the values used here. */
module Numbers {

  function Min(a: int, b: int): (m: int)
    ensures m <= a && m <= b
    ensures m == a || m == b
  {
    if a < b then a else b
  }

  function Max(a: int, b: int): (m: int)
    ensures a <= m && b <= m
    ensures m == a || m == b
  {
    if a < b then b else a
  }
}
