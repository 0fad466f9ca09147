/** `Math.max` on two integers, used by the login streak and by the cart's quantity clamp. */
module Numbers {
  function Max(a: int, b: int): (r: int)
    ensures r >= a && r >= b && (r == a || r == b)
  {
    if a >= b then a else b
  }
}
