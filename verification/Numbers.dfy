/** std::clamp. */
module Numbers {
  function Clamp(x: int, lo: int, hi: int): (y: int)
    ensures lo <= hi ==> lo <= y <= hi
    ensures lo <= x <= hi ==> y == x
  {
    if x < lo then lo else if x > hi then hi else x
  }
}
