/** Powers of two, for significands and for doubling delays. */
module Powers {

  function Pow2(k: nat): (p: nat)
    ensures 1 <= p
  {
    if k == 0 then 1 else 2 * Pow2(k - 1)
  }
}
