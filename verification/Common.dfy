/** Vocabulary shared by the whole model: optional values, errno codes and machine-integer limits. */
module Common {

  /** The address of an atomic object. */
  type Addr = nat

  datatype Option<+T> = None | Some(value: T)

  // errno values, with the numbers Linux gives them.
  const EINTR: int := 4
  const EAGAIN: int := 11
  const ETIMEDOUT: int := 110

  const INT_MAX: int := 0x7FFF_FFFF
  const UINT32_MAX: int := 0xFFFF_FFFF
  const TWO_32: int := 0x1_0000_0000
  const TWO_64: int := 0x1_0000_0000_0000_0000

  /** The wake-all request, `(unsigned) -1`. */
  const WAKE_ALL: int := UINT32_MAX

  /** The results of a backend wait after which the wait loops give up with -1. */
  predicate HardError(res: int) {
    res < 0 && res != -EAGAIN && res != -EINTR && res != -ETIMEDOUT
  }

  /** `(int) x` of an unsigned x, two's complement. */
  function AsInt(x: nat): int {
    if x <= INT_MAX then x else x - TWO_32
  }

  /** It is the one int that differs from x by a multiple of 2^32. */
  lemma AsIntExact(x: nat)
    requires x <= UINT32_MAX
    ensures AsInt(x) + INT_MAX + 1 >= 0 && AsInt(x) <= INT_MAX && (AsInt(x) == x || AsInt(x) + TWO_32 == x)
  {
  }

  function Min(x: int, y: int): int {
    if x <= y then x else y
  }

  function Max(x: int, y: int): int {
    if x >= y then x else y
  }

  lemma SubsetCard<T>(x: set<T>, y: set<T>)
    requires x <= y
    ensures |x| <= |y|
  {
    assert y == x + (y - x);
  }
}
