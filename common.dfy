/**
 * Types and constants shared by the gateway core: fixed-width integers,
 * the advertisement record handed up by the Bluetooth stack, C's integer
 * conversions, and the constants of inc/common.h.
 */
module Common {

  type byte = x: int | 0 <= x < 0x100
  type int8 = x: int | -0x80 <= x < 0x80
  type uint16 = x: int | 0 <= x < 0x1_0000
  type uint32 = x: int | 0 <= x < 0x1_0000_0000

  datatype Option<T> = None | Some(value: T)

  /* Program exit reasons */
  const EXIT_ERR_INVALID_ARGS: int := -2
  const EXIT_ERR_NULL_PTR: int := -4
  /** `EXIT_FAILURE` of the C library */
  const EXIT_FAILURE: int := 1

  /* BLE scan parameters */
  const BLE_SCAN_INIT_RETRY_LIMIT: nat := 3
  const BLE_RSSI_THRESHOLD: int := -80

  /** Sub-event code of an LE advertising report (BlueZ hci.h) */
  const EVT_LE_ADVERTISING_REPORT: byte := 0x02

  /* Gateway-wide event flag values (e_QuartzEventFlag) */
  const NormalMode: byte := 60
  const InMotionMode: byte := 61
  const InHibernationMode: byte := 62
  const TemperatureViolationMode: byte := 63

  /**
   * One advertising report: the peer address as the colon-separated text the
   * stack's `ba2str` produces, the declared payload length, and the bytes
   * starting at the payload.  The stack appends the signed RSSI right after
   * the payload, so a well-formed report has exactly `length + 1` bytes, and
   * the address text, being a C string, holds no NUL.
   */
  datatype AdvInfo = AdvInfo(bdaddrText: string, length: nat, data: seq<byte>)

  predicate WellFormed(info: AdvInfo) {
    |info.data| == info.length + 1 && '\0' !in info.bdaddrText
  }

  /** C conversion of an unsigned byte to `int8_t` (two's complement). */
  function ToInt8(b: byte): (r: int8)
    ensures r < 0 <==> b >= 0x80
    ensures (r + 0x100) % 0x100 == b
  {
    if b < 0x80 then b else b - 0x100
  }

  /** C conversion of any integer to `uint32_t` (reduction modulo 2^32). */
  function ToUint32(x: int): (r: uint32)
    ensures 0 <= x < 0x1_0000_0000 ==> r == x
    ensures (x - r) % 0x1_0000_0000 == 0
  {
    x % 0x1_0000_0000
  }

  /** C conversion of a `uint32_t` to `uint16_t`: the low 16 bits are kept. */
  function ToUint16(x: uint32): (r: uint16)
    ensures x == (x / 0x1_0000) * 0x1_0000 + r
  {
    x % 0x1_0000
  }

  /**
   * C's `/` on `int`: the quotient is truncated toward zero, unlike Dafny's
   * Euclidean division, which differs for a negative dividend.
   */
  function CDiv(a: int, b: int): (q: int)
    requires b > 0
    ensures a >= 0 ==> q == a / b
    ensures a < 0 ==> q == -((-a) / b)
  {
    if a >= 0 then a / b else -((-a) / b)
  }

  lemma {:induction false} CDivRemainder(a: int, b: int)
    requires b > 0
    ensures var r := a - CDiv(a, b) * b; -b < r < b && (a >= 0 ==> r >= 0) && (a < 0 ==> r <= 0)
  {
    if a < 0 {
      var q := (-a) / b;
      assert -a == q * b + (-a) % b;
      assert a - CDiv(a, b) * b == -((-a) % b);
    }
  }
}
