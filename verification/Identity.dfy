/**
 Endpoint identities: 32 opaque bytes under lexicographic order, and the 12-byte
 prefix that is advertised.
 */
module Identity {
  import opened Wire

  const ENDPOINT_LEN := 32
  const KEY_PREFIX_LEN := 12

  /** A handle for a BLE pipe; 0 is the local address and is never minted. */
  type ConnId = nat

  type EndpointId = e: Bytes | |e| == ENDPOINT_LEN witness seq(ENDPOINT_LEN, i => 0)
  type KeyPrefix = p: Bytes | |p| == KEY_PREFIX_LEN witness seq(KEY_PREFIX_LEN, i => 0)

  function PrefixOf(e: EndpointId): KeyPrefix {
    e[..KEY_PREFIX_LEN]
  }

  /** Lexicographic order on byte strings. */
  predicate Less(a: Bytes, b: Bytes) {
    if a == [] || b == [] then a == [] && b != []
    else a[0] < b[0] || (a[0] == b[0] && Less(a[1..], b[1..]))
  }

  lemma {:induction false} LessTotal(a: Bytes, b: Bytes)
    ensures a == b || Less(a, b) || Less(b, a)
  {
    if a != [] && b != [] && a[0] == b[0] {
      LessTotal(a[1..], b[1..]);
      assert a == [a[0]] + a[1..] && b == [b[0]] + b[1..];
    }
  }

  lemma {:induction false} LessAsymmetric(a: Bytes, b: Bytes)
    ensures !(Less(a, b) && Less(b, a))
  {
    if a != [] && b != [] {
      LessAsymmetric(a[1..], b[1..]);
    }
  }

  /** Different prefixes decide the order. */
  lemma {:induction false} LessByPrefix(a: Bytes, b: Bytes, k: nat)
    requires k <= |a| && k <= |b| && a[..k] != b[..k]
    ensures Less(a[..k], b[..k]) <==> Less(a, b)
  {
    if k > 0 && a[0] == b[0] {
      var x, y := a[..k], b[..k];
      assert x[1..] == a[1..][..k - 1] && y[1..] == b[1..][..k - 1];
      assert x == [x[0]] + x[1..] && y == [y[0]] + y[1..];
      LessByPrefix(a[1..], b[1..], k - 1);
    }
  }
}
