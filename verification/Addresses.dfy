/** Listening addresses and when two of them collide
    (crates/fwm-core/src/model.rs, `overlaps`; crates/fwm-core/src/cleanup/remote_helper.py, `overlaps`). */
module Addresses {
  /** A literal address as written; an IPv6 address is split into its upper 96 and lower 32 bits. */
  datatype Ip = V4(bits: bv32) | V6(high: bv96, low: bv32)

  datatype Socket = Socket(ip: Ip, port: nat)

  const MAPPED_PREFIX: bv96 := 0xFFFF

  /** IPv4-mapped IPv6 addresses (`::ffff:a.b.c.d`) denote the IPv4 address. */
  function Canonical(ip: Ip): Ip {
    match ip
    case V6(high, low) => if high == MAPPED_PREFIX then V4(low) else ip
    case V4(_) => ip
  }

  predicate Unspecified(ip: Ip) {
    ip == V4(0) || ip == V6(0, 0)
  }

  predicate IpsOverlap(a: Ip, b: Ip) {
    match (Canonical(a), Canonical(b))
    case (V4(_), V4(_)) => Canonical(a) == Canonical(b) || Unspecified(Canonical(a)) || Unspecified(Canonical(b))
    case (V6(_, _), V6(_, _)) => Canonical(a) == Canonical(b) || Unspecified(Canonical(a)) || Unspecified(Canonical(b))
    case (V4(_), V6(_, _)) => Unspecified(Canonical(b))
    case (V6(_, _), V4(_)) => Unspecified(Canonical(a))
  }

  predicate Overlaps(a: Socket, b: Socket) {
    a.port == b.port && IpsOverlap(a.ip, b.ip)
  }

  /** The remote helper's own test: different families collide only through the IPv6 wildcard. */
  predicate HelperOverlaps(a: Ip, b: Ip) {
    var left, right := Canonical(a), Canonical(b);
    if left.V4? != right.V4? then (left.V6? && Unspecified(left)) || (right.V6? && Unspecified(right))
    else left == right || Unspecified(left) || Unspecified(right)
  }

  /** Does a socket bound to `bind` receive traffic for the canonical destination `to`? */
  predicate Covers(bind: Ip, to: Ip) {
    match Canonical(bind)
    case V4(bits) => to.V4? && (bits == 0 || bits == to.bits)
    case V6(high, low) => (high == 0 && low == 0) || to == V6(high, low)
  }

  predicate IsCanonical(ip: Ip) {
    Canonical(ip) == ip
  }

  /** Two binds overlap exactly when some destination would reach both. */
  lemma OverlapMeansSharedDestination(a: Ip, b: Ip)
    ensures IpsOverlap(a, b) <==> exists to :: IsCanonical(to) && Covers(a, to) && Covers(b, to)
  {
    if IpsOverlap(a, b) {
      var left, right := Canonical(a), Canonical(b);
      CanonicalIsStable(a);
      CanonicalIsStable(b);
      var to := if left == V6(0, 0) || (left == V4(0) && right != V6(0, 0)) then right else left;
      assert IsCanonical(to) && Covers(a, to) && Covers(b, to);
    }
  }

  lemma CanonicalIsStable(ip: Ip)
    ensures IsCanonical(Canonical(ip))
  {
  }

  /** Two spellings denote one address exactly if they are equal or one is the IPv4-mapped form of the other. */
  lemma MappedIsTheSameAddress(a: Ip, b: Ip)
    ensures Canonical(a) == Canonical(b) <==>
              a == b || (a.V4? && b == V6(0xFFFF, a.bits)) || (b.V4? && a == V6(0xFFFF, b.bits))
  {
  }

  lemma OverlapIsSymmetric(a: Socket, b: Socket)
    ensures Overlaps(a, b) <==> Overlaps(b, a)
  {
  }

  /** The manager and the remote helper agree on which addresses collide. */
  lemma HelperAgrees(a: Ip, b: Ip)
    ensures HelperOverlaps(a, b) <==> IpsOverlap(a, b)
  {
  }
}
