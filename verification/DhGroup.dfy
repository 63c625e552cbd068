/**
 The Diffie-Hellman session: exponents, encodings and key agreement over the second Oakley group,
 section 6.2 of RFC 2409.  HKDF is any function of the padded secret.
 */
module DhGroup {
  import opened Options

  type Byte = b: int | 0 <= b < 256
  type Bytes = seq<Byte>

  const PRIME: nat :=
    0xFFFFFFFFFFFFFFFFC90FDAA22168C234C4C6628B80DC1CD129024E088A67CC74020BBEA63B139B22514A08798E3404DDEF9519B3CD3A431B302B0A6DF25F14374FE1356D6D51C245E485B576625E7EC6F44C42E9A637ED6B0BFF5CB6F406B7EDEE386BFB5A899FA5AE9F24117C4B1FE649286651ECE65381FFFFFFFFFFFFFFFF
  const PRIME_BYTES := 128

  // ---- big-endian bytes ----

  function Pow(b: nat, e: nat): (p: nat)
    ensures b > 0 ==> p > 0
  {
    if e == 0 then 1 else b * Pow(b, e - 1)
  }

  function FromBe(b: Bytes): nat {
    if b == [] then 0 else FromBe(b[..|b| - 1]) * 256 + b[|b| - 1]
  }

  /** The `n` low bytes. */
  function ToBe(x: nat, n: nat): (b: Bytes)
    ensures |b| == n
  {
    if n == 0 then [] else ToBe(x / 256, n - 1) + [x % 256]
  }

  lemma {:induction false} BeRoundTrip(x: nat, n: nat)
    requires x < Pow(256, n)
    ensures FromBe(ToBe(x, n)) == x
  {
    if n > 0 {
      assert x / 256 < Pow(256, n - 1);
      BeRoundTrip(x / 256, n - 1);
      assert ToBe(x, n)[..n - 1] == ToBe(x / 256, n - 1);
    }
  }

  lemma {:induction false} FromBeBound(b: Bytes)
    ensures FromBe(b) < Pow(256, |b|)
  {
    if b != [] {
      FromBeBound(b[..|b| - 1]);
    }
  }

  function Zeros(n: nat): (z: Bytes)
    ensures |z| == n && forall i :: 0 <= i < n ==> z[i] == 0
  {
    seq(n, _ => 0)
  }

  /** Leading zeros do not change the value. */
  lemma {:induction false} LeadingZeros(n: nat, b: Bytes)
    ensures FromBe(Zeros(n) + b) == FromBe(b)
  {
    if b != [] {
      var m := |b| - 1;
      LeadingZeros(n, b[..m]);
      assert (Zeros(n) + b)[..n + m] == Zeros(n) + b[..m];
    } else if n > 0 {
      LeadingZeros(n - 1, []);
      assert (Zeros(n) + [])[..n - 1] == Zeros(n - 1) + [];
    }
  }

  // ---- arithmetic ----

  lemma MulAssoc(x: nat, y: nat, z: nat)
    ensures x * (y * z) == (x * y) * z
  {
  }

  lemma {:induction false} PowSplit(b: nat, m: nat, n: nat)
    ensures Pow(b, m + n) == Pow(b, m) * Pow(b, n)
  {
    if m > 0 {
      PowSplit(b, m - 1, n);
      MulAssoc(b, Pow(b, m - 1), Pow(b, n));
      assert Pow(b, m + n) == b * Pow(b, m + n - 1);
    }
  }

  lemma {:induction false} Squared(n: nat, w: nat)
    requires Pow(256, n) == w
    ensures Pow(256, 2 * n) == w * w
  {
    PowSplit(256, n, n);
  }

  /** The group fits the 128 bytes it is written in. */
  lemma {:induction false} Width()
    ensures PRIME < Pow(256, PRIME_BYTES)
  {
    assert Pow(256, 1) == 0x100;
    Squared(1, 0x100);
    Squared(2, 0x1_0000);
    Squared(4, 0x1_0000_0000);
    Squared(8, 0x1_0000_0000_0000_0000);
    Squared(16, 0x1_0000_0000_0000_0000_0000_0000_0000_0000);
    Squared(32, 0x1_0000_0000_0000_0000_0000_0000_0000_0000_0000_0000_0000_0000_0000_0000_0000_0000);
    var half := 0x1_0000_0000_0000_0000_0000_0000_0000_0000_0000_0000_0000_0000_0000_0000_0000_0000_0000_0000_0000_0000_0000_0000_0000_0000_0000_0000_0000_0000_0000_0000_0000_0000;
    Squared(64, half);
  }

  lemma MulAtLeast(p: nat, d: nat)
    requires d >= 1
    ensures p * d >= p
  {
  }

  /** Quotient and remainder are determined. */
  lemma {:induction false} DivModUnique(x: nat, p: nat, q: nat, r: nat)
    requires r < p && x == p * q + r
    ensures x / p == q && x % p == r
  {
    var q', r' := x / p, x % p;
    assert x == p * q' + r';
    if q' > q {
      assert p * q' == p * q + p * (q' - q);
      MulAtLeast(p, q' - q);
    } else if q > q' {
      assert p * q == p * q' + p * (q - q');
      MulAtLeast(p, q - q');
    }
  }

  lemma {:induction false} ModPlus(p: nat, k: nat, r: nat)
    requires p > 0
    ensures (p * k + r) % p == r % p
  {
    var q, s := r / p, r % p;
    assert p * k + r == p * (k + q) + s by { assert r == p * q + s; assert p * (k + q) == p * k + p * q; }
    DivModUnique(p * k + r, p, k + q, s);
  }

  lemma {:induction false} ModMul(x: nat, y: nat, p: nat)
    requires p > 0
    ensures ((x % p) * y) % p == (x * y) % p
  {
    var q, r := x / p, x % p;
    assert x == p * q + r;
    assert x * y == p * (q * y) + r * y by { MulAssoc(p, q, y); Distribute(p * q, r, y); }
    ModPlus(p, q * y, r * y);
  }

  lemma Distribute(a: nat, b: nat, y: nat)
    ensures (a + b) * y == a * y + b * y
  {
  }

  lemma MulCommutes(x: nat, y: nat)
    ensures x * y == y * x
  {
  }

  lemma {:induction false} MulCongruent(x: nat, a: nat, b: nat, p: nat)
    requires p > 0 && a % p == b % p
    ensures (x * a) % p == (x * b) % p
  {
    MulCommutes(x, a);
    MulCommutes(x, b);
    ModMul(a, x, p);
    ModMul(b, x, p);
  }

  /** Reducing the base first changes no power. */
  lemma {:induction false} PowModBase(x: nat, n: nat, p: nat)
    requires p > 0
    ensures Pow(x % p, n) % p == Pow(x, n) % p
  {
    if n > 0 {
      var a, b := Pow(x % p, n - 1), Pow(x, n - 1);
      PowModBase(x, n - 1, p);
      ModMul(x, a, p);
      MulCongruent(x, a, b, p);
    }
  }

  lemma {:induction false} PowPow(x: nat, a: nat, b: nat)
    ensures Pow(Pow(x, a), b) == Pow(x, a * b)
  {
    if b > 0 {
      PowPow(x, a, b - 1);
      assert a * b == a + a * (b - 1);
      PowSplit(x, a, a * (b - 1));
    } else {
      assert a * b == 0;
    }
  }

  /** An odd number above one divides no power of two. */
  lemma {:induction false} OddDividesNone(p: nat, n: nat)
    requires p > 1 && p % 2 == 1
    ensures Pow(2, n) % p != 0
  {
    if n > 0 {
      OddDividesNone(p, n - 1);
      var k := Pow(2, n - 1);
      if (2 * k) % p == 0 {
        Halve(p, k);
      }
    }
  }

  lemma {:induction false} Halve(p: nat, k: nat)
    requires p > 1 && p % 2 == 1 && (2 * k) % p == 0
    ensures k % p == 0
  {
    var q := 2 * k / p;
    assert 2 * k == p * q;
    EvenFactor(p, q, k);
    var h := q / 2;
    assert k == p * h by { assert p * q == p * (2 * h) == 2 * (p * h); }
    DivModUnique(k, p, h, 0);
  }

  lemma {:induction false} EvenFactor(p: nat, q: nat, k: nat)
    requires p % 2 == 1 && p * q == 2 * k
    ensures q % 2 == 0
  {
    if q % 2 == 1 { OddTimesOdd(p, q); }
  }

  lemma {:induction false} OddTimesOdd(p: nat, q: nat)
    requires p % 2 == 1 && q % 2 == 1
    ensures (p * q) % 2 == 1
  {
    var a, b := p / 2, q / 2;
    assert p == 2 * a + 1 && q == 2 * b + 1;
    assert p * q == 2 * (a * (2 * b + 1) + b) + 1;
  }

  // ---- the encodings ----

  lemma {:induction false} NonZero(b: Bytes)
    requires b != [] && b[0] != 0
    ensures FromBe(b) > 0
  {
    if |b| > 1 { NonZero(b[..|b| - 1]); }
  }

  /** The one encoding without leading zeros, as a function. */
  function Minimal(x: nat): Bytes {
    if x < 256 then [x] else Minimal(x / 256) + [x % 256]
  }

  lemma {:induction false} MinimalIs(x: nat, r: Bytes)
    requires r != [] && FromBe(r) == x && (r[0] == 0 ==> r == [0])
    ensures r == Minimal(x)
  {
    var m := |r| - 1;
    if m > 0 {
      NonZero(r[..m]);
      MinimalIs(FromBe(r[..m]), r[..m]);
      assert x / 256 == FromBe(r[..m]) && x % 256 == r[m];
      assert r == r[..m] + [r[m]];
    }
  }

  lemma {:induction false} StripIs(bytes: Bytes, start: nat)
    requires start < |bytes| && (forall i :: 0 <= i < start ==> bytes[i] == 0)
    requires bytes[start] != 0 || start == |bytes| - 1
    ensures bytes[start..] == Minimal(FromBe(bytes))
  {
    assert bytes == Zeros(start) + bytes[start..];
    LeadingZeros(start, bytes[start..]);
    MinimalIs(FromBe(bytes), bytes[start..]);
  }

  lemma {:induction false} MinimalValue(x: nat)
    ensures Minimal(x) != [] && FromBe(Minimal(x)) == x && (x > 0 ==> Minimal(x)[0] != 0)
  {
    if x >= 256 {
      MinimalValue(x / 256);
      assert Minimal(x)[..|Minimal(x)| - 1] == Minimal(x / 256);
    } else {
      assert [x][..0] == [];
    }
  }

  /** `minimal_be` on an `n`-byte number: no leading zeros, and one zero byte for zero. */
  method StripZeros(x: nat, n: nat) returns (r: Bytes)
    requires n > 0 && x < Pow(256, n)
    ensures r == Minimal(x) && 1 <= |r| <= n
  {
    var bytes := ToBe(x, n);
    BeRoundTrip(x, n);
    var start := 0;
    while start < |bytes| && bytes[start] == 0
      invariant 0 <= start <= |bytes| && forall i :: 0 <= i < start ==> bytes[i] == 0
    {
      start := start + 1;
    }
    if start == |bytes| {
      start := |bytes| - 1;
    }
    StripIs(bytes, start);
    r := bytes[start..];
  }

  method MinimalBe(x: nat) returns (r: Bytes)
    requires x < Pow(256, PRIME_BYTES)
    ensures 1 <= |r| <= PRIME_BYTES && FromBe(r) == x && (x > 0 ==> r[0] != 0) && (x == 0 ==> r == [0])
    ensures r == Minimal(x)
  {
    MinimalValue(x);
    r := StripZeros(x, PRIME_BYTES);
  }

  /** `from_be_padded`: copy into the end of a zeroed buffer. */
  method FromBePadded(bytes: Bytes) returns (x: Option<nat>)
    ensures x == Padded(bytes)
  {
    if |bytes| > PRIME_BYTES {
      return None;
    }
    var buf := new Byte[PRIME_BYTES](_ => 0);
    var at := PRIME_BYTES - |bytes|;
    for i := 0 to |bytes|
      invariant buf[..at] == Zeros(at) && buf[at..at + i] == bytes[..i]
    {
      buf[at + i] := bytes[i];
      assert buf[at..at + i + 1] == buf[at..at + i] + [bytes[i]];
    }
    assert buf[..] == Zeros(at) + bytes;
    LeadingZeros(at, bytes);
    x := Some(FromBe(buf[..]));
  }

  function Padded(bytes: Bytes): Option<nat> {
    if |bytes| > PRIME_BYTES then None else Some(FromBe(bytes))
  }

  /** Padding the minimal encoding back is the identity on every 1024-bit number. */
  lemma {:induction false} PaddedMinimal(x: nat, z: nat)
    requires x < Pow(256, PRIME_BYTES)
    ensures 1 <= |Minimal(x)| <= PRIME_BYTES && FromBe(Minimal(x)) == x
    ensures z + |Minimal(x)| <= PRIME_BYTES ==> Padded(Zeros(z) + Minimal(x)) == Some(x)
    ensures x > 0 ==> Minimal(x)[0] != 0
  {
    MinimalShort(x, PRIME_BYTES);
    MinimalValue(x);
    LeadingZeros(z, Minimal(x));
  }

  lemma {:induction false} MinimalShort(x: nat, n: nat)
    requires n > 0 && x < Pow(256, n)
    ensures 1 <= |Minimal(x)| <= n
  {
    if x >= 256 {
      assert Pow(256, 1) == 256;
      assert x / 256 < Pow(256, n - 1);
      MinimalShort(x / 256, n - 1);
    }
  }

  // ---- the key pair ----

  /** 1024-bit words wrap around. */
  function Word(x: nat): nat {
    x % Pow(256, PRIME_BYTES)
  }

  lemma {:induction false} NoWrap(x: nat)
    requires x <= PRIME
    ensures Word(x) == x
  {
    Width();
    Small(x, Pow(256, PRIME_BYTES));
  }

  lemma {:induction false} Small(x: nat, m: nat)
    requires x < m
    ensures x % m == x
  {
    DivModUnique(x, m, 0, x);
  }

  /** The exponent drawn from 128 random bytes: `raw mod (p - 3) + 2`, on 1024-bit words. */
  function PrivateOf(raw: Bytes): nat
    requires |raw| == PRIME_BYTES
  {
    NoWrap(PRIME - 3);
    Word(FromBe(raw) % Word(PRIME - 3) + 2)
  }

  function PublicOf(x: nat): nat {
    Pow(2, x) % PRIME
  }

  /** The exponent is in [2, p - 2], with no wrap-around on the way. */
  lemma {:induction false} ExponentOk(raw: Bytes)
    requires |raw| == PRIME_BYTES
    ensures PrivateOf(raw) == FromBe(raw) % (PRIME - 3) + 2 && 2 <= PrivateOf(raw) <= PRIME - 2
  {
    NoWrap(PRIME - 3);
    NoWrap(FromBe(raw) % (PRIME - 3) + 2);
  }

  /** The public key of any exponent is below p and not zero, and encodes to 1 to 128 bytes with a
      first byte that is not zero. */
  lemma {:induction false} PublicOk(x: nat)
    ensures 0 < PublicOf(x) < PRIME
    ensures var key := Minimal(PublicOf(x));
            1 <= |key| <= PRIME_BYTES && key[0] != 0 && FromBe(key) == PublicOf(x)
  {
    Width();
    OddDividesNone(PRIME, x);
    PaddedMinimal(PublicOf(x), 0);
  }

  /** `generate`, from the 128 random bytes it draws. */
  method Generate(raw: Bytes) returns (private: nat, key: Bytes)
    requires |raw| == PRIME_BYTES
    ensures private == PrivateOf(raw) && 2 <= private <= PRIME - 2 && key == Minimal(PublicOf(private))
    ensures 1 <= |key| <= PRIME_BYTES && key[0] != 0 && FromBe(key) == Pow(2, private) % PRIME
  {
    var range := Word(PRIME - 3);
    NoWrap(PRIME - 3);
    var reduced := FromBe(raw) % range;
    private := Word(reduced + 2);
    ExponentOk(raw);
    PublicOk(private);
    Width();
    key := MinimalBe(Pow(2, private) % PRIME);
  }

  // ---- the shared key ----

  datatype DhResult = Key(key: Bytes) | InvalidPeerKey

  /** The key both sides mean to reach, for any extract-and-expand function of the padded secret: a
      peer key is refused exactly when it is longer than 128 bytes or not in [2, p - 2]. */
  function Derive(hkdf: Bytes -> Bytes, private: nat, peer: Bytes): DhResult {
    if |peer| > PRIME_BYTES || FromBe(peer) < 2 || FromBe(peer) > PRIME - 2 then InvalidPeerKey
    else Key(hkdf(ToBe(Pow(FromBe(peer), private) % PRIME, PRIME_BYTES)))
  }

  /** The secret fits its padding, so distinct secrets stay distinct. */
  lemma {:induction false} SecretFits(x: nat, private: nat)
    ensures FromBe(ToBe(Pow(x, private) % PRIME, PRIME_BYTES)) == Pow(x, private) % PRIME
  {
    Width();
    BeRoundTrip(Pow(x, private) % PRIME, PRIME_BYTES);
  }

  /** `derive_aes_key`: pad, compare with 1 and with `p - 1` on 1024-bit words, raise, pad again. */
  method DeriveAesKey(hkdf: Bytes -> Bytes, private: nat, peer: Bytes) returns (r: DhResult)
    ensures r == Derive(hkdf, private, peer)
    ensures r.InvalidPeerKey? <==> |peer| > PRIME_BYTES || !(2 <= FromBe(peer) <= PRIME - 2)
    ensures r.Key? ==> exists secret :: |secret| == PRIME_BYTES && r.key == hkdf(secret) && FromBe(secret) == Pow(FromBe(peer), private) % PRIME
  {
    var x := FromBePadded(peer);
    if x.None? {
      return InvalidPeerKey;
    }
    NoWrap(PRIME - 1);
    if x.value <= 1 || x.value >= Word(PRIME - 1) {
      return InvalidPeerKey;
    }
    var shared := Pow(x.value, private) % PRIME;
    SecretFits(x.value, private);
    var ikm := ToBe(shared, PRIME_BYTES);
    r := Key(hkdf(ikm));
  }

  lemma {:induction false} SharedSecret(a: nat, b: nat)
    ensures Pow(PublicOf(a), b) % PRIME == Pow(PublicOf(b), a) % PRIME
  {
    PowModBase(Pow(2, a), b, PRIME);
    PowModBase(Pow(2, b), a, PRIME);
    PowPow(2, a, b);
    PowPow(2, b, a);
    assert a * b == b * a;
  }

  /** A public key as it is sent, with some leading zeros. */
  function Sent(x: nat, zeros: nat): Bytes {
    Zeros(zeros) + Minimal(PublicOf(x))
  }

  /** For any two exponents: a side accepts the other's public key, however many leading zeros it is
      sent with in 128 bytes, exactly when it is in [2, p - 2]; and when both accept, both derive
      the same key. */
  lemma {:induction false} Agreement(hkdf: Bytes -> Bytes, a: nat, b: nat, zA: nat, zB: nat)
    ensures |Sent(a, zA)| <= PRIME_BYTES && |Sent(b, zB)| <= PRIME_BYTES ==>
              var atA := Derive(hkdf, a, Sent(b, zB));
              var atB := Derive(hkdf, b, Sent(a, zA));
              && (atA.Key? <==> 2 <= PublicOf(b) <= PRIME - 2) && (atB.Key? <==> 2 <= PublicOf(a) <= PRIME - 2)
              && (atA.Key? && atB.Key? ==> atA == atB)
  {
    Width();
    PaddedMinimal(PublicOf(a), zA);
    PaddedMinimal(PublicOf(b), zB);
    SharedSecret(a, b);
  }
}
