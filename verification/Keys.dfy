// Byte keys: the database key of an identifier (api/bolt/internal/db.go) and the
// cache key of an endpoint, Go's conversion of an integer to a string.
module Keys {
  import opened Collections

  const TWO_63: int := 0x8000_0000_0000_0000
  const TWO_64: int := 0x1_0000_0000_0000_0000

  type Int64 = v: int | -TWO_63 <= v < TWO_63
  type Byte = b: int | 0 <= b < 256
  type Key = seq<Byte>

  // Conversion of a signed 64-bit integer to an unsigned one.
  function Uint64(v: Int64): (u: int)
    ensures 0 <= u < TWO_64
  {
    if v < 0 then v + TWO_64 else v
  }

  function Power256(n: nat): nat {
    if n == 0 then 1 else 256 * Power256(n - 1)
  }

  // The n low bytes of u, most significant first.
  function BigEndian(u: nat, n: nat): (key: Key)
    ensures |key| == n
  {
    if n == 0 then [] else BigEndian(u / 256, n - 1) + [u % 256]
  }

  function FromBigEndian(key: Key): nat {
    if key == [] then 0 else 256 * FromBigEndian(key[..|key| - 1]) + key[|key| - 1]
  }

  function IdKey(v: Int64): Key {
    BigEndian(Uint64(v), 8)
  }

  method Itob(v: Int64) returns (b: array<Byte>)
    ensures fresh(b)
    ensures b[..] == IdKey(v)
  {
    b := new Byte[8](_ => 0);
    var rest: nat := Uint64(v);
    var i := 8;
    while i > 0
      invariant 0 <= i <= 8
      invariant IdKey(v) == BigEndian(rest, i) + b[i..]
    {
      i := i - 1;
      b[i] := rest % 256;
      assert BigEndian(rest, i + 1) + b[i + 1..] == BigEndian(rest / 256, i) + b[i..];
      rest := rest / 256;
    }
  }

  // The order in which a cursor visits keys: bytewise, a proper prefix first.
  predicate Before(a: Key, b: Key) {
    b != [] && (a == [] || a[0] < b[0] || (a[0] == b[0] && Before(a[1..], b[1..])))
  }

  lemma {:induction false} BeforeSnoc(a: Key, b: Key, x: Byte, y: Byte)
    requires |a| == |b|
    ensures Before(a + [x], b + [y]) <==> Before(a, b) || (a == b && x < y)
  {
    if a == [] {
    } else {
      assert (a + [x])[1..] == a[1..] + [x] && (b + [y])[1..] == b[1..] + [y];
      BeforeSnoc(a[1..], b[1..], x, y);
      assert a == [a[0]] + a[1..] && b == [b[0]] + b[1..];
    }
  }

  lemma {:induction false} BigEndianRoundTrip(u: nat, n: nat)
    requires u < Power256(n)
    ensures FromBigEndian(BigEndian(u, n)) == u
  {
    if n > 0 {
      BigEndianRoundTrip(u / 256, n - 1);
      assert BigEndian(u, n)[..n - 1] == BigEndian(u / 256, n - 1);
    }
  }

  lemma {:induction false} BigEndianOrder(u: nat, w: nat, n: nat)
    requires u < Power256(n) && w < Power256(n)
    ensures Before(BigEndian(u, n), BigEndian(w, n)) <==> u < w
  {
    if n > 0 {
      LeadingOrder(u, w);
      BigEndianOrder(u / 256, w / 256, n - 1);
      BeforeSnoc(BigEndian(u / 256, n - 1), BigEndian(w / 256, n - 1), u % 256, w % 256);
      BigEndianRoundTrip(u / 256, n - 1);
      BigEndianRoundTrip(w / 256, n - 1);
    }
  }

  // Numbers compare by their leading digits, and by the last when those are equal.
  lemma LeadingOrder(u: nat, w: nat)
    ensures u < w <==> u / 256 < w / 256 || (u / 256 == w / 256 && u % 256 < w % 256)
  {
  }

  lemma Power256Eight()
    ensures Power256(8) == TWO_64
  {
  }

  // Distinct identifiers have distinct keys, and keys are visited in the order of the
  // unsigned values: numeric order among non-negative identifiers, negative ones last.
  lemma IdKeyOrder(v: Int64, w: Int64)
    ensures IdKey(v) == IdKey(w) <==> v == w
    ensures Before(IdKey(v), IdKey(w)) <==> Uint64(v) < Uint64(w)
    ensures v >= 0 && w >= 0 ==> (Before(IdKey(v), IdKey(w)) <==> v < w)
  {
    Power256Eight();
    BigEndianOrder(Uint64(v), Uint64(w), 8);
    BigEndianRoundTrip(Uint64(v), 8);
    BigEndianRoundTrip(Uint64(w), 8);
  }

  // A number without its k last bytes.
  function Shifted(u: nat, k: nat): nat {
    if k == 0 then u else Shifted(u / 256, k - 1)
  }

  // Each byte of an encoding is the last one that is left after shifting out those behind it.
  lemma {:induction false} BigEndianBytes(u: nat, n: nat, i: nat)
    requires i < n
    ensures BigEndian(u, n)[i] == Shifted(u, n - 1 - i) % 256
  {
    if i < n - 1 {
      BigEndianBytes(u / 256, n - 1, i);
    }
  }

  // Visiting records in key order is visiting them in identifier order.
  lemma CursorOrderIsIdOrder(ids: seq<Int64>)
    requires forall i :: 0 <= i < |ids| ==> ids[i] >= 0
    ensures Ascending(ids) <==> forall i, j :: 0 <= i < j < |ids| ==> Before(IdKey(ids[i]), IdKey(ids[j]))
  {
    forall i, j | 0 <= i < j < |ids|
      ensures ids[i] < ids[j] <==> Before(IdKey(ids[i]), IdKey(ids[j]))
    {
      IdKeyOrder(ids[i], ids[j]);
    }
  }

  const REPLACEMENT: int := 0xFFFD

  // The code point Go encodes for an integer: U+FFFD stands for every integer that is
  // not a code point, the surrogates included.
  function Rune(id: int): (r: int)
    ensures 0 <= r <= 0x10FFFF
  {
    if id < 0 || id > 0x10FFFF || 0xD800 <= id <= 0xDFFF then REPLACEMENT else id
  }

  // UTF-8, section 3 of RFC 3629.
  function EncodeRune(r: int): Key
    requires 0 <= r <= 0x10FFFF
  {
    if r < 0x80 then [r]
    else if r < 0x800 then [0xC0 + r / 64, 0x80 + r % 64]
    else if r < 0x1_0000 then [0xE0 + r / 4096, 0x80 + r / 64 % 64, 0x80 + r % 64]
    else [0xF0 + r / 262144, 0x80 + r / 4096 % 64, 0x80 + r / 64 % 64, 0x80 + r % 64]
  }

  function DecodeRune(key: Key): int {
    if |key| == 1 then key[0]
    else if |key| == 2 then
      var a: int, b: int := key[0], key[1];
      (a - 0xC0) * 64 + (b - 0x80)
    else if |key| == 3 then
      var a: int, b: int, c: int := key[0], key[1], key[2];
      (a - 0xE0) * 4096 + (b - 0x80) * 64 + (c - 0x80)
    else if |key| == 4 then
      var a: int, b: int, c: int, d: int := key[0], key[1], key[2], key[3];
      (a - 0xF0) * 262144 + (b - 0x80) * 4096 + (c - 0x80) * 64 + (d - 0x80)
    else -1
  }

  // string(endpoint.ID): the key of an endpoint in the proxy cache.
  function ProxyKey(id: int): Key {
    EncodeRune(Rune(id))
  }

  lemma RuneRoundTrip(r: int)
    requires 0 <= r <= 0x10FFFF
    ensures DecodeRune(EncodeRune(r)) == r
  {
    if r < 0x80 {
    } else if r < 0x800 {
    } else if r < 0x1_0000 {
      assert r / 64 / 64 == r / 4096;
    } else {
      assert r / 64 / 64 == r / 4096;
      assert r / 4096 / 64 == r / 262144;
    }
  }

  // The bytes are those of RFC 3629: the first says how many follow, and those that follow are
  // continuation bytes with six bits each.
  lemma RuneBytes(r: int)
    requires 0 <= r <= 0x10FFFF
    ensures var key := EncodeRune(r);
            && |key| == (if r < 0x80 then 1 else if r < 0x800 then 2 else if r < 0x1_0000 then 3 else 4)
            && (|key| == 1 ==> key[0] < 0x80)
            && (|key| == 2 ==> 0xC2 <= key[0] < 0xE0)
            && (|key| == 3 ==> 0xE0 <= key[0] < 0xF0)
            && (|key| == 4 ==> 0xF0 <= key[0] < 0xF5)
            && forall i :: 0 < i < |key| ==> 0x80 <= key[i] < 0xC0
  {
  }

  // Two identifiers share a cache key exactly when they are equal or both print as U+FFFD.
  lemma ProxyKeyCollision(a: int, b: int)
    ensures ProxyKey(a) == ProxyKey(b) <==> a == b || (Rune(a) == REPLACEMENT && Rune(b) == REPLACEMENT)
  {
    RuneRoundTrip(Rune(a));
    RuneRoundTrip(Rune(b));
  }
}
