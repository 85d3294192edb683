/** Small shared vocabulary: optional results, bytes, little-endian integers
    and the subsequence relation used to state order-preserving loss. */
module Prelude {

  datatype Option<+T> = None | Some(value: T) {
    predicate IsFailure() {
      None?
    }

    function PropagateFailure<U>(): Option<U>
      requires None?
    {
      None
    }

    function Extract(): T
      requires Some?
    {
      value
    }
  }

  type Byte = b: int | 0 <= b < 256
  type Bytes = seq<Byte>

  const TWO_16: int := 0x1_0000
  const TWO_31: int := 0x8000_0000
  const TWO_32: int := 0x1_0000_0000
  const TWO_64: int := 0x1_0000_0000_0000_0000

  type Uint16 = n: int | 0 <= n < 0x1_0000
  type Uint32 = n: int | 0 <= n < 0x1_0000_0000
  type Int32 = n: int | -0x8000_0000 <= n < 0x8000_0000
  type Uint64 = n: int | 0 <= n < 0x1_0000_0000_0000_0000
  type Int64 = n: int | -0x8000_0000_0000_0000 <= n < 0x8000_0000_0000_0000

  function Min(a: int, b: int): int {
    if a <= b then a else b
  }

  function Max(a: int, b: int): int {
    if a >= b then a else b
  }

  function Clamp(value: int, low: int, high: int): int
    requires low <= high
  {
    if value < low then low else if value > high then high else value
  }

  // ---------------------------------------------------------------- integers

  function Pow256(count: nat): nat {
    if count == 0 then 1 else 256 * Pow256(count - 1)
  }

  function LittleEndian(n: nat, count: nat): (bytes: Bytes)
    ensures |bytes| == count
  {
    if count == 0 then [] else [n % 256] + LittleEndian(n / 256, count - 1)
  }

  function FromLittleEndian(bytes: Bytes): nat {
    if bytes == [] then 0 else bytes[0] + 256 * FromLittleEndian(bytes[1..])
  }

  lemma {:induction false} LittleEndianRoundTrip(n: nat, count: nat)
    requires n < Pow256(count)
    ensures FromLittleEndian(LittleEndian(n, count)) == n
  {
    if count > 0 {
      LittleEndianRoundTrip(n / 256, count - 1);
      assert LittleEndian(n, count)[1..] == LittleEndian(n / 256, count - 1);
    }
  }

  lemma {:induction false} FromLittleEndianBound(bytes: Bytes)
    ensures FromLittleEndian(bytes) < Pow256(|bytes|)
  {
    if bytes != [] {
      FromLittleEndianBound(bytes[1..]);
    }
  }

  lemma Pow256Values()
    ensures Pow256(1) == 256 && Pow256(2) == TWO_16 && Pow256(4) == TWO_32 && Pow256(8) == TWO_64
  {
    assert Pow256(3) == 256 * Pow256(2);
    assert Pow256(5) == 256 * Pow256(4);
    assert Pow256(7) == 256 * Pow256(6);
  }

  lemma {:induction false} Multiple(m: nat, d: nat)
    requires d >= 1
    ensures m * d >= m
  {
    if d > 1 {
      Multiple(m, d - 1);
      assert m * d == m * (d - 1) + m;
    }
  }

  // A remainder below m belongs to one quotient only.
  lemma ModuloOf(n: nat, q: nat, m: nat, e: nat)
    requires e < m && n == m * q + e
    ensures n % m == e && n / m == q
  {
    SameQuotient(m, n / m, n % m, q, e);
  }

  lemma SameQuotient(m: nat, p: nat, d: nat, q: nat, e: nat)
    requires d < m && e < m && m * p + d == m * q + e
    ensures p == q && d == e
  {
    if p < q {
      assert m * q - m * p == m * (q - p);
      Multiple(m, q - p);
    } else if q < p {
      assert m * p - m * q == m * (p - q);
      Multiple(m, p - q);
    }
  }

  // ------------------------------------------------------------ subsequences

  // a is obtained from b by deleting elements, keeping the order.
  predicate Sub<T(==)>(a: seq<T>, b: seq<T>) {
    if a == [] then true
    else if b == [] then false
    else (a[0] == b[0] && Sub(a[1..], b[1..])) || Sub(a, b[1..])
  }

  lemma {:induction false} SubRefl<T>(a: seq<T>)
    ensures Sub(a, a)
  {
    if a != [] {
      SubRefl(a[1..]);
    }
  }

  lemma {:induction false} SubTail<T>(a: seq<T>, b: seq<T>)
    requires a != [] && Sub(a, b)
    ensures Sub(a[1..], b)
    decreases |b|
  {
    if a[0] == b[0] && Sub(a[1..], b[1..]) {
    } else {
      SubTail(a, b[1..]);
    }
  }

  lemma {:induction false} SubTrans<T>(a: seq<T>, b: seq<T>, c: seq<T>)
    requires Sub(a, b) && Sub(b, c)
    ensures Sub(a, c)
    decreases |b| + |c|
  {
    if a != [] {
      if b[0] == c[0] && Sub(b[1..], c[1..]) {
        if a[0] == b[0] && Sub(a[1..], b[1..]) {
          SubTrans(a[1..], b[1..], c[1..]);
        } else {
          SubTrans(a, b[1..], c[1..]);
        }
      } else {
        SubTrans(a, b, c[1..]);
      }
    }
  }

  lemma {:induction false} SubConcat<T>(a: seq<T>, b: seq<T>, c: seq<T>, d: seq<T>)
    requires Sub(a, b) && Sub(c, d)
    ensures Sub(a + c, b + d)
    decreases |b| + |d|
  {
    if b == [] {
      assert a + c == c && b + d == d;
    } else {
      assert (b + d)[1..] == b[1..] + d;
      if a != [] && a[0] == b[0] && Sub(a[1..], b[1..]) {
        assert (a + c)[1..] == a[1..] + c;
        SubConcat(a[1..], b[1..], c, d);
      } else {
        SubConcat(a, b[1..], c, d);
      }
    }
  }

  lemma SubSuffix<T>(b: seq<T>, drop: nat)
    requires drop <= |b|
    ensures Sub(b[drop..], b)
  {
    SubRefl(b[drop..]);
    SubConcat([], b[..drop], b[drop..], b[drop..]);
    assert [] + b[drop..] == b[drop..] && b[..drop] + b[drop..] == b;
  }

  // ------------------------------------------------------------- flattening

  function Flatten<T>(parts: seq<seq<T>>): seq<T> {
    if parts == [] then [] else parts[0] + Flatten(parts[1..])
  }

  lemma {:induction false} FlattenConcat<T>(a: seq<seq<T>>, b: seq<seq<T>>)
    ensures Flatten(a + b) == Flatten(a) + Flatten(b)
  {
    if a == [] {
      assert a + b == b;
    } else {
      assert (a + b)[1..] == a[1..] + b;
      FlattenConcat(a[1..], b);
    }
  }
}
