/** Fixed-width big-endian numbers: pkg/storage/types.go and encoding/binary. */
module BigEndian {
  import opened RaftTypes

  /** The number of values n bytes can hold. */
  function Pow256(n: nat): (r: nat)
    ensures r >= 1
  {
    if n == 0 then 1 else 256 * Pow256(n - 1)
  }

  /** The low n bytes of v, most significant first. */
  function Put(v: nat, n: nat): (b: Bytes)
    ensures |b| == n
  {
    if n == 0 then [] else Put(v / 256, n - 1) + [(v % 256) as byte]
  }

  function Get(b: Bytes): nat {
    if b == [] then 0 else Get(b[..|b| - 1]) * 256 + b[|b| - 1] as nat
  }

  lemma {:induction false} GetBound(b: Bytes)
    ensures Get(b) < Pow256(|b|)
  {
    if b != [] { GetBound(b[..|b| - 1]); }
  }

  /** Writing and reading back is the identity exactly on the values that fit. */
  lemma {:induction false} GetPut(v: nat, n: nat)
    ensures Get(Put(v, n)) == v <==> v < Pow256(n)
  {
    if n > 0 {
      GetPut(v / 256, n - 1);
      var b := Put(v, n);
      assert b[..n - 1] == Put(v / 256, n - 1);
    }
    if v >= Pow256(n) { GetBound(Put(v, n)); }
  }

  /** Reading and writing back gives the same bytes. */
  lemma {:induction false} PutGet(b: Bytes)
    ensures Put(Get(b), |b|) == b
  {
    if b != [] {
      PutGet(b[..|b| - 1]);
      var x := b[|b| - 1];
      assert (Get(b[..|b| - 1]) * 256 + x as nat) / 256 == Get(b[..|b| - 1]);
      assert (Get(b[..|b| - 1]) * 256 + x as nat) % 256 == x as nat;
    }
  }

  lemma Widths()
    ensures Pow256(4) == 0x1_0000_0000 && Pow256(8) == 0x1_0000_0000_0000_0000
  {
    assert Pow256(1) == 256 && Pow256(2) == 65536 && Pow256(3) == 0x100_0000 && Pow256(4) == 0x1_0000_0000;
    assert Pow256(5) == 256 * Pow256(4) && Pow256(6) == 256 * Pow256(5) && Pow256(7) == 256 * Pow256(6);
  }

  /** Bytewise order, as a key-value store compares its keys. */
  predicate Below(a: Bytes, b: Bytes)
    requires |a| == |b|
  {
    a != [] && (a[0] < b[0] || (a[0] == b[0] && Below(a[1..], b[1..])))
  }

  /** Keys written big-endian order bytewise exactly as the numbers they hold. */
  lemma {:induction false} BelowIsLess(a: Bytes, b: Bytes)
    requires |a| == |b|
    ensures Below(a, b) <==> Get(a) < Get(b)
  {
    if a != [] {
      GetHead(a);
      GetHead(b);
      GetBound(a[1..]);
      GetBound(b[1..]);
      BelowIsLess(a[1..], b[1..]);
      HeadDecides(a[0] as nat, b[0] as nat, Pow256(|a| - 1), Get(a[1..]), Get(b[1..]));
    }
  }

  lemma HeadDecides(x: nat, y: nat, p: nat, r: nat, s: nat)
    requires r < p && s < p
    ensures x * p + r < y * p + s <==> x < y || (x == y && r < s)
  {
    if x < y {
      assert (x + 1) * p <= y * p;
    } else if y < x {
      assert (y + 1) * p <= x * p;
    }
  }

  lemma {:induction false} GetHead(b: Bytes)
    requires b != []
    ensures Get(b) == b[0] as nat * Pow256(|b| - 1) + Get(b[1..])
  {
    if |b| > 1 {
      var n := |b| - 1;
      GetHead(b[..n]);
      assert b[..n][1..] == b[1..][..n - 1];
      Shift(b[0] as nat, Pow256(n - 1), Get(b[1..][..n - 1]), b[n] as nat);
    }
  }

  lemma Shift(h: nat, p: nat, r: nat, x: nat)
    ensures (h * p + r) * 256 + x == h * (256 * p) + (r * 256 + x)
  {
    assert (h * p) * 256 == h * (256 * p);
  }
}
