/**
  FNV-1a over bytes, as used for shard routing by the runtime, the Go SDK and the Rust worker. Words
  are integers below 2^32; exclusive or is defined bit by bit and multiplication wraps explicitly.
*/
module ShardHash {
  import opened Powers

  const OFFSET := 2166136261
  const PRIME := 16777619
  const INVERSE := 899433627   // of PRIME modulo 2^32
  const WORD := 0x1_0000_0000

  type Byte = x: int | 0 <= x < 256
  type Word = x: int | 0 <= x < WORD

  /** Bitwise exclusive or. */
  function Xor(a: nat, b: nat): nat {
    if a == 0 && b == 0 then 0 else 2 * Xor(a / 2, b / 2) + if a % 2 != b % 2 then 1 else 0
  }

  lemma {:induction false} XorBelow(a: nat, b: nat, n: nat)
    requires a < Pow2(n) && b < Pow2(n)
    ensures Xor(a, b) < Pow2(n)
  {
    if n > 0 {
      XorBelow(a / 2, b / 2, n - 1);
    }
  }

  lemma {:induction false} XorIsInjective(a: nat, b: nat, c: nat)
    ensures Xor(a, b) == Xor(c, b) ==> a == c
    ensures Xor(b, a) == Xor(b, c) ==> a == c
    decreases a + b + c
  {
    if a + b + c > 0 {
      XorIsInjective(a / 2, b / 2, c / 2);
    }
  }

  lemma WordIsPower()
    ensures Pow2(32) == WORD
  {
    PowAdds(8, 8);
    PowAdds(16, 16);
    assert Pow2(8) == 256;
  }

  function Step(h: Word, b: Byte): Word {
    Xor(h, b) * PRIME % WORD
  }

  /** Multiplying by the prime loses nothing: it has an inverse modulo 2^32. */
  lemma TimesPrimeIsInjective(x: Word, y: Word)
    requires x * PRIME % WORD == y * PRIME % WORD
    ensures x == y
  {
    var u, v := x * PRIME / WORD, y * PRIME / WORD;
    assert (x - y) * PRIME == (u - v) * WORD;
    var k := (PRIME * INVERSE - 1) / WORD;
    assert PRIME * INVERSE == 1 + k * WORD;
    assert x - y == WORD * ((u - v) * INVERSE - k * (x - y));
  }

  /** One step is injective in the state for a fixed byte, and in the byte for a fixed state. */
  lemma StepIsInjective(h: Word, g: Word, b: Byte, c: Byte)
    requires Step(h, b) == Step(g, c)
    ensures b == c ==> h == g
    ensures h == g ==> b == c
  {
    hide Xor;
    WordIsPower();
    Pow2Grows(8, 32);
    XorBelow(h, b, 32);
    XorBelow(g, c, 32);
    TimesPrimeIsInjective(Xor(h, b), Xor(g, c));
    XorIsInjective(h, b, g);
    XorIsInjective(b, h, c);
  }

  function HashFrom(h: Word, key: seq<Byte>): Word
    decreases |key|
  {
    if key == [] then h else HashFrom(Step(h, key[0]), key[1..])
  }

  function Hash(key: seq<Byte>): Word {
    HashFrom(OFFSET, key)
  }

  lemma {:induction false} XorZero(a: nat)
    ensures Xor(a, 0) == a
  {
    if a > 0 {
      XorZero(a / 2);
    }
  }

  lemma OffsetXorA()
    ensures Xor(2166136261, 97) == 0x811C_9DA4
  {
    XorZero(16922939);
    assert Xor(33845879, 1) == 33845878;
    assert Xor(67691758, 3) == 67691757;
    assert Xor(135383516, 6) == 135383514;
    assert Xor(270767032, 12) == 270767028;
    assert Xor(541534065, 24) == 541534057;
    assert Xor(1083068130, 48) == 1083068114;
    assert Xor(2166136261, 97) == 2166136228;
  }

  /** The published 32-bit FNV-1a values of the empty key and of "a". */
  lemma KnownHashes()
    ensures Hash([]) == 0x811C_9DC5
    ensures Hash([97]) == 0xE40C_292C
  {
    hide Xor;
    OffsetXorA();
    assert Step(OFFSET, 97) == 0xE40C_292C;
    assert [97][1..] == [];
  }

  lemma {:induction false} HashOfSplit(h: Word, key: seq<Byte>, rest: seq<Byte>)
    ensures HashFrom(h, key + rest) == HashFrom(HashFrom(h, key), rest)
    decreases |key|
  {
    hide Step;
    if key == [] {
      assert key + rest == rest;
    } else {
      assert (key + rest)[1..] == key[1..] + rest;
      HashOfSplit(Step(h, key[0]), key[1..], rest);
    }
  }

  lemma {:induction false} HashIsInjectiveInState(h: Word, g: Word, key: seq<Byte>)
    ensures HashFrom(h, key) == HashFrom(g, key) <==> h == g
    decreases |key|
  {
    hide Step;
    if key != [] {
      HashIsInjectiveInState(Step(h, key[0]), Step(g, key[0]), key[1..]);
      if Step(h, key[0]) == Step(g, key[0]) {
        StepIsInjective(h, g, key[0], key[0]);
      }
    }
  }

  /** A common suffix neither creates nor removes a collision. */
  lemma SuffixKeepsCollisions(a: seq<Byte>, b: seq<Byte>, suffix: seq<Byte>)
    ensures Hash(a + suffix) == Hash(b + suffix) <==> Hash(a) == Hash(b)
  {
    hide HashFrom;
    HashOfSplit(OFFSET, a, suffix);
    HashOfSplit(OFFSET, b, suffix);
    HashIsInjectiveInState(Hash(a), Hash(b), suffix);
  }

  lemma FirstByte(h: Word, b: Byte, rest: seq<Byte>)
    ensures HashFrom(h, [b] + rest) == HashFrom(Step(h, b), rest)
  {
    hide Step;
    assert ([b] + rest)[1..] == rest;
  }

  /** Keys of one length that differ in exactly one byte never collide. */
  lemma OneByteApartNeverCollides(a: seq<Byte>, b: seq<Byte>, k: nat)
    requires |a| == |b| && k < |a| && a[k] != b[k] && forall i | 0 <= i < |a| && i != k :: a[i] == b[i]
    ensures Hash(a) != Hash(b)
  {
    hide HashFrom, Step;
    var prefix, suffix := a[..k], a[k + 1..];
    assert a == prefix + ([a[k]] + suffix);
    assert b == prefix + ([b[k]] + suffix);
    var h := Hash(prefix);
    HashOfSplit(OFFSET, prefix, [a[k]] + suffix);
    HashOfSplit(OFFSET, prefix, [b[k]] + suffix);
    FirstByte(h, a[k], suffix);
    FirstByte(h, b[k], suffix);
    HashIsInjectiveInState(Step(h, a[k]), Step(h, b[k]), suffix);
    if Step(h, a[k]) == Step(h, b[k]) {
      StepIsInjective(h, h, a[k], b[k]);
    }
  }

  /** The loop of ShardHash, fnv32a and fnv1a32. */
  method ShardHash(key: seq<Byte>) returns (h: Word)
    ensures h == Hash(key)
  {
    hide Xor;
    h := OFFSET;
    for i := 0 to |key|
      invariant HashFrom(h, key[i..]) == Hash(key)
    {
      assert key[i..][1..] == key[i + 1..];
      var mixed := Xor(h, key[i]);
      h := mixed * PRIME % WORD;
    }
  }

  /** VirtualShard: tenant, colon and partition key alone decide the shard. */
  method VirtualShard(tenant: seq<Byte>, partition: seq<Byte>, modulus: Word) returns (shard: Word)
    requires modulus > 0
    ensures shard == Hash(tenant + [58] + partition) % modulus && shard < modulus
  {
    var h := ShardHash(tenant + [':' as int] + partition);
    shard := h % modulus;
  }
}
