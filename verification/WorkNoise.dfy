/**
 The proof-of-work relation: a challenge-masked, tiled 64x64 matrix product whose running
 cells are hashed into a transcript, corrected back to the plain product.  `Native` members
 follow the Rust code, `Oracle` members follow the Python twin.
 */
module WorkNoise {
  import opened Wrappers
  import opened FieldMatrix

  const N: nat := 64
  const R: nat := 8
  const CELLS: nat := 4096
  const PROOF_BYTES: nat := 49188

  newtype u8 = x: int | 0 <= x < 256
  newtype u128 = x: int | 0 <= x < 0x1_0000_0000_0000_0000_0000_0000_0000_0000

  type Bytes = seq<u8>
  type Hash = b: Bytes | |b| == 32 witness seq(32, _ => 0)
  /** SHA-256 itself is a parameter: nothing below depends on which function it is. */
  type Sha = Bytes -> Hash

  datatype WorkError = Length | Version | Field | Task | Transcript | Product | Target | NoiseBudget
  type Result<+T> = Try<T, WorkError>
  datatype Verified = Verified(challenge: Hash, task: Hash, ticket: Hash, product: Matrix)

  // ---------- bytes ----------

  predicate Word(v: int) { 0 <= v < 0x1_0000_0000 }

  function Le4(v: int): (b: Bytes)
    requires Word(v)
    ensures |b| == 4
  {
    var w := v / 256;
    var x := w / 256;
    [(v % 256) as u8, (w % 256) as u8, (x % 256) as u8, (x / 256) as u8]
  }

  function FromLe4(b: Bytes): (v: int)
    requires |b| == 4
    ensures Word(v) && Le4(v) == b
  {
    var x := b[2] as int + 256 * b[3] as int;
    var w := b[1] as int + 256 * x;
    LowByte(b[2] as int, b[3] as int);
    LowByte(b[1] as int, x);
    LowByte(b[0] as int, w);
    b[0] as int + 256 * w
  }

  lemma {:induction false} LowByte(lo: int, hi: int)
    requires 0 <= lo < 256
    ensures (lo + 256 * hi) / 256 == hi && (lo + 256 * hi) % 256 == lo
  {
  }

  lemma {:induction false} FromLe4Le4(v: int)
    requires Word(v)
    ensures FromLe4(Le4(v)) == v
  {
  }

  predicate Words(a: Matrix) { forall p :: 0 <= p < |a| ==> Word(a[p]) }

  function FieldBytes(a: Matrix): (b: Bytes)
    requires Words(a)
    ensures |b| == 4 * |a|
  {
    if a == [] then [] else Le4(a[0]) + FieldBytes(a[1..])
  }

  /** Reads consecutive little-endian words; a short tail is ignored (`chunks_exact`). */
  function Unpack(b: Bytes): (a: Matrix)
    ensures |a| == |b| / 4 && Words(a)
  {
    if |b| < 4 then [] else [FromLe4(b[..4])] + Unpack(b[4..])
  }

  lemma {:induction false} UnpackFieldBytes(a: Matrix)
    requires Words(a)
    ensures Unpack(FieldBytes(a)) == a
  {
    if a != [] {
      UnpackFieldBytes(a[1..]);
      FromLe4Le4(a[0]);
      var b := FieldBytes(a);
      assert b[..4] == Le4(a[0]) && b[4..] == FieldBytes(a[1..]);
    }
  }

  lemma {:induction false} FieldBytesUnpack(b: Bytes)
    requires |b| % 4 == 0
    ensures FieldBytes(Unpack(b)) == b
  {
    if |b| >= 4 {
      FieldBytesUnpack(b[4..]);
      var a := Unpack(b);
      assert a[1..] == Unpack(b[4..]) && b[..4] + b[4..] == b;
    }
  }

  lemma {:induction false} Regroup(x: Bytes, y: Bytes, z: Bytes)
    ensures x + (y + z) == x + y + z
  {
  }

  lemma {:induction false} FieldBytesConcat(a: Matrix, b: Matrix)
    requires Words(a) && Words(b)
    ensures Words(a + b) && FieldBytes(a + b) == FieldBytes(a) + FieldBytes(b)
  {
    if a == [] {
      assert a + b == b;
    } else {
      FieldBytesConcat(a[1..], b);
      assert (a + b)[1..] == a[1..] + b && (a + b)[0] == a[0];
      Regroup(Le4(a[0]), FieldBytes(a[1..]), FieldBytes(b));
    }
  }

  // ---------- domain-separated hashing ----------

  const PREFIX: Bytes := [84, 82, 78, 77, 45, 80, 79, 78, 49, 0]          // TRNM-PON1\0
  const TRACE_PREFIX: Bytes := [84, 82, 78, 77, 45, 80, 79, 78, 45, 84, 82, 65, 67, 69, 49, 0] // TRNM-PON-TRACE1\0
  const MAGIC: Bytes := [80, 78, 87, 49]                                  // PNW1
  const NOISE: Bytes := [110, 111, 105, 115, 101]                         // noise
  const TASK: Bytes := [116, 97, 115, 107]                                // task
  const TICKET: Bytes := [116, 105, 99, 107, 101, 116]                    // ticket

  function Framed(parts: seq<Bytes>): Bytes
  {
    if parts == [] then [] else Le4(|parts[0]| % 0x1_0000_0000) + parts[0] + Framed(parts[1..])
  }

  function TaggedHash(sha: Sha, tag: Bytes, parts: seq<Bytes>): Hash
  {
    sha(PREFIX + [(|tag| % 256) as u8, (|tag| / 256 % 256) as u8] + tag + Framed(parts))
  }

  // ---------- noise ----------

  /** The words that are field elements, in order. */
  function Below(a: Matrix): Matrix
  {
    if a == [] then []
    else Below(a[..|a| - 1]) + (if a[|a| - 1] < Q then [a[|a| - 1]] else [])
  }

  lemma {:induction false} BelowInField(a: Matrix)
    requires Words(a)
    ensures InField(Below(a)) && |Below(a)| <= |a|
  {
    if a != [] { BelowInField(a[..|a| - 1]); }
  }

  function NoiseBlock(sha: Sha, c: Hash, tagByte: u8, counter: nat): Matrix
    requires counter < 128
  {
    Unpack(TaggedHash(sha, NOISE, [c, [tagByte], Le4(counter)]))
  }

  function NoiseBlocks(sha: Sha, c: Hash, tagByte: u8): (r: seq<Matrix>)
    ensures |r| == 128
  {
    seq(128, k requires 0 <= k < 128 => NoiseBlock(sha, c, tagByte, k))
  }

  /** All accepted words of the first n blocks. */
  function Stream(blocks: seq<Matrix>, n: nat): Matrix
    requires n <= |blocks|
  {
    if n == 0 then [] else Stream(blocks, n - 1) + Below(blocks[n - 1])
  }

  /** The first len accepted words, if the blocks supply that many. */
  function Sampled(blocks: seq<Matrix>, len: nat): Result<Matrix>
  {
    var s := Stream(blocks, |blocks|);
    if |s| >= len then Ok(s[..len]) else Err(NoiseBudget)
  }

  /** Rejection sampling over at most 128 hash blocks. */
  function Noise(sha: Sha, c: Hash, tagByte: u8, len: nat): (r: Result<Matrix>)
    ensures r.Ok? ==> |r.value| == len
    ensures r.Err? ==> r.code == NoiseBudget
  {
    Sampled(NoiseBlocks(sha, c, tagByte), len)
  }

  /** A request for more words than 128 blocks can hold always exhausts the budget. */
  lemma {:induction false} NoiseBudgetExceeded(sha: Sha, c: Hash, tagByte: u8, len: nat)
    requires len > 1024
    ensures Noise(sha, c, tagByte, len) == Err(NoiseBudget)
  {
    NoiseWords(sha, c, tagByte);
  }

  lemma {:induction false} StreamInField(blocks: seq<Matrix>, n: nat)
    requires n <= |blocks| && forall k :: 0 <= k < |blocks| ==> Words(blocks[k]) && |blocks[k]| == 8
    ensures InField(Stream(blocks, n)) && |Stream(blocks, n)| <= 8 * n
  {
    if n > 0 {
      StreamInField(blocks, n - 1);
      BelowInField(blocks[n - 1]);
    }
  }

  lemma {:induction false} NoiseWords(sha: Sha, c: Hash, tagByte: u8)
    ensures var s := Stream(NoiseBlocks(sha, c, tagByte), 128); InField(s) && |s| <= 1024
  {
    var blocks := NoiseBlocks(sha, c, tagByte);
    forall k | 0 <= k < |blocks| ensures Words(blocks[k]) && |blocks[k]| == 8 { assert blocks[k] == NoiseBlock(sha, c,
        tagByte, k); }
    StreamInField(blocks, 128);
  }

  lemma {:induction false} NoiseInField(sha: Sha, c: Hash, tagByte: u8, len: nat)
    ensures Noise(sha, c, tagByte, len).Ok? ==> InField(Noise(sha, c, tagByte, len).value)
  {
    NoiseWords(sha, c, tagByte);
  }

  lemma {:induction false} StreamPrefix(blocks: seq<Matrix>, n: nat, m: nat)
    requires n <= m <= |blocks|
    ensures Stream(blocks, n) <= Stream(blocks, m)
  {
    if n < m { StreamPrefix(blocks, n, m - 1); }
  }

  /** Pushes the accepted words of one block, stopping as soon as `len` words are present. */
  method NativeFill(out: Matrix, block: Matrix, len: nat) returns (r: Matrix)
    requires |out| < len
    ensures |r| <= len && r <= out + Below(block)
    ensures |r| < len ==> r == out + Below(block)
  {
    r := out;
    assert block[..0] == [];
    var i := 0;
    while i < |block|
      invariant 0 <= i <= |block| && |r| < len
      invariant r == out + Below(block[..i])
    {
      assert block[..i + 1][..i] == block[..i];
      if block[i] < Q {
        r := r + [block[i]];
        if |r| == len {
          BelowPrefix(block, i + 1);
          return;
        }
      }
      i := i + 1;
    }
    assert block[..|block|] == block;
  }

  lemma {:induction false} BelowPrefix(a: Matrix, n: nat)
    requires n <= |a|
    ensures Below(a[..n]) <= Below(a)
    decreases |a|
  {
    if n == |a| {
      assert a[..n] == a;
    } else {
      BelowPrefix(a[..|a| - 1], n);
      assert a[..|a| - 1][..n] == a[..n];
    }
  }

  /** What has been sampled after some blocks: the whole stream so far, or its first len words. */
  ghost predicate Filling(blocks: seq<Matrix>, counter: nat, len: nat, out: Matrix)
  {
    && counter <= |blocks| && |out| <= len && out <= Stream(blocks, counter)
    && (|out| < len ==> out == Stream(blocks, counter))
  }

  method NativeRound(ghost blocks: seq<Matrix>, block: Matrix, counter: nat, len: nat, out: Matrix)
    returns (more: Matrix)
    requires counter < |blocks| && block == blocks[counter] && Filling(blocks, counter, len, out) && |out| < len
    ensures Filling(blocks, counter + 1, len, more)
  {
    more := NativeFill(out, block, len);
  }

  lemma {:induction false} FilledUp(blocks: seq<Matrix>, counter: nat, len: nat, out: Matrix)
    requires Filling(blocks, counter, len, out) && (|out| == len || counter == |blocks|)
    ensures Sampled(blocks, len) == if |out| == len then Ok(out) else Err(NoiseBudget)
  {
    if |out| == len { TakeFirst(blocks, counter, out); }
  }

  method NativeExpand(sha: Sha, c: Hash, tagByte: u8, len: nat) returns (r: Result<Matrix>)
    ensures r == Noise(sha, c, tagByte, len)
  {
    ghost var blocks := NoiseBlocks(sha, c, tagByte);
    var out: Matrix, counter := [], 0;
    while |out| < len
      invariant Filling(blocks, counter, len, out)
      decreases 128 - counter
    {
      if counter >= 128 {
        FilledUp(blocks, counter, len, out);
        return Err(NoiseBudget);
      }
      out := NativeRound(blocks, NoiseBlock(sha, c, tagByte, counter), counter, len, out);
      counter := counter + 1;
    }
    FilledUp(blocks, counter, len, out);
    r := Ok(out);
  }

  /** Words taken from the first blocks are the first words of the whole stream. */
  lemma {:induction false} TakeFirst(blocks: seq<Matrix>, counter: nat, out: Matrix)
    requires counter <= |blocks| && out <= Stream(blocks, counter)
    ensures |out| <= |Stream(blocks, |blocks|)| && out == Stream(blocks, |blocks|)[..|out|]
  {
    StreamPrefix(blocks, counter, |blocks|);
  }

  method OracleExpand(sha: Sha, c: Hash, tagByte: u8, n: nat) returns (r: Result<Matrix>)
    ensures r == Noise(sha, c, tagByte, n)
  {
    ghost var blocks := NoiseBlocks(sha, c, tagByte);
    var out: Matrix, counter := [], 0;
    while |out| < n
      invariant 0 <= counter <= 128
      invariant out == Stream(blocks, counter)
      decreases 128 - counter
    {
      if counter >= 128 {
        return Err(NoiseBudget);
      }
      out := out + Below(NoiseBlock(sha, c, tagByte, counter));
      counter := counter + 1;
    }
    TakeFirst(blocks, counter, out[..n]);
    r := Ok(out[..n]);
  }
}
