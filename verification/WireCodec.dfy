/**
 The wire formats of headers, command payloads and transactions, over any schema with unique
 field names: every encoding decodes to the same fields and every accepted string re-encodes to itself.
 */
module WireCodec {
  import opened Wrappers

  type byte = n: nat | n < 256
  type Bytes = seq<byte>

  datatype Code = Range | Size | Fields | Version | Limit | Length | NonCanonical
  type Result<+T> = Try<T, Code>

  // ---------- little-endian numbers ----------

  function Pow(k: nat): nat { if k == 0 then 1 else 256 * Pow(k - 1) }

  function Le(v: nat, k: nat): (r: Bytes)
    ensures |r| == k
  {
    if k == 0 then [] else [(v % 256) as byte] + Le(v / 256, k - 1)
  }

  function FromLe(b: Bytes): nat
  {
    if b == [] then 0 else b[0] + 256 * FromLe(b[1..])
  }

  lemma {:induction false} LeRoundTrip(v: nat, k: nat)
    requires v < Pow(k)
    ensures FromLe(Le(v, k)) == v
  {
    if k > 0 {
      LeRoundTrip(v / 256, k - 1);
      assert Le(v, k)[1..] == Le(v / 256, k - 1);
    }
  }

  lemma {:induction false} FromLeRoundTrip(b: Bytes)
    ensures FromLe(b) < Pow(|b|) && Le(FromLe(b), |b|) == b
  {
    if b != [] {
      FromLeRoundTrip(b[1..]);
      Digits(b[0], FromLe(b[1..]), Pow(|b| - 1));
      assert b == [b[0]] + b[1..];
    }
  }

  lemma {:induction false} Digits(x: byte, y: nat, bound: nat)
    requires y < bound
    ensures (x + 256 * y) % 256 == x && (x + 256 * y) / 256 == y && x + 256 * y < 256 * bound
  {
  }

  // ---------- field values ----------

  datatype Kind = Hash32 | U64 | Sig64 | Allocation16 | Proof8
  datatype Value =
    | Raw(bytes: Bytes)
    | Number(n: nat)
    | Allocations(rows: seq<(Bytes, nat)>)
    | Siblings(hashes: seq<Bytes>)
  datatype Field = Field(name: string, kind: Kind)

  /** Bytes in lexicographic order. */
  predicate Less(a: Bytes, b: Bytes)
  {
    b != [] && (a == [] || a[0] < b[0] || (a[0] == b[0] && Less(a[1..], b[1..])))
  }

  predicate Ascending(rows: seq<(Bytes, nat)>)
  {
    forall i :: 0 < i < |rows| ==> Less(rows[i - 1].0, rows[i].0)
  }

  predicate RowsFit(rows: seq<(Bytes, nat)>)
  {
    rows == [] || (|rows[0].0| == 32 && rows[0].1 < Pow(8) && RowsFit(rows[1..]))
  }

  function Record(row: (Bytes, nat)): Bytes { row.0 + Le(row.1, 8) }

  function Rows(rows: seq<(Bytes, nat)>): (r: Bytes)
  {
    if rows == [] then [] else Record(rows[0]) + Rows(rows[1..])
  }

  function ReadRecord(b: Bytes): (Bytes, nat)
    requires |b| >= 40
  {
    (b[..32], FromLe(b[32..40]))
  }

  function ReadRows(b: Bytes, count: nat): seq<(Bytes, nat)>
    requires |b| >= 40 * count
  {
    if count == 0 then [] else [ReadRecord(b)] + ReadRows(b[40..], count - 1)
  }

  predicate HashesFit(hashes: seq<Bytes>)
  {
    hashes == [] || (|hashes[0]| == 32 && HashesFit(hashes[1..]))
  }

  function Hashes(hashes: seq<Bytes>): Bytes
  {
    if hashes == [] then [] else hashes[0] + Hashes(hashes[1..])
  }

  function ReadHashes(b: Bytes, count: nat): seq<Bytes>
    requires |b| >= 32 * count
  {
    if count == 0 then [] else [b[..32]] + ReadHashes(b[32..], count - 1)
  }

  function EncodeValue(kind: Kind, v: Value): Result<Bytes>
  {
    match kind
    case Hash32 => if v.Raw? && |v.bytes| == 32 then Ok(v.bytes) else Err(Size)
    case Sig64 => if v.Raw? && |v.bytes| == 64 then Ok(v.bytes) else Err(Size)
    case U64 => if v.Number? && v.n < Pow(8) then Ok(Le(v.n, 8)) else Err(Range)
    case Allocation16 =>
      if v.Allocations? && 1 <= |v.rows| <= 16 && Ascending(v.rows) && RowsFit(v.rows)
      then Ok([|v.rows| as byte] + Rows(v.rows)) else Err(Size)
    case Proof8 =>
      if v.Siblings? && |v.hashes| <= 8 && HashesFit(v.hashes)
      then Ok([|v.hashes| as byte] + Hashes(v.hashes)) else Err(Limit)
  }

  /** Reads one value off the front of the bytes and says how many it took. */
  function DecodeValue(kind: Kind, b: Bytes): Result<(Value, nat)>
  {
    match kind
    case Hash32 => if |b| < 32 then Err(Length) else Ok((Raw(b[..32]), 32))
    case Sig64 => if |b| < 64 then Err(Length) else Ok((Raw(b[..64]), 64))
    case U64 => if |b| < 8 then Err(Length) else Ok((Number(FromLe(b[..8])), 8))
    case Allocation16 =>
      if b == [] || !(1 <= b[0] <= 16) then Err(Limit)
      else
        var count: nat := b[0];
        if 1 + 40 * count > |b| then Err(Length)
        else
          var rows := ReadRows(b[1..], count);
          if Ascending(rows) then Ok((Allocations(rows), 1 + 40 * count)) else Err(NonCanonical)
    case Proof8 =>
      if b == [] || b[0] > 8 then Err(Limit)
      else
        var count: nat := b[0];
        if 1 + 32 * count > |b| then Err(Length) else Ok((Siblings(ReadHashes(b[1..], count)), 1 + 32 * count))
  }

  lemma {:induction false} RecordRoundTrip(row: (Bytes, nat), rest: Bytes)
    requires |row.0| == 32 && row.1 < Pow(8)
    ensures |Record(row)| == 40 && ReadRecord(Record(row) + rest) == row && (Record(row) + rest)[40..] == rest
  {
    LeRoundTrip(row.1, 8);
    var b := Record(row) + rest;
    assert b[..32] == row.0 && b[32..40] == Le(row.1, 8);
  }

  lemma {:induction false} ReadRecordRoundTrip(b: Bytes)
    requires |b| >= 40
    ensures var row := ReadRecord(b); |row.0| == 32 && row.1 < Pow(8) && Record(row) == b[..40]
  {
    FromLeRoundTrip(b[32..40]);
    assert b[..40] == b[..32] + b[32..40];
  }

  lemma {:induction false} RowsRoundTrip(rows: seq<(Bytes, nat)>, rest: Bytes)
    requires RowsFit(rows)
    ensures |Rows(rows)| == 40 * |rows| && ReadRows(Rows(rows) + rest, |rows|) == rows
  {
    if rows != [] {
      RowsRoundTrip(rows[1..], rest);
      RecordRoundTrip(rows[0], Rows(rows[1..]) + rest);
      assert Rows(rows) + rest == Record(rows[0]) + (Rows(rows[1..]) + rest);
    }
  }

  lemma {:induction false} ReadRowsRoundTrip(b: Bytes, count: nat)
    requires |b| >= 40 * count
    ensures |ReadRows(b, count)| == count && RowsFit(ReadRows(b, count)) && Rows(ReadRows(b, count)) == b[..40 * count]
  {
    if count > 0 {
      var rest := b[40..];
      ReadRowsRoundTrip(rest, count - 1);
      ReadRecordRoundTrip(b);
      assert ReadRows(b, count)[1..] == ReadRows(rest, count - 1);
      assert b[..40 * count] == b[..40] + rest[..40 * (count - 1)];
    }
  }

  lemma {:induction false} HashesRoundTrip(hashes: seq<Bytes>, rest: Bytes)
    requires HashesFit(hashes)
    ensures |Hashes(hashes)| == 32 * |hashes| && ReadHashes(Hashes(hashes) + rest, |hashes|) == hashes
  {
    if hashes != [] {
      HashesRoundTrip(hashes[1..], rest);
      var tail := Hashes(hashes[1..]) + rest;
      assert Hashes(hashes) + rest == hashes[0] + tail;
      assert (hashes[0] + tail)[..32] == hashes[0] && (hashes[0] + tail)[32..] == tail;
    }
  }

  lemma {:induction false} ReadHashesRoundTrip(b: Bytes, count: nat)
    requires |b| >= 32 * count
    ensures |ReadHashes(b, count)| == count && HashesFit(ReadHashes(b, count))
    ensures Hashes(ReadHashes(b, count)) == b[..32 * count]
  {
    if count > 0 {
      var rest := b[32..];
      ReadHashesRoundTrip(rest, count - 1);
      assert ReadHashes(b, count)[1..] == ReadHashes(rest, count - 1);
      assert b[..32 * count] == b[..32] + rest[..32 * (count - 1)];
    }
  }

  /** An encoded value is read back, and nothing after it is touched. */
  lemma {:induction false} ValueRoundTrip(kind: Kind, v: Value, rest: Bytes)
    requires EncodeValue(kind, v).Ok?
    ensures var e := EncodeValue(kind, v).value; DecodeValue(kind, e + rest) == Ok((v, |e|))
  {
    var e := EncodeValue(kind, v).value;
    var b := e + rest;
    match kind
    case Hash32 => assert b[..32] == e;
    case Sig64 => assert b[..64] == e;
    case U64 => assert b[..8] == e; LeRoundTrip(v.n, 8);
    case Allocation16 => RowsRoundTrip(v.rows, rest); assert b[1..] == Rows(v.rows) + rest;
    case Proof8 => HashesRoundTrip(v.hashes, rest); assert b[1..] == Hashes(v.hashes) + rest;
  }

  /** What is read off is exactly the encoding of the value read. */
  lemma {:induction false} ReadValueRoundTrip(kind: Kind, b: Bytes)
    requires DecodeValue(kind, b).Ok?
    ensures var (v, n) := DecodeValue(kind, b).value; n <= |b| && EncodeValue(kind, v) == Ok(b[..n])
  {
    match kind
    case Hash32 =>
    case Sig64 =>
    case U64 => FromLeRoundTrip(b[..8]);
    case Allocation16 =>
      var count: nat := b[0];
      ReadRowsRoundTrip(b[1..], count);
      assert b[..1 + 40 * count] == [b[0]] + b[1..][..40 * count];
    case Proof8 =>
      var count: nat := b[0];
      ReadHashesRoundTrip(b[1..], count);
      assert b[..1 + 32 * count] == [b[0]] + b[1..][..32 * count];
  }

  // ---------- fields by schema ----------

  function Names(schema: seq<Field>): set<string>
  {
    if schema == [] then {} else {schema[0].name} + Names(schema[1..])
  }

  ghost predicate Unique(schema: seq<Field>)
  {
    schema == [] || (schema[0].name !in Names(schema[1..]) && Unique(schema[1..]))
  }

  /** The fields of a schema in order. */
  function EncodeFields(schema: seq<Field>, fields: map<string, Value>): Result<Bytes>
    requires Names(schema) <= fields.Keys
  {
    if schema == [] then Ok([])
    else
      match EncodeValue(schema[0].kind, fields[schema[0].name])
      case Err(c) => Err(c)
      case Ok(e) => match EncodeFields(schema[1..], fields) case Err(c) => Err(c) case Ok(rest) => Ok(e + rest)
  }

  /** Reads the fields of a schema off the bytes, on top of those already read. */
  function DecodeFields(schema: seq<Field>, b: Bytes, fields: map<string, Value>): Result<map<string, Value>>
  {
    if schema == [] then if b == [] then Ok(fields) else Err(Length)
    else
      match DecodeValue(schema[0].kind, b)
      case Err(c) => Err(c)
      case Ok((v, n)) => if n > |b| then Err(Length) else DecodeFields(schema[1..], b[n..], fields[schema[0].name := v])
  }

  ghost predicate Agree(f: map<string, Value>, g: map<string, Value>, names: set<string>)
  {
    forall x :: x in names ==> x in f && x in g && f[x] == g[x]
  }

  lemma {:induction false} SameFields(schema: seq<Field>, f: map<string, Value>, g: map<string, Value>)
    requires Agree(f, g, Names(schema))
    ensures Names(schema) <= f.Keys && Names(schema) <= g.Keys && EncodeFields(schema, f) == EncodeFields(schema, g)
  {
    if schema != [] { SameFields(schema[1..], f, g); }
  }

  /** The fields read so far are those of `fields` outside the schema still to come. */
  ghost predicate Pending(schema: seq<Field>, fields: map<string, Value>, sofar: map<string, Value>)
  {
    && Names(schema) <= fields.Keys && sofar.Keys + Names(schema) == fields.Keys
    && forall x :: x in sofar && x !in Names(schema) ==> x in fields && sofar[x] == fields[x]
  }

  lemma {:induction false} FieldsRoundTrip(schema: seq<Field>, fields: map<string, Value>, sofar: map<string, Value>)
    requires Unique(schema) && Pending(schema, fields, sofar) && EncodeFields(schema, fields).Ok?
    ensures DecodeFields(schema, EncodeFields(schema, fields).value, sofar) == Ok(fields)
  {
    if schema == [] {
      assert sofar == fields;
    } else {
      var name, kind := schema[0].name, schema[0].kind;
      var e := EncodeValue(kind, fields[name]).value;
      var rest := EncodeFields(schema[1..], fields).value;
      ValueRoundTrip(kind, fields[name], rest);
      assert (e + rest)[|e|..] == rest;
      FieldsRoundTrip(schema[1..], fields, sofar[name := fields[name]]);
    }
  }

  lemma {:induction false} ReadFieldsRoundTrip(schema: seq<Field>, b: Bytes, sofar: map<string, Value>)
    requires Unique(schema) && DecodeFields(schema, b, sofar).Ok?
    ensures var fields := DecodeFields(schema, b, sofar).value;
            Pending(schema, fields, sofar) && EncodeFields(schema, fields) == Ok(b)
  {
    if schema != [] {
      var name, kind := schema[0].name, schema[0].kind;
      var (v, n) := DecodeValue(kind, b).value;
      ReadValueRoundTrip(kind, b);
      ReadFieldsRoundTrip(schema[1..], b[n..], sofar[name := v]);
      assert b == b[..n] + b[n..];
    }
  }

  /** `payload_encode` for a known command. */
  method EncodePayload(schema: seq<Field>, fields: map<string, Value>) returns (r: Result<Bytes>)
    ensures r == PayloadOf(schema, fields)
  {
    if fields.Keys != Names(schema) { return Err(Fields); }
    var out: Bytes, i := [], 0;
    assert schema[0..] == schema;
    PrefixNothing(EncodeFields(schema, fields));
    while i < |schema|
      invariant 0 <= i <= |schema| && Names(schema[i..]) <= fields.Keys
      invariant EncodeFields(schema, fields) == Prefixed(out, EncodeFields(schema[i..], fields))
    {
      assert schema[i..][1..] == schema[i + 1..];
      var e := EncodeValue(schema[i].kind, fields[schema[i].name]);
      if e.Err? { return Err(e.code); }
      PrefixMore(out, e.value, EncodeFields(schema[i + 1..], fields));
      out, i := out + e.value, i + 1;
    }
    assert out + [] == out;
    r := Ok(out);
  }

  lemma {:induction false} PrefixNothing(r: Result<Bytes>)
    ensures Prefixed([], r) == r
  {
    if r.Ok? { assert [] + r.value == r.value; }
  }

  lemma {:induction false} PrefixMore(out: Bytes, e: Bytes, r: Result<Bytes>)
    ensures Prefixed(out, Prefixed(e, r)) == Prefixed(out + e, r)
  {
    if r.Ok? { assert out + (e + r.value) == out + e + r.value; }
  }

  ghost function Prefixed(out: Bytes, r: Result<Bytes>): Result<Bytes>
  {
    match r case Ok(b) => Ok(out + b) case Err(c) => Err(c)
  }

  function PayloadOf(schema: seq<Field>, fields: map<string, Value>): Result<Bytes>
  {
    if fields.Keys != Names(schema) then Err(Fields) else EncodeFields(schema, fields)
  }

  /** `payload_decode` for a known command: a position moves along the bytes. */
  method DecodePayload(schema: seq<Field>, b: Bytes) returns (r: Result<map<string, Value>>)
    ensures r == DecodeFields(schema, b, map[])
  {
    var pos, i := 0, 0;
    var fields: map<string, Value> := map[];
    assert b[0..] == b && schema[0..] == schema;
    while i < |schema|
      invariant 0 <= i <= |schema| && 0 <= pos <= |b|
      invariant DecodeFields(schema, b, map[]) == DecodeFields(schema[i..], b[pos..], fields)
    {
      assert schema[i..][1..] == schema[i + 1..];
      var v := DecodeValue(schema[i].kind, b[pos..]);
      if v.Err? { return Err(v.code); }
      ReadValueRoundTrip(schema[i].kind, b[pos..]);
      assert b[pos..][v.value.1..] == b[pos + v.value.1..];
      fields := fields[schema[i].name := v.value.0];
      pos, i := pos + v.value.1, i + 1;
    }
    if pos != |b| { return Err(Length); }
    r := Ok(fields);
  }

  /** Payloads: every encoding is read back, and whatever is accepted is its own encoding. */
  lemma {:induction false} PayloadExact(schema: seq<Field>, fields: map<string, Value>, b: Bytes)
    requires Unique(schema)
    ensures PayloadOf(schema, fields) == Ok(b) <==> DecodeFields(schema, b, map[]) == Ok(fields)
  {
    if PayloadOf(schema, fields) == Ok(b) { FieldsRoundTrip(schema, fields, map[]); }
    if DecodeFields(schema, b, map[]) == Ok(fields) { ReadFieldsRoundTrip(schema, b, map[]); }
  }

  // ---------- block headers ----------

  const HEADER_MAGIC: Bytes := [80, 78, 72, 49, 1, 0]

  /** Header schemas hold only digests and numbers. */
  predicate Flat(schema: seq<Field>)
  {
    schema == [] || ((schema[0].kind == Hash32 || schema[0].kind == U64) && Flat(schema[1..]))
  }

  function Width(schema: seq<Field>): nat
  {
    if schema == [] then 0 else (if schema[0].kind == Hash32 then 32 else 8) + Width(schema[1..])
  }

  lemma {:induction false} FlatWidth(schema: seq<Field>, fields: map<string, Value>)
    requires Flat(schema) && Names(schema) <= fields.Keys && EncodeFields(schema, fields).Ok?
    ensures |EncodeFields(schema, fields).value| == Width(schema)
  {
    if schema != [] { FlatWidth(schema[1..], fields); }
  }

  /** Bytes of the right number always hold a flat schema. */
  lemma {:induction false} FlatReads(schema: seq<Field>, b: Bytes, fields: map<string, Value>)
    requires Flat(schema) && |b| == Width(schema)
    ensures DecodeFields(schema, b, fields).Ok?
  {
    if schema != [] {
      var (v, n) := DecodeValue(schema[0].kind, b).value;
      FlatReads(schema[1..], b[n..], fields[schema[0].name := v]);
    }
  }

  function HeaderOf(schema: seq<Field>, fields: map<string, Value>): Result<Bytes>
  {
    match PayloadOf(schema, fields) case Err(c) => Err(c) case Ok(b) => Ok(HEADER_MAGIC + b)
  }

  function ReadHeader(schema: seq<Field>, b: Bytes): Result<map<string, Value>>
  {
    if |b| != 318 then Err(Length)
    else if b[..6] != HEADER_MAGIC then Err(Version)
    else DecodeFields(schema, b[6..], map[])
  }

  /** The header loop: with the length and the magic right it cannot fail. */
  method DecodeHeader(schema: seq<Field>, b: Bytes) returns (r: Result<map<string, Value>>)
    requires Flat(schema) && 6 + Width(schema) == 318
    ensures r == ReadHeader(schema, b)
    ensures r.Ok? <==> |b| == 318 && b[..6] == HEADER_MAGIC
  {
    if |b| != 318 { return Err(Length); }
    if b[..6] != HEADER_MAGIC { return Err(Version); }
    FlatReads(schema, b[6..], map[]);
    var fields: map<string, Value> := map[];
    var pos, i := 6, 0;
    assert schema[0..] == schema;
    while i < |schema|
      invariant 0 <= i <= |schema| && 6 <= pos <= 318 && Flat(schema[i..]) && pos + Width(schema[i..]) == 318
      invariant DecodeFields(schema, b[6..], map[]) == DecodeFields(schema[i..], b[pos..], fields)
    {
      assert schema[i..][1..] == schema[i + 1..];
      var n := if schema[i].kind == Hash32 then 32 else 8;
      assert b[pos..][..n] == b[pos..pos + n] && b[pos..][n..] == b[pos + n..];
      var v := if n == 32 then Raw(b[pos..pos + n]) else Number(FromLe(b[pos..pos + n]));
      fields := fields[schema[i].name := v];
      pos, i := pos + n, i + 1;
    }
    r := Ok(fields);
  }

  /** Headers and their 318 bytes correspond one to one. */
  lemma {:induction false} HeaderExact(schema: seq<Field>, fields: map<string, Value>, b: Bytes)
    requires Unique(schema) && Flat(schema) && 6 + Width(schema) == 318
    ensures HeaderOf(schema, fields) == Ok(b) <==> ReadHeader(schema, b) == Ok(fields)
  {
    if HeaderOf(schema, fields) == Ok(b) {
      FlatWidth(schema, fields);
      assert b[..6] == HEADER_MAGIC && b[6..] == EncodeFields(schema, fields).value;
      PayloadExact(schema, fields, b[6..]);
    }
    if ReadHeader(schema, b) == Ok(fields) {
      PayloadExact(schema, fields, b[6..]);
      assert b == b[..6] + b[6..];
    }
  }

  // ---------- transactions ----------

  const TX_MAGIC: Bytes := [80, 78, 88, 49]

  datatype Codec = Codec(commands: map<nat, seq<Field>>, maxBytes: nat, maxFee: nat)
  {
    ghost predicate Valid() { forall t :: t in commands ==> Unique(commands[t]) }
  }

  datatype Tx = Tx(network: Bytes, sender: Bytes, nonce: nat, expiry: nat, feeLimit: nat, tag: nat,
                   fields: map<string, Value>)

  predicate Encodable(tx: Tx, size: nat)
  {
    && |tx.network| == 32 && |tx.sender| == 32 && tx.nonce < Pow(8) && tx.expiry < Pow(8) && tx.feeLimit < Pow(8)
    && tx.tag < 256 && size < Pow(2)
  }

  function Names68(tx: Tx): Bytes { TX_MAGIC + tx.network + tx.sender }
  function Numbers24(tx: Tx): Bytes { Le(tx.nonce, 8) + Le(tx.expiry, 8) + Le(tx.feeLimit, 8) }

  /** The signed part of a transaction. */
  function Unsigned(c: Codec, tx: Tx): Result<Bytes>
  {
    if tx.nonce == 0 || tx.feeLimit > c.maxFee then Err(NonCanonical)
    else if tx.tag !in c.commands then Err(Version)
    else
      match PayloadOf(c.commands[tx.tag], tx.fields)
      case Err(e) => Err(e)
      case Ok(p) =>
        if !Encodable(tx, |p|) then Err(Range)
        else Ok(Names68(tx) + Numbers24(tx) + [tx.tag as byte] + Le(|p|, 2) + p)
  }

  function ReadTx(c: Codec, b: Bytes): Result<(Tx, Bytes)>
  {
    if |b| > c.maxBytes then Err(Limit)
    else if |b| < 159 then Err(Length)
    else if b[..4] != TX_MAGIC then Err(Version)
    else
      var tag, n := b[92], FromLe(b[93..95]);
      var nonce, expiry, fee := FromLe(b[68..76]), FromLe(b[76..84]), FromLe(b[84..92]);
      if |b| != 159 + n then Err(Length)
      else if nonce == 0 || fee > c.maxFee then Err(NonCanonical)
      else if tag !in c.commands then Err(Version)
      else
        match DecodeFields(c.commands[tag], b[95..95 + n], map[])
        case Err(e) => Err(e)
        case Ok(fields) => Ok((Tx(b[4..36], b[36..68], nonce, expiry, fee, tag, fields), b[|b| - 64..]))
  }

  lemma {:induction false} LastPart(b: Bytes, before: Bytes, part: Bytes)
    requires before + part <= b
    ensures before <= b && |before| + |part| <= |b| && b[|before|..|before| + |part|] == part
  {
  }

  /** Where the parts of a string lie. */
  lemma {:induction false} Layout(m: Bytes, a: Bytes, s: Bytes, n: Bytes, t: Bytes, l: Bytes, p: Bytes, g: Bytes,
                                  b: Bytes)
    requires |m| == 4 && |a| == 32 && |s| == 32 && |n| == 24 && |t| == 1 && |l| == 2 && |g| == 64
    requires b == m + a + s + n + t + l + p + g
    ensures |b| == 159 + |p| && b[..4] == m && b[4..36] == a && b[36..68] == s && b[68..92] == n
    ensures b[92..93] == t && b[93..95] == l && b[95..95 + |p|] == p && b[95 + |p|..] == g
  {
    var x1 := m + a;
    var x2 := x1 + s;
    var x3 := x2 + n;
    var x4 := x3 + t;
    var x5 := x4 + l;
    LastPart(b, x5 + p, g);
    LastPart(b, x5, p);
    LastPart(b, x4, l);
    LastPart(b, x3, t);
    LastPart(b, x2, n);
    LastPart(b, x1, s);
    LastPart(b, m, a);
  }

  lemma {:induction false} Parts(tx: Tx, p: Bytes, signature: Bytes, b: Bytes)
    requires Encodable(tx, |p|) && |signature| == 64
    requires b == Names68(tx) + Numbers24(tx) + [tx.tag as byte] + Le(|p|, 2) + p + signature
    ensures |b| == 159 + |p| && b[..4] == TX_MAGIC && b[4..36] == tx.network && b[36..68] == tx.sender
    ensures b[68..92] == Numbers24(tx) && b[92] == tx.tag && b[93..95] == Le(|p|, 2)
    ensures b[95..95 + |p|] == p && b[95 + |p|..] == signature
  {
    Layout(TX_MAGIC, tx.network, tx.sender, Numbers24(tx), [tx.tag as byte], Le(|p|, 2), p, signature, b);
    assert b[92] == b[92..93][0];
  }

  lemma {:induction false} NumbersAt(tx: Tx, s: Bytes)
    requires s == Numbers24(tx) && tx.nonce < Pow(8) && tx.expiry < Pow(8) && tx.feeLimit < Pow(8)
    ensures |s| == 24 && FromLe(s[..8]) == tx.nonce && FromLe(s[8..16]) == tx.expiry && FromLe(s[16..24]) == tx.feeLimit
  {
    assert s[..8] == Le(tx.nonce, 8) && s[8..16] == Le(tx.expiry, 8) && s[16..24] == Le(tx.feeLimit, 8);
    LeRoundTrip(tx.nonce, 8);
    LeRoundTrip(tx.expiry, 8);
    LeRoundTrip(tx.feeLimit, 8);
  }

  /** A signed encoding is read back exactly when it fits the size limit. */
  lemma {:induction false} TxRoundTrip(c: Codec, tx: Tx, signature: Bytes)
    requires c.Valid() && Unsigned(c, tx).Ok? && |signature| == 64
    ensures var b := Unsigned(c, tx).value + signature;
            ReadTx(c, b) == if |b| <= c.maxBytes then Ok((tx, signature)) else Err(Limit)
  {
    var p := PayloadOf(c.commands[tx.tag], tx.fields).value;
    var b := Unsigned(c, tx).value + signature;
    Parts(tx, p, signature, b);
    NumbersAt(tx, b[68..92]);
    assert b[68..76] == b[68..92][..8] && b[76..84] == b[68..92][8..16] && b[84..92] == b[68..92][16..24];
    LeRoundTrip(|p|, 2);
    PayloadExact(c.commands[tx.tag], tx.fields, p);
  }

  lemma {:induction false} Reassemble(b: Bytes, n: nat)
    requires |b| == 159 + n
    ensures b == b[..4] + b[4..36] + b[36..68] + (b[68..76] + b[76..84] + b[84..92]) + [b[92]] + b[93..95]
                 + b[95..95 + n] + b[95 + n..]
  {
  }

  /** Whatever is accepted is the signed encoding of what was read. */
  lemma {:induction false} TxCanonical(c: Codec, b: Bytes)
    requires c.Valid() && ReadTx(c, b).Ok?
    ensures var (tx, signature) := ReadTx(c, b).value;
            |b| <= c.maxBytes && |signature| == 64 && Unsigned(c, tx).Ok? && b == Unsigned(c, tx).value + signature
  {
    var (tx, signature) := ReadTx(c, b).value;
    var n := FromLe(b[93..95]);
    FromLeRoundTrip(b[93..95]);
    FromLeRoundTrip(b[68..76]);
    FromLeRoundTrip(b[76..84]);
    FromLeRoundTrip(b[84..92]);
    PayloadExact(c.commands[tx.tag], tx.fields, b[95..95 + n]);
    Reassemble(b, n);
  }

  /** Accepted transactions and their byte strings correspond one to one. */
  lemma {:induction false} TxExact(c: Codec, tx: Tx, signature: Bytes, b: Bytes)
    requires c.Valid()
    ensures ReadTx(c, b) == Ok((tx, signature)) <==>
            Unsigned(c, tx).Ok? && |signature| == 64 && b == Unsigned(c, tx).value + signature && |b| <= c.maxBytes
  {
    if ReadTx(c, b) == Ok((tx, signature)) { TxCanonical(c, b); }
    if Unsigned(c, tx).Ok? && |signature| == 64 && b == Unsigned(c, tx).value + signature { TxRoundTrip(c, tx,
        signature); }
  }
}
