/**
 The profile's wire format (src/pprof.rs:504-543): base-128 varints and length-delimited fields.

 The encoders append to a buffer. They are specified by functions on byte sequences, and those
 functions are proved against a reader written from the Protocol Buffers encoding specification,
 driven by a schema that says which length-delimited fields hold messages.
 */
module Wire {
  import opened Places

  type Byte = x: nat | x < 256

  const TWO64: nat := 0x1_0000_0000_0000_0000
  type U64 = x: nat | x < TWO64
  type U32 = x: nat | x < 0x1_0000_0000

  /* ---- What is written ---- */

  /** Base 128, least significant group first; every byte but the last has its top bit set. */
  function Varint(v: nat): (r: seq<Byte>)
    ensures |r| >= 1
  {
    if v < 128 then [v] else [v % 128 + 128] + Varint(v / 128)
  }

  datatype Field =
    | Number(num: U32, value: U64)
    | Bytes(num: U32, data: seq<Byte>)
    | Message(num: U32, fields: seq<Field>)

  function FieldBytes(f: Field): seq<Byte> {
    match f
    case Number(num, value) => Varint(num * 8) + Varint(value)
    case Bytes(num, data) => Varint(num * 8 + 2) + Varint(|data|) + data
    case Message(num, fields) => Varint(num * 8 + 2) + Varint(|Encoded(fields)|) + Encoded(fields)
  }

  /** A message is the concatenation of its fields. */
  function Encoded(m: seq<Field>): seq<Byte> {
    if m == [] then [] else FieldBytes(m[0]) + Encoded(m[1..])
  }

  /* ---- The reader ---- */

  datatype Read<T> = Read(value: T, rest: seq<Byte>) | Malformed

  const MAX_VARINT: nat := 10

  /** At most `limit` groups; the groups above bit 63 are dropped by the caller. */
  function ReadGroups(s: seq<Byte>, limit: nat): (r: Read<nat>)
    ensures r.Read? ==> |r.rest| < |s|
    decreases limit
  {
    if s == [] || limit == 0 then Malformed
    else if s[0] < 128 then Read(s[0], s[1..])
    else
      match ReadGroups(s[1..], limit - 1)
      case Read(high, rest) => Read(s[0] - 128 + 128 * high, rest)
      case Malformed => Malformed
  }

  function ReadVarint(s: seq<Byte>): (r: Read<U64>)
    ensures r.Read? ==> |r.rest| < |s|
  {
    match ReadGroups(s, MAX_VARINT)
    case Read(v, rest) => Read(v % TWO64, rest)
    case Malformed => Malformed
  }

  /** The message type held by field `num` of message type `ty`; `None` for plain bytes. */
  type Schema = (nat, nat) -> Option<nat>

  /** Field numbers the specification allows. */
  predicate LegalNumber(num: nat) {
    1 <= num < 0x2000_0000
  }

  function ReadField(schema: Schema, ty: nat, s: seq<Byte>): (r: Read<Field>)
    ensures r.Read? ==> |r.rest| < |s|
    decreases |s|, 0
  {
    match ReadVarint(s)
    case Malformed => Malformed
    case Read(tag, rest) =>
      if !LegalNumber(tag / 8) then Malformed
      else if tag % 8 == 0 then
        match ReadVarint(rest)
        case Read(v, rest') => Read(Number(tag / 8, v), rest')
        case Malformed => Malformed
      else if tag % 8 == 2 then
        match ReadVarint(rest)
        case Malformed => Malformed
        case Read(len, body) =>
          if len > |body| then Malformed
          else
            match schema(ty, tag / 8)
            case None => Read(Bytes(tag / 8, body[..len]), body[len..])
            case Some(sub) =>
              match ReadMessage(schema, sub, body[..len])
              case Some(m) => Read(Message(tag / 8, m), body[len..])
              case None => Malformed
      else Malformed
  }

  function ReadMessage(schema: Schema, ty: nat, s: seq<Byte>): (r: Option<seq<Field>>)
    decreases |s|, 1
  {
    if s == [] then Some([])
    else
      match ReadField(schema, ty, s)
      case Malformed => None
      case Read(f, rest) =>
        match ReadMessage(schema, ty, rest)
        case Some(m) => Some([f] + m)
        case None => None
  }

  /* ---- Round trips ---- */

  function Pow128(n: nat): nat {
    if n == 0 then 1 else 128 * Pow128(n - 1)
  }

  /** The exact length: `n` bytes suffice iff the value has at most `n` groups. */
  lemma {:induction false} VarintLength(v: nat, n: nat)
    requires n >= 1
    ensures |Varint(v)| <= n <==> v < Pow128(n)
  {
    if n == 1 {
      assert Pow128(1) == 128 * Pow128(0);
    } else if v < 128 {
      VarintLength(v, n - 1);
    } else {
      VarintLength(v / 128, n - 1);
    }
  }

  /** Every 64-bit value takes at most ten bytes. */
  lemma VarintShort(v: U64)
    ensures |Varint(v)| <= MAX_VARINT
  {
    VarintLength(v, MAX_VARINT);
    assert Pow128(2) == 128 * Pow128(1);
    assert Pow128(5) == 128 * 128 * 128 * Pow128(2);
    assert Pow128(10) == 128 * 128 * 128 * 128 * 128 * Pow128(5);
  }

  lemma {:induction false} GroupsBack(v: nat, tail: seq<Byte>, limit: nat)
    requires |Varint(v)| <= limit
    ensures ReadGroups(Varint(v) + tail, limit) == Read(v, tail)
  {
    var s := Varint(v) + tail;
    if v < 128 {
      assert s[1..] == tail;
    } else {
      GroupsBack(v / 128, tail, limit - 1);
      assert s[1..] == Varint(v / 128) + tail;
    }
  }

  /** A 64-bit value comes back, and what follows it is untouched. */
  lemma VarintBack(v: U64, tail: seq<Byte>)
    ensures ReadVarint(Varint(v) + tail) == Read(v, tail)
  {
    hide Varint, ReadGroups;
    VarintShort(v);
    GroupsBack(v, tail, MAX_VARINT);
    Fits(v);
  }

  lemma Fits(v: nat)
    requires v < TWO64
    ensures v % TWO64 == v
  {
  }

  /** The reader's schema agrees with where the writer nested messages; lengths fit 64 bits. */
  predicate Conforms(schema: Schema, ty: nat, f: Field)
    decreases f
  {
    match f
    case Number(_, _) => true
    case Bytes(num, data) => schema(ty, num) == None && |data| < TWO64
    case Message(num, fields) =>
      schema(ty, num).Some? && |Encoded(fields)| < TWO64 &&
      forall g :: g in fields ==> Conforms(schema, schema(ty, num).value, g)
  }

  predicate Legal(f: Field) {
    LegalNumber(f.num) && (f.Message? ==> forall g :: g in f.fields ==> Legal(g))
  }

  /** The tag, then a number. */
  lemma NumberBack(schema: Schema, ty: nat, num: U32, value: U64, tail: seq<Byte>)
    ensures ReadField(schema, ty, Varint(num * 8) + (Varint(value) + tail)) ==
            if LegalNumber(num) then Read(Number(num, value), tail) else Malformed
  {
    hide Varint, ReadVarint;
    VarintBack(num * 8, Varint(value) + tail);
    VarintBack(value, tail);
    Tag(num, 0);
  }

  /** The tag, the length, then that many bytes. */
  lemma LengthBack(schema: Schema, ty: nat, num: U32, data: seq<Byte>, tail: seq<Byte>)
    requires |data| < TWO64
    ensures ReadField(schema, ty, Varint(num * 8 + 2) + (Varint(|data|) + (data + tail))) ==
            if !LegalNumber(num) then Malformed
            else if schema(ty, num) == None then Read(Bytes(num, data), tail)
            else match ReadMessage(schema, schema(ty, num).value, data)
              case Some(m) => Read(Message(num, m), tail)
              case None => Malformed
  {
    hide Varint, ReadVarint, ReadMessage;
    VarintBack(num * 8 + 2, Varint(|data|) + (data + tail));
    VarintBack(|data|, data + tail);
    Tag(num, 2);
    assert (data + tail)[..|data|] == data && (data + tail)[|data|..] == tail;
  }

  lemma Tag(num: nat, wire: nat)
    requires wire < 8
    ensures (num * 8 + wire) / 8 == num && (num * 8 + wire) % 8 == wire
  {
  }

  /** A field is read back, to any depth, exactly when every number in it is legal. */
  lemma {:induction false} FieldBack(schema: Schema, ty: nat, f: Field, tail: seq<Byte>)
    requires Conforms(schema, ty, f)
    ensures ReadField(schema, ty, FieldBytes(f) + tail) == if Legal(f) then Read(f, tail) else Malformed
    decreases f, 0
  {
    hide Varint, ReadField, ReadMessage, Encoded;
    var s := FieldBytes(f) + tail;
    match f
    case Number(num, value) =>
      assert s == Varint(num * 8) + (Varint(value) + tail);
      NumberBack(schema, ty, num, value, tail);
    case Bytes(num, data) =>
      assert s == Varint(num * 8 + 2) + (Varint(|data|) + (data + tail));
      LengthBack(schema, ty, num, data, tail);
    case Message(num, fields) =>
      var data := Encoded(fields);
      assert s == Varint(num * 8 + 2) + (Varint(|data|) + (data + tail));
      LengthBack(schema, ty, num, data, tail);
      MessageBack(schema, schema(ty, num).value, fields);
  }

  /**
   Every sequence of fields, nested to any depth, reads back as itself exactly when every field
   number in it is one the specification allows, and is rejected otherwise.
   */
  lemma {:induction false} MessageBack(schema: Schema, ty: nat, m: seq<Field>)
    requires forall f :: f in m ==> Conforms(schema, ty, f)
    ensures ReadMessage(schema, ty, Encoded(m)) ==
            if forall f :: f in m ==> Legal(f) then Some(m) else None
    decreases m
  {
    hide FieldBytes, ReadField, Legal, Conforms;
    if m != [] {
      assert m == [m[0]] + m[1..];
      FieldBack(schema, ty, m[0], Encoded(m[1..]));
      MessageBack(schema, ty, m[1..]);
      NotEmpty(m[0]);
    }
  }

  lemma NotEmpty(f: Field)
    ensures |FieldBytes(f)| > 0
  {
  }

  /** Two messages with legal numbers and the same bytes are the same message. */
  lemma EncodedInjective(schema: Schema, ty: nat, m: seq<Field>, n: seq<Field>)
    requires forall f :: f in m ==> Conforms(schema, ty, f) && Legal(f)
    requires forall f :: f in n ==> Conforms(schema, ty, f) && Legal(f)
    requires Encoded(m) == Encoded(n)
    ensures m == n
  {
    MessageBack(schema, ty, m);
    MessageBack(schema, ty, n);
  }

  /* ---- The encoders ---- */

  /** `Vec<u8>`. */
  class ByteBuffer {
    var bytes: seq<Byte>

    constructor ()
      ensures bytes == []
    {
      bytes := [];
    }

    /** `encode_varint`: at most ten bytes, which read back as `val`. */
    method EncodeVarint(val: U64)
      modifies this
      ensures bytes == old(bytes) + Varint(val)
      ensures |bytes| <= |old(bytes)| + MAX_VARINT
      ensures ReadVarint(bytes[|old(bytes)|..]) == Read(val, [])
    {
      var v: nat := val;
      while true
        invariant bytes + Varint(v) == old(bytes) + Varint(val)
        decreases v
      {
        ghost var before, was := bytes, v;
        var byte := v % 128;
        v := v / 128;
        if v == 0 {
          bytes := bytes + [byte];
          break;
        }
        bytes := bytes + [byte + 128];
        assert before + Varint(was) == bytes + Varint(v);
      }
      VarintShort(val);
      VarintBack(val, []);
      assert bytes[|old(bytes)|..] == Varint(val) + [];
    }

    /** `encode_varint_field`. */
    method EncodeVarintField(field: U32, val: U64)
      modifies this
      ensures bytes == old(bytes) + FieldBytes(Number(field, val))
    {
      hide Varint, ReadVarint;
      EncodeVarint(field * 8);
      EncodeVarint(val);
    }

    /** `encode_field`. */
    method EncodeField(field: U32, data: seq<Byte>)
      requires |data| < TWO64
      modifies this
      ensures bytes == old(bytes) + FieldBytes(Bytes(field, data))
      ensures forall m :: Encoded(m) == data ==> bytes == old(bytes) + FieldBytes(Message(field, m))
    {
      hide Varint, ReadVarint;
      EncodeVarint(field * 8 + 2);
      EncodeVarint(|data|);
      bytes := bytes + data;
    }
  }

  function Pair(a: U64, b: U64): seq<Field> {
    [Number(1, a), Number(2, b)]
  }

  lemma PairEncoded(a: U64, b: U64)
    ensures Encoded(Pair(a, b)) == FieldBytes(Number(1, a)) + FieldBytes(Number(2, b))
  {
    var m := Pair(a, b);
    assert m[1..] == [Number(2, b)];
    assert m[1..][1..] == [];
    assert Encoded(m[1..]) == FieldBytes(Number(2, b)) + Encoded([]);
  }

  lemma PairBack(a: U64, b: U64)
    ensures forall schema: Schema, ty :: ReadMessage(schema, ty, Encoded(Pair(a, b))) == Some(Pair(a, b))
  {
    hide ReadMessage, Encoded;
    forall schema: Schema, ty: nat
      ensures ReadMessage(schema, ty, Encoded(Pair(a, b))) == Some(Pair(a, b))
    {
      MessageBack(schema, ty, Pair(a, b));
    }
  }

  /** `encode_value_type`: reads back as field 1 = type, field 2 = unit. */
  method EncodeValueType(typeIdx: U64, unitIdx: U64) returns (r: seq<Byte>)
    ensures forall schema: Schema, ty :: ReadMessage(schema, ty, r) == Some([Number(1, typeIdx), Number(2, unitIdx)])
  {
    hide ReadMessage, Encoded, FieldBytes, Varint;
    var buf := new ByteBuffer();
    buf.EncodeVarintField(1, typeIdx);
    buf.EncodeVarintField(2, unitIdx);
    r := buf.bytes;
    PairEncoded(typeIdx, unitIdx);
    assert r == Encoded(Pair(typeIdx, unitIdx));
    PairBack(typeIdx, unitIdx);
  }

  /** `encode_label`: reads back as field 1 = key, field 2 = string value. */
  method EncodeLabel(key: U64, strVal: U64) returns (r: seq<Byte>)
    ensures forall schema: Schema, ty :: ReadMessage(schema, ty, r) == Some([Number(1, key), Number(2, strVal)])
  {
    hide ReadMessage, Encoded, FieldBytes, Varint;
    var buf := new ByteBuffer();
    buf.EncodeVarintField(1, key);
    buf.EncodeVarintField(2, strVal);
    r := buf.bytes;
    PairEncoded(key, strVal);
    assert r == Encoded(Pair(key, strVal));
    PairBack(key, strVal);
  }
}
