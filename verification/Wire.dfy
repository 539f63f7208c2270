/** Wire-format primitives shared by every generated message class: base-128 varints, tags,
    length-delimited records and the field loop that all `_InternalParse` functions have in common.
    They follow the Protocol Buffers Encoding guide, sections "Base 128 Varints",
    "Message Structure" and "Length-Delimited Records". */
module Wire {
  import opened Options

  type byte = x: int | 0 <= x < 256
  type bytes = seq<byte>
  type uint32 = x: int | 0 <= x < 0x1_0000_0000
  type uint64 = x: int | 0 <= x < 0x1_0000_0000_0000_0000
  type int32 = x: int | -0x8000_0000 <= x < 0x8000_0000
  type int64 = x: int | -0x8000_0000_0000_0000 <= x < 0x8000_0000_0000_0000

  const TWO_31: int := 0x8000_0000
  const TWO_32: int := 0x1_0000_0000
  const TWO_63: int := 0x8000_0000_0000_0000
  const TWO_64: int := 0x1_0000_0000_0000_0000

  /** `Malformed` is a failed parse (a null pointer in the generated code). `Unknown` means that the
      input holds a well-formed field outside the schema, which the generated code would preserve
      and this model does not. */
  datatype Result<+M> = Ok(value: M) | Malformed | Unknown

  // ---------------------------------------------------------------- integers on the wire

  /** Signed values are written sign-extended to 64 bits. */
  function ToWire(x: int): uint64
    requires -TWO_63 <= x < TWO_64
  {
    if x < 0 then x + TWO_64 else x
  }

  function ReadInt64(v: uint64): int64 {
    if v < TWO_63 then v else v - TWO_64
  }

  /** `ReadVarint32` keeps the low 32 bits. */
  function ReadUInt32(v: uint64): uint32 {
    v % TWO_32
  }

  function ReadInt32(v: uint64): int32 {
    var low := v % TWO_32;
    if low < TWO_31 then low else low - TWO_32
  }

  lemma IntegersSurvive(a: int32, b: int64, c: uint32)
    ensures ReadInt32(ToWire(a)) == a
    ensures ReadInt64(ToWire(b)) == b
    ensures ReadUInt32(c) == c
  {
  }

  // ---------------------------------------------------------------- varints

  function EncodeVarint(v: nat): (bs: bytes)
    ensures |bs| >= 1
  {
    if v < 128 then [v] else [v % 128 + 128] + EncodeVarint(v / 128)
  }

  /** The value and the number of bytes read, looking at no more than `limit` bytes. */
  function DecodeVarint(bs: bytes, limit: nat): (r: Option<(nat, nat)>)
    ensures r.Some? ==> 1 <= r.value.1 <= |bs| && r.value.1 <= limit
  {
    if bs == [] || limit == 0 then None
    else if bs[0] < 128 then Some((bs[0], 1))
    else
      match DecodeVarint(bs[1..], limit - 1)
      case None => None
      case Some((v, n)) => Some((bs[0] - 128 + 128 * v, n + 1))
  }

  lemma {:induction false} VarintRoundTrip(v: nat, tail: bytes, limit: nat)
    requires |EncodeVarint(v)| <= limit
    ensures DecodeVarint(EncodeVarint(v) + tail, limit) == Some((v, |EncodeVarint(v)|))
  {
    var bs := EncodeVarint(v) + tail;
    if v < 128 {
      assert bs[0] == v;
    } else {
      VarintRoundTrip(v / 128, tail, limit - 1);
      assert bs[1..] == EncodeVarint(v / 128) + tail;
    }
  }

  /** `WireFormatLite::UInt64Size`: one byte for each started group of seven bits. */
  function VarintSize(v: nat): (n: nat)
    ensures 1 <= n <= 10
  {
    if v < 0x80 then 1
    else if v < 0x4000 then 2
    else if v < 0x20_0000 then 3
    else if v < 0x1000_0000 then 4
    else if v < 0x8_0000_0000 then 5
    else if v < 0x400_0000_0000 then 6
    else if v < 0x2_0000_0000_0000 then 7
    else if v < 0x100_0000_0000_0000 then 8
    else if v < 0x8000_0000_0000_0000 then 9
    else 10
  }

  lemma {:induction false} VarintSizeIsLength(v: uint64)
    ensures |EncodeVarint(v)| == VarintSize(v)
  {
    if v >= 128 {
      VarintSizeIsLength(v / 128);
    }
  }

  lemma ShortVarintRoundTrip(v: uint32, tail: bytes)
    ensures DecodeVarint(EncodeVarint(v) + tail, 5) == Some((v, |EncodeVarint(v)|))
  {
    VarintSizeIsLength(v);
    VarintRoundTrip(v, tail, 5);
  }

  // ---------------------------------------------------------------- records

  /** One field occurrence: a varint (wire type 0) or a length-delimited payload (wire type 2). */
  datatype Rec = V(num: nat, v: uint64) | L(num: nat, payload: bytes)

  ghost predicate Encodable(r: Rec) {
    && 0 < r.num < 0x2000_0000
    && (r.L? ==> |r.payload| < TWO_31)
  }

  function EncodeRec(r: Rec): (bs: bytes)
    ensures |bs| >= 2
  {
    match r
    case V(num, v) => EncodeVarint(8 * num) + EncodeVarint(v)
    case L(num, payload) => EncodeVarint(8 * num + 2) + EncodeVarint(|payload|) + payload
  }

  function EncodeAll(rs: seq<Rec>): bytes {
    if rs == [] then [] else EncodeRec(rs[0]) + EncodeAll(rs[1..])
  }

  /** A length prefix below 2^31 and that many bytes. */
  function ReadPayload(bs: bytes): (r: Result<(bytes, nat)>)
    ensures r.Ok? ==> 0 < r.value.1 <= |bs|
  {
    match DecodeVarint(bs, 5)
    case None => Malformed
    case Some((size, k)) =>
      if size >= TWO_31 || size > |bs| - k then Malformed else Ok((bs[k..k + size], k + size))
  }

  /** Reads one field: `ReadTag`, then the value that its wire type announces. */
  function ReadRec(bs: bytes): (r: Result<(Rec, nat)>)
    ensures r.Ok? ==> 0 < r.value.1 <= |bs|
  {
    match DecodeVarint(bs, 5)
    case None => Malformed
    case Some((t, n)) =>
      var tag := t % TWO_32;
      if tag == 0 || tag % 8 == 4 then Malformed
      else if tag % 8 == 0 then
        match DecodeVarint(bs[n..], 10)
        case None => Malformed
        case Some((v, k)) => Ok((V(tag / 8, v % TWO_64), n + k))
      else if tag % 8 == 2 then
        match ReadPayload(bs[n..])
        case Ok((payload, k)) => Ok((L(tag / 8, payload), n + k))
        case _ => Malformed
      else Unknown
  }

  lemma ReadEncoded(r: Rec, tail: bytes)
    requires Encodable(r)
    ensures ReadRec(EncodeRec(r) + tail) == Ok((r, |EncodeRec(r)|))
  {
    match r
    case V(num, v) => ReadEncodedVarint(num, v, tail);
    case L(num, payload) => ReadEncodedPayload(num, payload, tail);
  }

  lemma ReadEncodedVarint(num: nat, v: uint64, tail: bytes)
    requires 0 < num < 0x2000_0000
    ensures ReadRec(EncodeRec(V(num, v)) + tail) == Ok((V(num, v), |EncodeRec(V(num, v))|))
  {
    hide DecodeVarint, EncodeVarint;
    var t, bs := EncodeVarint(8 * num), EncodeRec(V(num, v)) + tail;
    var rest := EncodeVarint(v) + tail;
    assert bs == t + rest;
    ShortVarintRoundTrip(8 * num, rest);
    assert bs[|t|..] == rest;
    VarintSizeIsLength(v);
    VarintRoundTrip(v, tail, 10);
  }

  lemma ReadEncodedPayload(num: nat, payload: bytes, tail: bytes)
    requires 0 < num < 0x2000_0000 && |payload| < TWO_31
    ensures ReadRec(EncodeRec(L(num, payload)) + tail) == Ok((L(num, payload), |EncodeRec(L(num, payload))|))
  {
    hide ReadPayload, DecodeVarint, EncodeVarint;
    var t, rest := EncodeVarint(8 * num + 2), EncodeVarint(|payload|) + payload + tail;
    var bs := EncodeRec(L(num, payload)) + tail;
    assert bs == t + rest;
    ShortVarintRoundTrip(8 * num + 2, rest);
    assert bs[|t|..] == rest;
    PayloadSurvives(payload, tail);
  }

  lemma PayloadSurvives(payload: bytes, tail: bytes)
    requires |payload| < TWO_31
    ensures ReadPayload(EncodeVarint(|payload|) + payload + tail)
         == Ok((payload, |EncodeVarint(|payload|)| + |payload|))
  {
    hide DecodeVarint, EncodeVarint;
    var s := EncodeVarint(|payload|);
    assert s + payload + tail == s + (payload + tail);
    ShortVarintRoundTrip(|payload|, payload + tail);
  }

  // ---------------------------------------------------------------- the field loop

  /** The meaning of `_InternalParse`: read a field, let the message's `switch` (`apply`) consume
      it, go on until the input is used up. */
  function Parse<M>(apply: (M, Rec) -> Result<M>, m: M, bs: bytes): Result<M>
    decreases |bs|
  {
    if bs == [] then Ok(m)
    else
      match ReadRec(bs)
      case Malformed => Malformed
      case Unknown => Unknown
      case Ok((r, n)) =>
        match apply(m, r)
        case Ok(m') => Parse(apply, m', bs[n..])
        case Malformed => Malformed
        case Unknown => Unknown
  }

  /** The generated loop itself: `ptr` advances and the message is overwritten field by field. */
  method ParseLoop<M>(apply: (M, Rec) -> Result<M>, start: M, bs: bytes) returns (r: Result<M>)
    ensures r == Parse(apply, start, bs)
  {
    hide ReadRec;
    var ptr, m := 0, start;
    while ptr < |bs|
      invariant 0 <= ptr <= |bs|
      invariant Parse(apply, m, bs[ptr..]) == Parse(apply, start, bs)
    {
      match ReadRec(bs[ptr..])
      case Malformed => return Malformed;
      case Unknown => return Unknown;
      case Ok((field, n)) =>
        match apply(m, field) {
          case Malformed => return Malformed;
          case Unknown => return Unknown;
          case Ok(m') =>
            assert bs[ptr..][n..] == bs[ptr + n..];
            ptr, m := ptr + n, m';
        }
    }
    r := Ok(m);
  }

  /** The same, over fields that are already separated. */
  function Fold<M>(apply: (M, Rec) -> Result<M>, m: M, rs: seq<Rec>): Result<M> {
    if rs == [] then Ok(m)
    else
      match apply(m, rs[0])
      case Ok(m') => Fold(apply, m', rs[1..])
      case Malformed => Malformed
      case Unknown => Unknown
  }

  function Then<M>(r: Result<M>, next: M -> Result<M>): Result<M> {
    match r
    case Ok(m) => next(m)
    case Malformed => Malformed
    case Unknown => Unknown
  }

  lemma ParseOneField<M>(apply: (M, Rec) -> Result<M>, m: M, r: Rec, rest: bytes)
    requires Encodable(r)
    ensures Parse(apply, m, EncodeRec(r) + rest) == Then(apply(m, r), x => Parse(apply, x, rest))
  {
    ReadEncoded(r, rest);
    assert (EncodeRec(r) + rest)[|EncodeRec(r)|..] == rest;
  }

  lemma {:induction false} ParseEncoded<M>(apply: (M, Rec) -> Result<M>, m: M, rs: seq<Rec>, tail: bytes)
    requires forall r <- rs :: Encodable(r)
    ensures Parse(apply, m, EncodeAll(rs) + tail)
         == Then(Fold(apply, m, rs), x => Parse(apply, x, tail))
    decreases |rs|
  {
    hide ReadRec, EncodeRec;
    var bs := EncodeAll(rs) + tail;
    if rs == [] {
      assert bs == tail;
    } else {
      var rest := EncodeAll(rs[1..]) + tail;
      assert bs == EncodeRec(rs[0]) + rest;
      ParseOneField(apply, m, rs[0], rest);
      match apply(m, rs[0])
      case Ok(m') => ParseEncoded(apply, m', rs[1..], tail);
      case _ =>
    }
  }

  lemma {:induction false} FoldConcat<M>(apply: (M, Rec) -> Result<M>, m: M, rs: seq<Rec>, ss: seq<Rec>)
    ensures Fold(apply, m, rs + ss) == Then(Fold(apply, m, rs), x => Fold(apply, x, ss))
    decreases |rs|
  {
    if rs == [] {
      assert rs + ss == ss;
    } else {
      assert (rs + ss)[1..] == rs[1..] + ss;
      match apply(m, rs[0])
      case Ok(m') => FoldConcat(apply, m', rs[1..], ss);
      case _ =>
    }
  }

  lemma {:induction false} EncodeAllConcat(rs: seq<Rec>, ss: seq<Rec>)
    ensures EncodeAll(rs + ss) == EncodeAll(rs) + EncodeAll(ss)
  {
    if rs == [] {
      assert rs + ss == ss;
    } else {
      assert (rs + ss)[1..] == rs[1..] + ss;
      EncodeAllConcat(rs[1..], ss);
    }
  }

  /** A short encoding has short payloads. */
  lemma {:induction false} PayloadsFit(rs: seq<Rec>)
    requires |EncodeAll(rs)| < TWO_31
    ensures forall r <- rs :: r.L? ==> |r.payload| < TWO_31
  {
    if rs != [] {
      PayloadsFit(rs[1..]);
    }
  }

  lemma FoldNothing<M>(apply: (M, Rec) -> Result<M>, m: M)
    ensures Fold(apply, m, []) == Ok(m)
  {
  }

  lemma FoldSmall<M>(apply: (M, Rec) -> Result<M>, m: M, r: Rec)
    ensures Fold(apply, m, []) == Ok(m)
    ensures Fold(apply, m, [r]) == apply(m, r)
  {
  }

  function Checked<M>(ok: bool, m: M): Result<M> {
    if ok then Ok(m) else Malformed
  }

  /** From fields to bytes: what a message's `switch` makes of its own fields is what its parser
      makes of its serialization, whatever follows in the input. */
  lemma ParseSerialized<M>(apply: (M, Rec) -> Result<M>, m: M, rs: seq<Rec>, tail: bytes, ok: bool, m': M)
    requires Fold(apply, m, rs) == Checked(ok, m')
    requires forall r <- rs :: 0 < r.num < 2048
    requires |EncodeAll(rs)| < TWO_31
    ensures Parse(apply, m, EncodeAll(rs) + tail) == if ok then Parse(apply, m', tail) else Malformed
    ensures Parse(apply, m, EncodeAll(rs)) == Checked(ok, m')
  {
    PayloadsFit(rs);
    ParseEncoded(apply, m, rs, tail);
    ParseEncoded(apply, m, rs, []);
    assert EncodeAll(rs) + [] == EncodeAll(rs);
  }

  /** What every single field keeps, a whole parse keeps. */
  lemma {:induction false} ParseKeeps<M(!new)>(apply: (M, Rec) -> Result<M>, good: M -> bool, m: M, bs: bytes)
    requires good(m) && forall x: M, r: Rec :: good(x) && apply(x, r).Ok? ==> good(apply(x, r).value)
    ensures Parse(apply, m, bs).Ok? ==> good(Parse(apply, m, bs).value)
    decreases |bs|
  {
    hide ReadRec;
    if bs != [] {
      match ReadRec(bs)
      case Ok((r, n)) => if apply(m, r).Ok? { ParseKeeps(apply, good, apply(m, r).value, bs[n..]); }
      case _ =>
    }
  }

  // ---------------------------------------------------------------- fields as the generated code writes them

  /** An integer field without presence is written only when it is not zero. */
  function IntField(num: nat, x: int): seq<Rec>
    requires -TWO_63 <= x < TWO_64
  {
    if x == 0 then [] else [V(num, ToWire(x))]
  }

  function IntFieldSize(x: int): nat
    requires -TWO_63 <= x < TWO_64
  {
    if x == 0 then 0 else 1 + VarintSize(ToWire(x))
  }

  /** A `string` or `bytes` field without presence is written only when it is not empty. */
  function BlobField(num: nat, s: bytes): seq<Rec> {
    if s == [] then [] else [L(num, s)]
  }

  function BlobFieldSize(s: bytes): nat {
    if s == [] then 0 else 1 + LengthDelimitedSize(|s|)
  }

  function LengthDelimitedSize(n: nat): nat {
    VarintSize(n) + n
  }

  /** The last byte of the 32-bit tag, which the generated code compares with a literal. */
  function LowByte(r: Rec): nat {
    (8 * r.num + if r.V? then 0 else 2) % 256
  }

  predicate Is(r: Rec, num: nat, low: nat) {
    r.num == num && LowByte(r) == low
  }

  lemma EncodeNothing()
    ensures EncodeAll([]) == []
  {
  }

  lemma RecSize(r: Rec)
    requires Encodable(r) && r.num < 2048
    ensures |EncodeRec(r)| == (if r.num < 16 then 1 else 2)
                            + (if r.V? then VarintSize(r.v) else LengthDelimitedSize(|r.payload|))
    ensures EncodeAll([r]) == EncodeRec(r)
  {
    hide EncodeVarint;
    VarintSizeIsLength(8 * r.num + if r.V? then 0 else 2);
    VarintSizeIsLength(if r.V? then r.v else |r.payload|);
    assert EncodeAll([r]) == EncodeRec(r) + EncodeAll([]);
  }

  lemma FieldSizes(num: nat, x: int, s: bytes)
    requires 0 < num < 16 && -TWO_63 <= x < TWO_64 && |s| < TWO_31
    ensures |EncodeAll(IntField(num, x))| == IntFieldSize(x)
    ensures |EncodeAll(BlobField(num, s))| == BlobFieldSize(s)
  {
    hide EncodeRec, VarintSize;
    EncodeNothing();
    RecSize(V(num, ToWire(x)));
    RecSize(L(num, s));
  }

  // ---------------------------------------------------------------- UTF-8

  predicate Continuation(b: byte) {
    0x80 <= b <= 0xBF
  }

  /** Well-formed UTF-8, as `VerifyUTF8` demands of `string` fields. */
  predicate ValidUtf8(s: bytes) {
    if s == [] then true
    else if s[0] <= 0x7F then ValidUtf8(s[1..])
    else if 0xC2 <= s[0] <= 0xDF then |s| >= 2 && Continuation(s[1]) && ValidUtf8(s[2..])
    else if 0xE0 <= s[0] <= 0xEF then
      && |s| >= 3 && Continuation(s[1]) && Continuation(s[2])
      && (s[0] == 0xE0 ==> s[1] >= 0xA0) && (s[0] == 0xED ==> s[1] <= 0x9F)
      && ValidUtf8(s[3..])
    else if 0xF0 <= s[0] <= 0xF4 then
      && |s| >= 4 && Continuation(s[1]) && Continuation(s[2]) && Continuation(s[3])
      && (s[0] == 0xF0 ==> s[1] >= 0x90) && (s[0] == 0xF4 ==> s[1] <= 0x8F)
      && ValidUtf8(s[4..])
    else false
  }
}
