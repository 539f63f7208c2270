/** The two messages of server/proto/route.pb.cc with repeated fields: HeartBeatRequest (a packed
    `repeated uint64`) and GetMsgServerResponse (a `repeated string`). Conventions as in Messages. */
module Route {
  import opened Wire

  // ---------------------------------------------------------------- packed integers

  function EncodePacked(us: seq<uint64>): bytes {
    if us == [] then [] else EncodeVarint(us[0]) + EncodePacked(us[1..])
  }

  function DecodePacked(bs: bytes): Result<seq<uint64>> {
    if bs == [] then Ok([])
    else
      match DecodeVarint(bs, 10)
      case None => Malformed
      case Some((v, n)) =>
        match DecodePacked(bs[n..])
        case Ok(us) => Ok([v % TWO_64] + us)
        case _ => Malformed
  }

  /** `PackedUInt64Parser`: append one varint after another until the payload is used up. */
  method PackedParser(start: seq<uint64>, bs: bytes) returns (r: Result<seq<uint64>>)
    ensures match DecodePacked(bs)
            case Ok(us) => r == Ok(start + us)
            case _ => r == Malformed
  {
    hide DecodePacked, DecodeVarint;
    var ptr, field: seq<uint64> := 0, start;
    assert bs[0..] == bs;
    while ptr < |bs|
      invariant 0 <= ptr <= |bs|
      invariant match DecodePacked(bs[ptr..])
                case Ok(us) => DecodePacked(bs).Ok? && start + DecodePacked(bs).value == field + us
                case _ => !DecodePacked(bs).Ok?
    {
      DecodeOne(bs[ptr..]);
      match DecodeVarint(bs[ptr..], 10)
      case None => return Malformed;
      case Some((v, n)) =>
        assert bs[ptr..][n..] == bs[ptr + n..];
        Appended(field, v % TWO_64, DecodePacked(bs[ptr + n..]));
        ptr, field := ptr + n, field + [v % TWO_64];
    }
    NothingPacked();
    assert bs[ptr..] == [] && field + [] == field;
    r := Ok(field);
  }

  lemma DecodeOne(bs: bytes)
    requires bs != []
    ensures DecodeVarint(bs, 10).None? ==> DecodePacked(bs) == Malformed
    ensures var d := DecodeVarint(bs, 10);
            d.Some? ==>
              && var rest := DecodePacked(bs[d.value.1..]);
                 DecodePacked(bs) == if rest.Ok? then Ok([d.value.0 % TWO_64] + rest.value) else Malformed
  {
    hide DecodeVarint;
  }

  lemma Appended(field: seq<uint64>, v: uint64, rest: Result<seq<uint64>>)
    ensures rest.Ok? ==> field + ([v] + rest.value) == field + [v] + rest.value
  {
  }

  lemma {:induction false} PackedRoundTrip(us: seq<uint64>)
    ensures DecodePacked(EncodePacked(us)) == Ok(us)
    ensures us != [] ==> EncodePacked(us) != []
  {
    if us != [] {
      hide EncodeVarint, DecodeVarint;
      var e, rest := EncodeVarint(us[0]), EncodePacked(us[1..]);
      PackedRoundTrip(us[1..]);
      VarintSizeIsLength(us[0]);
      VarintRoundTrip(us[0], rest, 10);
      assert (e + rest)[|e|..] == rest;
      assert us == [us[0]] + us[1..];
    }
  }

  /** `WireFormatLite::UInt64Size` over the repeated field. */
  method PackedSize(us: seq<uint64>) returns (n: nat)
    ensures n == |EncodePacked(us)|
  {
    hide EncodeVarint, VarintSize;
    n := 0;
    assert us[0..] == us;
    for i := 0 to |us|
      invariant n + |EncodePacked(us[i..])| == |EncodePacked(us)|
    {
      VarintSizeIsLength(us[i]);
      assert us[i..][1..] == us[i + 1..];
      n := n + VarintSize(us[i]);
    }
  }

  // ---------------------------------------------------------------- HeartBeatRequest

  datatype HeartBeat = HeartBeat(reported: bytes, uids: seq<uint64>)

  const NO_BEAT := HeartBeat([], [])

  function RecsUids(us: seq<uint64>): seq<Rec> {
    if us == [] then [] else [L(3, EncodePacked(us))]
  }

  function RecsBeat(m: HeartBeat): seq<Rec> {
    BlobField(1, m.reported) + RecsUids(m.uids)
  }

  function SerBeat(m: HeartBeat): bytes {
    EncodeAll(RecsBeat(m))
  }

  function SwitchBeat(m: HeartBeat, r: Rec): Result<HeartBeat> {
    if Is(r, 1, 10) then Checked(ValidUtf8(r.payload), m.(reported := r.payload))
    else if Is(r, 3, 26) then
      match DecodePacked(r.payload)
      case Ok(us) => Ok(m.(uids := m.uids + us))
      case _ => Malformed
    else if Is(r, 3, 24) then Ok(m.(uids := m.uids + [r.v]))
    else Unknown
  }

  function MergeBeat(m: HeartBeat, a: HeartBeat): HeartBeat {
    HeartBeat(if a.reported != [] then a.reported else m.reported, m.uids + a.uids)
  }

  lemma BeatFields(m: HeartBeat, a: HeartBeat)
    ensures Fold(SwitchBeat, m, RecsBeat(a)) == Checked(ValidUtf8(a.reported), MergeBeat(m, a))
  {
    hide Fold, DecodePacked, EncodePacked;
    FoldConcat(SwitchBeat, m, BlobField(1, a.reported), RecsUids(a.uids));
    FoldSmall(SwitchBeat, m, L(1, a.reported));
    PackedRoundTrip(a.uids);
    var m' := m.(reported := MergeBeat(m, a).reported);
    assert m'.uids + [] == m'.uids;
    FoldSmall(SwitchBeat, m', L(3, EncodePacked(a.uids)));
  }

  lemma BeatParses(m: HeartBeat, a: HeartBeat, tail: bytes)
    requires |SerBeat(a)| < TWO_31
    ensures Parse(SwitchBeat, m, SerBeat(a)) == Checked(ValidUtf8(a.reported), MergeBeat(m, a))
    ensures Parse(SwitchBeat, m, SerBeat(a) + tail)
         == if ValidUtf8(a.reported) then Parse(SwitchBeat, MergeBeat(m, a), tail) else Malformed
  {
    hide Fold, EncodeAll, Parse, SwitchBeat, MergeBeat;
    BeatFields(m, a);
    ParseSerialized(SwitchBeat, m, RecsBeat(a), tail, ValidUtf8(a.reported), MergeBeat(m, a));
  }

  lemma BeatRoundTrip(a: HeartBeat)
    requires |SerBeat(a)| < TWO_31
    ensures Parse(SwitchBeat, NO_BEAT, SerBeat(a)) == if ValidUtf8(a.reported) then Ok(a) else Malformed
  {
    hide Parse, SerBeat;
    BeatParses(NO_BEAT, a, []);
    assert [] + a.uids == a.uids;
  }

  /** Two heartbeats in a row: the reports override, the uids accumulate. */
  lemma BeatConcatenationMerges(a: HeartBeat, b: HeartBeat)
    requires |SerBeat(a)| < TWO_31 && |SerBeat(b)| < TWO_31
    ensures Parse(SwitchBeat, NO_BEAT, SerBeat(a) + SerBeat(b))
         == Checked(ValidUtf8(a.reported) && ValidUtf8(b.reported),
                    HeartBeat(if b.reported != [] then b.reported else a.reported, a.uids + b.uids))
  {
    hide Parse, SerBeat;
    BeatParses(NO_BEAT, a, SerBeat(b));
    assert [] + a.uids == a.uids;
    BeatParses(a, b, []);
  }

  function Unpacked(us: seq<uint64>): seq<Rec> {
    if us == [] then [] else [V(3, us[0])] + Unpacked(us[1..])
  }

  lemma {:induction false} UnpackedFields(m: HeartBeat, us: seq<uint64>)
    ensures forall r <- Unpacked(us) :: r.V? && r.num == 3
    ensures Fold(SwitchBeat, m, Unpacked(us)) == Ok(m.(uids := m.uids + us))
    decreases us
  {
    if us == [] {
      assert m.uids + us == m.uids;
    } else {
      UnpackedFields(m.(uids := m.uids + [us[0]]), us[1..]);
      assert m.uids + [us[0]] + us[1..] == m.uids + us;
    }
  }

  /** "Packed Repeated Fields": the parser takes the bytes of one record per element just as well, and goes on
      with whatever follows. */
  lemma UnpackedIsAccepted(m: HeartBeat, us: seq<uint64>, tail: bytes)
    ensures Parse(SwitchBeat, m, EncodeAll(Unpacked(us)) + tail) == Parse(SwitchBeat, m.(uids := m.uids + us), tail)
  {
    hide Fold, Parse, EncodeAll, SwitchBeat, Unpacked;
    UnpackedFields(m, us);
    ParseEncoded(SwitchBeat, m, Unpacked(us), tail);
  }

  /** `HeartBeatRequest::ByteSizeLong`. */
  method BeatSize(m: HeartBeat) returns (total: nat)
    requires |SerBeat(m)| < TWO_31
    ensures total == |SerBeat(m)|
  {
    hide EncodeAll, EncodeRec, EncodePacked, VarintSize;
    var dataSize := PackedSize(m.uids);
    total := if dataSize > 0 then 1 + VarintSize(dataSize) else 0;
    total := total + dataSize;
    total := total + BlobFieldSize(m.reported);
    EncodeAllConcat(BlobField(1, m.reported), RecsUids(m.uids));
    PayloadsFit(RecsBeat(m));
    assert m.reported != [] ==> L(1, m.reported) in RecsBeat(m);
    FieldSizes(1, 0, m.reported);
    PackedRoundTrip(m.uids);
    EncodeNothing();
    if m.uids != [] {
      assert L(3, EncodePacked(m.uids)) in RecsBeat(m);
      RecSize(L(3, EncodePacked(m.uids)));
    } else {
      NothingPacked();
    }
  }

  lemma NothingPacked()
    ensures EncodePacked([]) == [] && DecodePacked([]) == Ok([])
  {
  }

  // ---------------------------------------------------------------- GetMsgServerResponse

  function RecsLocations(ls: seq<bytes>): seq<Rec> {
    if ls == [] then [] else [L(1, ls[0])] + RecsLocations(ls[1..])
  }

  function SwitchLocations(ls: seq<bytes>, r: Rec): Result<seq<bytes>> {
    if Is(r, 1, 10) then Checked(ValidUtf8(r.payload), ls + [r.payload]) else Unknown
  }

  lemma {:induction false} LocationsFields(ls: seq<bytes>, a: seq<bytes>)
    ensures Fold(SwitchLocations, ls, RecsLocations(a)) == Checked((forall s <- a :: ValidUtf8(s)), ls + a)
    ensures forall r <- RecsLocations(a) :: r.num == 1
    decreases a
  {
    hide ValidUtf8;
    if a == [] {
      assert ls + a == ls;
    } else {
      LocationsFields(ls + [a[0]], a[1..]);
      assert a == [a[0]] + a[1..];
      assert ls + [a[0]] + a[1..] == ls + a;
      assert RecsLocations(a)[1..] == RecsLocations(a[1..]);
    }
  }

  /** Locations of both encodings, in order: MergeFrom on a repeated field. */
  lemma LocationsConcatenationMerges(a: seq<bytes>, b: seq<bytes>)
    requires |EncodeAll(RecsLocations(a))| < TWO_31 && |EncodeAll(RecsLocations(b))| < TWO_31
    ensures Parse(SwitchLocations, [], EncodeAll(RecsLocations(a)) + EncodeAll(RecsLocations(b)))
         == Checked((forall s <- a :: ValidUtf8(s)) && (forall s <- b :: ValidUtf8(s)), a + b)
  {
    hide Fold, EncodeAll, Parse, RecsLocations, SwitchLocations, ValidUtf8;
    LocationsFields([], a);
    assert [] + a == a;
    LocationsFields(a, b);
    var okA, okB := forall s <- a :: ValidUtf8(s), forall s <- b :: ValidUtf8(s);
    ParseSerialized(SwitchLocations, [], RecsLocations(a), EncodeAll(RecsLocations(b)), okA, a);
    ParseSerialized(SwitchLocations, a, RecsLocations(b), [], okB, a + b);
  }

  /** `GetMsgServerResponse::ByteSizeLong`: one tag byte for each location, then their sizes. */
  method LocationsSize(ls: seq<bytes>) returns (total: nat)
    requires forall s <- ls :: |s| < TWO_31
    ensures total == |EncodeAll(RecsLocations(ls))|
  {
    hide EncodeRec, LengthDelimitedSize;
    total := 1 * |ls|;
    assert ls[0..] == ls;
    for i := 0 to |ls|
      invariant total + |EncodeAll(RecsLocations(ls[i..]))| == |EncodeAll(RecsLocations(ls))| + (|ls| - i)
    {
      assert ls[i..][1..] == ls[i + 1..];
      RecSize(L(1, ls[i]));
      assert RecsLocations(ls[i..])[1..] == RecsLocations(ls[i + 1..]);
      total := total + LengthDelimitedSize(|ls[i]|);
    }
  }
}
