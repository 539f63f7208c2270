/** server/include/token_verify.h: the string splitter and the token verifier built on it. */
module TokenVerify {

  datatype Result<+T> = Ok(value: T) | Exit  // `exit(1)`

  // ---------------------------------------------------------------- searching

  predicate At(s: string, d: string, i: nat) {
    i + |d| <= |s| && s[i..i + |d|] == d
  }

  predicate Contains(s: string, d: string) {
    exists i: nat :: i <= |s| && At(s, d, i)
  }

  /** `std::string_view::find`: the first occurrence, or |s| + 1 for `npos`. */
  function Find(s: string, d: string): (pos: nat)
    ensures pos <= |s| ==> pos + |d| <= |s| && At(s, d, pos)
    ensures forall i: nat :: i < pos && i <= |s| ==> !At(s, d, i)
    ensures pos <= |s| || pos == |s| + 1
  {
    FindFrom(s, d, 0)
  }

  function FindFrom(s: string, d: string, i: nat): (pos: nat)
    requires i <= |s| + 1
    requires forall j: nat :: j < i && j <= |s| ==> !At(s, d, j)
    ensures pos <= |s| ==> At(s, d, pos)
    ensures forall j: nat :: j < pos && j <= |s| ==> !At(s, d, j)
    ensures pos <= |s| || pos == |s| + 1
    decreases |s| + 1 - i
  {
    if i > |s| || At(s, d, i) then i else FindFrom(s, d, i + 1)
  }

  // ---------------------------------------------------------------- splitting

  /** The pieces of `s` between occurrences of `d`, found from left to right. */
  function Pieces(s: string, d: string): (ps: seq<string>)
    requires d != []
    ensures |ps| >= 1
    decreases |s|
  {
    var pos := Find(s, d);
    if pos > |s| then [s] else [s[..pos]] + Pieces(s[pos + |d|..], d)
  }

  lemma PiecesCons(s: string, d: string)
    requires d != []
    ensures var pos := Find(s, d);
            Pieces(s, d) == if pos > |s| then [s] + [] else [s[..pos]] + Pieces(s[pos + |d|..], d)
  {
  }

  function NonEmpty(ps: seq<string>): seq<string> {
    if ps == [] then []
    else (if ps[0] != "" then [ps[0]] else []) + NonEmpty(ps[1..])
  }

  /** The non-empty pieces, in order: every non-empty one is kept as often as it occurs, at its place. */
  lemma {:induction false} NonEmptyMeans(ps: seq<string>, qs: seq<string>, p: string)
    ensures NonEmpty([p]) == if p == "" then [] else [p]
    ensures NonEmpty(ps + qs) == NonEmpty(ps) + NonEmpty(qs)
    ensures p in NonEmpty(ps) <==> p in ps && p != ""
  {
    assert [p][1..] == [];
    if ps == [] {
      assert ps + qs == qs;
    } else {
      NonEmptyMeans(ps[1..], qs, p);
      assert (ps + qs)[1..] == ps[1..] + qs && ps == [ps[0]] + ps[1..];
    }
  }

  function Join(ps: seq<string>, d: string): string {
    if ps == [] then "" else if |ps| == 1 then ps[0] else ps[0] + d + Join(ps[1..], d)
  }

  function Kept(ps: seq<string>, keepEmpty: bool): seq<string> {
    if keepEmpty then ps else NonEmpty(ps)
  }

  lemma Keep(sofar: seq<string>, p: string, ps: seq<string>, keepEmpty: bool)
    ensures sofar + Kept([p] + ps, keepEmpty) == (if p != "" || keepEmpty then sofar + [p] else sofar)
            + Kept(ps, keepEmpty)
  {
    assert ([p] + ps)[1..] == ps;
  }

  /** `Split`: nothing for the empty string, `exit(1)` for an empty delimiter, otherwise the pieces,
      with or without the empty ones. */
  method Split(s: string, d: string, keepEmpty: bool) returns (r: Result<seq<string>>)
    ensures s == "" ==> r == Ok([])
    ensures s != "" && d == "" ==> r == Exit
    ensures s != "" && d != "" ==> r == Ok(if keepEmpty then Pieces(s, d) else NonEmpty(Pieces(s, d)))
  {
    hide At, NonEmpty, Pieces, Kept;
    if s == "" { return Ok([]); }
    if d == "" { return Exit; }
    KeptMeans(Pieces(s, d), keepEmpty);
    var splited: seq<string>, cur := [], s;
    while true
      invariant cur != ""
      invariant splited + Kept(Pieces(cur, d), keepEmpty) == Kept(Pieces(s, d), keepEmpty)
      decreases |cur|
    {
      var pos := Find(cur, d);
      var head := if pos > |cur| then cur else cur[..pos];
      ghost var todo := if pos > |cur| then [] else Pieces(cur[pos + |d|..], d);
      PiecesCons(cur, d);
      Keep(splited, head, todo, keepEmpty);
      if pos != 0 || keepEmpty {
        splited := splited + [head];
      }
      assert splited + Kept(todo, keepEmpty) == Kept(Pieces(s, d), keepEmpty);
      if pos > |cur| { break; }
      cur := cur[pos + |d|..];
      if cur == "" {
        LastPieceEmpty(d, keepEmpty);
        if keepEmpty {
          splited := splited + [""];
        }
        break;
      }
    }
    assert splited + [] == splited;
    r := Ok(splited);
  }

  lemma KeptMeans(ps: seq<string>, keepEmpty: bool)
    ensures Kept(ps, keepEmpty) == if keepEmpty then ps else NonEmpty(ps)
    ensures Kept([], keepEmpty) == []
  {
  }

  lemma LastPieceEmpty(d: string, keepEmpty: bool)
    requires d != ""
    ensures Pieces("", d) == [""] && Kept(Pieces("", d), keepEmpty) == if keepEmpty then [""] else []
  {
    assert !At("", d, 0);
    assert Find("", d) == 1;
    assert [""][1..] == [];
  }

  // ---------------------------------------------------------------- what splitting means

  lemma {:induction false} JoinPieces(s: string, d: string)
    requires d != ""
    ensures Join(Pieces(s, d), d) == s
    decreases |s|
  {
    var pos := Find(s, d);
    if pos <= |s| {
      JoinPieces(s[pos + |d|..], d);
      assert Pieces(s, d)[1..] == Pieces(s[pos + |d|..], d);
      assert s == s[..pos] + s[pos..pos + |d|] + s[pos + |d|..];
    }
  }

  lemma {:induction false} NoPieceContains(s: string, d: string)
    requires d != ""
    ensures forall p <- Pieces(s, d) :: !Contains(p, d)
    decreases |s|
  {
    var pos := Find(s, d);
    if pos <= |s| {
      NoPieceContains(s[pos + |d|..], d);
      if Contains(s[..pos], d) {
        var i: nat :| i <= pos && At(s[..pos], d, i);
        assert s[..pos][i..i + |d|] == s[i..i + |d|];
        assert At(s, d, i);
      }
    }
  }

  /** For a one-character delimiter, splitting undoes joining. */
  lemma {:induction false} PiecesOfJoin(ps: seq<string>, c: char)
    requires ps != [] && forall p <- ps :: c !in p
    ensures Pieces(Join(ps, [c]), [c]) == ps
    decreases |ps|
  {
    var s := Join(ps, [c]);
    if |ps| == 1 {
      AbsentChar(s, c);
      assert ps == [s];
    } else {
      var rest := Join(ps[1..], [c]);
      assert s == ps[0] + [c] + rest;
      forall i: nat | i < |ps[0]|
        ensures !At(s, [c], i)
      {
        assert s[i..i + 1][0] == ps[0][i] && ps[0] in ps;
      }
      assert s[|ps[0]|..|ps[0]| + 1] == [c] && At(s, [c], |ps[0]|);
      assert Find(s, [c]) == |ps[0]|;
      assert s[|ps[0]| + 1..] == rest && s[..|ps[0]|] == ps[0];
      PiecesOfJoin(ps[1..], c);
    }
  }

  lemma AbsentChar(s: string, c: char)
    requires c !in s
    ensures Find(s, [c]) == |s| + 1
  {
    forall i: nat | i <= |s|
      ensures !At(s, [c], i)
    {
      if i < |s| {
        assert s[i..i + 1][0] == s[i] && s[i] in s;
      }
    }
  }

  /** The public round trip: `Split(…, true)` undoes `Join` except on the list [""], whose join is
      the empty string, for which `Split` answers with no pieces. */
  method SplitJoined(ps: seq<string>, c: char) returns (r: Result<seq<string>>)
    requires ps != [] && forall p <- ps :: c !in p
    ensures r == Ok(ps) <==> ps != [""]
  {
    PiecesOfJoin(ps, c);
    if Join(ps, [c]) == "" {
      LastPieceEmpty([c], true);
    }
    r := Split(Join(ps, [c]), [c], true);
  }

  // ---------------------------------------------------------------- the verifier

  /** `t` is a whole field of `s`: comma-free and bounded by commas or the ends of `s`. */
  predicate IsFieldAt(s: string, t: string, i: nat) {
    && i + |t| <= |s| && s[i..i + |t|] == t && ',' !in t
    && (i == 0 || s[i - 1] == ',')
    && (i + |t| == |s| || s[i + |t|] == ',')
  }

  predicate IsField(s: string, t: string) {
    exists i: nat :: i <= |s| && IsFieldAt(s, t, i)
  }

  class TokenVerifier {
    const recognized: set<string>

    constructor (tokens: set<string>)
      ensures recognized == tokens
    {
      recognized := tokens;
    }

    predicate Verify(token: string) {
      token in recognized
    }
  }

  /** `MakeTokenVerifier`: the verifier recognizes exactly the fields of the configured string. */
  method MakeTokenVerifier(s: string) returns (r: Result<TokenVerifier>)
    ensures r.Exit? <==> s == ""
    ensures r.Ok? ==> forall t :: r.value.Verify(t) <==> IsField(s, t)
  {
    if s == "" { return Exit; }
    var split := Split(s, ",", true);
    var tokens := split.value;
    var translated := {};
    for i := 0 to |tokens|
      invariant forall t :: t in translated <==> t in tokens[..i]
    {
      translated := translated + {tokens[i]};
    }
    assert tokens[..|tokens|] == tokens;
    var v := new TokenVerifier(translated);
    forall t ensures v.Verify(t) <==> IsField(s, t) {
      PiecesAreFields(s, t);
    }
    r := Ok(v);
  }

  lemma FirstField(s: string)
    ensures var pos := Find(s, ",");
            forall k: nat :: k < pos && k < |s| ==> s[k] != ','
    ensures var pos := Find(s, ","); pos <= |s| ==> pos < |s| && s[pos] == ','
  {
    var pos := Find(s, ",");
    forall k: nat | k < pos && k < |s|
      ensures s[k] != ','
    {
      assert !At(s, ",", k);
      assert s[k..k + 1] == [s[k]];
    }
    if pos <= |s| {
      assert s[pos..pos + 1][0] == ',';
    }
  }

  lemma {:induction false} PiecesAreFields(s: string, t: string)
    ensures t in Pieces(s, ",") <==> IsField(s, t)
    decreases |s|
  {
    var pos := Find(s, ",");
    FirstField(s);
    if pos > |s| {
      if t == s {
        assert IsFieldAt(s, t, 0);
      }
      if IsField(s, t) {
        var i: nat :| i <= |s| && IsFieldAt(s, t, i);
        assert i == 0 && |t| == |s|;
      }
    } else {
      var rest := s[pos + 1..];
      PiecesAreFields(rest, t);
      FieldsShift(s, t, pos);
      assert Pieces(s, ",") == [s[..pos]] + Pieces(rest, ",");
    }
  }

  lemma FieldOfRest(s: string, t: string, pos: nat, i: nat)
    requires pos < |s| && s[pos] == ','
    ensures IsFieldAt(s[pos + 1..], t, i) <==> IsFieldAt(s, t, pos + 1 + i)
  {
    if pos + 1 + i + |t| <= |s| {
      assert s[pos + 1..][i..i + |t|] == s[pos + 1 + i..pos + 1 + i + |t|];
    }
  }

  /** Past the first comma, the fields are the first field and the fields of the rest. */
  lemma FieldsShift(s: string, t: string, pos: nat)
    requires pos < |s| && s[pos] == ',' && forall k: nat :: k < pos ==> s[k] != ','
    ensures IsField(s, t) <==> t == s[..pos] || IsField(s[pos + 1..], t)
  {
    var rest := s[pos + 1..];
    if t == s[..pos] {
      assert IsFieldAt(s, t, 0);
    }
    if IsField(rest, t) {
      var i: nat :| i <= |rest| && IsFieldAt(rest, t, i);
      FieldOfRest(s, t, pos, i);
    }
    if IsField(s, t) {
      var i: nat :| i <= |s| && IsFieldAt(s, t, i);
      if i > pos {
        FieldOfRest(s, t, pos, i - pos - 1);
      } else if i == 0 {
        assert forall k | 0 <= k < |t| :: t[k] == s[k];
        assert |t| <= pos;
        assert |t| == pos;
      }
    }
  }
}
