/** The game's wire protocol: the payloads a client and the server exchange,
    their JSON text, and the '|' delimiter that separates them on the stream. */
module Wire {
  import opened Json

  datatype Direction = Up | Down | Left | Right

  /** The direction as it is written in a payload. */
  function Name(d: Direction): string
  {
    match d
    case Up => "up"
    case Down => "down"
    case Left => "left"
    case Right => "right"
  }

  /** Reads a direction name back; any other text is not a direction. */
  function Named(s: string): (r: Option<Direction>)
    ensures r.Some? ==> Name(r.value) == s
    ensures forall d :: Name(d) == s ==> r == Some(d)
  {
    if s == "up" then Some(Up)
    else if s == "down" then Some(Down)
    else if s == "left" then Some(Left)
    else if s == "right" then Some(Right)
    else None
  }

  const Delimiter: char := '|'

  /** The coordinate pair (99, 99) announces a departure. */
  predicate IsSentinel(x: int, y: int) { x == 99 && y == 99 }

  /** `[x, y, direction]`: what a client sends about itself. */
  datatype Move = Move(x: int, y: int, dir: Direction)

  /** What the server sends: the empty array `[]` it uses as a liveness
      probe, or `[id, x, y, direction]` about one player. */
  datatype ServerFrame = Probe | Entry(id: int, x: int, y: int, dir: Direction)

  function MoveValues(m: Move): seq<Value>
  {
    [Num(m.x), Num(m.y), Str(Name(m.dir))]
  }

  function FrameValues(f: ServerFrame): seq<Value>
  {
    match f
    case Probe => []
    case Entry(id, x, y, d) => [Num(id), Num(x), Num(y), Str(Name(d))]
  }

  function MoveOf(vs: seq<Value>): Option<Move>
  {
    if |vs| == 3 && vs[0].Num? && vs[1].Num? && vs[2].Str? then
      match Named(vs[2].s)
      case None => None
      case Some(d) => Some(Move(vs[0].n, vs[1].n, d))
    else None
  }

  function FrameOf(vs: seq<Value>): Option<ServerFrame>
  {
    if |vs| == 0 then Some(Probe)
    else if |vs| == 4 && vs[0].Num? && vs[1].Num? && vs[2].Num? && vs[3].Str? then
      match Named(vs[3].s)
      case None => None
      case Some(d) => Some(Entry(vs[0].n, vs[1].n, vs[2].n, d))
    else None
  }

  function EncodeMove(m: Move): string { Show(MoveValues(m)) }

  function EncodeFrame(f: ServerFrame): string { Show(FrameValues(f)) }

  function DecodeMove(s: string): Option<Move>
  {
    match Parse(s)
    case None => None
    case Some(vs) => MoveOf(vs)
  }

  function DecodeFrame(s: string): Option<ServerFrame>
  {
    match Parse(s)
    case None => None
    case Some(vs) => FrameOf(vs)
  }

  lemma NamePrintable(d: Direction)
    ensures PlainString(Name(d)) && FreeOf(Name(d), Delimiter)
  {
  }

  lemma DecodeEncodeMove(m: Move)
    ensures DecodeMove(EncodeMove(m)) == Some(m)
  {
    NamePrintable(m.dir);
    ParseShow(MoveValues(m));
  }

  lemma DecodeEncodeFrame(f: ServerFrame)
    ensures DecodeFrame(EncodeFrame(f)) == Some(f)
  {
    if f.Entry? { NamePrintable(f.dir); }
    ParseShow(FrameValues(f));
  }

  /** An encoded payload is never empty and never contains the delimiter. */
  lemma {:induction false} EncodedPayload(vs: seq<Value>)
    requires forall i :: 0 <= i < |vs| ==> vs[i].Str? ==> FreeOf(vs[i].s, Delimiter)
    ensures |Show(vs)| > 0 && FreeOf(Show(vs), Delimiter)
  {
    ShowItemsFreeOf(vs, Delimiter);
  }

  lemma EncodedMove(m: Move)
    ensures |EncodeMove(m)| > 0 && FreeOf(EncodeMove(m), Delimiter)
  {
    NamePrintable(m.dir);
    EncodedPayload(MoveValues(m));
  }

  lemma EncodedFrame(f: ServerFrame)
    ensures |EncodeFrame(f)| > 0 && FreeOf(EncodeFrame(f), Delimiter)
  {
    if f.Entry? { NamePrintable(f.dir); }
    EncodedPayload(FrameValues(f));
  }

  /** The text a sender writes for a run of payloads: each one followed by the delimiter. */
  function Framed(payloads: seq<string>): string
  {
    if |payloads| == 0 then "" else payloads[0] + [Delimiter] + Framed(payloads[1..])
  }

  /** The pieces joined with the delimiter between them (Python's `"|".join`). */
  function Join(pieces: seq<string>): string
    requires |pieces| > 0
  {
    if |pieces| == 1 then pieces[0] else pieces[0] + [Delimiter] + Join(pieces[1..])
  }

  /** Length of the longest prefix of `s` without the delimiter. */
  function Run(s: string): (k: nat)
    ensures k <= |s| && FreeOf(s[..k], Delimiter)
    ensures k < |s| ==> s[k] == Delimiter
  {
    if |s| > 0 && s[0] != Delimiter then
      var k := 1 + Run(s[1..]);
      assert s[..k] == [s[0]] + s[1..][..k - 1];
      k
    else 0
  }

  /** Python's `s.split("|")`: the text between delimiters, empty pieces included. */
  function Split(s: string): (pieces: seq<string>)
    ensures |pieces| > 0
    ensures forall i :: 0 <= i < |pieces| ==> FreeOf(pieces[i], Delimiter)
    ensures Join(pieces) == s
    decreases |s|
  {
    var k := Run(s);
    if k == |s| then
      assert s[..k] == s;
      [s]
    else
      var rest := Split(s[k + 1..]);
      assert s == s[..k] + [Delimiter] + s[k + 1..];
      [s[..k]] + rest
  }

  lemma {:induction false} RunOf(p: string, rest: string)
    requires FreeOf(p, Delimiter)
    requires rest == [] || rest[0] == Delimiter
    ensures Run(p + rest) == |p|
  {
    if |p| > 0 {
      assert (p + rest)[1..] == p[1..] + rest;
      RunOf(p[1..], rest);
    }
  }

  /** Splitting undoes joining, as long as no piece contains the delimiter. */
  lemma {:induction false} SplitJoin(pieces: seq<string>)
    requires |pieces| > 0
    requires forall i :: 0 <= i < |pieces| ==> FreeOf(pieces[i], Delimiter)
    ensures Split(Join(pieces)) == pieces
  {
    var p := pieces[0];
    if |pieces| == 1 {
      RunOf(p, []);
      assert p + [] == p;
    } else {
      var s := Join(pieces);
      var tail := Join(pieces[1..]);
      assert s == p + ([Delimiter] + tail);
      RunOf(p, [Delimiter] + tail);
      assert s[..|p|] == p;
      assert s[|p| + 1..] == tail;
      SplitJoin(pieces[1..]);
      assert [p] + pieces[1..] == pieces;
    }
  }

  lemma {:induction false} FramedIsJoin(payloads: seq<string>)
    ensures Framed(payloads) == Join(payloads + [""])
  {
    if |payloads| > 0 {
      assert (payloads + [""])[1..] == payloads[1..] + [""];
      FramedIsJoin(payloads[1..]);
    }
  }

  /** The pieces that are not empty, in order (the receiver's `len(message) > 0` test). */
  function NonEmpty(pieces: seq<string>): seq<string>
  {
    if |pieces| == 0 then []
    else if |pieces[0]| == 0 then NonEmpty(pieces[1..])
    else [pieces[0]] + NonEmpty(pieces[1..])
  }

  /** A framed run of delimiter-free payloads splits into exactly those
      payloads and one empty trailing piece. */
  lemma SplitFramed(payloads: seq<string>)
    requires forall i :: 0 <= i < |payloads| ==> FreeOf(payloads[i], Delimiter)
    ensures Split(Framed(payloads)) == payloads + [""]
  {
    FramedIsJoin(payloads);
    SplitJoin(payloads + [""]);
  }

  lemma {:induction false} NonEmptyKeeps(payloads: seq<string>)
    requires forall i :: 0 <= i < |payloads| ==> |payloads[i]| > 0
    ensures NonEmpty(payloads + [""]) == payloads
  {
    if |payloads| > 0 {
      assert (payloads + [""])[1..] == payloads[1..] + [""];
      NonEmptyKeeps(payloads[1..]);
      assert [payloads[0]] + payloads[1..] == payloads;
    }
  }

  /** Splitting a framed run of non-empty payloads and dropping the empty
      pieces returns the payloads in the order they were sent. */
  lemma PayloadsInOrder(payloads: seq<string>)
    requires forall i :: 0 <= i < |payloads| ==> |payloads[i]| > 0 && FreeOf(payloads[i], Delimiter)
    ensures NonEmpty(Split(Framed(payloads))) == payloads
  {
    SplitFramed(payloads);
    NonEmptyKeeps(payloads);
  }

  /** The wire text of a run of server frames. */
  function FramesText(fs: seq<ServerFrame>): string
  {
    Framed(seq(|fs|, i requires 0 <= i < |fs| => EncodeFrame(fs[i])))
  }

  /** The wire text of a run of client moves. */
  function MovesText(ms: seq<Move>): string
  {
    Framed(seq(|ms|, i requires 0 <= i < |ms| => EncodeMove(ms[i])))
  }

  /** How the relay reads a received chunk as written (server.py:75-76):
      the whole chunk, delimiter included, goes to the JSON reader. */
  function DecodeChunkAsWritten(chunk: string): Option<Move>
  {
    DecodeMove(chunk)
  }

  /** Finding: a client's frame always ends in the delimiter, which the JSON
      reader rejects as trailing data, so the relay as written cannot decode
      any frame a client sends. */
  lemma AsWrittenRejectsEveryFrame(m: Move)
    ensures DecodeChunkAsWritten(EncodeMove(m) + [Delimiter]) == None
  {
    var vs := MoveValues(m);
    NamePrintable(m.dir);
    var s := EncodeMove(m) + [Delimiter];
    assert s == "[" + (ShowItems(vs) + "]|");
    assert s[1..] == ShowItems(vs) + "]|";
    ParseItemsShow(vs, "]|");
  }

  /** The relay's reading of a chunk as intended: the payload before the first delimiter. */
  function DecodeChunk(chunk: string): Option<Move>
  {
    DecodeMove(Split(chunk)[0])
  }

  lemma DecodeChunkOfFrame(m: Move)
    ensures DecodeChunk(EncodeMove(m) + [Delimiter]) == Some(m)
  {
    EncodedMove(m);
    SplitFramed([EncodeMove(m)]);
    assert Framed([EncodeMove(m)]) == EncodeMove(m) + [Delimiter] + "";
    DecodeEncodeMove(m);
  }
}
