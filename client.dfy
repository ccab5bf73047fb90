/** The game client (client.py): the table of remote players that the
    listener thread fills from the server's frames, the camera those players
    are drawn against, and the local player's turn-or-step key rule with its
    split of every step into a move of the sprite or a move of the camera. */
module Client {
  import opened Json
  import opened Wire

  // ---------------------------------------------------------------------------
  // Remote players

  /** A `Character` drawn for another client: its tile, the direction it
      faces and its on-screen position (`position_x`, `position_y`). */
  datatype Remote = Remote(tileX: int, tileY: int, dir: Direction, posX: int, posY: int)

  /** `Character()`: tile (5, 5), facing down, drawn at (5, 5). */
  function NewCharacter(): (r: Remote)
    ensures r.tileX == 5 && r.tileY == 5 && r.dir == Down
  {
    Remote(5, 5, Down, 5, 5)
  }

  /** A character is drawn where its tile falls under the camera (`update_position`). */
  predicate OnCamera(r: Remote, camX: int, camY: int)
  {
    r.posX == r.tileX + camX && r.posY == r.tileY - camY
  }

  /** Every remote player is drawn where its tile falls under the camera. */
  ghost predicate AllOnCamera(players: map<int, Remote>, camX: int, camY: int)
  {
    forall id :: id in players ==> OnCamera(players[id], camX, camY)
  }

  /** `update_position`: the position is recomputed from the tile and the camera. */
  function Place(r: Remote, camX: int, camY: int): (q: Remote)
    ensures OnCamera(q, camX, camY)
    ensures q.tileX == r.tileX && q.tileY == r.tileY && q.dir == r.dir
  {
    r.(posX := r.tileX + camX, posY := r.tileY - camY)
  }

  /** The table after a frame from the server (client.py:400-415): the
      probe `[]` is ignored; otherwise an unseen id first gets a new
      character, which the sentinel (99, 99) then removes together with any
      older entry, and any other frame sets the tile and the direction and
      redraws the character. */
  function AfterFrame(players: map<int, Remote>, f: ServerFrame, camX: int, camY: int): (r: map<int, Remote>)
    ensures f.Probe? ==> r == players
    ensures f.Entry? && IsSentinel(f.x, f.y) ==> r == players - {f.id}
    ensures f.Entry? && !IsSentinel(f.x, f.y) ==>
      r == players[f.id := Remote(f.x, f.y, f.dir, f.x + camX, f.y - camY)]
  {
    match f
    case Probe => players
    case Entry(id, x, y, d) =>
      var known := if id in players then players else players[id := NewCharacter()];
      if IsSentinel(x, y) then known - {id}
      else known[id := Place(known[id].(tileX := x, tileY := y, dir := d), camX, camY)]
  }

  /** A frame changes the entry of its own id and no other. */
  lemma FrameTouchesOnlyItsId(players: map<int, Remote>, f: ServerFrame, camX: int, camY: int, other: int)
    requires f.Entry? ==> other != f.id
    ensures other in AfterFrame(players, f, camX, camY) <==> other in players
    ensures other in players ==> AfterFrame(players, f, camX, camY)[other] == players[other]
  {
  }

  /** Frames keep every remote player drawn under the camera. */
  lemma FrameKeepsOnCamera(players: map<int, Remote>, f: ServerFrame, camX: int, camY: int)
    requires AllOnCamera(players, camX, camY)
    ensures AllOnCamera(AfterFrame(players, f, camX, camY), camX, camY)
  {
  }

  /** The outcome of reading a chunk: the table, and whether the listener
      is still running (false once a piece did not decode). */
  datatype Outcome = Outcome(players: map<int, Remote>, ok: bool)

  /** The pieces of a chunk read in order (client.py:397-398): empty
      pieces are skipped, and the first piece that does not decode to a
      server frame raises, which leaves the table as it then is and ends
      the listener. */
  function AfterPieces(players: map<int, Remote>, pieces: seq<string>, camX: int, camY: int): (o: Outcome)
    ensures o.ok <==> forall i :: 0 <= i < |pieces| && |pieces[i]| > 0 ==> DecodeFrame(pieces[i]).Some?
  {
    if |pieces| == 0 then Outcome(players, true)
    else
      var o := AfterPieces(players, pieces[..|pieces| - 1], camX, camY);
      var piece := pieces[|pieces| - 1];
      assert forall i :: 0 <= i < |pieces| - 1 ==> pieces[..|pieces| - 1][i] == pieces[i];
      if !o.ok || |piece| == 0 then o
      else match DecodeFrame(piece)
        case None => Outcome(o.players, false)
        case Some(f) => Outcome(AfterFrame(o.players, f, camX, camY), true)
  }

  /** Reading pieces keeps every remote player drawn under the camera. */
  lemma {:induction false} PiecesKeepOnCamera(players: map<int, Remote>, pieces: seq<string>, camX: int, camY: int)
    requires AllOnCamera(players, camX, camY)
    ensures AllOnCamera(AfterPieces(players, pieces, camX, camY).players, camX, camY)
  {
    if |pieces| > 0 {
      var o := AfterPieces(players, pieces[..|pieces| - 1], camX, camY);
      PiecesKeepOnCamera(players, pieces[..|pieces| - 1], camX, camY);
      var piece := pieces[|pieces| - 1];
      if o.ok && |piece| > 0 && DecodeFrame(piece).Some? {
        FrameKeepsOnCamera(o.players, DecodeFrame(piece).value, camX, camY);
      }
    }
  }

  /** The table after a run of frames, applied in order. */
  function AfterFrames(players: map<int, Remote>, fs: seq<ServerFrame>, camX: int, camY: int): map<int, Remote>
  {
    if |fs| == 0 then players
    else AfterFrame(AfterFrames(players, fs[..|fs| - 1], camX, camY), fs[|fs| - 1], camX, camY)
  }

  /** Once a piece has failed, the later pieces are not read. */
  lemma {:induction false} FailureIsFinal(players: map<int, Remote>, pieces: seq<string>, i: nat, camX: int, camY: int)
    requires i <= |pieces|
    requires !AfterPieces(players, pieces[..i], camX, camY).ok
    ensures AfterPieces(players, pieces, camX, camY) == AfterPieces(players, pieces[..i], camX, camY)
  {
    if i < |pieces| {
      assert pieces[..|pieces| - 1][..i] == pieces[..i];
      FailureIsFinal(players, pieces[..|pieces| - 1], i, camX, camY);
    } else {
      assert pieces[..i] == pieces;
    }
  }

  /** Reading the piece after a prefix that decoded: an empty piece is
      skipped, a piece that does not decode fails, a frame is applied. */
  lemma NextPiece(players: map<int, Remote>, pieces: seq<string>, i: nat, camX: int, camY: int)
    requires i < |pieces| && AfterPieces(players, pieces[..i], camX, camY).ok
    ensures var before := AfterPieces(players, pieces[..i], camX, camY).players;
      AfterPieces(players, pieces[..i + 1], camX, camY)
      == if |pieces[i]| == 0 then Outcome(before, true)
         else match DecodeFrame(pieces[i])
           case None => Outcome(before, false)
           case Some(f) => Outcome(AfterFrame(before, f, camX, camY), true)
  {
    assert pieces[..i + 1][..i] == pieces[..i];
  }

  function Encoded(fs: seq<ServerFrame>): seq<string>
    ensures |Encoded(fs)| == |fs|
  {
    seq(|fs|, i requires 0 <= i < |fs| => EncodeFrame(fs[i]))
  }

  /** A piece that decodes to a frame, read after pieces that all decoded, applies that frame. */
  lemma OnePieceMore(players: map<int, Remote>, pieces: seq<string>, piece: string, f: ServerFrame, camX: int, camY: int)
    requires AfterPieces(players, pieces, camX, camY).ok
    requires |piece| > 0 && DecodeFrame(piece) == Some(f)
    ensures AfterPieces(players, pieces + [piece], camX, camY)
         == Outcome(AfterFrame(AfterPieces(players, pieces, camX, camY).players, f, camX, camY), true)
  {
    assert (pieces + [piece])[..|pieces|] == pieces;
  }

  lemma EncodedSnoc(fs: seq<ServerFrame>)
    requires |fs| > 0
    ensures Encoded(fs) == Encoded(fs[..|fs| - 1]) + [EncodeFrame(fs[|fs| - 1])]
  {
    assert Encoded(fs) == Encoded(fs[..|fs| - 1]) + [EncodeFrame(fs[|fs| - 1])];
  }

  lemma {:induction false} EncodedFramesApply(players: map<int, Remote>, fs: seq<ServerFrame>, camX: int, camY: int)
    ensures AfterPieces(players, Encoded(fs), camX, camY) == Outcome(AfterFrames(players, fs, camX, camY), true)
  {
    if |fs| > 0 {
      var n := |fs|;
      var f := fs[n - 1];
      EncodedSnoc(fs);
      EncodedFramesApply(players, fs[..n - 1], camX, camY);
      EncodedFrame(f);
      DecodeEncodeFrame(f);
      OnePieceMore(players, Encoded(fs[..n - 1]), EncodeFrame(f), f, camX, camY);
    }
  }

  /** Reading the text the server writes for a run of frames applies
      exactly those frames, in order, and leaves the listener running. */
  lemma FramesApplyInOrder(players: map<int, Remote>, fs: seq<ServerFrame>, camX: int, camY: int)
    ensures AfterPieces(players, Split(FramesText(fs)), camX, camY) == Outcome(AfterFrames(players, fs, camX, camY), true)
  {
    var ps := Encoded(fs);
    assert FramesText(fs) == Framed(ps);
    forall i | 0 <= i < |ps| ensures FreeOf(ps[i], Delimiter) {
      EncodedFrame(fs[i]);
    }
    SplitFramed(ps);
    assert (ps + [""])[..|ps|] == ps;
    EncodedFramesApply(players, fs, camX, camY);
  }

  /** Every remote player redrawn under the camera (the loop over
      `players.values()` in client.py:307-309). */
  function Repositioned(players: map<int, Remote>, camX: int, camY: int): (r: map<int, Remote>)
    ensures r.Keys == players.Keys
    ensures AllOnCamera(r, camX, camY)
    ensures forall id :: id in players ==>
      r[id].tileX == players[id].tileX && r[id].tileY == players[id].tileY && r[id].dir == players[id].dir
  {
    map id | id in players :: Place(players[id], camX, camY)
  }

  /** The table part way through that loop: the entries at `done` are redrawn. */
  function PlacedAt(players: map<int, Remote>, done: set<int>, camX: int, camY: int): (r: map<int, Remote>)
    ensures r.Keys == players.Keys
  {
    map id | id in players :: if id in done then Place(players[id], camX, camY) else players[id]
  }

  lemma PlacedOneMore(players: map<int, Remote>, done: set<int>, k: int, camX: int, camY: int)
    requires k in players
    ensures PlacedAt(players, done + {k}, camX, camY)
         == PlacedAt(players, done, camX, camY)[k := Place(players[k], camX, camY)]
  {
  }

  // ---------------------------------------------------------------------------
  // The map and the key rule

  /** The tile map: its size in tiles and the tiles with the 'collision' property. */
  datatype TileMap = TileMap(width: int, height: int, blocked: set<(int, int)>)

  /** `TileGrid.valid_move`: out of bounds is refused first, then a
      colliding tile; the bounds admit x == width and y == height. */
  predicate ValidMove(m: TileMap, x: int, y: int): (ok: bool)
    ensures ok <==> 0 <= x <= m.width && 0 <= y <= m.height && (x, y) !in m.blocked
  {
    if x < 0 || x > m.width || y < 0 || y > m.height then false
    else if (x, y) in m.blocked then false
    else true
  }

  /** The unit step of each direction; y grows downwards. */
  function Delta(d: Direction): (int, int)
  {
    match d
    case Up => (0, -1)
    case Down => (0, 1)
    case Left => (-1, 0)
    case Right => (1, 0)
  }

  /** `on_key_down`'s choice of (dx, dy, new_dir) (client.py:259-282): an
      arrow other than the current direction turns without moving, the
      current direction steps one tile. */
  function KeyRule(current: Direction, pressed: Direction): (r: (int, int, Direction))
    ensures r.2 == pressed
    ensures pressed != current ==> r.0 == 0 && r.1 == 0
    ensures pressed == current ==> (r.0, r.1) == Delta(pressed)
  {
    var dx, dy, newDir := 0, 0, current;
    match pressed
    case Up => if newDir != Up then (dx, dy, Up) else (dx, -1, newDir)
    case Down => if newDir != Down then (dx, dy, Down) else (dx, 1, newDir)
    case Left => if newDir != Left then (dx, dy, Left) else (-1, dy, newDir)
    case Right => if newDir != Right then (dx, dy, Right) else (1, dy, newDir)
  }

  /** Half the window's extent in tiles of 32 pixels, rounded up, as
      `(Window.width / 32 + 1) / 2` computes it on integers. */
  function HalfView(pixels: nat): (n: nat)
    ensures 2 * n <= pixels / 32 + 1 <= 2 * n + 1
  {
    (pixels / 32 + 1) / 2
  }

  /** Where the local player and the camera are: the tile, the position on
      the screen and the camera offset. */
  datatype Pose = Pose(tileX: int, tileY: int, posX: int, posY: int, camX: int, camY: int)

  /** `update_position`'s relation between tile, screen position and camera. */
  predicate Anchored(p: Pose)
  {
    p.posX == p.tileX + p.camX && p.posY == p.tileY - p.camY
  }

  /** The sprite moves along x near the left edge of the view or near the
      right edge of the map; elsewhere the camera moves (client.py:289-295). */
  predicate SpriteMovesX(p: Pose, dx: int, halfW: int, mapWidth: int)
  {
    (p.posX + dx < halfW && p.tileX < halfW) || p.tileX + dx > mapWidth - halfW
  }

  /** The same rule along y, with a margin of two rows at the bottom (client.py:298-304). */
  predicate SpriteMovesY(p: Pose, dy: int, halfH: int, mapHeight: int)
  {
    (p.posY + dy < halfH && p.tileY < halfH) || p.tileY + dy + 2 > mapHeight - halfH
  }

  /** A step of (dx, dy): the tile always moves; along each axis either
      the sprite or the camera follows it, and the tile, screen position
      and camera stay anchored to one another. */
  function Stepped(p: Pose, dx: int, dy: int, halfW: int, halfH: int, m: TileMap): (q: Pose)
    ensures q.tileX == p.tileX + dx && q.tileY == p.tileY + dy
    ensures Anchored(p) ==> Anchored(q)
    ensures SpriteMovesX(p, dx, halfW, m.width) ==> q.camX == p.camX
    ensures !SpriteMovesX(p, dx, halfW, m.width) ==> q.posX == p.posX
    ensures SpriteMovesY(p, dy, halfH, m.height) ==> q.camY == p.camY
    ensures !SpriteMovesY(p, dy, halfH, m.height) ==> q.posY == p.posY
  {
    var q := if SpriteMovesX(p, dx, halfW, m.width) then p.(posX := p.posX + dx) else p.(camX := p.camX - dx);
    var q := q.(tileX := q.tileX + dx);
    var q := if SpriteMovesY(p, dy, halfH, m.height) then q.(posY := q.posY + dy) else q.(camY := q.camY + dy);
    q.(tileY := q.tileY + dy)
  }

  // ---------------------------------------------------------------------------
  // Animation

  /** Every direction has four animation images. */
  const Frames: nat := 4

  /** The position of an image in a direction's list of four. */
  type ImageIndex = i: nat | i < Frames

  /** The sprite shown: the image `index` of the four drawn for direction `dir`. */
  datatype Sprite = Sprite(dir: Direction, index: ImageIndex)

  /** The animation state of a character. */
  datatype Anim = Anim(frame: int, sprite: Sprite, animating: bool)

  /** One call of `_animate(direction)` (client.py:194-202): the frame
      counter goes down by one; while it is positive and the sprite belongs
      to this direction the next image is shown and another call is
      scheduled (the second component), otherwise the animation stops on
      the direction's first image. */
  function AnimStep(a: Anim, dir: Direction): (r: (Anim, bool))
    ensures r.0.frame == a.frame - 1
    ensures r.1 <==> a.frame > 1 && a.sprite.dir == dir
    ensures r.1 ==> r.0.sprite == Sprite(dir, (a.sprite.index + 1) % Frames) && r.0.animating == a.animating
    ensures !r.1 ==> r.0.sprite == Sprite(dir, 0) && !r.0.animating
  {
    var frame := a.frame - 1;
    if frame > 0 && a.sprite.dir == dir then
      (Anim(frame, Sprite(dir, (a.sprite.index + 1) % Frames), a.animating), true)
    else
      (Anim(frame, Sprite(dir, 0), false), false)
  }

  /** At most `n` scheduled calls of `_animate`, stopping when one does not
      schedule another. */
  function Played(a: Anim, dir: Direction, n: nat): Anim
    decreases n
  {
    if n == 0 then a
    else
      var (b, again) := AnimStep(a, dir);
      if again then Played(b, dir, n - 1) else b
  }

  /** An animation started with a positive frame counter ends after at most
      that many calls, on the direction's first image; if the sprite belongs
      to the direction it runs all of them and the counter ends at zero. */
  lemma {:induction false} AnimationEnds(a: Anim, dir: Direction)
    requires a.frame >= 1
    ensures var e := Played(a, dir, a.frame as nat);
      && !e.animating && e.sprite == Sprite(dir, 0)
      && 0 <= e.frame < a.frame
      && (a.sprite.dir == dir ==> e.frame == 0)
    decreases a.frame
  {
    var (b, again) := AnimStep(a, dir);
    if again {
      AnimationEnds(b, dir);
      assert b.sprite.dir == dir;
    }
  }

  // ---------------------------------------------------------------------------
  // Objects

  /** The module globals `players` (remote characters by id) and `camera`. */
  class World {
    var camX: int
    var camY: int
    var players: map<int, Remote>

    ghost predicate Valid()
      reads this
    {
      AllOnCamera(players, camX, camY)
    }

    constructor ()
      ensures Valid()
      ensures camX == 0 && camY == 0 && players == map[]
    {
      camX, camY := 0, 0;
      players := map[];
    }

    /** One frame from the server applied to the table (client.py:400-415). */
    method Apply(f: ServerFrame)
      modifies this
      ensures camX == old(camX) && camY == old(camY)
      ensures players == AfterFrame(old(players), f, camX, camY)
    {
      match f
      case Probe =>
      case Entry(id, x, y, d) =>
        if id !in players {
          players := players[id := NewCharacter()];
        }
        if IsSentinel(x, y) {
          players := players - {id};
        } else {
          var r := players[id].(tileX := x, tileY := y, dir := d);
          players := players[id := Place(r, camX, camY)];
        }
    }

    /** Every remote character redrawn after the camera moved. */
    method RepositionAll()
      modifies this
      ensures camX == old(camX) && camY == old(camY)
      ensures players == Repositioned(old(players), camX, camY)
      ensures Valid()
    {
      var todo := players.Items;
      ghost var done: set<int> := {};
      while todo != {}
        invariant camX == old(camX) && camY == old(camY)
        invariant todo <= old(players).Items
        invariant forall entry :: entry in old(players).Items ==> (entry in todo <==> entry.0 !in done)
        invariant players == PlacedAt(old(players), done, camX, camY)
        decreases todo
      {
        var entry :| entry in todo;
        var k := entry.0;
        PlacedOneMore(old(players), done, k, camX, camY);
        players := players[k := Place(players[k], camX, camY)];
        todo := todo - {entry};
        done := done + {k};
      }
      forall k | k in old(players) ensures k in done {
        assert (k, old(players)[k]) in old(players).Items;
      }
      assert PlacedAt(old(players), done, camX, camY) == Repositioned(old(players), camX, camY);
    }
  }

  /** What one `recv` on the non-blocking socket gives the listener. */
  datatype Received = Data(chunk: string) | WouldBlock | Failed

  /** `ListenerServer`: the connection to the server, and the thread that
      reads the server's frames into the table of remote players. The text
      sent to the server is `MovesText(sent)`. */
  class Listener {
    const world: World
    const online: bool
    var runThread: bool
    var alive: bool
    var sent: seq<Move>

    constructor (world: World, online: bool)
      ensures this.world == world && this.online == online
      ensures runThread && alive && sent == []
    {
      this.world := world;
      this.online := online;
      runThread := true;
      alive := true;
      sent := [];
    }

    /** One received chunk split on the delimiter and read piece by piece
        (client.py:397-415). */
    method Receive(chunk: string) returns (ok: bool)
      modifies world
      ensures world.camX == old(world.camX) && world.camY == old(world.camY)
      ensures Outcome(world.players, ok) == AfterPieces(old(world.players), Split(chunk), world.camX, world.camY)
    {
      var pieces := Split(chunk);
      var i := 0;
      ok := true;
      while i < |pieces| && ok
        invariant 0 <= i <= |pieces|
        invariant world.camX == old(world.camX) && world.camY == old(world.camY)
        invariant Outcome(world.players, ok) == AfterPieces(old(world.players), pieces[..i], world.camX, world.camY)
        decreases |pieces| - i
      {
        var piece := pieces[i];
        NextPiece(old(world.players), pieces, i, world.camX, world.camY);
        if |piece| > 0 {
          match DecodeFrame(piece)
          case None => ok := false;
          case Some(f) => world.Apply(f);
        }
        i := i + 1;
      }
      if ok {
        assert pieces[..i] == pieces;
      } else {
        FailureIsFinal(old(world.players), pieces, i, world.camX, world.camY);
      }
    }

    /** One turn of `ListenerServer.run` (client.py:380-415): the loop
        ends once `runThread` is false; a would-block result retries; any
        other receive error and any piece that does not decode end the
        thread (`sys.exit` in a thread ends only that thread). */
    method Poll(r: Received)
      requires alive
      modifies this, world
      ensures world.camX == old(world.camX) && world.camY == old(world.camY)
      ensures runThread == old(runThread) && sent == old(sent)
      ensures old(world.Valid()) ==> world.Valid()
      ensures !old(runThread) ==> !alive && world.players == old(world.players)
      ensures old(runThread) ==> match r
        case WouldBlock => alive && world.players == old(world.players)
        case Failed => !alive && world.players == old(world.players)
        case Data(chunk) =>
          var o := AfterPieces(old(world.players), Split(chunk), world.camX, world.camY);
          world.players == o.players && alive == o.ok
    {
      if !runThread {
        alive := false;
        return;
      }
      match r
      case WouldBlock =>
      case Failed =>
        alive := false;
      case Data(chunk) =>
        ghost var before := world.players;
        alive := Receive(chunk);
        if AllOnCamera(before, world.camX, world.camY) {
          PiecesKeepOnCamera(before, Split(chunk), world.camX, world.camY);
        }
    }

    /** The listener thread over the results of its receives, while it runs. */
    method Listen(rs: seq<Received>) returns (used: nat)
      requires alive && world.Valid()
      modifies this, world
      ensures world.Valid()
      ensures used <= |rs| && (alive ==> used == |rs|)
      ensures runThread == old(runThread) && sent == old(sent)
    {
      used := 0;
      while alive && used < |rs|
        invariant used <= |rs|
        invariant world.Valid()
        invariant runThread == old(runThread) && sent == old(sent)
        decreases |rs| - used, alive
      {
        Poll(rs[used]);
        used := used + 1;
      }
    }

    /** `ClientApp.on_stop` (client.py:438-444): an online client sends
        (99, 99, "down") whatever its direction, and asks the thread to end. */
    method Stop()
      modifies this
      ensures online ==> sent == old(sent) + [Move(99, 99, Down)] && !runThread
      ensures !online ==> sent == old(sent) && runThread == old(runThread)
      ensures alive == old(alive)
    {
      if online {
        sent := sent + [Move(99, 99, Down)];
        runThread := false;
      }
    }
  }

  datatype Key = Arrow(dir: Direction) | OtherKey

  /** The local `Player`: a character moved by the arrow keys, which tells
      the server where it is after every accepted key. */
  class Player {
    const world: World
    const grid: TileMap
    var tileX: int
    var tileY: int
    var posX: int
    var posY: int
    var halfW: nat
    var halfH: nat
    var direction: Direction
    var anim: Anim
    var online: bool
    var listener: Listener?

    function PoseNow(): Pose
      reads this, world
    {
      Pose(tileX, tileY, posX, posY, world.camX, world.camY)
    }

    ghost predicate Valid()
      reads this, world
    {
      Anchored(PoseNow()) && world.Valid() && (online ==> listener != null && listener.world == world)
    }

    /** A new player stands on tile (5, 5), drawn at (5, 5), facing down. */
    constructor (world: World, grid: TileMap, width: nat, height: nat)
      ensures this.world == world && this.grid == grid
      ensures tileX == 5 && tileY == 5 && posX == 5 && posY == 5
      ensures halfW == HalfView(width) && halfH == HalfView(height)
      ensures direction == Down && anim == Anim(0, Sprite(Down, 0), false)
      ensures online && listener == null
    {
      this.world := world;
      this.grid := grid;
      tileX, tileY, posX, posY := 5, 5, 5, 5;
      halfW, halfH := HalfView(width), HalfView(height);
      direction := Down;
      anim := Anim(0, Sprite(Down, 0), false);
      online := true;
      listener := null;
    }

    /** `initListener` (client.py:241-245): an online player announces its
        tile and direction. */
    method InitListener(l: Listener)
      requires l.world == world
      modifies this, l
      ensures listener == l && online == l.online
      ensures l.sent == old(l.sent) + if l.online then [Move(tileX, tileY, direction)] else []
      ensures PoseNow() == old(PoseNow()) && direction == old(direction) && anim == old(anim)
      ensures halfW == old(halfW) && halfH == old(halfH)
      ensures l.runThread == old(l.runThread) && l.alive == old(l.alive)
    {
      listener := l;
      online := l.online;
      if online {
        l.sent := l.sent + [Move(tileX, tileY, direction)];
      }
    }

    /** The movement part of `on_key_down` (client.py:286-305) for an
        accepted step of (dx, dy); the result says whether the camera rule
        was taken on either axis. */
    method StepBy(dx: int, dy: int, width: nat, height: nat) returns (cameraUpdate: bool)
      modifies this, world
      ensures halfW == HalfView(width) && halfH == HalfView(height)
      ensures PoseNow() == Stepped(old(PoseNow()), dx, dy, halfW, halfH, grid)
      ensures cameraUpdate <==> !SpriteMovesX(old(PoseNow()), dx, halfW, grid.width) || !SpriteMovesY(old(PoseNow()), dy, halfH, grid.height)
      ensures direction == old(direction) && anim == old(anim) && online == old(online) && listener == old(listener)
      ensures world.players == old(world.players)
    {
      cameraUpdate := false;
      halfW := HalfView(width);
      if (posX + dx < halfW && tileX < halfW) || tileX + dx > grid.width - halfW {
        posX := posX + dx;
      } else {
        world.camX := world.camX - dx;
        cameraUpdate := true;
      }
      tileX := tileX + dx;
      halfH := HalfView(height);
      if (posY + dy < halfH && tileY < halfH) || tileY + dy + 2 > grid.height - halfH {
        posY := posY + dy;
      } else {
        world.camY := world.camY + dy;
        cameraUpdate := true;
      }
      tileY := tileY + dy;
    }

    /** `on_key_down` (client.py:250-333) for a window of `width` by
        `height` pixels. When the target tile is not a valid move nothing
        changes; otherwise the step moves the tile, the sprite or the camera
        as `Stepped` says, every remote character is redrawn when the camera
        rule was taken on either axis, a step starts a four-image animation,
        a turn shows the new direction's first image, and an online player
        sends its new tile and direction. */
    method OnKeyDown(key: Key, width: nat, height: nat)
      requires Valid()
      modifies this, world, listener
      ensures Valid()
      ensures online == old(online) && listener == old(listener)
      ensures key.OtherKey? || !ValidMove(grid, old(tileX) + KeyRule(old(direction), key.dir).0,
                                                old(tileY) + KeyRule(old(direction), key.dir).1) ==>
        && PoseNow() == old(PoseNow()) && direction == old(direction) && anim == old(anim)
        && halfW == old(halfW) && halfH == old(halfH) && world.players == old(world.players)
        && (listener != null ==> listener.sent == old(listener.sent))
      ensures key.Arrow? && ValidMove(grid, old(tileX) + KeyRule(old(direction), key.dir).0,
                                            old(tileY) + KeyRule(old(direction), key.dir).1) ==>
        var (dx, dy, newDir) := KeyRule(old(direction), key.dir);
        var before := old(PoseNow());
        && halfW == HalfView(width) && halfH == HalfView(height)
        && PoseNow() == Stepped(before, dx, dy, halfW, halfH, grid)
        && world.players == (if SpriteMovesX(before, dx, halfW, grid.width) && SpriteMovesY(before, dy, halfH, grid.height)
                             then old(world.players) else Repositioned(old(world.players), world.camX, world.camY))
        && direction == key.dir
        && (if old(direction) == newDir then anim == old(anim).(frame := Frames, animating := true)
            else anim == old(anim).(sprite := Sprite(newDir, 0)))
        && (listener != null ==> listener.sent == old(listener.sent) + if online then [Move(tileX, tileY, direction)] else [])
      ensures listener != null ==> listener.runThread == old(listener.runThread) && listener.alive == old(listener.alive)
    {
      if key.OtherKey? {
        return;
      }
      var dx, dy, newDir := KeyRule(direction, key.dir).0, KeyRule(direction, key.dir).1, KeyRule(direction, key.dir).2;
      if !ValidMove(grid, tileX + dx, tileY + dy) {
        return;
      }
      var cameraUpdate := StepBy(dx, dy, width, height);
      if cameraUpdate {
        world.RepositionAll();
      }
      if direction == newDir {
        anim := anim.(frame := Frames, animating := true);
      } else {
        anim := anim.(sprite := Sprite(newDir, 0));
        direction := newDir;
      }
      if online {
        listener.sent := listener.sent + [Move(tileX, tileY, direction)];
      }
    }

    /** One scheduled call of `_animate(dir)`; `again` says whether it
        scheduled the next one. */
    method Animate(dir: Direction) returns (again: bool)
      modifies this
      ensures (anim, again) == AnimStep(old(anim), dir)
      ensures PoseNow() == old(PoseNow()) && direction == old(direction)
      ensures online == old(online) && listener == old(listener) && halfW == old(halfW) && halfH == old(halfH)
      ensures old(Valid()) ==> Valid()
    {
      anim := anim.(frame := anim.frame - 1);
      if anim.frame > 0 && anim.sprite.dir == dir {
        anim := anim.(sprite := Sprite(dir, (anim.sprite.index + 1) % Frames));
        again := true;
      } else {
        anim := anim.(animating := false, sprite := Sprite(dir, 0));
        again := false;
      }
    }
  }
}
