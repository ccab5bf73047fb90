/** The game server (server.py): a registry from a client's network address
    to its connection and its Player, an accept step that registers a
    newcomer and introduces it to every peer, and the relay step that each
    per-connection worker repeats. Sends are appends to the outbox of the
    connection they go to; receives are parameters. */
module Server {
  import opened Json
  import opened Wire

  /** A remote address as `accept` reports it: host and port. */
  type Address = (string, int)

  /** A connection handle: the socket object `accept` returns for one client. */
  type Conn = nat

  /** server.py `Player`: a client's id and last reported state. */
  datatype Player = Player(id: nat, x: int, y: int, dir: Direction)

  /** A new player starts at the origin facing down. */
  function NewPlayer(id: nat): (p: Player)
    ensures p.id == id && p.x == 0 && p.y == 0 && p.dir == Down
  {
    Player(id, 0, 0, Down)
  }

  /** The frame `[id_client, x, y, direction]` that `str(player)` prints. */
  function StateFrame(p: Player): ServerFrame
  {
    Entry(p.id, p.x, p.y, p.dir)
  }

  /** `str(player)`: a payload that a client reads back as the player's state. */
  function Text(p: Player): (s: string)
    ensures DecodeFrame(s) == Some(Entry(p.id, p.x, p.y, p.dir))
    ensures |s| > 0 && FreeOf(s, Delimiter)
  {
    DecodeEncodeFrame(StateFrame(p));
    EncodedFrame(StateFrame(p));
    EncodeFrame(StateFrame(p))
  }

  /** `Player.update`: coordinates and direction come from the message; the id stays. */
  function Update(p: Player, m: Move): (q: Player)
    ensures q.id == p.id
    ensures q.x == m.x && q.y == m.y && q.dir == m.dir
  {
    p.(x := m.x, y := m.y, dir := m.dir)
  }

  /** A registry entry: `[connection, Player]`. */
  datatype Session = Session(conn: Conn, player: Player)

  /** What every other client is told when a client leaves: the direction is always "down". */
  function LeaveFrame(id: nat): ServerFrame
  {
    Entry(id, 99, 99, Down)
  }

  /** A client's message with its id put in front. */
  function RelayFrame(id: nat, m: Move): ServerFrame
  {
    Entry(id, m.x, m.y, m.dir)
  }

  /** The connections of every registered client except `sender`. */
  function PeerConns(clients: map<Address, Session>, sender: Address): set<Conn>
  {
    set a | a in clients && a != sender :: clients[a].conn
  }

  /** The states that every registered client except `sender` has. */
  function PeerStates(clients: map<Address, Session>, sender: Address): set<ServerFrame>
  {
    set a | a in clients && a != sender :: StateFrame(clients[a].player)
  }

  /** The outboxes after sending `f` once to each connection in `peers`. */
  function Broadcast(outbox: map<Conn, seq<ServerFrame>>, peers: set<Conn>, f: ServerFrame): (r: map<Conn, seq<ServerFrame>>)
    ensures r.Keys == outbox.Keys
    ensures forall c :: c in outbox && c in peers ==> r[c] == outbox[c] + [f]
    ensures forall c :: c in outbox && c !in peers ==> r[c] == outbox[c]
  {
    map c | c in outbox :: if c in peers then outbox[c] + [f] else outbox[c]
  }

  /** Sending to one more connection extends a broadcast by that one send. */
  lemma BroadcastOneMore(outbox: map<Conn, seq<ServerFrame>>, peers: set<Conn>, p: Conn, f: ServerFrame)
    requires p in outbox && p !in peers
    ensures Broadcast(outbox, peers + {p}, f) == Broadcast(outbox, peers, f)[p := outbox[p] + [f]]
  {
  }

  /** The outboxes part way through the exchange of states on accept:
      the entries at `done` have been sent `me` and the newcomer's fresh
      outbox `own` holds each of their states once. */
  ghost predicate Introduced(start: map<Conn, seq<ServerFrame>>, outbox: map<Conn, seq<ServerFrame>>,
                             clients: map<Address, Session>, done: set<Address>, own: Conn, me: ServerFrame)
  {
    && own in outbox && outbox.Keys == start.Keys
    && (forall c :: c in outbox && c != own ==>
          outbox[c] == if c in ConnsAt(clients, done) then start[c] + [me] else start[c])
    && Elements(outbox[own]) == StatesAt(clients, done)
    && NoDuplicates(outbox[own])
  }

  lemma IntroduceOneMore(start: map<Conn, seq<ServerFrame>>, outbox: map<Conn, seq<ServerFrame>>,
                         clients: map<Address, Session>, done: set<Address>, own: Conn, me: ServerFrame, a: Address)
    requires Introduced(start, outbox, clients, done, own, me)
    requires a in clients && clients[a].conn in outbox
    requires clients[a].conn != own && clients[a].conn !in ConnsAt(clients, done)
    requires StateFrame(clients[a].player) !in StatesAt(clients, done)
    ensures Introduced(start, outbox[clients[a].conn := outbox[clients[a].conn] + [me]]
                                    [own := outbox[own] + [StateFrame(clients[a].player)]],
                       clients, done + {a}, own, me)
  {
    AtOneMore(clients, done, a);
    ElementsAppend(outbox[own], StateFrame(clients[a].player));
  }

  /** Each connection belongs to at most one entry, and so does each id. */
  ghost predicate Distinct(clients: map<Address, Session>)
  {
    forall a, b :: a in clients && b in clients && a != b ==>
      clients[a].conn != clients[b].conn && clients[a].player.id != clients[b].player.id
  }

  /** The registry invariant of `Server`, on values. */
  ghost predicate Registry(clients: map<Address, Session>, conns: set<Conn>, next: nat)
  {
    && (forall a :: a in clients ==> clients[a].conn in conns && clients[a].player.id < next)
    && Distinct(clients)
  }

  /** Removing an entry, or replacing one's player by one with the same id,
      keeps the registry invariant. */
  lemma RegistryRemove(clients: map<Address, Session>, conns: set<Conn>, next: nat, addr: Address)
    requires Registry(clients, conns, next)
    ensures Registry(clients - {addr}, conns, next)
  {
  }

  lemma RegistryReplace(clients: map<Address, Session>, conns: set<Conn>, next: nat, addr: Address, p: Player)
    requires Registry(clients, conns, next) && addr in clients && p.id == clients[addr].player.id
    ensures Registry(clients[addr := Session(clients[addr].conn, p)], conns, next)
  {
  }

  /** The sender is never among the peers a broadcast reaches. */
  lemma SenderNotPeer(clients: map<Address, Session>, sender: Address)
    requires Distinct(clients) && sender in clients
    ensures clients[sender].conn !in PeerConns(clients, sender)
  {
  }

  /** A registered client other than the sender is reached. */
  lemma PeerReached(clients: map<Address, Session>, sender: Address, a: Address)
    requires a in clients && a != sender
    ensures clients[a].conn in PeerConns(clients, sender)
  {
  }

  /** The newcomer's own state is never among the states it is sent. */
  lemma NewcomerNotAmongPeers(clients: map<Address, Session>, addr: Address)
    requires Distinct(clients) && addr in clients
    ensures StateFrame(clients[addr].player) !in PeerStates(clients, addr)
  {
    forall a | a in clients && a != addr
      ensures StateFrame(clients[a].player) != StateFrame(clients[addr].player)
    {
      assert clients[a].player.id != clients[addr].player.id;
    }
  }

  /** The peers of `sender` do not depend on `sender`'s own entry. */
  lemma PeersIgnoreSender(clients: map<Address, Session>, sender: Address, s: Session)
    ensures PeerConns(clients[sender := s], sender) == PeerConns(clients, sender)
    ensures PeerStates(clients[sender := s], sender) == PeerStates(clients, sender)
  {
    var updated := clients[sender := s];
    forall c | c in PeerConns(updated, sender) ensures c in PeerConns(clients, sender) {
      var a :| a in updated && a != sender && updated[a].conn == c;
      assert a in clients && clients[a].conn == c;
    }
    forall f | f in PeerStates(updated, sender) ensures f in PeerStates(clients, sender) {
      var a :| a in updated && a != sender && StateFrame(updated[a].player) == f;
      assert a in clients && StateFrame(clients[a].player) == f;
    }
    forall c | c in PeerConns(clients, sender) ensures c in PeerConns(updated, sender) {
      var a :| a in clients && a != sender && clients[a].conn == c;
      assert a in updated && updated[a].conn == c;
    }
    forall f | f in PeerStates(clients, sender) ensures f in PeerStates(updated, sender) {
      var a :| a in clients && a != sender && StateFrame(clients[a].player) == f;
      assert a in updated && StateFrame(updated[a].player) == f;
    }
  }

  /** The connections of the entries at the addresses in `addrs`. */
  function ConnsAt(clients: map<Address, Session>, addrs: set<Address>): set<Conn>
  {
    set a | a in addrs && a in clients :: clients[a].conn
  }

  /** The states of the entries at the addresses in `addrs`. */
  function StatesAt(clients: map<Address, Session>, addrs: set<Address>): set<ServerFrame>
  {
    set a | a in addrs && a in clients :: StateFrame(clients[a].player)
  }

  lemma AtOneMore(clients: map<Address, Session>, addrs: set<Address>, a: Address)
    requires a in clients
    ensures ConnsAt(clients, addrs + {a}) == ConnsAt(clients, addrs) + {clients[a].conn}
    ensures StatesAt(clients, addrs + {a}) == StatesAt(clients, addrs) + {StateFrame(clients[a].player)}
  {
  }

  lemma AtAllPeers(clients: map<Address, Session>, sender: Address)
    ensures ConnsAt(clients, clients.Keys - {sender}) == PeerConns(clients, sender)
    ensures StatesAt(clients, clients.Keys - {sender}) == PeerStates(clients, sender)
  {
  }

  /** No element occurs twice. */
  predicate NoDuplicates<T(==)>(s: seq<T>)
  {
    forall i, j :: 0 <= i < j < |s| ==> s[i] != s[j]
  }

  lemma ElementsAppend<T>(s: seq<T>, x: T)
    ensures Elements(s + [x]) == Elements(s) + {x}
  {
  }

  /** The distinct elements of a sequence. */
  function Elements<T>(s: seq<T>): set<T>
  {
    set x | x in s
  }

  /** How one receive is read: a decoded message, or nothing when the receive
      fails or the chunk does not decode (both raise out of the worker). */
  datatype Tick = Tick(probeOk: bool, chunk: Option<string>)

  /** How a worker's loop ended: still waiting for input, stopped because its
      probe failed or its entry was gone, or killed by an exception. */
  datatype Ending = Waiting | Closed | Crashed

  /** `ListenerConnection` together with the registry it shares with every
      `ListenerMessage` worker. */
  class Server {
    const port: int
    var clients: map<Address, Session>
    var idClient: nat
    var outbox: map<Conn, seq<ServerFrame>>

    /** Every entry's connection has an outbox, every id was issued before
        the counter's current value, and no two entries share a connection or an id. */
    ghost predicate Valid()
      reads this
    {
      Registry(clients, outbox.Keys, idClient)
    }

    constructor (port: int)
      ensures Valid()
      ensures this.port == port && clients == map[] && idClient == 0 && outbox == map[]
    {
      this.port := port;
      clients := map[];
      idClient := 0;
      outbox := map[];
    }

    /** One turn of the accept loop (server.py:31-40) for a new connection
        `conn` from `addr`: the newcomer is registered under the current
        counter, the counter moves on by one, every peer is sent the
        newcomer's state and the newcomer is sent every peer's state, in the
        registry's iteration order. */
    method Accept(addr: Address, conn: Conn) returns (id: nat)
      requires Valid()
      requires conn !in outbox  // accept returns a socket never seen before
      modifies this
      ensures Valid()
      ensures id == old(idClient) && idClient == old(idClient) + 1
      ensures clients == old(clients)[addr := Session(conn, NewPlayer(id))]
      ensures outbox.Keys == old(outbox).Keys + {conn}
      ensures forall c :: c in old(outbox) ==>
        outbox[c] == if c in PeerConns(old(clients), addr) then old(outbox)[c] + [StateFrame(NewPlayer(id))] else old(outbox)[c]
      ensures Elements(outbox[conn]) == PeerStates(old(clients), addr) && NoDuplicates(outbox[conn])
      ensures StateFrame(NewPlayer(id)) !in outbox[conn]
    {
      id := idClient;
      ghost var before := clients;
      clients := clients[addr := Session(conn, NewPlayer(id))];
      idClient := idClient + 1;
      outbox := outbox[conn := []];
      Introduce(addr);
      AtAllPeers(clients, addr);
      PeersIgnoreSender(before, addr, Session(conn, NewPlayer(id)));
      NewcomerNotAmongPeers(clients, addr);
    }

    /** The exchange of states on accept (server.py:37-40): every client
        except the one at `addr` is sent that client's state, and that client
        is sent each of theirs. */
    method Introduce(addr: Address)
      requires Valid() && addr in clients
      requires outbox[clients[addr].conn] == []
      modifies this`outbox
      ensures Valid()
      ensures Introduced(old(outbox), outbox, clients, clients.Keys - {addr}, clients[addr].conn, StateFrame(clients[addr].player))
    {
      var own := clients[addr].conn;
      var me := StateFrame(clients[addr].player);
      var todo := clients.Keys - {addr};
      ghost var done: set<Address> := {};
      while todo != {}
        invariant todo !! done && todo + done == clients.Keys - {addr}
        invariant Introduced(old(outbox), outbox, clients, done, own, me)
        decreases todo
      {
        var a :| a in todo;
        var peer := clients[a].conn;
        var theirs := StateFrame(clients[a].player);
        assert peer != own && peer !in ConnsAt(clients, done);
        assert theirs !in StatesAt(clients, done);
        IntroduceOneMore(old(outbox), outbox, clients, done, own, me, a);
        outbox := outbox[peer := outbox[peer] + [me]];
        outbox := outbox[own := outbox[own] + [theirs]];
        todo := todo - {a};
        done := done + {a};
      }
    }

    /** Sends `f` to every registered client except `sender`
        (server.py:84-86 and 90-97), in the registry's iteration order. */
    method BroadcastExcept(sender: Address, f: ServerFrame)
      requires Valid()
      modifies this`outbox
      ensures outbox == Broadcast(old(outbox), PeerConns(clients, sender), f)
    {
      var todo := clients.Keys - {sender};
      ghost var done: set<Address> := {};
      while todo != {}
        invariant todo !! done && todo + done == clients.Keys - {sender}
        invariant outbox == Broadcast(old(outbox), ConnsAt(clients, done), f)
        decreases todo
      {
        var a :| a in todo;
        var peer := clients[a].conn;
        assert peer !in ConnsAt(clients, done);
        AtOneMore(clients, done, a);
        BroadcastOneMore(old(outbox), ConnsAt(clients, done), peer, f);
        outbox := outbox[peer := outbox[peer] + [f]];
        todo := todo - {a};
        done := done + {a};
      }
      AtAllPeers(clients, sender);
    }

    /** One iteration of a worker's loop (server.py:60-97) for the client at
        `addr`. The probe `[]` is sent first; when its send fails
        (`probeOk` false) or the entry is already gone, the entry is removed
        if present and the worker stops without receiving. Otherwise
        `received` is the decoded message, or None when the receive or the
        decoding raised, which ends the worker and leaves its entry in place.
        A message updates the sender's Player; at (99, 99) every other client
        is told `[id, 99, 99, "down"]` and the entry is removed, otherwise
        every other client gets the message with the sender's id in front. */
    method RelayStep(addr: Address, probeOk: bool, received: Option<Move>) returns (running: bool)
      requires Valid()
      modifies this
      ensures Valid()
      ensures idClient == old(idClient)
      ensures addr !in old(clients) || !probeOk ==>
        !running && clients == old(clients) - {addr} && outbox == old(outbox)
      ensures addr in old(clients) && probeOk ==>
        var s := old(clients)[addr];
        var probed := old(outbox)[s.conn := old(outbox)[s.conn] + [Probe]];
        var peers := PeerConns(old(clients), addr);
        match received
        case None => !running && clients == old(clients) && outbox == probed
        case Some(m) =>
          && running
          && (IsSentinel(m.x, m.y) ==>
                clients == old(clients) - {addr} && outbox == Broadcast(probed, peers, LeaveFrame(s.player.id)))
          && (!IsSentinel(m.x, m.y) ==>
                && clients == old(clients)[addr := Session(s.conn, Update(s.player, m))]
                && outbox == Broadcast(probed, peers, RelayFrame(s.player.id, m)))
    {
      if addr !in clients || !probeOk {
        RegistryRemove(clients, outbox.Keys, idClient, addr);
        clients := clients - {addr};
        running := false;
        return;
      }
      var s := clients[addr];
      outbox := outbox[s.conn := outbox[s.conn] + [Probe]];
      match received
      case None =>
        running := false;
      case Some(m) =>
        Deliver(addr, m);
        running := true;
    }

    /** What a decoded message from the client at `addr` does
        (server.py:77-97): the sender's Player takes the message's
        coordinates and direction; at (99, 99) every other client is told
        `[id, 99, 99, "down"]` and the entry is removed, otherwise every
        other client gets the message with the sender's id in front. The
        source updates the Player before it sends; the sends read only the
        sender's id, which the update keeps, so here the update follows them. */
    method Deliver(addr: Address, m: Move)
      requires Valid() && addr in clients
      modifies this
      ensures Valid() && idClient == old(idClient)
      ensures IsSentinel(m.x, m.y) ==>
        && clients == old(clients) - {addr}
        && outbox == Broadcast(old(outbox), PeerConns(old(clients), addr), LeaveFrame(old(clients)[addr].player.id))
      ensures !IsSentinel(m.x, m.y) ==>
        && clients == old(clients)[addr := Session(old(clients)[addr].conn, Update(old(clients)[addr].player, m))]
        && outbox == Broadcast(old(outbox), PeerConns(old(clients), addr), RelayFrame(old(clients)[addr].player.id, m))
    {
      var s := clients[addr];
      if IsSentinel(m.x, m.y) {
        BroadcastExcept(addr, LeaveFrame(s.player.id));
        RegistryRemove(clients, outbox.Keys, idClient, addr);
        clients := clients - {addr};
      } else {
        BroadcastExcept(addr, RelayFrame(s.player.id, m));
        var p := Update(s.player, m);
        RegistryReplace(clients, outbox.Keys, idClient, addr, p);
        clients := clients[addr := Session(s.conn, p)];
      }
    }

    /** The worker loop `ListenerMessage.run` (server.py:56-97) over the
        inputs it gets, each chunk read as the payload before its first
        delimiter (see `Wire.DecodeChunk`). */
    method Run(addr: Address, ticks: seq<Tick>) returns (ending: Ending, used: nat)
      requires Valid()
      modifies this
      ensures Valid()
      ensures idClient == old(idClient)
      ensures used <= |ticks|
      ensures ending == Waiting ==> used == |ticks|
      ensures ending == Closed ==> addr !in clients
      ensures ending == Crashed ==> 0 < used && ticks[used - 1].probeOk && addr in clients
    {
      var running := true;
      used := 0;
      ending := Waiting;
      while running && used < |ticks|
        invariant Valid() && idClient == old(idClient)
        invariant used <= |ticks|
        invariant running <==> ending == Waiting
        invariant ending == Closed ==> addr !in clients
        invariant ending == Crashed ==> 0 < used && ticks[used - 1].probeOk && addr in clients
        decreases |ticks| - used, running
      {
        var t := ticks[used];
        var received := match t.chunk case None => None case Some(c) => DecodeChunk(c);
        var present := addr in clients;
        running := RelayStep(addr, t.probeOk, received);
        used := used + 1;
        if !running {
          ending := if !present || !t.probeOk then Closed else Crashed;
        }
      }
    }
  }
}
