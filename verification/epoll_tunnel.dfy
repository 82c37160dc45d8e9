/**
 The epoll engine's tunnel, where a `send` that fails moves the offset of the CONNECT request back: its
 attempts are the only ones without a bound.
 */
module EpollTunnel {
  import opened Automaton
  import opened Invariants
  import opened Rounds
  import opened EpollModel
  import opened Progress
  import opened Lockstep

  /** A byte is sent. */
  const SENDS := Call(WRITABLE, FINE.(offer := 1))
  /** A `send` fails. */
  const FAILS := Call(WRITABLE, FINE.(offer := 0))

  /** A byte sent and a `send` that fails bring the connection back to where it was, after two moves. */
  lemma ThereAndBack(cfg: Config, c: Conn)
    requires ConnInv(Epoll, cfg, c) && c.state.ProxyConnect? && CanConnect(Epoll, cfg, c)
    requires c.sent + 1 < |ConnectText(cfg)|
    ensures Shape(cfg, c) && !NothingToDo(Epoll, cfg, c, SENDS.ev, SENDS.io)
    ensures var c1 := Handle(Epoll, cfg, c, SENDS.ev, SENDS.io);
            && ConnInv(Epoll, cfg, c1) && Active(c1.state) && Shape(cfg, c1)
            && !NothingToDo(Epoll, cfg, c1, FAILS.ev, FAILS.io)
            && var c2 := Handle(Epoll, cfg, c1, FAILS.ev, FAILS.io);
               && ConnInv(Epoll, cfg, c2) && Untouched(c, c2) && CanConnect(Epoll, cfg, c2)
  {
    hide ConnInv, ConnectText, TUNNEL_OK;
    InvShape(Epoll, cfg, c);
    HandleKeepsInv(Epoll, cfg, c, SENDS.ev, SENDS.io);
    var c1 := Handle(Epoll, cfg, c, SENDS.ev, SENDS.io);
    HandleKeepsInv(Epoll, cfg, c1, FAILS.ev, FAILS.io);
  }

  /** So it can go on for any number of moves. */
  lemma {:induction false} GoesOn(cfg: Config, c: Conn, n: nat) returns (calls: seq<Call>)
    requires ConnInv(Epoll, cfg, c) && c.state.ProxyConnect? && CanConnect(Epoll, cfg, c)
    requires c.sent + 1 < |ConnectText(cfg)|
    ensures Moves(Epoll, cfg, c, calls) == 2 * n && Calls(Epoll, cfg, c, calls).state.ProxyConnect?
    decreases n
  {
    hide ConnInv, Handle, Shape, NothingToDo, CanConnect, ConnectText;
    calls := [];
    if n > 0 {
      ThereAndBack(cfg, c);
      var c1 := Handle(Epoll, cfg, c, SENDS.ev, SENDS.io);
      var c2 := Handle(Epoll, cfg, c1, FAILS.ev, FAILS.io);
      var rest := GoesOn(cfg, c2, n - 1);
      calls := [SENDS] + ([FAILS] + rest);
      assert calls[1..] == [FAILS] + rest && ([FAILS] + rest)[1..] == rest;
      assert Calls(Epoll, cfg, c1, [FAILS] + rest) == Calls(Epoll, cfg, c2, rest);
      assert Moves(Epoll, cfg, c1, [FAILS] + rest) == 1 + Moves(Epoll, cfg, c2, rest);
    }
  }

  lemma ConnectsToTunnel(cfg: Config, c: Conn)
    requires ConnInv(Epoll, cfg, c) && c.state.Connecting? && Tunnels(Epoll, cfg) && CanName(Epoll, cfg)
    ensures Shape(cfg, c)
    ensures var c1 := Handle(Epoll, cfg, c, WRITABLE, FINE);
            && ConnInv(Epoll, cfg, c1) && c1.state.ProxyConnect? && CanConnect(Epoll, cfg, c1)
            && c1.sent + 1 < |ConnectText(cfg)|
  {
    hide ConnectText, TUNNEL_OK, BufferOk, CountOk;
    InvShape(Epoll, cfg, c);
    HandleKeepsInv(Epoll, cfg, c, WRITABLE, FINE);
  }

  /** For any number of moves there are calls after which a new attempt has made more and goes on. */
  lemma NoEnd(cfg: Config, c: Conn, n: nat) returns (calls: seq<Call>)
    requires ConnInv(Epoll, cfg, c) && c.state.Connecting? && Tunnels(Epoll, cfg) && CanName(Epoll, cfg)
    ensures Moves(Epoll, cfg, c, calls) > n && Active(Calls(Epoll, cfg, c, calls).state)
  {
    hide ConnInv, Handle, Shape, CanConnect, ConnectText;
    ConnectsToTunnel(cfg, c);
    var c1 := Handle(Epoll, cfg, c, WRITABLE, FINE);
    var rest := GoesOn(cfg, c1, n);
    calls := [Call(WRITABLE, FINE)] + rest;
    assert calls[1..] == rest;
  }

  ghost predicate MovesAtMost(e: Engine, cfg: Config, c: Conn, bound: nat)
    requires ConnInv(e, cfg, c)
  {
    forall calls: seq<Call> :: Moves(e, cfg, c, calls) <= bound
  }

  /**
   Some bound holds for whatever calls a new attempt meets, exactly where there is no CONNECT request to send
   or the engine is poll.
   */
  lemma BoundedExactly(e: Engine, cfg: Config, c: Conn)
    requires ConnInv(e, cfg, c) && c.state.Connecting?
    ensures (exists bound: nat :: MovesAtMost(e, cfg, c, bound)) <==>
            !(e.Epoll? && Tunnels(e, cfg) && CanName(e, cfg))
  {
    hide ConnInv, Moves, Losses, Calls, Tunnels, CanName;
    if e.Epoll? && Tunnels(e, cfg) && CanName(e, cfg) {
      forall bound: nat ensures !MovesAtMost(e, cfg, c, bound) {
        var calls := NoEnd(cfg, c, bound);
      }
    } else {
      forall calls: seq<Call> ensures Moves(e, cfg, c, calls) <= AttemptBound(e, cfg) {
        AttemptsEnd(e, cfg, c, calls);
      }
      assert MovesAtMost(e, cfg, c, AttemptBound(e, cfg));
    }
  }

  /** Start-up alone reaches such an attempt, if there is a port to dial. */
  lemma AttemptIsReached(cfg: Config)
    requires ValidPort(Epoll, Dialled(Epoll, cfg).port)
    ensures var c := EpollBench(cfg, 1, AllDial(1), []).world[0];
            ConnInv(Epoll, cfg, c) && c.state.Connecting?
  {
    hide ConnInv, Started;
    DialAll(Epoll, cfg, 1, 1);
    var s := EpollBench(cfg, 1, AllDial(1), []);
    assert WorldInv(Epoll, cfg, s.world) by { EpollParts(cfg, s); }
    assert ConnInv(Epoll, cfg, s.world[0]);
  }
}
