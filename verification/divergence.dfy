/**
 For which configurations the engines agree on every run, and for which the epoll engine always sends its
 CONNECT request before it awaits the answer; with the runs that show where it does not.
 */
module Divergence {
  import opened Text
  import opened Automaton
  import opened Invariants
  import opened Rounds
  import P = PollModel
  import opened EpollModel
  import opened Lockstep
  import opened EpollLockstep
  import opened Equivalence

  /** A `send` that fails for good. */
  const SEND_FAILS := FINE.(offer := 0)

  // A failed first send.

  /** What the engines make of a first `send` that fails: epoll awaits the answer, poll gives up. */
  lemma FirstSendFails(e: Engine, cfg: Config, c: Conn)
    requires ConnInv(e, cfg, c) && c.state.ProxyConnect? && (e.Epoll? ==> CanName(e, cfg) && c.sent == 0)
    ensures Shape(cfg, c)
    ensures var c1 := Handle(e, cfg, c, WRITABLE, SEND_FAILS);
            if e.Poll? then c1.state.Error? else c1.state.ProxyResponse? && c1.log.plain == c.log.plain
  {
    hide ConnectText, TUNNEL_OK, BufferOk, CountOk;
    InvShape(e, cfg, c);
    CanSayConnect(e, cfg, c);
  }

  /**
   Two rounds from start-up, in the second of which the first `send` fails, and a connection of the epoll
   engine awaits the proxy's answer to a CONNECT request of which nothing was sent.
   */
  lemma SkipsTheConnect(cfg: Config)
    requires AsksForTunnel(cfg)
    ensures IsRun(cfg, 1, AllDial(1), ToTunnel(SEND_FAILS))
    ensures var c := EpollBench(cfg, 1, AllDial(1), ToTunnel(SEND_FAILS)).world[0];
            c.state.ProxyResponse? && c.log.plain == "" && Preamble(Epoll, cfg) != ""
  {
    hide EpollRun, KernelRun, AtStart, AllDial, ConnInv, Handle, Shape, TUNNEL_OK, ConnectText;
    var s, c := FirstConnectCall(cfg, SEND_FAILS, []);
    assert ToTunnel(SEND_FAILS) + [] == ToTunnel(SEND_FAILS);
    NoMoreEpollRounds(cfg, s);
    FirstSendFails(Epoll, cfg, c);
  }

  /** The answer to a CONNECT request is awaited only if all of it is on the wire. */
  ghost predicate AskedFirst(cfg: Config, n: nat, allocs: seq<Alloc>, rounds: seq<EpollRoundInput>, i: nat) {
    IsRun(cfg, n, allocs, rounds) && i < n ==>
      var c := EpollBench(cfg, n, allocs, rounds).world[i];
      c.state.ProxyResponse? ==> c.log.plain == Preamble(Epoll, cfg)
  }

  ghost predicate AlwaysAskedFirst(cfg: Config) {
    forall n: nat, allocs: seq<Alloc>, rounds: seq<EpollRoundInput>, i: nat :: AskedFirst(cfg, n, allocs, rounds, i)
  }

  /** In every run the CONNECT request is out whenever its answer is awaited, exactly if there is none to send. */
  lemma AskedFirstExactly(cfg: Config)
    ensures AlwaysAskedFirst(cfg) <==> !AsksForTunnel(cfg)
  {
    hide EpollRun, IsRun, AsksForTunnel, Preamble;
    if AsksForTunnel(cfg) {
      SkipsTheConnect(cfg);
      assert !AskedFirst(cfg, 1, AllDial(1), ToTunnel(SEND_FAILS), 0);
    } else {
      forall n: nat, allocs: seq<Alloc>, rounds: seq<EpollRoundInput>, i: nat
        ensures AskedFirst(cfg, n, allocs, rounds, i)
      {
        if i < n && EpollBench(cfg, n, allocs, rounds).world[i].state.ProxyResponse? {
          AwaitedInRun(cfg, n, allocs, rounds, i);
        }
      }
    }
  }

  lemma AwaitedInRun(cfg: Config, n: nat, allocs: seq<Alloc>, rounds: seq<EpollRoundInput>, i: nat)
    requires i < n && EpollBench(cfg, n, allocs, rounds).world[i].state.ProxyResponse?
    ensures AsksForTunnel(cfg)
  {
    hide EpollRun, TableOk, BufferOk, CountOk, HoldsOk;
    assert ConnInv(Epoll, cfg, EpollBench(cfg, n, allocs, rounds).world[i]);
  }

  // Port 1.

  lemma NoPortNoSocket(e: Engine, cfg: Config, n: nat, allocs: seq<Alloc>)
    requires n > 0 && !ValidPort(e, Dialled(e, cfg).port)
    ensures Start(e, cfg, n, allocs)[0].state.Idle?
  {
    hide BufferOk, StageOk, WireOk, CountOk, HoldsOk;
    assert ConnInv(e, cfg, Start(e, cfg, n, allocs)[0]);
  }

  lemma DialsItsPeer(e: Engine, cfg: Config)
    requires ValidPort(e, Dialled(e, cfg).port)
    ensures var c := Start(e, cfg, 1, AllDial(1))[0];
            c.state.Connecting? && c.log.peer == Some(Dialled(e, cfg))
  {
    hide BufferOk, StageOk, WireOk, CountOk, HoldsOk, Started;
    DialAll(e, cfg, 1, 1);
    assert ConnInv(e, cfg, Start(e, cfg, 1, AllDial(1))[0]);
  }

  /** Both engines dial the proxy, but only poll names port 1 in a CONNECT request. */
  predicate NamesPortOne(cfg: Config) {
    Tunnels(Poll, cfg) && Tunnels(Epoll, cfg) && cfg.targetHost != "" && cfg.targetPort == 1
  }

  /** Where port 1 is used, either start-up already differs or the CONNECT request names it. */
  lemma PortOneCases(cfg: Config)
    requires !CommonPorts(cfg)
    ensures Start(Poll, cfg, 1, AllDial(1)) != Start(Epoll, cfg, 1, AllDial(1)) || NamesPortOne(cfg)
  {
    hide ConnInv, Started, AllDial;
    DialsItsPeer(Poll, cfg);
    if ValidPort(Epoll, Dialled(Epoll, cfg).port) {
      DialsItsPeer(Epoll, cfg);
    } else {
      NoPortNoSocket(Epoll, cfg, 1, AllDial(1));
    }
  }

  /** With port 1 to name poll goes on and epoll gives up. */
  lemma FirstSendToPortOne(e: Engine, cfg: Config, c: Conn)
    requires ConnInv(e, cfg, c) && c.state.ProxyConnect? && NamesPortOne(cfg)
    ensures Shape(cfg, c)
    ensures var c1 := Handle(e, cfg, c, WRITABLE, FINE);
            if e.Poll? then c1.state.ProxyResponse? else c1.state.Error?
  {
    hide ConnectText, TUNNEL_OK, BufferOk, CountOk;
    InvShape(e, cfg, c);
    CanSayConnect(e, cfg, c);
  }

  // The configurations on which the engines agree.

  /** The poll engine's side of the same two rounds. */
  lemma PollFirstConnectCall(cfg: Config, io: Outcome) returns (c: Conn)
    requires Tunnels(Poll, cfg)
    ensures ConnInv(Poll, cfg, c) && c.state.ProxyConnect? && Shape(cfg, c)
    ensures P.PollBench(cfg, 1, 1, AllDial(1), PollPart(ToTunnel(io)))[0] == Handle(Poll, cfg, c, WRITABLE, io)
  {
    hide WorldInv, P.PollRound, P.PollRun, ConnInv, Handle, Shape, Blank, AllDial, AllMeet;
    var x, y := AllMeet(1, WRITABLE, FINE), AllMeet(1, WRITABLE, io);
    assert PollPart(ToTunnel(io)) == [x] + ([y] + []);
    StartIsUniform(cfg, 1);
    var w := Start(Poll, cfg, 1, AllDial(1));
    ConnectedRound(cfg, 1, w);
    OneRound(cfg, 1, w, x, [y] + []);
    w := P.PollRound(cfg, 1, w, x).world;
    c := w[0];
    InStep(cfg, 1, w, ProxyConnect, WRITABLE, io);
    OneRound(cfg, 1, w, y, []);
    NoMoreRounds(cfg, 1, P.PollRound(cfg, 1, w, y).world);
  }

  ghost predicate Agree(cfg: Config, limit: nat, n: nat, allocs: seq<Alloc>, rounds: seq<EpollRoundInput>) {
    IsRun(cfg, n, allocs, rounds) && (cfg.isHttps ==> n <= limit) ==>
      EpollBench(cfg, n, allocs, rounds).world == P.PollBench(cfg, limit, n, allocs, PollPart(rounds))
  }

  /** On every run the engines end with the same connections. */
  ghost predicate AlwaysAgree(cfg: Config) {
    forall limit: nat, n: nat, allocs: seq<Alloc>, rounds: seq<EpollRoundInput> ::
      Agree(cfg, limit, n, allocs, rounds)
  }

  lemma StartsDiffer(cfg: Config)
    requires Start(Poll, cfg, 1, AllDial(1)) != Start(Epoll, cfg, 1, AllDial(1))
    ensures !Agree(cfg, 1, 1, AllDial(1), [])
  {
    hide WorldInv, TableOk, Started, AllDial;
    assert PollPart([]) == [];
    NoMoreRounds(cfg, 1, Start(Poll, cfg, 1, AllDial(1)));
    NoMoreEpollRounds(cfg, AtStart(cfg, 1, AllDial(1)));
  }

  /** One of the two first calls for the CONNECT request tells the engines apart. */
  lemma TunnelsDiffer(cfg: Config, io: Outcome)
    requires (NamesPortOne(cfg) && io == FINE) || (AsksForTunnel(cfg) && io == SEND_FAILS)
    ensures !Agree(cfg, 1, 1, AllDial(1), ToTunnel(io))
  {
    hide EpollRun, KernelRun, P.PollRun, AtStart, Start, AllDial, ConnInv, Handle, Shape, TUNNEL_OK, EpollInv, WorldInv;
    var s, c := FirstConnectCall(cfg, io, []);
    assert ToTunnel(io) + [] == ToTunnel(io);
    NoMoreEpollRounds(cfg, s);
    var d := PollFirstConnectCall(cfg, io);
    if io == FINE {
      FirstSendToPortOne(Epoll, cfg, c);
      FirstSendToPortOne(Poll, cfg, d);
    } else {
      FirstSendFails(Epoll, cfg, c);
      FirstSendFails(Poll, cfg, d);
    }
  }

  /**
   The engines agree on every run the kernel can produce, whatever start-up, readiness, I/O and order of
   events are, exactly if port 1 is not used and there is no tunnel the epoll engine can ask for.
   */
  lemma EnginesAgreeExactly(cfg: Config)
    ensures AlwaysAgree(cfg) <==> CommonPorts(cfg) && !AsksForTunnel(cfg)
  {
    hide EpollRun, KernelRun, P.PollRun, AtStart, Start, CommonPorts, AsksForTunnel, NamesPortOne, Agree;
    if !CommonPorts(cfg) {
      PortOneCases(cfg);
      if NamesPortOne(cfg) {
        TunnelsDiffer(cfg, FINE);
      } else {
        StartsDiffer(cfg);
      }
    } else if AsksForTunnel(cfg) {
      TunnelsDiffer(cfg, SEND_FAILS);
    } else {
      forall limit: nat, n: nat, allocs: seq<Alloc>, rounds: seq<EpollRoundInput>
        ensures Agree(cfg, limit, n, allocs, rounds)
      {
        AgreeWithoutTunnel(cfg, limit, n, allocs, rounds);
      }
    }
  }

  lemma AgreeWithoutTunnel(cfg: Config, limit: nat, n: nat, allocs: seq<Alloc>, rounds: seq<EpollRoundInput>)
    requires CommonPorts(cfg) && !AsksForTunnel(cfg)
    ensures Agree(cfg, limit, n, allocs, rounds)
  {
    hide EpollRun, KernelRun, P.PollRun, AtStart, Start, WorldInv, EpollInv;
    CommonConfig(cfg);
    if IsRun(cfg, n, allocs, rounds) && (cfg.isHttps ==> n <= limit) {
      NoTunnelNoConnect(cfg, limit, Start(Poll, cfg, n, allocs), PollPart(rounds));
      EnginesAgree(cfg, limit, n, allocs, rounds);
    }
  }
}
