/**
 The result of `setup_ssl_context` is ignored once a tunnel is up. This is exactly what lets a run reach
 a handshake without an SSL object.
 */
module BareHandshake {
  import opened Automaton
  import opened Invariants
  import opened Rounds
  import opened PollModel
  import opened EpollModel
  import opened EpollLockstep
  import opened Lockstep

  ghost predicate BareAt(cfg: Config, limit: nat, n: nat, allocs: seq<Alloc>, rounds: seq<Round>, i: nat) {
    && i < n
    && var c := PollBench(cfg, limit, n, allocs, rounds)[i];
       c.state.TlsHandshake? && c.ssl.None?
  }

  ghost predicate SomeRunIsBare(cfg: Config, limit: nat) {
    exists n: nat, allocs: seq<Alloc>, rounds: seq<Round>, i: nat :: BareAt(cfg, limit, n, allocs, rounds, i)
  }

  /** Some run reaches a handshake without an SSL object exactly for HTTPS through a tunnel that can be asked for. */
  lemma BareExactly(cfg: Config, limit: nat)
    ensures SomeRunIsBare(cfg, limit) <==> CanReachHandshake(cfg) && Tunnels(Poll, cfg)
  {
    hide WorldInv, PollRun, Uniform, ToHandshake, CanReachHandshake, AllDial;
    if CanReachHandshake(cfg) && Tunnels(Poll, cfg) {
      var w := AllReachHandshake(cfg, limit, 1, NoContext, []);
      NoMoreRounds(cfg, limit, w);
      InHandshake(cfg, w);
      assert BareAt(cfg, limit, 1, AllDial(1), ToHandshake(cfg, 1, NoContext) + [], 0);
    }
    if SomeRunIsBare(cfg, limit) {
      var n: nat, allocs: seq<Alloc>, rounds: seq<Round>, i: nat :| BareAt(cfg, limit, n, allocs, rounds, i);
      HandshakesAreReached(cfg, limit, n, allocs, rounds, i);
    }
  }

  lemma InHandshake(cfg: Config, w: World)
    requires w != [] && Uniform(cfg, w, TlsHandshake)
    ensures w[0].state.TlsHandshake?
  {
    hide ConnInv;
  }

  // The same in the epoll engine.

  ghost predicate EpollBareAt(cfg: Config, n: nat, allocs: seq<Alloc>, rounds: seq<EpollRoundInput>, i: nat) {
    && IsRun(cfg, n, allocs, rounds) && i < n
    && var c := EpollBench(cfg, n, allocs, rounds).world[i];
       c.state.TlsHandshake? && c.ssl.None?
  }

  ghost predicate SomeEpollRunIsBare(cfg: Config) {
    exists n: nat, allocs: seq<Alloc>, rounds: seq<EpollRoundInput>, i: nat :: EpollBareAt(cfg, n, allocs, rounds, i)
  }

  /** The proxy grants the tunnel, and OpenSSL has no context. */
  const GRANTED := Meets(READABLE, FineBut(NoContext))

  lemma GrantedAlone(cfg: Config, s: EpollState)
    requires Alone(cfg, s, ProxyResponse)
    ensures KernelRound(cfg, s, GRANTED) && EpollRound(cfg, s, GRANTED).how.Goes?
    ensures var c := EpollRound(cfg, s, GRANTED).s.world[0]; c.state.TlsHandshake? && c.ssl.None?
  {
    hide WorldInv, TableOk, EpollRound, KernelRound, ConnInv, Handle, Shape, Blank, Meets;
    RoundAlone(cfg, s, ProxyResponse, FineBut(NoContext));
    assert ConnInv(Epoll, cfg, s.world[0]) by { EpollParts(cfg, s); }
    GrantedNext(Epoll, cfg, s.world[0], NoContext);
  }

  lemma BareRun(cfg: Config)
    requires AsksForTunnel(cfg)
    ensures EpollBareAt(cfg, 1, AllDial(1), ToTunnel(FINE) + [GRANTED], 0)
  {
    hide EpollRun, KernelRun, EpollRound, KernelRound, AtStart, AllDial, ConnInv, Handle, Shape, Blank, WorldInv, TableOk;
    var s, c := FirstConnectCall(cfg, FINE, [GRANTED]);
    RequestedNext(Epoll, cfg, c);
    GrantedAlone(cfg, s);
    OneRoundAlone(cfg, s, GRANTED, []);
    assert [GRANTED] + [] == [GRANTED];
    NoMoreEpollRounds(cfg, EpollRound(cfg, s, GRANTED).s);
  }

  lemma BareIsGranted(cfg: Config, n: nat, allocs: seq<Alloc>, rounds: seq<EpollRoundInput>, i: nat)
    requires EpollBareAt(cfg, n, allocs, rounds, i)
    ensures AsksForTunnel(cfg)
  {
    hide EpollRun, KernelRun, TableOk, BufferOk, WireOk, CountOk, HoldsOk;
    assert ConnInv(Epoll, cfg, EpollBench(cfg, n, allocs, rounds).world[i]);
  }

  /** Some run of the epoll engine reaches a handshake without an SSL object exactly with a tunnel it can ask for. */
  lemma EpollBareExactly(cfg: Config)
    ensures SomeEpollRunIsBare(cfg) <==> AsksForTunnel(cfg)
  {
    hide EpollBareAt, AsksForTunnel;
    if AsksForTunnel(cfg) {
      BareRun(cfg);
    }
    if SomeEpollRunIsBare(cfg) {
      var n: nat, allocs: seq<Alloc>, rounds: seq<EpollRoundInput>, i: nat :| EpollBareAt(cfg, n, allocs, rounds, i);
      BareIsGranted(cfg, n, allocs, rounds, i);
    }
  }
}
