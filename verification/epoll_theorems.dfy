/** What holds after start-up and any rounds of the epoll engine, and at its end. */
module EpollTheorems {
  import opened Text
  import opened Automaton
  import opened Invariants
  import opened Rounds
  import opened EpollModel
  import opened Totalling

  lemma OneOwner(cfg: Config, s: EpollState, fd: int, i: nat)
    requires EpollInv(cfg, s) && fd in s.table && i < |s.world|
    ensures s.world[i].sockfd == fd <==> i == s.table[fd].conn
  {
    hide WorldInv;
    var owner := s.table[fd].conn;
    ActiveHasFd(Epoll, cfg, s.world, owner);
    if i != owner {
      ActiveFdsDiffer(Epoll, cfg, s.world, owner, i);
    }
  }

  /**
   The interest table agrees with the connections: a registered descriptor is the socket of exactly one
   connection, which is active and is the one its entry points to, under the mask of its present state.
   So where setup meets an entry that exists already, that entry is the one it wanted to add.
   */
  lemma InterestAgreement(cfg: Config, n: nat, allocs: seq<Alloc>, rounds: seq<EpollRoundInput>)
    ensures var s := EpollBench(cfg, n, allocs, rounds);
            && (forall fd | fd in s.table ::
                  var g := s.table[fd];
                  && g.conn < n && Active(s.world[g.conn].state) && g.mask == Interest(s.world[g.conn].state)
                  && forall i | 0 <= i < n :: s.world[i].sockfd == fd <==> i == g.conn)
            && (forall i | 0 <= i < n && Active(s.world[i].state) && s.world[i].sockfd in s.table ::
                  s.table[s.world[i].sockfd] == Registration(i, Interest(s.world[i].state)))
  {
    hide WorldInv, EpollRun, Interest;
    var s := EpollBench(cfg, n, allocs, rounds);
    forall fd, i | fd in s.table && 0 <= i < n
      ensures s.world[i].sockfd == fd <==> i == s.table[fd].conn
    {
      OneOwner(cfg, s, fd, i);
    }
  }

  /** The totals of the epoll engine obey the laws of the poll engine's. */
  lemma EpollTotals(cfg: Config, n: nat, allocs: seq<Alloc>, rounds: seq<EpollRoundInput>)
    ensures var t := Total(EpollBench(cfg, n, allocs, rounds).world);
            && Accounted(t) && BytesFit(t)
            && (cfg.force ==> t.speed == 0 && t.bytes == 0)
            && (!cfg.force ==> t.forced == 0)
  {
    hide ConnInv, EpollRun, Total, TableOk;
    var w := EpollBench(cfg, n, allocs, rounds).world;
    assert forall i | 0 <= i < |w| :: ConnInv(Epoll, cfg, w[i]);
    TotalLaws(Epoll, cfg, w);
  }

  /** Sockets are distinct while the epoll engine runs, and everything has been released once when it ends. */
  lemma EpollResources(cfg: Config, n: nat, allocs: seq<Alloc>, rounds: seq<EpollRoundInput>)
    ensures SocketsDistinct(EpollBench(cfg, n, allocs, rounds).world)
    ensures forall i | 0 <= i < n :: AllReleased(Released(Epoll, EpollBench(cfg, n, allocs, rounds).world)[i])
  {
    hide WorldInv, EpollRun, AllReleased, SocketsDistinct, TableOk;
    var w := EpollBench(cfg, n, allocs, rounds).world;
    InvSocketsDistinct(Epoll, cfg, w);
    forall i | 0 <= i < n ensures AllReleased(Released(Epoll, w)[i]) {
      InvReleased(Epoll, cfg, w, i);
    }
  }

  /**
   TLS over the epoll engine, as `PollTheorems.TlsSafety` says of the poll engine: the body only on a channel
   whose handshake succeeded, with the SSL object there; a write to be retried is repeated with the offset and
   length it had; no SSL object before one is made, and one in every handshake without a tunnel. Plain HTTP
   sees neither a tunnel nor a TLS state.
   */
  lemma EpollTlsSafety(cfg: Config, n: nat, allocs: seq<Alloc>, rounds: seq<EpollRoundInput>, i: nat)
    requires i < n
    ensures var c := EpollBench(cfg, n, allocs, rounds).world[i];
            && (cfg.isHttps && Active(c.state) && c.log.tls != "" ==> c.log.secured)
            && (cfg.isHttps && (c.state.Sending? || c.state.Receiving?) ==> c.log.secured && c.ssl.Some?)
            && (c.state.Sending? && c.log.retry.Some? ==> c.log.retry.value == (c.sent, |cfg.body| - c.sent))
            && (!cfg.isHttps ==>
                  && !c.state.ProxyConnect? && !c.state.ProxyResponse? && !c.state.TlsHandshake?
                  && c.ssl.None?)
            && (!cfg.isHttps && Active(c.state) ==> c.log.tls == "")
            && (c.state.Connecting? || c.state.ProxyResponse? ==> c.ssl.None?)
            && (c.state.TlsHandshake? && !Tunnels(Epoll, cfg) ==> c.ssl.Some?)
  {
    hide EpollRun, TableOk, BufferOk, CountOk, HoldsOk, ConnectText;
    var c := EpollBench(cfg, n, allocs, rounds).world[i];
    assert ConnInv(Epoll, cfg, c);
  }

  /**
   Bytes on the wire of the epoll engine. Without a tunnel they are the body sent so far, as in the poll
   engine; through a tunnel the same holds of what goes over TLS.
   */
  lemma EpollChannels(cfg: Config, n: nat, allocs: seq<Alloc>, rounds: seq<EpollRoundInput>, i: nat)
    requires i < n
    ensures var c := EpollBench(cfg, n, allocs, rounds).world[i];
            && (cfg.isHttps && c.state.Sending? ==> c.sent <= |cfg.body| && c.log.tls == cfg.body[..c.sent])
            && (cfg.isHttps && (c.state.Receiving? || c.state.Completed?) ==> c.log.tls == cfg.body)
            && (!Tunnels(Epoll, cfg) ==>
                  var wire := c.log.plain + c.log.tls;
                  && (c.state.Connecting? || c.state.TlsHandshake? ==> wire == "")
                  && (c.state.Sending? ==> c.sent <= |cfg.body| && wire == cfg.body[..c.sent])
                  && (c.state.Receiving? || c.state.Completed? ==> wire == cfg.body)
                  && (c.state.Error? ==> wire <= cfg.body))
  {
    hide EpollRun, TableOk, BufferOk, CountOk, HoldsOk, ConnectText;
    var c := EpollBench(cfg, n, allocs, rounds).world[i];
    assert ConnInv(Epoll, cfg, c);
  }

  /** Every attempt went to the proxy, if there is one with a good port, and to the target otherwise. */
  lemma EpollDialsWhom(cfg: Config, n: nat, allocs: seq<Alloc>, rounds: seq<EpollRoundInput>, i: nat)
    requires i < n
    ensures var c := EpollBench(cfg, n, allocs, rounds).world[i];
            c.state != Idle ==>
              c.log.peer == Some(if cfg.proxyHost != "" && 1 < cfg.proxyPort <= 65535
                                 then Peer(cfg.proxyHost, cfg.proxyPort) else Peer(cfg.targetHost, cfg.targetPort))
  {
    hide EpollRun, TableOk, BufferOk, StageOk, WireOk, CountOk, HoldsOk;
    assert ConnInv(Epoll, cfg, EpollBench(cfg, n, allocs, rounds).world[i]);
  }

  // Connections without a socket.

  lemma IdleIsNotHandled(cfg: Config, s: EpollState, ev: Event, r: Round, i: nat)
    requires EpollInv(cfg, s) && ev.conn < |s.world| && i < |s.world| && s.world[i].state.Idle?
    ensures HandleEvent(cfg, s, ev, r).world[i] == s.world[i]
  {
    hide Handle;
    if ev.conn == i {
      assert ConnInv(Epoll, cfg, s.world[i]);
      if s.world[i].sockfd in s.table {
        ActiveHasFd(Epoll, cfg, s.world, s.table[s.world[i].sockfd].conn);
      }
    }
  }

  lemma {:induction false} IdleInLoop(cfg: Config, s: EpollState, events: seq<Event>, r: Round, i: nat)
    requires EpollInv(cfg, s) && (forall k | 0 <= k < |events| :: events[k].conn < |s.world|)
    requires i < |s.world| && s.world[i].state.Idle?
    ensures HandleEvents(cfg, s, events, r).world[i] == s.world[i]
    decreases |events|
  {
    hide WorldInv, TableOk, HandleEvent;
    if events != [] {
      IdleIsNotHandled(cfg, s, events[0], r, i);
      IdleInLoop(cfg, HandleEvent(cfg, s, events[0], r), events[1..], r, i);
    }
  }

  lemma IdleInRound(cfg: Config, s: EpollState, x: EpollRoundInput, i: nat)
    requires EpollInv(cfg, s) && i < |s.world| && s.world[i].state.Idle?
    ensures EpollRound(cfg, s, x).s.world[i] == s.world[i]
  {
    hide WorldInv, HandleEvents, SetupTo, Recycled, Masked;
    var s1 := EpollSetup(cfg, s, x.r.allocs, x.refused).0;
    SetupRecycles(cfg, s, x.r.allocs, FirstRefused(s, x.refused, 0));
    assert s1.world[i] == s.world[i];
    if Delivers(s1.table, x.r.ready, |ActiveSet(s.world)|, x.order) {
      IdleInLoop(cfg, s1, EventsOf(s1, x.r.ready, x.order), x.r, i);
    }
  }

  /**
   A connection whose socket allocation failed is never looked at again; if it is the first one, the
   program exits in the next round and no connection changes any more.
   */
  lemma {:induction false} EpollIdleForever(cfg: Config, s: EpollState, rounds: seq<EpollRoundInput>, i: nat)
    requires EpollInv(cfg, s) && i < |s.world| && s.world[i].state.Idle?
    ensures EpollRun(cfg, s, rounds).world[i] == s.world[i]
    ensures i == 0 ==> EpollRun(cfg, s, rounds) == s
    ensures i == 0 && rounds != [] ==> EpollRound(cfg, s, rounds[0]).how.Exits?
    decreases |rounds|
  {
    hide WorldInv, TableOk, EpollRound;
    if rounds != [] {
      IdleInRound(cfg, s, rounds[0], i);
      if i == 0 {
        IdleFirst(cfg, s, rounds[0]);
      }
      var e := EpollRound(cfg, s, rounds[0]);
      if e.how.Goes? {
        EpollIdleForever(cfg, e.s, rounds[1..], i);
      }
    }
  }

  lemma IdleFirst(cfg: Config, s: EpollState, x: EpollRoundInput)
    requires EpollInv(cfg, s) && s.world != [] && s.world[0].state.Idle?
    ensures EpollRound(cfg, s, x) == RoundEnd(s, Exits)
  {
    hide TableOk;
    assert ConnInv(Epoll, cfg, s.world[0]);
  }

  // Orders of events.

  /** With room for all that is registered, any order of the descriptors with something to report will do. */
  lemma SomeOrder(table: map<int, Registration>, ready: map<int, Events>, max: nat) returns (order: seq<int>)
    requires |table| <= max
    ensures Delivers(table, ready, max, order)
  {
    hide Masked, Stirs;
    var fds := set fd | fd in table && Stirs(Masked(ready, fd, table[fd].mask));
    order := Enumerate(fds);
    SmallerSet(fds, table.Keys);
    forall k | 0 <= k < |order| ensures order[k] in fds {
    }
  }

  lemma RoundCanBe(cfg: Config, s: EpollState, x: EpollRoundInput) returns (order: seq<int>)
    requires EpollInv(cfg, s)
    ensures KernelRound(cfg, s, x.(order := order))
  {
    hide WorldInv, TableOk, EpollSetup, Delivers;
    var (s1, ok) := EpollSetup(cfg, s, x.r.allocs, x.refused);
    order := [];
    if ok {
      SetupRegistersActive(cfg, s, x.r.allocs, x.refused);
      order := SomeOrder(s1.table, x.r.ready, |ActiveSet(s.world)|);
    }
  }

  /** Whatever else a run meets, there are orders in which the kernel can report its events. */
  lemma {:induction false} KernelCanRun(cfg: Config, s: EpollState, rounds: seq<EpollRoundInput>)
    returns (run: seq<EpollRoundInput>)
    requires EpollInv(cfg, s)
    ensures |run| == |rounds| && forall k | 0 <= k < |run| :: run[k] == rounds[k].(order := run[k].order)
    ensures KernelRun(cfg, s, run)
    decreases |rounds|
  {
    hide WorldInv, TableOk, EpollRound, KernelRound;
    run := [];
    if rounds != [] {
      var order := RoundCanBe(cfg, s, rounds[0]);
      var x := rounds[0].(order := order);
      var end := EpollRound(cfg, s, x);
      var rest := rounds[1..];
      if end.how.Goes? {
        rest := KernelCanRun(cfg, end.s, rounds[1..]);
      }
      run := [x] + rest;
      assert run[1..] == rest;
    }
  }
}
