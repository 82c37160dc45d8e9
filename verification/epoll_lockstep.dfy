/** Runs of the epoll engine with one connection, step by step. */
module EpollLockstep {
  import opened Automaton
  import opened Invariants
  import opened Rounds
  import opened EpollModel
  import opened Lockstep

  /** A tunnel the epoll engine can ask for. */
  predicate AsksForTunnel(cfg: Config) {
    Tunnels(Epoll, cfg) && CanName(Epoll, cfg)
  }

  /** The one connection of a state is in `state`, on the descriptor it dialled, with nothing received. */
  ghost predicate Alone(cfg: Config, s: EpollState, state: State) {
    && EpollInv(cfg, s) && |s.world| == 1
    && s.world[0].state == state && s.world[0].sockfd == 3 && Blank(s.world[0])
  }

  /** A round in which the one descriptor has events `ev`, and its handler meets `io`. */
  function Meets(ev: Events, io: Outcome): EpollRoundInput {
    EpollRoundInput(AllMeet(1, ev, io), {}, [3])
  }

  lemma StartsAlone(cfg: Config)
    requires ValidPort(Epoll, Dialled(Epoll, cfg).port)
    ensures var s := AtStart(cfg, 1, AllDial(1));
            Alone(cfg, s, Connecting) && s.world[0].log.plain == ""
  {
    hide ConnInv, Started;
    DialAll(Epoll, cfg, 1, 1);
  }

  /** Setup registers the one connection and leaves it as it is. */
  lemma SetupAlone(cfg: Config, s: EpollState, state: State)
    requires Alone(cfg, s, state) && Active(state)
    ensures var (s1, ok) := EpollSetup(cfg, s, [], {});
            ok && s1.world == s.world && s1.table == map[3 := Registration(0, Interest(state))]
  {
    hide WorldInv, TableOk, SetupTo;
    var s1 := EpollSetup(cfg, s, [], {}).0;
    SetupRegistersActive(cfg, s, [], {});
    assert ActiveSet(s.world) == {0};
    assert s1.table.Keys == {3};
    assert Registered(s1, 0);
  }

  lemma DeliversAlone(g: Registration, io: Outcome)
    requires Stirs(g.mask) && !g.mask.bad
    ensures Delivers(map[3 := g], Meets(g.mask, io).r.ready, 1, [3])
    ensures EventOf(map[3 := g], Meets(g.mask, io).r.ready, 3) == Event(g.conn, g.mask)
    ensures IoAt(Meets(g.mask, io).r, 0) == io
  {
  }

  /** A round is one handler call. */
  lemma RoundAlone(cfg: Config, s: EpollState, state: State, io: Outcome)
    requires Alone(cfg, s, state) && Active(state)
    ensures var x := Meets(Interest(state), io);
            && Shape(cfg, s.world[0])
            && KernelRound(cfg, s, x) && EpollRound(cfg, s, x).how.Goes?
            && EpollRound(cfg, s, x).s.world == [Handle(Epoll, cfg, s.world[0], Interest(state), io)]
  {
    hide WorldInv, TableOk, EpollSetup, Delivers, Handle, Shape, Masked;
    var ev := Interest(state);
    var x := Meets(ev, io);
    var s1 := EpollSetup(cfg, s, [], {}).0;
    SetupAlone(cfg, s, state);
    DeliversAlone(Registration(0, ev), io);
    assert ConnInv(Epoll, cfg, s.world[0]) by { EpollParts(cfg, s); }
    InvShape(Epoll, cfg, s.world[0]);
    assert ActiveSet(s.world) == {0};
    var events := EventsOf(s1, x.r.ready, [3]);
    assert events == [Event(0, ev)];
    OneEvent(cfg, s1, Event(0, ev), x.r);
  }

  lemma OneEvent(cfg: Config, s: EpollState, ev: Event, r: Round)
    requires EpollInv(cfg, s) && ev.conn < |s.world|
    ensures HandleEvents(cfg, s, [ev], r) == HandleEvent(cfg, s, ev, r)
  {
    hide WorldInv, TableOk, HandleEvent;
    assert [ev][1..] == [];
  }

  /** A run goes on behind its first round. */
  lemma OneRoundAlone(cfg: Config, s: EpollState, x: EpollRoundInput, more: seq<EpollRoundInput>)
    requires EpollInv(cfg, s) && KernelRound(cfg, s, x) && EpollRound(cfg, s, x).how.Goes?
    ensures EpollRun(cfg, s, [x] + more) == EpollRun(cfg, EpollRound(cfg, s, x).s, more)
    ensures KernelRun(cfg, s, [x] + more) <==> KernelRun(cfg, EpollRound(cfg, s, x).s, more)
  {
    hide WorldInv, TableOk, KernelRound, EpollRound;
    assert ([x] + more)[1..] == more;
  }

  /** The connection has reached its tunnel, with nothing sent. */
  lemma ConnectedAlone(cfg: Config, s: EpollState)
    requires Alone(cfg, s, Connecting) && s.world[0].log.plain == "" && Tunnels(Epoll, cfg)
    ensures var s1 := EpollRound(cfg, s, Meets(WRITABLE, FINE)).s;
            && Alone(cfg, s1, ProxyConnect) && Shape(cfg, s1.world[0])
            && s1.world[0].sent == 0 && s1.world[0].log.plain == ""
    ensures EpollRound(cfg, s, Meets(WRITABLE, FINE)).how.Goes? && KernelRound(cfg, s, Meets(WRITABLE, FINE))
  {
    hide WorldInv, TableOk, EpollRound, KernelRound, ConnInv, Handle, Shape, Blank, Meets;
    RoundAlone(cfg, s, Connecting, FINE);
    assert ConnInv(Epoll, cfg, s.world[0]) by { EpollParts(cfg, s); }
    ConnectedNext(Epoll, cfg, s.world[0]);
    InvShape(Epoll, cfg, Handle(Epoll, cfg, s.world[0], WRITABLE, FINE));
  }

  /** Two rounds from start-up: a tunnel is needed, and the first call for its CONNECT request meets `io`. */
  function ToTunnel(io: Outcome): seq<EpollRoundInput> {
    [Meets(WRITABLE, FINE), Meets(WRITABLE, io)]
  }

  lemma FirstConnectCall(cfg: Config, io: Outcome, more: seq<EpollRoundInput>) returns (s: EpollState, c: Conn)
    requires Tunnels(Epoll, cfg)
    ensures ConnInv(Epoll, cfg, c) && c.state.ProxyConnect? && c.sockfd == 3 && Blank(c)
    ensures c.sent == 0 && c.log.plain == ""
    ensures Shape(cfg, c) && EpollInv(cfg, s) && s.world == [Handle(Epoll, cfg, c, WRITABLE, io)]
    ensures EpollBench(cfg, 1, AllDial(1), ToTunnel(io) + more) == EpollRun(cfg, s, more)
    ensures KernelRun(cfg, AtStart(cfg, 1, AllDial(1)), ToTunnel(io) + more) <==> KernelRun(cfg, s, more)
  {
    hide WorldInv, TableOk, EpollRound, KernelRound, ConnInv, Handle, Shape, Blank, Meets,
      AtStart, AllDial, EpollRun, KernelRun;
    var x, y := Meets(WRITABLE, FINE), Meets(WRITABLE, io);
    StartsAlone(cfg);
    s := AtStart(cfg, 1, AllDial(1));
    assert ToTunnel(io) + more == [x] + ([y] + more);
    ConnectedAlone(cfg, s);
    OneRoundAlone(cfg, s, x, [y] + more);
    s := EpollRound(cfg, s, x).s;
    c := s.world[0];
    assert ConnInv(Epoll, cfg, c) by { EpollParts(cfg, s); }
    RoundAlone(cfg, s, ProxyConnect, io);
    OneRoundAlone(cfg, s, y, more);
    s := EpollRound(cfg, s, y).s;
  }

  lemma NoMoreEpollRounds(cfg: Config, s: EpollState)
    requires EpollInv(cfg, s)
    ensures EpollRun(cfg, s, []) == s && KernelRun(cfg, s, [])
  {
    hide WorldInv, TableOk;
  }
}
