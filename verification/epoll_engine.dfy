/** `bench_epoll`: the connections and the kernel's interest table, changed in place round by round. */
module EpollEngine {
  import opened Automaton
  import opened Invariants
  import opened Rounds
  import opened EpollModel
  import opened Totalling
  import opened Fleets

  /** How `epoll_ctl` ends. */
  datatype Ctl = Accepted | Eexist | Refused

  lemma EpollSetupRefused(cfg: Config, s: EpollState, allocs: seq<Alloc>, refused: set<nat>)
    requires EpollInv(cfg, s) && s.world != [] && s.world[0].sockfd < 0
    ensures EpollSetup(cfg, s, allocs, refused) == (s, false)
  {
    hide EpollInv;
  }

  ghost predicate NoneRefusedBelow(s: EpollState, refused: set<nat>, k: nat)
    requires k <= |s.world|
  {
    forall j: nat | j < k :: !RefusedAt(s, refused, j)
  }

  /** A registration attempted late in a pass is refused exactly if it would have been at its start. */
  lemma RefusedSame(cfg: Config, s: EpollState, allocs: seq<Alloc>, refused: set<nat>, i: nat)
    requires EpollInv(cfg, s) && i < |s.world|
    ensures SetupTo(cfg, s, allocs, i).world[i] == s.world[i]
    ensures RefusedAt(SetupTo(cfg, s, allocs, i), refused, i) <==> RefusedAt(s, refused, i)
  {
    SetupKeys(cfg, s, allocs, i);
    SetupRecycles(cfg, s, allocs, i);
    assert SetupTo(cfg, s, allocs, i).world[i] == s.world[i];
    if Active(s.world[i].state) && s.world[i].sockfd in ActiveFds(s.world, i) {
      var j :| 0 <= j < i && Active(s.world[j].state) && s.world[j].sockfd == s.world[i].sockfd;
      ActiveHasFd(Epoll, cfg, s.world, i);
      ActiveFdsDiffer(Epoll, cfg, s.world, i, j);
    }
  }

  lemma EpollStep(cfg: Config, s: EpollState, allocs: seq<Alloc>, refused: set<nat>, i: nat)
    requires EpollInv(cfg, s) && i < |s.world| && NoneRefusedBelow(s, refused, i)
    ensures var p := SetupTo(cfg, s, allocs, i);
            && |p.world| == |s.world|
            && (RefusedAt(p, refused, i) <==> RefusedAt(s, refused, i))
            && (!RefusedAt(p, refused, i) ==> NoneRefusedBelow(s, refused, i + 1))
            && SetupTo(cfg, s, allocs, i + 1) == SetupAt(cfg, p, allocs, i)
            && Rank(s.world, i + 1) == Rank(s.world, i) + InFlight(p.world[i].state)
  {
    RefusedSame(cfg, s, allocs, refused, i);
  }

  lemma EpollSetupStopsAt(cfg: Config, s: EpollState, allocs: seq<Alloc>, refused: set<nat>, i: nat)
    requires EpollInv(cfg, s) && s.world != [] && s.world[0].sockfd >= 0 && i <= |s.world|
    requires NoneRefusedBelow(s, refused, i) && (i < |s.world| ==> RefusedAt(s, refused, i))
    ensures EpollSetup(cfg, s, allocs, refused) == (SetupTo(cfg, s, allocs, i), i == |s.world|)
  {
    hide EpollInv, SetupTo;
  }

  lemma AllActive(w: World)
    ensures Rank(w, |w|) == |ActiveSet(w)|
  {
    RankCounts(w, |w|);
    assert ActiveBelow(w, |w|) == ActiveSet(w);
  }

  class BenchEpoll {
    const fleet: Fleet
    /** The kernel's interest table of the epoll instance. */
    var table: map<int, Registration>

    ghost function Abs(): EpollState
      reads this, fleet.Objects()
    {
      EpollState(fleet.World(), table)
    }

    ghost predicate Valid()
      reads this, fleet.Objects()
    {
      fleet.engine == Epoll && this !in fleet.Objects() && fleet.Valid() && TableOk(Abs())
    }

    /** Memory for the connections, the start-up loop, and a new epoll instance. */
    constructor (cfg: Config, n: nat, allocs: seq<Alloc>)
      requires n > 0
      ensures Valid() && Abs() == AtStart(cfg, n, allocs)
      ensures fleet.cfg == cfg && fresh(fleet.Objects())
    {
      fleet := new Fleet(Epoll, cfg, n, allocs);
      table := map[];
    }

    /** `epoll_ctl(EPOLL_CTL_ADD)`. */
    method CtlAdd(fd: int, g: Registration, refused: bool) returns (ret: Ctl)
      modifies this
      ensures ret.Refused? <==> refused && fd !in old(table)
      ensures table == if ret.Refused? then old(table) else AddFd(old(table), fd, g)
    {
      if fd in table {
        return Eexist;
      }
      if refused {
        return Refused;
      }
      table := table[fd := g];
      return Accepted;
    }

    /** `epoll_ctl(EPOLL_CTL_DEL)`. */
    method CtlDel(fd: int) returns (ok: bool)
      modifies this
      ensures ok == (fd in old(table)) && table == old(table) - {fd}
    {
      ok := fd in table;
      table := table - {fd};
    }

    /** The body of the setup loop. A registration that exists already is tolerated; any other failure ends setup. */
    method Visit(i: nat, allocs: seq<Alloc>, refused: set<nat>) returns (ok: bool, counted: nat)
      requires Valid() && i < |fleet.connections|
      modifies this, fleet.connections[i], fleet.connections[i].receivedResponse, fleet.kernel
      ensures Valid()
      ensures ok <==> !RefusedAt(old(Abs()), refused, i)
      ensures Abs() == if ok then SetupAt(fleet.cfg, old(Abs()), allocs, i) else old(Abs())
      ensures counted == InFlight(old(Abs()).world[i].state)
    {
      hide EpollInv, WorldInv, TableOk, SetupAt, RecycleAt, AddFd, RefusedAt, InFlight, Done,
        Fleet.Valid, Fleet.World, Abs, Valid, OpenFds;
      ghost var s := Abs();
      VisitFacts(s, allocs, refused, i);
      ok, counted := true, 0;
      var c := fleet.connections[i];
      if c.state.Error? || c.state.Completed? {
        var fd := c.sockfd;
        fleet.RecycleConnection(i, AllocAt(allocs, i));
        table := table - {fd};
      } else if !c.state.Idle? {
        var ret := CtlAdd(c.sockfd, Registration(i, Interest(c.state)), i in refused);
        ok, counted := !ret.Refused?, 1;
      }
      VisitEnds(EpollState(fleet.World(), table), if ok then SetupAt(fleet.cfg, s, allocs, i) else s);
    }

    /** What setup does to connection `i`, in terms of its fields. */
    lemma VisitFacts(s: EpollState, allocs: seq<Alloc>, refused: set<nat>, i: nat)
      requires Valid() && s == Abs() && i < |fleet.connections|
      ensures fleet.Valid() && fleet.engine == Epoll && this !in fleet.Objects()
      ensures s.world == fleet.World() && s.table == table && |s.world| == |fleet.connections|
      ensures EpollInv(fleet.cfg, s) && EpollInv(fleet.cfg, SetupAt(fleet.cfg, s, allocs, i))
      ensures var c := fleet.connections[i];
              && (Done(c.state) <==> c.state.Error? || c.state.Completed?)
              && InFlight(s.world[i].state) == (if Done(c.state) || c.state.Idle? then 0 else 1)
              && (RefusedAt(s, refused, i) <==>
                    !Done(c.state) && !c.state.Idle? && i in refused && c.sockfd !in table)
              && SetupAt(fleet.cfg, s, allocs, i) ==
                   if Done(c.state) then
                     EpollState(RecycleAt(Epoll, fleet.cfg, s.world, i, AllocAt(allocs, i)), table - {c.sockfd})
                   else if c.state.Idle? then s
                   else EpollState(s.world, AddFd(table, c.sockfd, Registration(i, Interest(c.state))))
    {
      hide WorldInv, RecycleAt, AddFd;
      assert fleet.connections[i].Value() == s.world[i];
      SetupAtKeepsInv(fleet.cfg, s, allocs, i);
    }

    lemma VisitEnds(now: EpollState, s: EpollState)
      requires now == s && EpollInv(fleet.cfg, s)
      requires fleet.Valid() && fleet.engine == Epoll && this !in fleet.Objects()
      requires now.world == fleet.World() && now.table == table
      ensures Valid() && Abs() == s
    {
      hide WorldInv;
    }

    /** `setup_connection_to_epoll_instance`: -1 if the first connection has no socket or a registration is refused. */
    method SetupConnectionToEpollInstance(allocs: seq<Alloc>, refused: set<nat>) returns (num: int)
      requires Valid()
      modifies this, fleet.Objects()
      ensures Valid()
      ensures (Abs(), num >= 0) == EpollSetup(fleet.cfg, old(Abs()), allocs, refused)
      ensures num >= 0 ==> num == |ActiveSet(old(fleet.World()))|
    {
      hide *;
      ghost var s := Abs();
      SetupFacts(s, allocs);
      if fleet.connections[0].sockfd < 0 {
        EpollSetupRefused(fleet.cfg, s, allocs, refused);
        return -1;
      }
      num := 0;
      for i := 0 to |fleet.connections|
        invariant Valid() && Abs() == SetupTo(fleet.cfg, s, allocs, i) && num == Rank(s.world, i)
        invariant NoneRefusedBelow(s, refused, i)
      {
        EpollStep(fleet.cfg, s, allocs, refused, i);
        var ok, counted := Visit(i, allocs, refused);
        if !ok {
          EpollSetupStopsAt(fleet.cfg, s, allocs, refused, i);
          return -1;
        }
        num := num + counted;
      }
      EpollSetupStopsAt(fleet.cfg, s, allocs, refused, |s.world|);
      AllActive(s.world);
    }

    lemma SetupFacts(s: EpollState, allocs: seq<Alloc>)
      requires Valid() && s == Abs()
      ensures EpollInv(fleet.cfg, s) && s.world == fleet.World()
      ensures |s.world| == |fleet.connections| > 0 && fleet.connections[0].sockfd == s.world[0].sockfd
      ensures SetupTo(fleet.cfg, s, allocs, 0) == s && Rank(s.world, 0) == 0
      ensures forall refused :: NoneRefusedBelow(s, refused, 0)
      ensures this !in fleet.Objects() && fleet.kernel in fleet.Objects()
      ensures forall i | 0 <= i < |fleet.connections| ::
                fleet.connections[i] in fleet.Objects() && fleet.connections[i].receivedResponse in fleet.Objects()
    {
      hide WorldInv;
    }

    /** `handle_ready_connection`: the descriptor is taken out of the table before anything else. */
    method HandleReadyConnection(ev: Event, r: Round)
      requires Valid() && ev.conn < |fleet.connections|
      modifies this, fleet.connections[ev.conn], fleet.connections[ev.conn].receivedResponse
      ensures Valid() && Abs() == HandleEvent(fleet.cfg, old(Abs()), ev, r)
    {
      hide EpollInv, WorldInv, TableOk, Handle, Shape, HandleEvent, OpenFds, Fleet.Valid, Fleet.World;
      ghost var s := Abs();
      HandleFacts(s, ev, r);
      var c := fleet.connections[ev.conn];
      var ok := CtlDel(c.sockfd);
      if ok {
        fleet.HandleAt(ev.conn, ev.ev, IoAt(r, ev.conn));
      }
      HandleEnds(Abs(), HandleEvent(fleet.cfg, s, ev, r));
    }

    /** What the handler does to an event, in terms of the fields of its connection. */
    lemma HandleFacts(s: EpollState, ev: Event, r: Round)
      requires Valid() && s == Abs() && ev.conn < |fleet.connections|
      ensures fleet.Separate() && fleet.engine == Epoll && this !in fleet.Objects()
      ensures s.world == fleet.World() && |s.world| == |fleet.connections|
      ensures EpollInv(fleet.cfg, s) && EpollInv(fleet.cfg, HandleEvent(fleet.cfg, s, ev, r))
      ensures fleet.kernel.open == OpenFds(HandleEvent(fleet.cfg, s, ev, r).world)
      ensures var i, fd := ev.conn, fleet.connections[ev.conn].sockfd;
              var s1, io := HandleEvent(fleet.cfg, s, ev, r), IoAt(r, i);
              && fleet.connections[i].Value() == s.world[i]
              && (fd !in table ==> s1 == s && table - {fd} == table)
              && (fd in table ==>
                    && Shape(fleet.cfg, s.world[i])
                    && s1 == EpollState(s.world[i := Handle(Epoll, fleet.cfg, s.world[i], ev.ev, io)], table - {fd}))
    {
      hide WorldInv, TableOk, OpenFds, Handle, Shape, HandleEvent;
      EventEffect(fleet.cfg, s, ev, r);
      assert fleet.connections[ev.conn].Value() == s.world[ev.conn];
    }

    lemma HandleEnds(now: EpollState, s1: EpollState)
      requires now == Abs() && now == s1 && EpollInv(fleet.cfg, s1) && fleet.kernel.open == OpenFds(s1.world)
      requires fleet.Separate() && fleet.engine == Epoll && this !in fleet.Objects()
      ensures Valid()
    {
      hide WorldInv, OpenFds;
      assert WorldInv(Epoll, fleet.cfg, s1.world) by { EpollParts(fleet.cfg, s1); }
    }

    /** `epoll_wait`, reporting the descriptors in the order the kernel chose. */
    method EpollWait(max: nat, ready: map<int, Events>, order: seq<int>) returns (events: seq<Event>)
      requires Valid() && Delivers(Abs().table, ready, max, order)
      ensures |events| <= max && events == EventsOf(Abs(), ready, order)
    {
      hide WorldInv;
      events := [];
      for k := 0 to |order|
        invariant |events| == k
        invariant forall j | 0 <= j < k :: events[j] == EventOf(table, ready, order[j])
      {
        events := events + [EventOf(table, ready, order[k])];
      }
    }

    /** The event loop. */
    method HandleAll(events: seq<Event>, r: Round)
      requires Valid() && forall k | 0 <= k < |events| :: events[k].conn < |fleet.connections|
      modifies this, fleet.Objects()
      ensures Valid() && Abs() == HandleEvents(fleet.cfg, old(Abs()), events, r)
    {
      ghost var s := Abs();
      assert forall i | 0 <= i < |fleet.connections| ::
          fleet.connections[i] in fleet.Objects() && fleet.connections[i].receivedResponse in fleet.Objects();
      assert EpollInv(fleet.cfg, s) && |s.world| == |fleet.connections|;
      StartEvents(fleet.cfg, s, events, r);
      for k := 0 to |events|
        invariant Valid() && EventsLeft(fleet.cfg, Abs(), events, k, r, HandleEvents(fleet.cfg, s, events, r))
      {
        NextEvent(fleet.cfg, Abs(), events, k, r, HandleEvents(fleet.cfg, s, events, r));
        HandleReadyConnection(events[k], r);
      }
      EndEvents(fleet.cfg, Abs(), events, r, HandleEvents(fleet.cfg, s, events, r));
    }

    /** `epoll_wait`, and the handlers of the events it reports. */
    method WaitAndHandle(max: nat, r: Round, order: seq<int>)
      requires Valid() && Delivers(Abs().table, r.ready, max, order)
      modifies this, fleet.Objects()
      ensures Valid() && Abs() == HandleEvents(fleet.cfg, old(Abs()), EventsOf(old(Abs()), r.ready, order), r)
    {
      hide EpollInv, WorldInv, TableOk, Delivers, HandleEvents, Abs, Valid, Fleet.Valid, Fleet.World;
      WaitFacts();
      var events := EpollWait(max, r.ready, order);
      HandleAll(events, r);
    }

    lemma WaitFacts()
      requires Valid()
      ensures EpollInv(fleet.cfg, Abs()) && TableOk(Abs()) && |Abs().world| == |fleet.connections|
      ensures forall table, ready, max, order | Delivers(table, ready, max, order) ::
                forall k | 0 <= k < |order| :: order[k] in table
    {
      hide WorldInv, TableOk;
    }

    /** One turn of the loop in `bench_epoll`. */
    method Turn(x: EpollRoundInput) returns (how: End)
      requires Valid() && KernelRound(fleet.cfg, Abs(), x)
      modifies this, fleet.Objects()
      ensures Valid() && RoundEnd(Abs(), how) == EpollRound(fleet.cfg, old(Abs()), x)
    {
      ghost var s := Abs();
      assert EpollInv(fleet.cfg, s) && s.world == fleet.World();
      EpollTurnOf(fleet.cfg, s, x);
      var activeFds := SetupConnectionToEpollInstance(x.r.allocs, x.refused);
      if activeFds < 0 {
        return Exits;
      }
      if activeFds == 0 {
        return Goes;
      }
      if x.r.waitFails {
        return Breaks;
      }
      WaitAndHandle(activeFds, x.r, x.order);
      return Goes;
    }

    /** The loop over the rounds, until time is up, `epoll_wait` fails, or setup fails and the program exits. */
    method Rounds(rounds: seq<EpollRoundInput>) returns (exited: bool)
      requires Valid() && KernelRun(fleet.cfg, Abs(), rounds)
      modifies this, fleet.Objects()
      ensures Valid() && Abs() == EpollRun(fleet.cfg, old(Abs()), rounds)
    {
      assert rounds[0..] == rounds;
      assert EpollInv(fleet.cfg, Abs());
      var k := 0;
      while k < |rounds|
        invariant k <= |rounds| && Valid() && EpollInv(fleet.cfg, Abs()) && KernelRun(fleet.cfg, Abs(), rounds[k..])
        invariant EpollRun(fleet.cfg, Abs(), rounds[k..]) == EpollRun(fleet.cfg, old(Abs()), rounds)
      {
        assert rounds[k..][1..] == rounds[k + 1..];
        var how := Turn(rounds[k]);
        if !how.Goes? {
          return how.Exits?;
        }
        k := k + 1;
      }
      return false;
    }
  }

  /** After `k` events, handling the rest leads to `end`. */
  ghost predicate EventsLeft(cfg: Config, s: EpollState, events: seq<Event>, k: nat, r: Round, end: EpollState) {
    && k <= |events| && EpollInv(cfg, s)
    && (forall j | 0 <= j < |events| :: events[j].conn < |s.world|)
    && HandleEvents(cfg, s, events[k..], r) == end
  }

  lemma StartEvents(cfg: Config, s: EpollState, events: seq<Event>, r: Round)
    requires EpollInv(cfg, s) && forall j | 0 <= j < |events| :: events[j].conn < |s.world|
    ensures EventsLeft(cfg, s, events, 0, r, HandleEvents(cfg, s, events, r))
  {
    hide EpollInv;
    assert events[0..] == events;
  }

  lemma NextEvent(cfg: Config, s: EpollState, events: seq<Event>, k: nat, r: Round, end: EpollState)
    requires k < |events| && EventsLeft(cfg, s, events, k, r, end)
    ensures EpollInv(cfg, s) && events[k].conn < |s.world|
    ensures EventsLeft(cfg, HandleEvent(cfg, s, events[k], r), events, k + 1, r, end)
  {
    hide EpollInv, HandleEvent;
    assert events[k..][1..] == events[k + 1..];
  }

  lemma EndEvents(cfg: Config, s: EpollState, events: seq<Event>, r: Round, end: EpollState)
    requires EventsLeft(cfg, s, events, |events|, r, end)
    ensures s == end
  {
    hide EpollInv;
  }

  /** A round of the model, told by what setup returns. */
  lemma EpollTurnOf(cfg: Config, s: EpollState, x: EpollRoundInput)
    requires EpollInv(cfg, s) && KernelRound(cfg, s, x)
    ensures var (s1, ok) := EpollSetup(cfg, s, x.r.allocs, x.refused);
            && EpollInv(cfg, s1) && |s1.world| == |s.world|
            && (ok ==> Delivers(s1.table, x.r.ready, |ActiveSet(s.world)|, x.order))
            && EpollRound(cfg, s, x) ==
               if !ok then RoundEnd(s1, Exits)
               else if |ActiveSet(s.world)| == 0 then RoundEnd(s1, Goes)
               else if x.r.waitFails then RoundEnd(s1, Breaks)
               else RoundEnd(HandleEvents(cfg, s1, EventsOf(s1, x.r.ready, x.order), x.r), Goes)
  {
    hide WorldInv, EpollSetup, HandleEvents;
  }

  /** What the handler does to an event, in the two cases of the deletion. */
  lemma EventEffect(cfg: Config, s: EpollState, ev: Event, r: Round)
    requires EpollInv(cfg, s) && ev.conn < |s.world|
    ensures var i := ev.conn; var fd := s.world[i].sockfd; var s1 := HandleEvent(cfg, s, ev, r);
            && EpollInv(cfg, s1)
            && (fd !in s.table ==> s1 == s)
            && (fd in s.table ==>
                  && Shape(cfg, s.world[i])
                  && s1 == EpollState(s.world[i := Handle(Epoll, cfg, s.world[i], ev.ev, IoAt(r, i))], s.table - {fd})
                  && OpenFds(s1.world) == OpenFds(s.world))
  {
    var c := s.world[ev.conn];
    if c.sockfd in s.table {
      EventIsActive(cfg, s, ev.conn);
      HandleKeepsInv(Epoll, cfg, c, ev.ev, IoAt(r, ev.conn));
      OpenUnchanged(s.world, ev.conn, Handle(Epoll, cfg, c, ev.ev, IoAt(r, ev.conn)));
    }
  }

  lemma OpenUnchanged(w: World, i: nat, c: Conn)
    requires i < |w| && c.log.fds == w[i].log.fds
    ensures OpenFds(w[i := c]) == OpenFds(w)
  {
    var w1 := w[i := c];
    assert forall j | 0 <= j < |w| :: w1[j].log.fds == w[j].log.fds;
  }

  lemma EventIsActive(cfg: Config, s: EpollState, i: nat)
    requires EpollInv(cfg, s) && i < |s.world| && s.world[i].sockfd in s.table
    ensures Active(s.world[i].state) && s.table[s.world[i].sockfd].conn == i
  {
    var g := s.table[s.world[i].sockfd];
    if g.conn != i {
      ActiveHasFd(Epoll, cfg, s.world, g.conn);
      ActiveFdsDiffer(Epoll, cfg, s.world, g.conn, i);
    }
  }

  const MAX_CONNECTIONS: nat := 1000

  /**
   `bench_epoll`: the numbers it prints are the totals of the connections when the rounds are over,
   unless the program exits because a setup pass failed.
   */
  method RunBenchEpoll(cfg: Config, clients: nat, allocs: seq<Alloc>, rounds: seq<EpollRoundInput>)
    returns (exited: bool, speed: nat, failed: nat, bytes: nat)
    requires clients > 0
    requires var n := if clients > MAX_CONNECTIONS then MAX_CONNECTIONS else clients;
             KernelRun(cfg, AtStart(cfg, n, allocs), rounds)
    ensures var n := if clients > MAX_CONNECTIONS then MAX_CONNECTIONS else clients;
            var t := Total(EpollBench(cfg, n, allocs, rounds).world);
            !exited ==> speed == t.speed && failed == t.failed && bytes == t.bytes
  {
    var numConnections := if clients > MAX_CONNECTIONS then MAX_CONNECTIONS else clients;
    var engine := new BenchEpoll(cfg, numConnections, allocs);
    exited := engine.Rounds(rounds);
    speed, failed, bytes := 0, 0, 0;
    if !exited {
      speed, failed, bytes := engine.fleet.Summarize();
    }
  }
}
