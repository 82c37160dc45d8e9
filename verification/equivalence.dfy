/** The two event-driven engines compute the same thing, and exactly where they do not. */
module Equivalence {
  import opened Automaton
  import opened Invariants
  import opened Rounds
  import P = PollModel
  import opened EpollModel

  /**
   Port 1 is the one port the engines disagree on. It matters as the proxy's port if there is a proxy, as
   the target's where the target is dialled, and where a CONNECT request names it.
   */
  predicate CommonPorts(cfg: Config) {
    && (cfg.proxyHost != "" ==> cfg.proxyPort != 1)
    && (!NeedProxy(Poll, cfg) || (Tunnels(Poll, cfg) && cfg.targetHost != "") ==> cfg.targetPort != 1)
  }

  /** While the CONNECT request goes out, `send` returns -1. */
  predicate ConnectSendFails(cfg: Config, c: Conn, ev: Events, io: Outcome) {
    c.state.ProxyConnect? && !ev.bad && ev.writable && CanConnect(Poll, cfg, c) && io.offer == 0 && !io.eof
  }

  lemma CommonConfig(cfg: Config)
    requires CommonPorts(cfg)
    ensures NeedProxy(Poll, cfg) == NeedProxy(Epoll, cfg) && Tunnels(Poll, cfg) == Tunnels(Epoll, cfg)
    ensures Preamble(Poll, cfg) == Preamble(Epoll, cfg)
    ensures Dialled(Poll, cfg) == Dialled(Epoll, cfg)
    ensures ValidPort(Poll, Dialled(Poll, cfg).port) == ValidPort(Epoll, Dialled(Epoll, cfg).port)
    ensures Tunnels(Poll, cfg) ==> CanName(Poll, cfg) == CanName(Epoll, cfg)
  {
  }

  lemma ConnectStepsAgree(cfg: Config, c: Conn, io: Outcome)
    requires CommonPorts(cfg) && Tunnels(Poll, cfg) && c.state.ProxyConnect? && c.sent < |ConnectText(cfg)|
    ensures OnProxyConnect(Poll, cfg, c, io) == OnProxyConnect(Epoll, cfg, c, io)
        <==> !(CanConnect(Poll, cfg, c) && io.offer == 0 && !io.eof)
  {
    assert CanConnect(Poll, cfg, c) == CanConnect(Epoll, cfg, c);
  }

  /**
   The two handlers do the same to a connection either engine can reach, unless a `send` of the
   CONNECT request fails; then they always differ, because epoll takes the -1 for progress.
   */
  lemma HandlersAgree(cfg: Config, c: Conn, ev: Events, io: Outcome)
    requires CommonPorts(cfg) && ConnInv(Epoll, cfg, c) && Active(c.state)
    ensures Shape(cfg, c)
    ensures Handle(Poll, cfg, c, ev, io) == Handle(Epoll, cfg, c, ev, io) <==> !ConnectSendFails(cfg, c, ev, io)
  {
    CommonConfig(cfg);
    InvShape(Epoll, cfg, c);
    if c.state.ProxyConnect? {
      ConnectStepsAgree(cfg, c, io);
    }
    assert c.sockfd > 0;
  }

  lemma SameAllocation(cfg: Config, c: Conn, a: Alloc, open: set<int>)
    requires CommonPorts(cfg)
    ensures Allocate(Poll, cfg, c, a, open) == Allocate(Epoll, cfg, c, a, open)
  {
    CommonConfig(cfg);
    assert Dialled(Poll, cfg).port == Dialled(Epoll, cfg).port;
    assert CreateSocket(Poll, Dialled(Poll, cfg).port, a, open)
        == CreateSocket(Epoll, Dialled(Epoll, cfg).port, a, open);
  }

  lemma SameRecycling(cfg: Config, w: World, allocs: seq<Alloc>, k: nat)
    requires CommonPorts(cfg) && k <= |w| && WorldInv(Poll, cfg, w) && WorldInv(Epoll, cfg, w)
    ensures Recycled(Poll, cfg, w, allocs, k) == Recycled(Epoll, cfg, w, allocs, k)
  {
    if k > 0 {
      SameRecycling(cfg, w, allocs, k - 1);
      var p := Recycled(Poll, cfg, w, allocs, k - 1);
      var i := k - 1;
      if Done(p[i].state) {
        assert ConnInv(Poll, cfg, p[i]);
        assert Cleanup(Poll, p[i]) == Cleanup(Epoll, p[i]);
        var clean := p[i := Cleanup(Poll, p[i])];
        SameAllocation(cfg, clean[i], AllocAt(allocs, i), OpenFds(clean));
        hide WorldInv, Cleanup, Allocate;
      }
    }
  }

  lemma SameStart(cfg: Config, n: nat, allocs: seq<Alloc>, k: nat)
    requires CommonPorts(cfg) && k <= n
    ensures Started(Poll, cfg, n, allocs, k) == Started(Epoll, cfg, n, allocs, k)
  {
    if k > 0 {
      SameStart(cfg, n, allocs, k - 1);
      var p := Started(Poll, cfg, n, allocs, k - 1);
      SameAllocation(cfg, p[k - 1], AllocAt(allocs, k - 1), OpenFds(p));
    }
  }

  /** The connections a list of events is about. */
  ghost function ConnsOf(events: seq<Event>): set<nat> {
    set k | 0 <= k < |events| :: events[k].conn
  }

  /** Each event is that of a registered connection, and no connection has two. */
  ghost predicate Awaited(s: EpollState, events: seq<Event>, r: Round) {
    && (forall k | 0 <= k < |events| ::
          && events[k].conn < |s.world|
          && Registered(s, events[k].conn)
          && Active(s.world[events[k].conn].state)
          && events[k].ev == Reported(r.ready, s.world[events[k].conn]))
    && (forall j, k | 0 <= j < k < |events| :: events[j].conn != events[k].conn)
  }

  lemma FirstEvent(cfg: Config, s: EpollState, events: seq<Event>, r: Round)
    requires EpollInv(cfg, s) && Awaited(s, events, r) && events != []
    ensures var i := events[0].conn; var s1 := HandleEvent(cfg, s, events[0], r);
            && Shape(cfg, s.world[i])
            && s1.world == s.world[i := Handle(Epoll, cfg, s.world[i], Reported(r.ready, s.world[i]), IoAt(r, i))]
            && Awaited(s1, events[1..], r)
  {
    var i := events[0].conn;
    InvShape(Epoll, cfg, s.world[i]);
    var s1 := HandleEvent(cfg, s, events[0], r);
    ActiveHasFd(Epoll, cfg, s.world, i);
    forall k | 0 < k < |events|
      ensures s.world[events[k].conn].sockfd != s.world[i].sockfd && s1.world[events[k].conn] == s.world[events[k].conn]
      ensures Registered(s1, events[k].conn)
    {
      ActiveFdsDiffer(Epoll, cfg, s.world, i, events[k].conn);
    }
  }

  /** Handling one connection first and the others afterwards is handling them all. */
  lemma DispatchSplit(e: Engine, cfg: Config, w: World, w1: World, i: nat, rest: set<nat>, r: Round)
    requires WorldInv(e, cfg, w) && WorldInv(e, cfg, w1) && i < |w| && i !in rest
    requires forall j | j in rest + {i} :: j < |w| && Active(w[j].state)
    requires Shape(cfg, w[i])
    requires w1 == w[i := Handle(e, cfg, w[i], Reported(r.ready, w[i]), IoAt(r, i))]
    ensures forall j | j in rest :: j < |w1| && Active(w1[j].state)
    ensures Dispatched(e, cfg, w1, rest, r) == Dispatched(e, cfg, w, rest + {i}, r)
  {
    hide WorldInv, Handle, Shape;
    assert forall j | j in rest :: w1[j] == w[j];
    var d := Dispatched(e, cfg, w, rest + {i}, r);
    var d1 := Dispatched(e, cfg, w1, rest, r);
    forall j | 0 <= j < |w| ensures d1[j] == d[j] {
      assert j in rest + {i} <==> j in rest || j == i;
    }
  }

  lemma AwaitedConns(s: EpollState, events: seq<Event>, r: Round)
    requires Awaited(s, events, r)
    ensures forall i | i in ConnsOf(events) :: i < |s.world| && Active(s.world[i].state)
    ensures forall k | 0 <= k < |events| :: events[k].conn < |s.world|
    ensures if events == [] then ConnsOf(events) == {}
            else ConnsOf(events) == ConnsOf(events[1..]) + {events[0].conn} && events[0].conn !in ConnsOf(events[1..])
  {
    hide Registered, Reported;
  }

  lemma EmptyDispatch(e: Engine, cfg: Config, w: World, r: Round)
    requires WorldInv(e, cfg, w)
    ensures Dispatched(e, cfg, w, {}, r) == w
  {
    hide WorldInv;
  }

  /**
   The event loop, one event after the other in whatever order, is one handler call on each connection
   concerned: handlers of distinct connections do not disturb each other.
   */
  lemma {:induction false} EventOrderIsImmaterial(cfg: Config, s: EpollState, events: seq<Event>, r: Round)
    requires EpollInv(cfg, s) && Awaited(s, events, r)
    ensures HandleEvents(cfg, s, events, r).world == Dispatched(Epoll, cfg, s.world, ConnsOf(events), r)
    decreases |events|
  {
    hide WorldInv, Handle, Shape, TableOk, HandleEvent, Awaited, ConnsOf, Dispatched;
    AwaitedConns(s, events, r);
    if events == [] {
      EmptyDispatch(Epoll, cfg, s.world, r);
    } else {
      var rest := events[1..];
      var s1 := HandleEvent(cfg, s, events[0], r);
      FirstEvent(cfg, s, events, r);
      AwaitedConns(s1, rest, r);
      EventOrderIsImmaterial(cfg, s1, rest, r);
      DispatchSplit(Epoll, cfg, s.world, s1.world, events[0].conn, ConnsOf(rest), r);
    }
  }

  lemma {:induction false} DistinctSize(order: seq<int>)
    requires forall j, k | 0 <= j < k < |order| :: order[j] != order[k]
    ensures |set k | 0 <= k < |order| :: order[k]| == |order|
  {
    if order != [] {
      var m := |order| - 1;
      var init := order[..m];
      DistinctSize(init);
      assert (set k | 0 <= k < |order| :: order[k]) == (set k | 0 <= k < |init| :: init[k]) + {order[m]};
    }
  }

  lemma SubsetOfSameSize(a: set<int>, b: set<int>)
    requires a <= b && |b| <= |a|
    ensures a == b
  {
    assert a * b == a;
    assert |b - a| == |b| - |a|;
  }

  /** The limit setup hands to `epoll_wait` never holds an event back. */
  lemma NothingHeldBack(table: map<int, Registration>, ready: map<int, Events>, max: nat, order: seq<int>)
    requires Delivers(table, ready, max, order) && |table| <= max
    ensures forall fd | fd in table && Stirs(Masked(ready, fd, table[fd].mask)) :: fd in order
  {
    if |order| == max {
      var seen := set k | 0 <= k < |order| :: order[k];
      DistinctSize(order);
      SubsetOfSameSize(seen, table.Keys);
      assert forall fd | fd in table :: fd in seen;
    }
  }

  lemma DeliveredAreAwaited(cfg: Config, s: EpollState, r: Round, max: nat, order: seq<int>)
    requires EpollInv(cfg, s) && Delivers(s.table, r.ready, max, order)
    ensures Awaited(s, EventsOf(s, r.ready, order), r)
  {
    hide WorldInv;
    var events := EventsOf(s, r.ready, order);
    forall k | 0 <= k < |events|
      ensures s.world[events[k].conn].sockfd == order[k] && Registered(s, events[k].conn)
    {
      assert events[k].conn == s.table[order[k]].conn;
    }
  }

  /** `s1` registers exactly the connections of `w` that are active, each as it stands. */
  ghost predicate RegistersExactly(w: World, s1: EpollState) {
    && |s1.world| == |w|
    && s1.table.Keys == FdsOf(w, ActiveSet(w))
    && |s1.table| == |ActiveSet(w)|
    && forall i | i in ActiveSet(w) :: s1.world[i] == w[i] && Registered(s1, i)
  }

  lemma RegisteredEntry(cfg: Config, w: World, s1: EpollState, ready: map<int, Events>, i: nat)
    requires EpollInv(cfg, s1) && RegistersExactly(w, s1) && i in ActiveSet(w)
    ensures w[i].sockfd in s1.table
    ensures EventOf(s1.table, ready, w[i].sockfd) == Event(i, Reported(ready, w[i]))
  {
    hide EpollInv, Masked;
    assert Registered(s1, i);
  }

  /** Every event is that of an active connection with something to report. */
  lemma EventStirs(cfg: Config, w: World, s1: EpollState, r: Round, fd: int)
    requires EpollInv(cfg, s1) && RegistersExactly(w, s1)
    requires fd in s1.table && Stirs(Masked(r.ready, fd, s1.table[fd].mask))
    ensures s1.table[fd].conn in Stirring(w, r.ready)
  {
    hide EpollInv, Masked, Registered;
    assert fd in FdsOf(w, ActiveSet(w));
    var i :| i in ActiveSet(w) && w[i].sockfd == fd;
    RegisteredEntry(cfg, w, s1, r.ready, i);
  }

  /** Every active connection with something to report has an event. */
  lemma StirringHasEvent(cfg: Config, w: World, s1: EpollState, r: Round, order: seq<int>, i: nat)
    requires EpollInv(cfg, s1) && RegistersExactly(w, s1) && i in Stirring(w, r.ready)
    requires Delivers(s1.table, r.ready, |ActiveSet(w)|, order)
    ensures i in ConnsOf(EventsOf(s1, r.ready, order))
  {
    hide WorldInv, TableOk, Registered, Masked, Reported, Delivers;
    assert TableOk(s1) && i in ActiveSet(w);
    RegisteredEntry(cfg, w, s1, r.ready, i);
    InOrder(w, s1, r, order, i);
    var k :| 0 <= k < |order| && order[k] == w[i].sockfd;
    assert EventsOf(s1, r.ready, order)[k].conn == i;
  }

  lemma InOrder(w: World, s1: EpollState, r: Round, order: seq<int>, i: nat)
    requires TableOk(s1) && Delivers(s1.table, r.ready, |ActiveSet(w)|, order) && |s1.table| == |ActiveSet(w)|
    requires i in Stirring(w, r.ready) && w[i].sockfd in s1.table
    requires EventOf(s1.table, r.ready, w[i].sockfd).ev == Reported(r.ready, w[i])
    ensures w[i].sockfd in order && forall k | 0 <= k < |order| :: order[k] in s1.table
  {
    hide TableOk, Masked, Reported;
    NothingHeldBack(s1.table, r.ready, |ActiveSet(w)|, order);
  }

  lemma EventsCoverStirring(cfg: Config, w: World, s1: EpollState, r: Round, order: seq<int>)
    requires EpollInv(cfg, s1) && RegistersExactly(w, s1)
    requires Delivers(s1.table, r.ready, |ActiveSet(w)|, order)
    ensures ConnsOf(EventsOf(s1, r.ready, order)) == Stirring(w, r.ready)
  {
    hide WorldInv, Masked, Stirring, RegistersExactly;
    var events := EventsOf(s1, r.ready, order);
    forall k | 0 <= k < |events|
      ensures events[k].conn in Stirring(w, r.ready)
    {
      EventStirs(cfg, w, s1, r, order[k]);
    }
    forall i | i in Stirring(w, r.ready)
      ensures i in ConnsOf(events)
    {
      StirringHasEvent(cfg, w, s1, r, order, i);
    }
  }

  /** Distinct connections, counted. */
  lemma {:induction false} ConnsCount(events: seq<Event>)
    requires forall j, k | 0 <= j < k < |events| :: events[j].conn != events[k].conn
    ensures |ConnsOf(events)| == |events|
  {
    if events != [] {
      var m := |events| - 1;
      var init := events[..m];
      ConnsCount(init);
      assert ConnsOf(events) == ConnsOf(init) + {events[m].conn};
    }
  }

  lemma StirringAreActive(w: World, ready: map<int, Events>)
    ensures Stirring(w, ready) <= ActiveSet(w) && |Stirring(w, ready)| <= |ActiveSet(w)|
  {
    assert ActiveSet(w) == Stirring(w, ready) + (ActiveSet(w) - Stirring(w, ready));
  }

  /**
   Events per round: exactly the active connections that have something to report, once each, and so
   never more than were active when setup ran.
   */
  lemma RoundEvents(cfg: Config, s: EpollState, x: EpollRoundInput)
    requires EpollInv(cfg, s) && EpollSetup(cfg, s, x.r.allocs, x.refused).1
    requires Delivers(EpollSetup(cfg, s, x.r.allocs, x.refused).0.table, x.r.ready, |ActiveSet(s.world)|, x.order)
    ensures var s1 := EpollSetup(cfg, s, x.r.allocs, x.refused).0;
            var events := EventsOf(s1, x.r.ready, x.order);
            && Awaited(s1, events, x.r)
            && ConnsOf(events) == Stirring(s.world, x.r.ready)
            && |events| == |Stirring(s.world, x.r.ready)| <= |ActiveSet(s.world)|
  {
    hide WorldInv, EpollSetup, Stirring, Registered, Masked;
    var s1 := EpollSetup(cfg, s, x.r.allocs, x.refused).0;
    SetupRegistersActive(cfg, s, x.r.allocs, x.refused);
    DeliveredAreAwaited(cfg, s1, x.r, |ActiveSet(s.world)|, x.order);
    EventsCoverStirring(cfg, s.world, s1, x.r, x.order);
    ConnsCount(EventsOf(s1, x.r.ready, x.order));
    StirringAreActive(s.world, x.r.ready);
  }

  lemma QuietDoesNothing(cfg: Config, c: Conn, ev: Events, io: Outcome)
    requires Shape(cfg, c) && Active(c.state) && !Stirs(ev)
    ensures Handle(Poll, cfg, c, ev, io) == c
  {
  }

  /** No `send` of a CONNECT request fails among the connections of `active`. */
  ghost predicate AllGoOut(cfg: Config, w: World, active: set<nat>, r: Round)
    requires forall i | i in active :: i < |w|
  {
    forall i | i in active :: !ConnectSendFails(cfg, w[i], Reported(r.ready, w[i]), IoAt(r, i))
  }

  lemma DispatchedAlike(cfg: Config, w: World, active: set<nat>, r: Round, i: nat)
    requires CommonPorts(cfg) && WorldInv(Poll, cfg, w) && WorldInv(Epoll, cfg, w)
    requires (forall j | j in active :: j < |w| && Active(w[j].state)) && i in active
    ensures var stirring := set j | j in active && Stirs(Reported(r.ready, w[j]));
            (Dispatched(Poll, cfg, w, active, r)[i] == Dispatched(Epoll, cfg, w, stirring, r)[i] <==>
             !ConnectSendFails(cfg, w[i], Reported(r.ready, w[i]), IoAt(r, i)))
  {
    hide Handle;
    var stirring := set j | j in active && Stirs(Reported(r.ready, w[j]));
    var ev := Reported(r.ready, w[i]);
    assert ConnInv(Epoll, cfg, w[i]) && Shape(cfg, w[i]);
    assert Dispatched(Poll, cfg, w, active, r)[i] == Handle(Poll, cfg, w[i], ev, IoAt(r, i));
    if i in stirring {
      HandlersAgree(cfg, w[i], ev, IoAt(r, i));
    } else {
      QuietDoesNothing(cfg, w[i], ev, IoAt(r, i));
    }
  }

  lemma DispatchesAgree(cfg: Config, w: World, active: set<nat>, r: Round)
    requires CommonPorts(cfg) && WorldInv(Poll, cfg, w) && WorldInv(Epoll, cfg, w)
    requires forall i | i in active :: i < |w| && Active(w[i].state)
    ensures var stirring := set i | i in active && Stirs(Reported(r.ready, w[i]));
            (Dispatched(Poll, cfg, w, active, r) == Dispatched(Epoll, cfg, w, stirring, r) <==>
             AllGoOut(cfg, w, active, r))
  {
    hide WorldInv, ConnectSendFails, Handle, Shape, Reported;
    var stirring := set i | i in active && Stirs(Reported(r.ready, w[i]));
    var d := Dispatched(Poll, cfg, w, active, r);
    var d1 := Dispatched(Epoll, cfg, w, stirring, r);
    forall i | i in active
      ensures d[i] == d1[i] <==> !ConnectSendFails(cfg, w[i], Reported(r.ready, w[i]), IoAt(r, i))
    {
      DispatchedAlike(cfg, w, active, r, i);
    }
    if AllGoOut(cfg, w, active, r) {
      assert forall i | 0 <= i < |w| :: d[i] == d1[i];
    }
  }

  /** No `send` of a CONNECT request fails in a round that gets as far as its handlers. */
  ghost predicate ConnectsGoOut(cfg: Config, w: World, r: Round) {
    w == [] || w[0].sockfd < 0 || r.waitFails || AllGoOut(cfg, w, ActiveSet(w), r)
  }

  /** The same for every round of a run. */
  ghost predicate ConnectsGoOutThroughout(cfg: Config, limit: nat, w: World, rounds: seq<Round>)
    requires WorldInv(Poll, cfg, w)
    decreases |rounds|
  {
    rounds == [] ||
    (ConnectsGoOut(cfg, w, rounds[0]) &&
     (var end := P.PollRound(cfg, limit, w, rounds[0]);
      end.halted || ConnectsGoOutThroughout(cfg, limit, end.world, rounds[1..])))
  }

  /** Without a tunnel, or a target to name, there is no CONNECT request to fail. */
  lemma {:induction false} NoTunnelNoConnect(cfg: Config, limit: nat, w: World, rounds: seq<Round>)
    requires WorldInv(Poll, cfg, w) && !(Tunnels(Poll, cfg) && CanName(Poll, cfg))
    ensures ConnectsGoOutThroughout(cfg, limit, w, rounds)
    decreases |rounds|
  {
    hide P.PollRound, BufferOk, WireOk, CountOk, HoldsOk;
    if rounds != [] {
      forall i | i in ActiveSet(w) ensures !(w[i].state.ProxyConnect? && CanConnect(Poll, cfg, w[i])) {
        assert ConnInv(Poll, cfg, w[i]);
      }
      NoTunnelNoConnect(cfg, limit, P.PollRound(cfg, limit, w, rounds[0]).world, rounds[1..]);
    }
  }

  lemma SetupsAgree(cfg: Config, limit: nat, s: EpollState, allocs: seq<Alloc>)
    requires CommonPorts(cfg) && EpollInv(cfg, s) && WorldInv(Poll, cfg, s.world)
    requires cfg.isHttps ==> |s.world| <= limit
    ensures var p := P.RunSetup(cfg, limit, s.world, allocs);
            var (s1, ok) := EpollSetup(cfg, s, allocs, {});
            && s1.world == p.world && ok == p.ok && (ok <==> s.world != [] && s.world[0].sockfd >= 0)
            && (!ok ==> s1.world == s.world)
  {
    forall i | 0 <= i < |s.world| && s.world[i].state.TlsHandshake? ensures i < limit {
      assert ConnInv(Poll, cfg, s.world[i]);
    }
    SameRecycling(cfg, s.world, allocs, |s.world|);
    SetupRecycles(cfg, s, allocs, |s.world|);
  }

  lemma SameStirring(w: World, w1: World, ready: map<int, Events>)
    requires |w1| == |w| && forall i | i in ActiveSet(w) :: w1[i] == w[i]
    ensures Stirring(w, ready) == set i | i in ActiveSet(w) && Stirs(Reported(ready, w1[i]))
  {
  }

  lemma HandledAlike(cfg: Config, w: World, s1: EpollState, events: seq<Event>, r: Round)
    requires CommonPorts(cfg) && EpollInv(cfg, s1) && WorldInv(Poll, cfg, s1.world)
    requires |s1.world| == |w| && forall i | i in ActiveSet(w) :: s1.world[i] == w[i]
    requires Awaited(s1, events, r) && ConnsOf(events) == Stirring(w, r.ready)
    ensures HandleEvents(cfg, s1, events, r).world
         == (if Stirring(w, r.ready) == {} then s1.world else Dispatched(Poll, cfg, s1.world, ActiveSet(w), r))
        <==> AllGoOut(cfg, w, ActiveSet(w), r)
  {
    hide WorldInv, TableOk, HandleEvents, Reported, Registered, Dispatched;
    EventOrderIsImmaterial(cfg, s1, events, r);
    SameStirring(w, s1.world, r.ready);
    DispatchesAgree(cfg, s1.world, ActiveSet(w), r);
    EmptyDispatch(Epoll, cfg, s1.world, r);
  }

  /** One round of each engine on the same world and the same inputs. */
  lemma RoundsAgree(cfg: Config, limit: nat, s: EpollState, x: EpollRoundInput)
    requires CommonPorts(cfg) && EpollInv(cfg, s) && WorldInv(Poll, cfg, s.world)
    requires cfg.isHttps ==> |s.world| <= limit
    requires KernelRound(cfg, s, x) && x.refused == {}
    ensures var p := P.PollRound(cfg, limit, s.world, x.r);
            var e := EpollRound(cfg, s, x);
            && (e.s.world == p.world <==> ConnectsGoOut(cfg, s.world, x.r))
            && (e.how.Exits? ==> (s.world == [] || s.world[0].sockfd < 0) && e.s.world == s.world)
            && (e.how.Breaks? <==> p.halted)
  {
    hide WorldInv, TableOk, EpollSetup, P.RunSetup, Dispatched, HandleEvents, AllGoOut, Stirring, Awaited, Masked;
    var (s1, ok) := EpollSetup(cfg, s, x.r.allocs, x.refused);
    SetupsAgree(cfg, limit, s, x.r.allocs);
    if ok && ActiveSet(s.world) == {} {
      NobodyActive(cfg, s.world, x.r);
    } else if ok && !x.r.waitFails {
      RoundEvents(cfg, s, x);
      SetupRegistersActive(cfg, s, x.r.allocs, x.refused);
      HandledAlike(cfg, s.world, s1, EventsOf(s1, x.r.ready, x.order), x.r);
    }
  }

  lemma NobodyActive(cfg: Config, w: World, r: Round)
    requires ActiveSet(w) == {}
    ensures AllGoOut(cfg, w, ActiveSet(w), r)
  {
  }

  /** The poll engine's part of a run's inputs. */
  function PollPart(rounds: seq<EpollRoundInput>): seq<Round> {
    seq(|rounds|, k requires 0 <= k < |rounds| => rounds[k].r)
  }

  /** The engines have the same connections after every round. */
  ghost predicate AgreeThroughout(cfg: Config, limit: nat, s: EpollState, rounds: seq<EpollRoundInput>)
    requires EpollInv(cfg, s) && WorldInv(Poll, cfg, s.world)
  {
    forall k | 0 <= k <= |rounds| ::
      EpollRun(cfg, s, rounds[..k]).world == P.PollRun(cfg, limit, s.world, PollPart(rounds[..k]))
  }

  /** A run and its first round. */
  lemma FirstRound(cfg: Config, limit: nat, s: EpollState, rounds: seq<EpollRoundInput>, k: nat)
    requires EpollInv(cfg, s) && WorldInv(Poll, cfg, s.world) && 0 < k <= |rounds|
    ensures var e, rest := EpollRound(cfg, s, rounds[0]), rounds[1..][..k - 1];
            EpollRun(cfg, s, rounds[..k]) == (if e.how.Goes? then EpollRun(cfg, e.s, rest) else e.s)
    ensures var p, rest := P.PollRound(cfg, limit, s.world, rounds[0].r), PollPart(rounds[1..][..k - 1]);
            P.PollRun(cfg, limit, s.world, PollPart(rounds[..k]))
              == (if p.halted then p.world else P.PollRun(cfg, limit, p.world, rest))
  {
    hide WorldInv, TableOk, EpollRound, P.PollRound;
    assert rounds[..k][1..] == rounds[1..][..k - 1];
    assert PollPart(rounds[..k])[1..] == PollPart(rounds[1..][..k - 1]);
  }

  /** Where no socket could be had for the first connection nothing is sent at all. */
  lemma {:induction false} NoFirstSocketNoConnect(cfg: Config, limit: nat, w: World, rounds: seq<Round>)
    requires WorldInv(Poll, cfg, w) && (w == [] || w[0].sockfd < 0)
    ensures ConnectsGoOutThroughout(cfg, limit, w, rounds)
    decreases |rounds|
  {
    hide WorldInv, Dispatched;
    if rounds != [] {
      NoFirstSocketNoConnect(cfg, limit, w, rounds[1..]);
    }
  }

  lemma OnePrefix(cfg: Config, limit: nat, s: EpollState, rounds: seq<EpollRoundInput>)
    requires EpollInv(cfg, s) && WorldInv(Poll, cfg, s.world) && rounds != []
    ensures AgreeThroughout(cfg, limit, s, rounds) ==>
              EpollRound(cfg, s, rounds[0]).s.world == P.PollRound(cfg, limit, s.world, rounds[0].r).world
  {
    hide WorldInv, TableOk, EpollRound, P.PollRound;
    FirstRound(cfg, limit, s, rounds, 1);
  }

  lemma LaterPrefixes(cfg: Config, limit: nat, s: EpollState, rounds: seq<EpollRoundInput>)
    requires EpollInv(cfg, s) && WorldInv(Poll, cfg, s.world) && rounds != []
    requires EpollRound(cfg, s, rounds[0]).s.world == P.PollRound(cfg, limit, s.world, rounds[0].r).world
    requires EpollRound(cfg, s, rounds[0]).how.Goes? && !P.PollRound(cfg, limit, s.world, rounds[0].r).halted
    ensures var s1 := EpollRound(cfg, s, rounds[0]).s;
            WorldInv(Poll, cfg, s1.world) &&
            (AgreeThroughout(cfg, limit, s, rounds) <==> AgreeThroughout(cfg, limit, s1, rounds[1..]))
  {
    hide WorldInv, TableOk, EpollRound, P.PollRound;
    var s1, rest := EpollRound(cfg, s, rounds[0]).s, rounds[1..];
    forall k | 0 < k <= |rounds|
      ensures EpollRun(cfg, s, rounds[..k]) == EpollRun(cfg, s1, rest[..k - 1])
      ensures P.PollRun(cfg, limit, s.world, PollPart(rounds[..k]))
           == P.PollRun(cfg, limit, s1.world, PollPart(rest[..k - 1]))
    {
      FirstRound(cfg, limit, s, rounds, k);
    }
    if AgreeThroughout(cfg, limit, s, rounds) {
      forall k | 0 <= k <= |rest|
        ensures EpollRun(cfg, s1, rest[..k]).world == P.PollRun(cfg, limit, s1.world, PollPart(rest[..k]))
      {
        assert rounds[..k + 1][1..] == rest[..k];
      }
    }
  }

  /** A run that ends with its first round, or stands still from the start. */
  lemma EndsAtOnce(cfg: Config, limit: nat, s: EpollState, rounds: seq<EpollRoundInput>)
    requires EpollInv(cfg, s) && WorldInv(Poll, cfg, s.world) && rounds != []
    requires EpollRound(cfg, s, rounds[0]).s.world == P.PollRound(cfg, limit, s.world, rounds[0].r).world
    requires var e := EpollRound(cfg, s, rounds[0]);
             || (e.how.Breaks? && P.PollRound(cfg, limit, s.world, rounds[0].r).halted)
             || (e.how.Exits? && (s.world == [] || s.world[0].sockfd < 0) && e.s.world == s.world)
    ensures AgreeThroughout(cfg, limit, s, rounds)
  {
    hide WorldInv, TableOk, EpollRound, P.PollRound;
    forall k | 0 < k <= |rounds|
      ensures EpollRun(cfg, s, rounds[..k]).world == P.PollRun(cfg, limit, s.world, PollPart(rounds[..k]))
    {
      FirstRound(cfg, limit, s, rounds, k);
      if EpollRound(cfg, s, rounds[0]).how.Exits? {
        P.NoFirstSocketStalls(cfg, limit, s.world, PollPart(rounds[..k]));
      }
    }
  }

  lemma {:induction false} RunsAgree(cfg: Config, limit: nat, s: EpollState, rounds: seq<EpollRoundInput>)
    requires CommonPorts(cfg) && EpollInv(cfg, s) && WorldInv(Poll, cfg, s.world)
    requires cfg.isHttps ==> |s.world| <= limit
    requires KernelRun(cfg, s, rounds) && NoneRefused(rounds)
    ensures AgreeThroughout(cfg, limit, s, rounds)
        <==> ConnectsGoOutThroughout(cfg, limit, s.world, PollPart(rounds))
    decreases |rounds|
  {
    hide WorldInv, TableOk, EpollSetup, EpollRound, P.PollRound, ConnectsGoOut, AgreeThroughout, KernelRound;
    if rounds == [] {
      NoRoundsAgree(cfg, limit, s);
    } else {
      RoundsAgree(cfg, limit, s, rounds[0]);
      OnePrefix(cfg, limit, s, rounds);
      var e := EpollRound(cfg, s, rounds[0]);
      assert PollPart(rounds)[1..] == PollPart(rounds[1..]);
      if ConnectsGoOut(cfg, s.world, rounds[0].r) {
        if e.how.Goes? {
          LaterPrefixes(cfg, limit, s, rounds);
          RunsAgree(cfg, limit, e.s, rounds[1..]);
        } else {
          EndsAtOnce(cfg, limit, s, rounds);
          if e.how.Exits? {
            NoFirstSocketNoConnect(cfg, limit, s.world, PollPart(rounds));
          }
        }
      }
    }
  }

  lemma NoRoundsAgree(cfg: Config, limit: nat, s: EpollState)
    requires EpollInv(cfg, s) && WorldInv(Poll, cfg, s.world)
    ensures AgreeThroughout(cfg, limit, s, [])
  {
    hide WorldInv, TableOk;
  }

  /**
   On the same start-up, readiness and I/O outcomes both engines have the same connections (states,
   offsets, buffers, counters and histories) after every round, whatever the order in which epoll reports
   its events, exactly if no `send` of a CONNECT request fails in a round that runs handlers. For HTTPS the
   poll engine's bitmap must admit every connection.
   */
  lemma EnginesAgree(cfg: Config, limit: nat, n: nat, allocs: seq<Alloc>, rounds: seq<EpollRoundInput>)
    requires CommonPorts(cfg)
    requires cfg.isHttps ==> n <= limit
    requires IsRun(cfg, n, allocs, rounds)
    ensures AtStart(cfg, n, allocs).world == Start(Poll, cfg, n, allocs)
    ensures AgreeThroughout(cfg, limit, AtStart(cfg, n, allocs), rounds)
        <==> ConnectsGoOutThroughout(cfg, limit, Start(Poll, cfg, n, allocs), PollPart(rounds))
    ensures ConnectsGoOutThroughout(cfg, limit, Start(Poll, cfg, n, allocs), PollPart(rounds)) ==>
              EpollBench(cfg, n, allocs, rounds).world == P.PollBench(cfg, limit, n, allocs, PollPart(rounds))
  {
    hide ConnInv, Disjoint, TableOk, KernelRun, EpollRun, P.PollRun, Started, ConnectsGoOutThroughout;
    SameStart(cfg, n, allocs, n);
    RunsAgree(cfg, limit, AtStart(cfg, n, allocs), rounds);
    assert rounds[..|rounds|] == rounds;
  }
}
