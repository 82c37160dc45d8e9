/**
 Attempts from start to end, told by what the operating system offers: which address a socket is connected
 to, what a new attempt and a clean-up leave, and what start-up, recycling and a round make of each connection.
 */
module Lifecycle {
  import opened Text
  import opened Automaton
  import opened Invariants
  import opened Rounds
  import opened PollModel
  import opened EpollModel
  import opened Equivalence
  import opened Transitions

  // Sockets.

  /** An address for which a socket can be had. */
  predicate Opens(a: Address, open: set<int>) {
    a.fd > 0 && a.fd !in open
  }

  /** One whose connection goes ahead, too. */
  predicate Usable(a: Address, open: set<int>) {
    Opens(a, open) && a.connects
  }

  /** `k` is the first usable address, or the length of the list if there is none. */
  predicate IsFirstUsable(addresses: seq<Address>, open: set<int>, k: nat) {
    && k <= |addresses|
    && (forall j | 0 <= j < k :: !Usable(addresses[j], open))
    && (k < |addresses| ==> Usable(addresses[k], open))
  }

  /** The sockets opened for the addresses before `k`, all of them closed again. */
  function OpenedBefore(addresses: seq<Address>, open: set<int>, k: nat): set<nat> {
    set j: nat | j < k && j < |addresses| && Opens(addresses[j], open)
  }

  lemma OneMoreOpened(addresses: seq<Address>, open: set<int>, k: nat)
    requires 0 < k <= |addresses|
    ensures |OpenedBefore(addresses, open, k)|
         == |OpenedBefore(addresses[1..], open, k - 1)| + (if Opens(addresses[0], open) then 1 else 0)
  {
    var rest := OpenedBefore(addresses[1..], open, k - 1);
    var moved := set j | j in rest :: j + 1;
    Shifted(rest, moved);
    forall j: nat | j in OpenedBefore(addresses, open, k) && j != 0 ensures j in moved {
      assert j - 1 in rest;
    }
    assert OpenedBefore(addresses, open, k) == moved + (if Opens(addresses[0], open) then {0} else {});
  }

  lemma {:induction false} Shifted(s: set<nat>, moved: set<nat>)
    requires moved == set j | j in s :: j + 1
    ensures |moved| == |s|
    decreases s
  {
    if s != {} {
      var x :| x in s;
      var rest := s - {x};
      var movedRest := set j | j in rest :: j + 1;
      forall m | m in moved ensures m in movedRest + {x + 1} {
        var j :| j in s && j + 1 == m;
        assert j in rest || j == x;
      }
      assert moved == movedRest + {x + 1};
      Shifted(rest, movedRest);
    }
  }

  /** The address loop: the first usable address, and every socket opened before it closed. */
  lemma {:induction false} FirstUsable(addresses: seq<Address>, open: set<int>, k: nat)
    requires IsFirstUsable(addresses, open, k)
    ensures var r := TryAddresses(addresses, open);
            && r.fd == (if k < |addresses| then addresses[k].fd else -1)
            && r.dropped == |OpenedBefore(addresses, open, k)|
            && r.made == r.dropped + (if k < |addresses| then 1 else 0)
  {
    if k > 0 {
      FirstUsable(addresses[1..], open, k - 1);
      OneMoreOpened(addresses, open, k);
    } else {
      assert OpenedBefore(addresses, open, 0) == {};
    }
  }

  /** Whom a connection is made to, and whether its port is one the engine accepts. */
  function Addressee(e: Engine, cfg: Config): Peer {
    if ByProxy(e, cfg) then Peer(cfg.proxyHost, cfg.proxyPort) else Peer(cfg.targetHost, cfg.targetPort)
  }

  /** A socket is to be had: the port is good, the name resolves and there is a usable address. */
  predicate SocketIsHad(e: Engine, cfg: Config, a: Alloc, k: nat) {
    (if e.Poll? then 1 else 2) <= Addressee(e, cfg).port <= 65535 && a.resolved && k < |a.addresses|
  }

  /**
   `allocate_socket`. With a socket to be had, a new attempt on the first usable address begins, to the proxy
   if there is one and to the target otherwise; without, nothing but the sockets tried is added.
   */
  lemma AllocateExactly(e: Engine, cfg: Config, c: Conn, a: Alloc, open: set<int>, k: nat)
    requires IsFirstUsable(a.addresses, open, k)
    ensures var c1 := Allocate(e, cfg, c, a, open); var g, g1 := c.log, c1.log;
            && c1 == c.(state := c1.state, sockfd := c1.sockfd, log := g1)
            && g1.socketsMade - g.socketsMade == g1.socketsClosed - g.socketsClosed + (if c1.sockfd > 0 then 1 else 0)
            && (if SocketIsHad(e, cfg, a, k) then
                  && c1.state == Connecting && c1.sockfd == a.addresses[k].fd
                  && g1 == g.(attempts := g.attempts + 1, fds := g.fds + {a.addresses[k].fd},
                              peer := Some(Addressee(e, cfg)), plain := "", tls := "", secured := false, retry := None,
                              socketsMade := g1.socketsMade, socketsClosed := g1.socketsClosed)
                else
                  && c1.state == c.state && c1.sockfd == -1
                  && g1 == g.(socketsMade := g1.socketsMade, socketsClosed := g1.socketsClosed))
    ensures var g, g1 := c.log, Allocate(e, cfg, c, a, open).log;
            a.resolved && (if e.Poll? then 1 else 2) <= Addressee(e, cfg).port <= 65535 ==>
              g1.socketsClosed == g.socketsClosed + |OpenedBefore(a.addresses, open, k)|
  {
    FirstUsable(a.addresses, open, k);
    hide TryAddresses, OpenedBefore;
  }

  /** There always is a first usable address, or none. */
  lemma {:induction false} SomeFirst(addresses: seq<Address>, open: set<int>, k: nat) returns (first: nat)
    requires k <= |addresses| && forall j | 0 <= j < k :: !Usable(addresses[j], open)
    ensures IsFirstUsable(addresses, open, first)
    decreases |addresses| - k
  {
    hide Usable;
    if k < |addresses| && !Usable(addresses[k], open) {
      first := SomeFirst(addresses, open, k + 1);
    } else {
      first := k;
    }
  }

  /** `cleanup_connection`: socket and SSL object go, offsets and buffer are cleared, counters and history stay. */
  lemma CleanupExactly(e: Engine, cfg: Config, c: Conn)
    requires ConnInv(e, cfg, c)
    ensures var c1 := Cleanup(e, c); var g, g1 := c.log, c1.log;
            && c1 == c.(state := Idle, sockfd := c1.sockfd, ssl := None,
                        sent := 0, received := 0, buffer := Zeros(8096), log := g1)
            && g1 == g.(fds := {}, ssls := {}, inbox := "",
                        socketsClosed := g.socketsClosed + (if c.sockfd > 0 then 1 else 0),
                        sslFreed := g.sslFreed + (if c.ssl.Some? then 1 else 0))
            && c1.sockfd < 0 && (c.sockfd > 0 ==> c1.sockfd == -1)
  {
    hide Zeros, Sum, StrStr, ConnectText;
    assert HoldsOk(c);
  }

  // Start-up and recycling.

  /** The descriptors the other connections hold. */
  ghost predicate HeldByOthers(w: World, i: nat, open: set<int>) {
    forall f :: f in open <==> exists j :: 0 <= j < |w| && j != i && f in w[j].log.fds
  }

  /**
   Connection `c`, finished or new, has become `c1`: cleared, with its counters, and with a new attempt on the
   first usable address that `a` offers, or idle if there is none.
   */
  predicate Renewed(e: Engine, cfg: Config, c: Conn, c1: Conn, a: Alloc, open: set<int>, k: nat) {
    var g, g1 := c.log, c1.log;
    && IsFirstUsable(a.addresses, open, k)
    && c1.sent == 0 && c1.received == 0 && c1.buffer == Zeros(8096) && g1.inbox == "" && c1.ssl == None
    && c1.speed == c.speed && c1.failed == c.failed && c1.bytes == c.bytes && c1.sslMade == c.sslMade
    && g1.forced == g.forced && g1.replies == g.replies && g1.strayCloses == g.strayCloses
    && g1.sslFreed == g.sslFreed + (if c.ssl.Some? then 1 else 0)
    && (if SocketIsHad(e, cfg, a, k) then
          && c1.state == Connecting && c1.sockfd == a.addresses[k].fd && g1.fds == {c1.sockfd}
          && g1.attempts == g.attempts + 1 && g1.peer == Some(Addressee(e, cfg))
          && g1.plain == "" && g1.tls == "" && !g1.secured && g1.retry == None
        else
          c1.state == Idle && c1.sockfd == -1 && g1.fds == {} && g1.attempts == g.attempts)
  }

  lemma RenewsOne(e: Engine, cfg: Config, p: World, i: nat, a: Alloc) returns (open: set<int>, k: nat)
    requires WorldInv(e, cfg, p) && i < |p| && Done(p[i].state)
    ensures HeldByOthers(p, i, open) && Renewed(e, cfg, p[i], RecycleAt(e, cfg, p, i, a)[i], a, open, k)
  {
    hide WorldInv, Allocate, Cleanup, IsFirstUsable, SocketIsHad, Addressee, ConnInv;
    assert ConnInv(e, cfg, p[i]) by { Sound(e, cfg, p, i); }
    CleanupExactly(e, cfg, p[i]);
    var clean := p[i := Cleanup(e, p[i])];
    open := OpenFds(clean);
    k := SomeFirst(a.addresses, open, 0);
    AllocateExactly(e, cfg, clean[i], a, open, k);
    OthersHold(p, i, Cleanup(e, p[i]));
    HasSocket(e, cfg, p[i]);
  }

  lemma HasSocket(e: Engine, cfg: Config, c: Conn)
    requires ConnInv(e, cfg, c) && !c.state.Idle?
    ensures c.sockfd > 0
  {
  }

  lemma Sound(e: Engine, cfg: Config, w: World, i: nat)
    requires WorldInv(e, cfg, w) && i < |w|
    ensures ConnInv(e, cfg, w[i])
  {
  }

  lemma OthersHold(w: World, i: nat, c: Conn)
    requires i < |w| && c.log.fds == {}
    ensures HeldByOthers(w, i, OpenFds(w[i := c]))
  {
    var w1 := w[i := c];
    forall f | f in OpenFds(w1) ensures exists j :: 0 <= j < |w| && j != i && f in w[j].log.fds {
      var j :| 0 <= j < |w1| && f in w1[j].log.fds;
      assert f in w[j].log.fds;
    }
    forall f, j | 0 <= j < |w| && j != i && f in w[j].log.fds ensures f in OpenFds(w1) {
      assert f in w1[j].log.fds;
    }
  }

  /**
   A recycling pass: a completed or failed connection is cleared and given a new attempt, by what the pass
   is offered for it and the descriptors the others hold by then; any other connection is as it was.
   */
  lemma {:induction false} RecycledExactly(e: Engine, cfg: Config, w: World, allocs: seq<Alloc>, n: nat, i: nat)
    returns (open: set<int>, k: nat)
    requires WorldInv(e, cfg, w) && i < n <= |w|
    ensures var c, c1 := w[i], Recycled(e, cfg, w, allocs, n)[i];
            if c.state == Completed || c.state == Error
            then && HeldByOthers(Recycled(e, cfg, w, allocs, i), i, open)
                 && Renewed(e, cfg, c, c1, AllocAt(allocs, i), open, k)
            else c1 == c
  {
    hide WorldInv, RecycleAt, Renewed, HeldByOthers;
    open, k := {}, 0;
    if i < n - 1 {
      open, k := RecycledExactly(e, cfg, w, allocs, n - 1, i);
    } else if w[i].state == Completed || w[i].state == Error {
      open, k := RenewsOne(e, cfg, Recycled(e, cfg, w, allocs, i), i, AllocAt(allocs, i));
    }
  }

  /** Start-up: every connection is new, with all counters zero and a first attempt if a socket is to be had. */
  lemma {:induction false} StartedExactly(e: Engine, cfg: Config, n: nat, allocs: seq<Alloc>, m: nat, i: nat)
    returns (open: set<int>, k: nat)
    requires i < m <= n
    ensures var none := Conn(Idle, -1, None, "", 0, 0, 0, 0, 0, 0,
                             Log(0, 0, [], 0, 0, 0, {}, {}, 0, None, "", "", false, "", None));
            && HeldByOthers(Started(e, cfg, n, allocs, i), i, open)
            && Renewed(e, cfg, none, Started(e, cfg, n, allocs, m)[i], AllocAt(allocs, i), open, k)
  {
    hide WorldInv, Allocate, SocketIsHad, Addressee, HeldByOthers;
    if i < m - 1 {
      open, k := StartedExactly(e, cfg, n, allocs, m - 1, i);
    } else {
      var p := Started(e, cfg, n, allocs, i);
      open := OpenFds(p);
      k := SomeFirst(AllocAt(allocs, i).addresses, open, 0);
      AllocateExactly(e, cfg, FRESH, AllocAt(allocs, i), open, k);
      assert p == p[i := FRESH];
      OthersHold(p, i, FRESH);
    }
  }

  // What the kernel reports.

  /** What is reported for a connection: what its descriptor is ready for and its state waits for, and errors. */
  lemma ReportedExactly(ready: map<int, Events>, c: Conn)
    ensures var ev := Reported(ready, c);
            var at := if c.sockfd in ready then ready[c.sockfd] else Events(false, false, false);
            && (ev.readable <==> at.readable && (c.state == ProxyResponse || c.state == Receiving
                                                 || c.state == TlsHandshake))
            && (ev.writable <==> at.writable && (c.state == Connecting || c.state == ProxyConnect
                                                 || c.state == Sending || c.state == TlsHandshake))
            && (ev.bad <==> at.bad)
            && (Stirs(ev) <==> ev.readable || ev.writable || ev.bad)
  {
  }

  // Rounds.

  /** The states of an attempt on its way. */
  predicate OnItsWay(s: State) {
    s != Idle && s != Completed && s != Error
  }

  /** The poll engine's setup goes through: the first connection has a socket and the bitmap takes every handshake. */
  predicate PassesSetup(limit: nat, w: World) {
    w != [] && w[0].sockfd >= 0 && forall j | limit <= j < |w| :: w[j].state != TlsHandshake
  }

  /** A round of the poll engine, connection by connection. */
  lemma PollRoundExactly(cfg: Config, limit: nat, w: World, r: Round, i: nat)
    requires WorldInv(Poll, cfg, w) && i < |w|
    ensures var end, ev := PollRound(cfg, limit, w, r), Reported(r.ready, w[i]);
            var passes := PassesSetup(limit, w);
            && (end.halted <==> passes && r.waitFails && exists j :: 0 <= j < |w| && OnItsWay(w[j].state))
            && (OnItsWay(w[i].state) ==>
                  && Shape(cfg, w[i])
                  && end.world[i] == if passes && !r.waitFails && (ev.readable || ev.writable || ev.bad)
                                     then Handle(Poll, cfg, w[i], ev, IoAt(r, i)) else w[i])
            && (!OnItsWay(w[i].state) && passes ==> end.world[i] == Recycled(Poll, cfg, w, r.allocs, |w|)[i])
            && (w == [] || w[0].sockfd < 0 ==> end.world == w)
  {
    hide WorldInv, Handle, Shape, Reported, Recycled;
    var end := PollRound(cfg, limit, w, r);
    SetupOutcome(cfg, limit, w, r.allocs);
    var s := RunSetup(cfg, limit, w, r.allocs);
    forall j | 0 <= j < |w| ensures OnItsWay(w[j].state) <==> j in ActiveSet(w) {
    }
    if OnItsWay(w[i].state) {
      assert ConnInv(Poll, cfg, w[i]) by { Sound(Poll, cfg, w, i); }
      InvShape(Poll, cfg, w[i]);
      if !Stirs(Reported(r.ready, w[i])) {
        QuietCall(cfg, w[i], Reported(r.ready, w[i]), IoAt(r, i));
      } else {
        assert i in Stirring(w, r.ready);
      }
    }
  }

  lemma QuietCall(cfg: Config, c: Conn, ev: Events, io: Outcome)
    requires Shape(cfg, c) && !Stirs(ev)
    ensures Handle(Poll, cfg, c, ev, io) == c
  {
    hide Shape;
  }

  /** The epoll engine's setup goes through: no registration is refused, except where one exists already. */
  lemma EpollSetupOutcome(cfg: Config, s: EpollState, allocs: seq<Alloc>, refused: set<nat>)
    requires EpollInv(cfg, s)
    ensures EpollSetup(cfg, s, allocs, refused).1 <==>
            && s.world != [] && s.world[0].sockfd >= 0
            && forall j | 0 <= j < |s.world| && j in refused && OnItsWay(s.world[j].state) ::
                 s.world[j].sockfd in s.table
  {
    hide EpollInv, SetupTo;
    var k := FirstRefused(s, refused, 0);
    if k < |s.world| {
      assert RefusedAt(s, refused, k);
    } else {
      forall j: nat | j < |s.world| && j in refused && OnItsWay(s.world[j].state) ensures s.world[j].sockfd in s.table {
        assert !RefusedAt(s, refused, j);
      }
    }
  }

  lemma EpollRecycled(cfg: Config, s: EpollState, allocs: seq<Alloc>, refused: set<nat>, i: nat)
    requires EpollInv(cfg, s) && i < |s.world|
    ensures var (s1, ok) := EpollSetup(cfg, s, allocs, refused);
            && (OnItsWay(s.world[i].state) ==> s1.world[i] == s.world[i])
            && (ok ==> s1.world[i] == Recycled(Epoll, cfg, s.world, allocs, |s.world|)[i])
  {
    hide WorldInv, TableOk, SetupTo, Recycled;
    SetupRecycles(cfg, s, allocs, FirstRefused(s, refused, 0));
  }

  /** A round of the epoll engine, connection by connection, in whatever order the events come. */
  lemma EpollRoundExactly(cfg: Config, s: EpollState, x: EpollRoundInput, i: nat)
    requires EpollInv(cfg, s) && KernelRound(cfg, s, x) && i < |s.world|
    ensures var end, c, ev := EpollRound(cfg, s, x), s.world[i], Reported(x.r.ready, s.world[i]);
            var passes := EpollSetup(cfg, s, x.r.allocs, x.refused).1;
            && (end.how == Exits <==> !passes)
            && (end.how == Breaks <==>
                  passes && x.r.waitFails && exists j :: 0 <= j < |s.world| && OnItsWay(s.world[j].state))
            && (OnItsWay(c.state) ==>
                  && Shape(cfg, c)
                  && end.s.world[i] == if passes && !x.r.waitFails && (ev.readable || ev.writable || ev.bad)
                                       then Handle(Epoll, cfg, c, ev, IoAt(x.r, i)) else c)
            && (!OnItsWay(c.state) && passes ==>
                  end.s.world[i] == Recycled(Epoll, cfg, s.world, x.r.allocs, |s.world|)[i])
  {
    hide WorldInv, TableOk, EpollSetup, HandleEvents, Handle, Shape, Reported, Recycled, Awaited, ConnsOf, Masked;
    var (s1, ok) := EpollSetup(cfg, s, x.r.allocs, x.refused);
    EpollRecycled(cfg, s, x.r.allocs, x.refused, i);
    forall j | 0 <= j < |s.world| ensures OnItsWay(s.world[j].state) <==> j in ActiveSet(s.world) {
    }
    if OnItsWay(s.world[i].state) {
      assert ConnInv(Epoll, cfg, s.world[i]) by { EpollParts(cfg, s); Sound(Epoll, cfg, s.world, i); }
      InvShape(Epoll, cfg, s.world[i]);
    }
    if ok && ActiveSet(s.world) != {} && !x.r.waitFails {
      RoundEvents(cfg, s, x);
      EventOrderIsImmaterial(cfg, s1, EventsOf(s1, x.r.ready, x.order), x.r);
    }
  }
}
