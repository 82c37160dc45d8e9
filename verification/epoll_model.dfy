/**
 The epoll engine: connections together with the kernel's interest table. A descriptor is registered
 by setup, under the connection and the mask of the moment, and taken out by the handler before it
 touches the connection; closing a descriptor takes it out as well. Registration is edge-triggered,
 but every handled event is registered anew, so a round sees each registered descriptor that is ready.
 */
module EpollModel {
  import opened Automaton
  import opened Invariants
  import opened Rounds

  /** One entry of the interest table: the connection `data.ptr` points to, and the event mask. */
  datatype Registration = Registration(conn: nat, mask: Events)

  datatype EpollState = EpollState(world: World, table: map<int, Registration>)

  /** One entry `epoll_wait` returns. */
  datatype Event = Event(conn: nat, ev: Events)

  datatype End = Goes | Breaks | Exits

  datatype RoundEnd = RoundEnd(s: EpollState, how: End)

  /** What a round of the epoll engine meets besides a `Round`: refused registrations, and the order of events. */
  datatype EpollRoundInput = EpollRoundInput(r: Round, refused: set<nat>, order: seq<int>)

  /** Every registered descriptor belongs to one active connection and waits for what its state waits for. */
  ghost predicate TableOk(s: EpollState) {
    forall fd | fd in s.table ::
      var g := s.table[fd];
      && g.conn < |s.world|
      && s.world[g.conn].sockfd == fd
      && Active(s.world[g.conn].state)
      && g.mask == Interest(s.world[g.conn].state)
  }

  ghost predicate EpollInv(cfg: Config, s: EpollState) {
    WorldInv(Epoll, cfg, s.world) && TableOk(s)
  }

  lemma EpollParts(cfg: Config, s: EpollState)
    requires EpollInv(cfg, s)
    ensures WorldInv(Epoll, cfg, s.world) && TableOk(s)
  {
  }

  /** `EPOLL_CTL_ADD`: an existing entry stays as it is (EEXIST, which setup tolerates). */
  function AddFd(table: map<int, Registration>, fd: int, g: Registration): map<int, Registration> {
    if fd in table then table else table[fd := g]
  }

  lemma ActiveFdsDiffer(e: Engine, cfg: Config, w: World, i: nat, j: nat)
    requires WorldInv(e, cfg, w) && i < |w| && j < |w| && i != j
    requires w[i].sockfd > 0
    ensures w[i].sockfd != w[j].sockfd
  {
    assert ConnInv(e, cfg, w[i]) && ConnInv(e, cfg, w[j]);
    assert w[i].sockfd in w[i].log.fds;
  }

  lemma ActiveHasFd(e: Engine, cfg: Config, w: World, i: nat)
    requires WorldInv(e, cfg, w) && i < |w| && Active(w[i].state)
    ensures w[i].sockfd > 0
  {
    assert ConnInv(e, cfg, w[i]);
  }

  /** What setup does to connection `i`. */
  ghost function SetupAt(cfg: Config, s: EpollState, allocs: seq<Alloc>, i: nat): (r: EpollState)
    requires i < |s.world|
    ensures |r.world| == |s.world|
  {
    var c := s.world[i];
    if Done(c.state) then
      EpollState(RecycleAt(Epoll, cfg, s.world, i, AllocAt(allocs, i)), s.table - {c.sockfd})
    else if Active(c.state) then
      s.(table := AddFd(s.table, c.sockfd, Registration(i, Interest(c.state))))
    else s
  }

  lemma SetupAtKeepsInv(cfg: Config, s: EpollState, allocs: seq<Alloc>, i: nat)
    requires EpollInv(cfg, s) && i < |s.world|
    ensures EpollInv(cfg, SetupAt(cfg, s, allocs, i))
  {
    var c := s.world[i];
    if Done(c.state) {
      RecycleKeepsInv(Epoll, cfg, s.world, i, AllocAt(allocs, i));
    } else if Active(c.state) {
      hide WorldInv;
    }
  }

  /** The first `k` connections visited by setup. */
  ghost function SetupTo(cfg: Config, s: EpollState, allocs: seq<Alloc>, k: nat): (r: EpollState)
    requires k <= |s.world|
    ensures |r.world| == |s.world|
  {
    if k == 0 then s else SetupAt(cfg, SetupTo(cfg, s, allocs, k - 1), allocs, k - 1)
  }

  lemma {:induction false} SetupToKeepsInv(cfg: Config, s: EpollState, allocs: seq<Alloc>, k: nat)
    requires EpollInv(cfg, s) && k <= |s.world|
    ensures EpollInv(cfg, SetupTo(cfg, s, allocs, k))
  {
    hide EpollInv, SetupAt;
    if k > 0 {
      SetupToKeepsInv(cfg, s, allocs, k - 1);
      SetupAtKeepsInv(cfg, SetupTo(cfg, s, allocs, k - 1), allocs, k - 1);
    }
  }

  lemma SetupRecycles(cfg: Config, s: EpollState, allocs: seq<Alloc>, k: nat)
    requires EpollInv(cfg, s) && k <= |s.world|
    ensures SetupTo(cfg, s, allocs, k).world == Recycled(Epoll, cfg, s.world, allocs, k)
  {
    hide ConnInv, Disjoint, TableOk, RecycleAt, AddFd;
    if k > 0 {
      SetupRecycles(cfg, s, allocs, k - 1);
    }
  }

  /** The descriptors of the connections below `k` that are active. */
  ghost function ActiveFds(w: World, k: nat): set<int>
    requires k <= |w|
  {
    set i | 0 <= i < k && Active(w[i].state) :: w[i].sockfd
  }

  /** The descriptor of connection `i`, if it is active. */
  function ActiveFd(w: World, i: nat): set<int>
    requires i < |w|
  {
    if Active(w[i].state) then {w[i].sockfd} else {}
  }

  lemma DoneIsNotRegistered(cfg: Config, s: EpollState, i: nat)
    requires EpollInv(cfg, s) && i < |s.world| && Done(s.world[i].state)
    ensures s.world[i].sockfd !in s.table
  {
    var fd := s.world[i].sockfd;
    if fd in s.table {
      ActiveHasFd(Epoll, cfg, s.world, s.table[fd].conn);
      ActiveFdsDiffer(Epoll, cfg, s.world, s.table[fd].conn, i);
    }
  }

  lemma SetupAtKeys(cfg: Config, s: EpollState, allocs: seq<Alloc>, i: nat)
    requires EpollInv(cfg, s) && i < |s.world|
    ensures SetupAt(cfg, s, allocs, i).table.Keys
         == s.table.Keys + ActiveFd(s.world, i)
  {
    hide EpollInv, RecycleAt;
    if Done(s.world[i].state) {
      DoneIsNotRegistered(cfg, s, i);
    }
  }

  lemma OneMoreActiveFd(w: World, k: nat)
    requires k < |w|
    ensures ActiveFds(w, 0) == {} && ActiveFds(w, k + 1) == ActiveFds(w, k) + ActiveFd(w, k)
  {
  }

  /** Setup meets connection `k` as it stood at the start. */
  lemma NotVisitedYet(cfg: Config, s: EpollState, allocs: seq<Alloc>, k: nat)
    requires EpollInv(cfg, s) && k < |s.world|
    ensures SetupTo(cfg, s, allocs, k).world[k] == s.world[k]
  {
    hide SetupTo, Recycled, EpollInv;
    SetupRecycles(cfg, s, allocs, k);
    assert WorldInv(Epoll, cfg, s.world) by { EpollParts(cfg, s); }
  }

  lemma SetupKeysStep(cfg: Config, s: EpollState, allocs: seq<Alloc>, k: nat)
    requires EpollInv(cfg, s) && k < |s.world|
    ensures SetupTo(cfg, s, allocs, k + 1).table.Keys == SetupTo(cfg, s, allocs, k).table.Keys + ActiveFd(s.world, k)
  {
    hide EpollInv, SetupAt;
    NotVisitedYet(cfg, s, allocs, k);
    SetupToKeepsInv(cfg, s, allocs, k);
    SetupAtKeys(cfg, SetupTo(cfg, s, allocs, k), allocs, k);
  }

  lemma {:induction false} SetupKeys(cfg: Config, s: EpollState, allocs: seq<Alloc>, k: nat)
    requires EpollInv(cfg, s) && k <= |s.world|
    ensures SetupTo(cfg, s, allocs, k).table.Keys == s.table.Keys + ActiveFds(s.world, k)
  {
    hide EpollInv, SetupTo, ActiveFds;
    if k == 0 {
      NoSetupYet(cfg, s, allocs);
    } else {
      SetupKeys(cfg, s, allocs, k - 1);
      SetupKeysStep(cfg, s, allocs, k - 1);
      OneMoreActiveFd(s.world, k - 1);
    }
  }

  lemma NoSetupYet(cfg: Config, s: EpollState, allocs: seq<Alloc>)
    requires EpollInv(cfg, s)
    ensures SetupTo(cfg, s, allocs, 0) == s && ActiveFds(s.world, 0) == {}
  {
    hide EpollInv;
  }

  /** A registration the kernel refuses for a reason other than EEXIST. */
  predicate RefusedAt(s: EpollState, refused: set<nat>, i: nat)
    requires i < |s.world|
  {
    Active(s.world[i].state) && i in refused && s.world[i].sockfd !in s.table
  }

  function FirstRefused(s: EpollState, refused: set<nat>, i: nat): (k: nat)
    requires i <= |s.world|
    ensures i <= k <= |s.world|
    ensures forall j: nat | i <= j < k :: !RefusedAt(s, refused, j)
    ensures k < |s.world| ==> RefusedAt(s, refused, k)
    decreases |s.world| - i
  {
    if i == |s.world| || RefusedAt(s, refused, i) then i else FirstRefused(s, refused, i + 1)
  }

  /** `setup_connection_to_epoll_instance`: the state it leaves, and whether it reaches the end. */
  ghost function EpollSetup(cfg: Config, s: EpollState, allocs: seq<Alloc>, refused: set<nat>): (r: (EpollState, bool))
    requires EpollInv(cfg, s)
    ensures EpollInv(cfg, r.0) && |r.0.world| == |s.world|
  {
    if s.world == [] || s.world[0].sockfd < 0 then (s, false)
    else
      var stop := FirstRefused(s, refused, 0);
      SetupToKeepsInv(cfg, s, allocs, stop);
      (SetupTo(cfg, s, allocs, stop), stop == |s.world|)
  }

  /** The descriptors of a set of connections. */
  ghost function FdsOf(w: World, conns: set<nat>): set<int>
    requires forall i | i in conns :: i < |w|
  {
    set i | i in conns :: w[i].sockfd
  }

  lemma {:induction false} FdsOfSize(e: Engine, cfg: Config, w: World, conns: set<nat>)
    requires WorldInv(e, cfg, w)
    requires forall i | i in conns :: i < |w| && w[i].sockfd > 0
    ensures |FdsOf(w, conns)| == |conns|
  {
    hide WorldInv;
    if conns != {} {
      var i :| i in conns;
      var rest := conns - {i};
      FdsOfSize(e, cfg, w, rest);
      forall j | j in rest ensures w[j].sockfd != w[i].sockfd {
        ActiveFdsDiffer(e, cfg, w, i, j);
      }
      assert FdsOf(w, conns) == FdsOf(w, rest) + {w[i].sockfd};
    }
  }

  /** Connection `i` is registered under its descriptor, with the mask of its present state. */
  ghost predicate Registered(s: EpollState, i: nat)
    requires i < |s.world|
  {
    var c := s.world[i];
    c.sockfd in s.table && s.table[c.sockfd] == Registration(i, Interest(c.state))
  }

  lemma RegisteredUnder(cfg: Config, s: EpollState, i: nat)
    requires EpollInv(cfg, s) && i < |s.world| && Active(s.world[i].state) && s.world[i].sockfd in s.table
    ensures Registered(s, i)
  {
    var g := s.table[s.world[i].sockfd];
    ActiveHasFd(Epoll, cfg, s.world, i);
    if g.conn != i {
      ActiveFdsDiffer(Epoll, cfg, s.world, i, g.conn);
    }
  }

  lemma SetupRegisters(cfg: Config, s: EpollState, allocs: seq<Alloc>, i: nat)
    requires EpollInv(cfg, s) && i < |s.world| && Active(s.world[i].state)
    ensures var s1 := SetupTo(cfg, s, allocs, |s.world|);
            s.world[i].sockfd > 0 && s1.world[i] == s.world[i] && Registered(s1, i)
  {
    hide SetupTo, Recycled, EpollInv, Registered;
    var s1 := SetupTo(cfg, s, allocs, |s.world|);
    SetupRecycles(cfg, s, allocs, |s.world|);
    assert WorldInv(Epoll, cfg, s.world) by { EpollParts(cfg, s); }
    assert s1.world[i] == s.world[i];
    SetupKeys(cfg, s, allocs, |s.world|);
    assert s.world[i].sockfd in ActiveFds(s.world, |s.world|);
    ActiveHasFd(Epoll, cfg, s.world, i);
    SetupToKeepsInv(cfg, s, allocs, |s.world|);
    RegisteredUnder(cfg, s1, i);
  }

  /** Everything registered before setup was an active connection's descriptor. */
  lemma OldKeysAreActive(cfg: Config, s: EpollState)
    requires EpollInv(cfg, s)
    ensures s.table.Keys + ActiveFds(s.world, |s.world|) == FdsOf(s.world, ActiveSet(s.world))
  {
    hide WorldInv;
    forall fd | fd in s.table ensures fd in FdsOf(s.world, ActiveSet(s.world)) {
      assert s.table[fd].conn in ActiveSet(s.world);
    }
  }

  lemma CompleteSetup(cfg: Config, s: EpollState, allocs: seq<Alloc>, refused: set<nat>)
    requires EpollInv(cfg, s) && EpollSetup(cfg, s, allocs, refused).1
    ensures EpollSetup(cfg, s, allocs, refused).0 == SetupTo(cfg, s, allocs, |s.world|)
  {
    hide EpollInv, SetupTo;
  }

  /**
   After a setup pass that reaches its end, the registered descriptors are exactly those of the
   connections that were active on entry, each under its connection and its present mask, and there
   are as many as the pass returns.
   */
  lemma SetupRegistersActive(cfg: Config, s: EpollState, allocs: seq<Alloc>, refused: set<nat>)
    requires EpollInv(cfg, s) && EpollSetup(cfg, s, allocs, refused).1
    ensures var s1 := EpollSetup(cfg, s, allocs, refused).0;
            && s1.table.Keys == FdsOf(s.world, ActiveSet(s.world))
            && |s1.table| == |ActiveSet(s.world)|
            && forall i | i in ActiveSet(s.world) :: s1.world[i] == s.world[i] && Registered(s1, i)
  {
    CompleteSetup(cfg, s, allocs, refused);
    SetupKeys(cfg, s, allocs, |s.world|);
    OldKeysAreActive(cfg, s);
    forall i | i in ActiveSet(s.world)
      ensures var s1 := SetupTo(cfg, s, allocs, |s.world|);
              s.world[i].sockfd > 0 && s1.world[i] == s.world[i] && Registered(s1, i)
    {
      SetupRegisters(cfg, s, allocs, i);
    }
    FdsOfSize(Epoll, cfg, s.world, ActiveSet(s.world));
  }

  /**
   What `epoll_wait` may return for a limit of `max` events: `order` lists distinct registered
   descriptors with something to report, and all of them if the limit allows.
   */
  ghost predicate Delivers(table: map<int, Registration>, ready: map<int, Events>, max: nat, order: seq<int>) {
    && |order| <= max
    && (forall j, k | 0 <= j < k < |order| :: order[j] != order[k])
    && (forall k | 0 <= k < |order| :: order[k] in table && Stirs(Masked(ready, order[k], table[order[k]].mask)))
    && (|order| < max ==> forall fd | fd in table && Stirs(Masked(ready, fd, table[fd].mask)) :: fd in order)
  }

  /** The event the kernel reports for a registered descriptor. */
  function EventOf(table: map<int, Registration>, ready: map<int, Events>, fd: int): Event
    requires fd in table
  {
    Event(table[fd].conn, Masked(ready, fd, table[fd].mask))
  }

  /** `handle_ready_connection` of the epoll engine: nothing happens unless the descriptor can be taken out. */
  ghost function HandleEvent(cfg: Config, s: EpollState, ev: Event, r: Round): (s1: EpollState)
    requires EpollInv(cfg, s) && ev.conn < |s.world|
    ensures EpollInv(cfg, s1) && |s1.world| == |s.world|
  {
    var c := s.world[ev.conn];
    if c.sockfd !in s.table then s
    else
      assert Active(c.state) by {
        var g := s.table[c.sockfd];
        if g.conn != ev.conn {
          ActiveHasFd(Epoll, cfg, s.world, g.conn);
          ActiveFdsDiffer(Epoll, cfg, s.world, g.conn, ev.conn);
        }
      }
      HandleKeepsInv(Epoll, cfg, c, ev.ev, IoAt(r, ev.conn));
      var c1 := Handle(Epoll, cfg, c, ev.ev, IoAt(r, ev.conn));
      ReplaceKeepsInv(Epoll, cfg, s.world, ev.conn, c1);
      EpollState(s.world[ev.conn := c1], s.table - {c.sockfd})
  }

  /** The event loop of a round, one event after the other. */
  ghost function HandleEvents(cfg: Config, s: EpollState, events: seq<Event>, r: Round): (s1: EpollState)
    requires EpollInv(cfg, s) && forall k | 0 <= k < |events| :: events[k].conn < |s.world|
    ensures EpollInv(cfg, s1) && |s1.world| == |s.world|
    decreases |events|
  {
    if events == [] then s
    else HandleEvents(cfg, HandleEvent(cfg, s, events[0], r), events[1..], r)
  }

  /** The events of a round, in the order the kernel reports them; their connections exist. */
  ghost function EventsOf(s: EpollState, ready: map<int, Events>, order: seq<int>): (events: seq<Event>)
    requires TableOk(s) && forall k | 0 <= k < |order| :: order[k] in s.table
    ensures |events| == |order|
    ensures forall k | 0 <= k < |events| :: events[k] == EventOf(s.table, ready, order[k]) && events[k].conn < |s.world|
  {
    seq(|order|, k requires 0 <= k < |order| => EventOf(s.table, ready, order[k]))
  }

  /** One turn of the loop in `bench_epoll`; the number setup returns is the limit given to `epoll_wait`. */
  ghost function EpollRound(cfg: Config, s: EpollState, x: EpollRoundInput): (end: RoundEnd)
    requires EpollInv(cfg, s)
    ensures EpollInv(cfg, end.s) && |end.s.world| == |s.world|
  {
    var (s1, ok) := EpollSetup(cfg, s, x.r.allocs, x.refused);
    if !ok then RoundEnd(s1, Exits)
    else if ActiveSet(s.world) == {} then RoundEnd(s1, Goes)
    else if x.r.waitFails then RoundEnd(s1, Breaks)
    else if Delivers(s1.table, x.r.ready, |ActiveSet(s.world)|, x.order) then
      RoundEnd(HandleEvents(cfg, s1, EventsOf(s1, x.r.ready, x.order), x.r), Goes)
    else RoundEnd(s1, Goes) // Not an order the kernel can deliver.
  }

  /** The order of events of a round is one the kernel can produce. */
  ghost predicate KernelRound(cfg: Config, s: EpollState, x: EpollRoundInput)
    requires EpollInv(cfg, s)
  {
    var (s1, ok) := EpollSetup(cfg, s, x.r.allocs, x.refused);
    ok ==> Delivers(s1.table, x.r.ready, |ActiveSet(s.world)|, x.order)
  }

  /** The same for every round of a run, up to the one that ends it. */
  ghost predicate KernelRun(cfg: Config, s: EpollState, rounds: seq<EpollRoundInput>)
    requires EpollInv(cfg, s)
    decreases |rounds|
  {
    rounds == [] ||
    (var end := EpollRound(cfg, s, rounds[0]);
     KernelRound(cfg, s, rounds[0]) && (end.how.Goes? ==> KernelRun(cfg, end.s, rounds[1..])))
  }

  /** Any number of rounds, up to the first that breaks out or exits. */
  ghost function EpollRun(cfg: Config, s: EpollState, rounds: seq<EpollRoundInput>): (s1: EpollState)
    requires EpollInv(cfg, s)
    ensures EpollInv(cfg, s1) && |s1.world| == |s.world|
    decreases |rounds|
  {
    if rounds == [] then s
    else
      var end := EpollRound(cfg, s, rounds[0]);
      if end.how.Goes? then EpollRun(cfg, end.s, rounds[1..]) else end.s
  }

  /** The state after start-up, with a new epoll instance. */
  ghost function AtStart(cfg: Config, n: nat, allocs: seq<Alloc>): (s: EpollState)
    ensures EpollInv(cfg, s) && |s.world| == n
  {
    EpollState(Start(Epoll, cfg, n, allocs), map[])
  }

  /** No registration is ever refused. */
  predicate NoneRefused(rounds: seq<EpollRoundInput>) {
    forall k | 0 <= k < |rounds| :: rounds[k].refused == {}
  }

  /** A run that the kernel can produce, with no registration refused. */
  ghost predicate IsRun(cfg: Config, n: nat, allocs: seq<Alloc>, rounds: seq<EpollRoundInput>) {
    KernelRun(cfg, AtStart(cfg, n, allocs), rounds) && NoneRefused(rounds)
  }

  /** The state after start-up and any number of rounds. */
  ghost function EpollBench(cfg: Config, n: nat, allocs: seq<Alloc>, rounds: seq<EpollRoundInput>): (s: EpollState)
    ensures EpollInv(cfg, s) && |s.world| == n
  {
    EpollRun(cfg, AtStart(cfg, n, allocs), rounds)
  }
}
