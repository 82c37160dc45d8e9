/**
 All connections of one benchmark, and what both engines do to them outside the handlers: the start-up
 loop, the recycling of finished connections, the selection of the handlers a round calls, and the
 final loop that adds up the counters and releases everything.
 */
module Rounds {
  import opened Automaton
  import opened Invariants

  type World = seq<Conn>

  const NO_SOCKET := Alloc(false, [])
  const NO_IO := Outcome(false, NoContext, 0, "", true, false, false, false)
  const QUIET := Events(false, false, false)

  /**
   What one round meets: the socket allocations of recycled connections, whether the wait call fails,
   the readiness of each descriptor, and the I/O outcomes of each connection.
   */
  datatype Round = Round(allocs: seq<Alloc>, waitFails: bool, ready: map<int, Events>, io: seq<Outcome>)

  function AllocAt(allocs: seq<Alloc>, i: nat): Alloc {
    if i < |allocs| then allocs[i] else NO_SOCKET
  }

  function IoAt(r: Round, i: nat): Outcome {
    if i < |r.io| then r.io[i] else NO_IO
  }

  predicate Stirs(ev: Events) {
    ev.readable || ev.writable || ev.bad
  }

  /** The events the kernel reports for a descriptor watched with mask `mask`: errors always come through. */
  function Masked(ready: map<int, Events>, fd: int, mask: Events): Events {
    var ev := if fd in ready then ready[fd] else QUIET;
    Events(ev.readable && mask.readable, ev.writable && mask.writable, ev.bad)
  }

  function Reported(ready: map<int, Events>, c: Conn): Events {
    Masked(ready, c.sockfd, Interest(c.state))
  }

  /** Every descriptor some connection holds. */
  ghost function OpenFds(w: World): set<int> {
    set i, f | 0 <= i < |w| && f in w[i].log.fds :: f
  }

  ghost predicate Disjoint(w: World) {
    forall i, j | 0 <= i < j < |w| :: w[i].log.fds !! w[j].log.fds
  }

  /** Every connection is sound and no two share a socket. */
  ghost predicate WorldInv(e: Engine, cfg: Config, w: World) {
    (forall i {:trigger ConnInv(e, cfg, w[i])} | 0 <= i < |w| :: ConnInv(e, cfg, w[i])) && Disjoint(w)
  }

  /** One connection replaced; its sockets must be the old ones or ones no connection holds. */
  lemma ReplaceKeepsInv(e: Engine, cfg: Config, w: World, i: nat, c: Conn)
    requires WorldInv(e, cfg, w) && i < |w| && ConnInv(e, cfg, c)
    requires forall f | f in c.log.fds :: f in w[i].log.fds || f !in OpenFds(w)
    ensures WorldInv(e, cfg, w[i := c])
  {
    assert forall j, f | 0 <= j < |w| && f in w[j].log.fds :: f in OpenFds(w);
  }

  /** A socket for connection `i`, which has none. */
  ghost function AllocateIn(e: Engine, cfg: Config, w: World, i: nat, a: Alloc): (r: World)
    requires i < |w|
    ensures |r| == |w| && forall j | 0 <= j < |w| && j != i :: r[j] == w[j]
  {
    w[i := Allocate(e, cfg, w[i], a, OpenFds(w))]
  }

  lemma AllocateInKeepsInv(e: Engine, cfg: Config, w: World, i: nat, a: Alloc)
    requires WorldInv(e, cfg, w) && i < |w| && w[i].state.Idle?
    ensures WorldInv(e, cfg, AllocateIn(e, cfg, w, i, a))
    ensures var s := AllocateIn(e, cfg, w, i, a)[i].state; s.Idle? || s.Connecting?
  {
    hide ConnInv, Disjoint, Allocate, OpenFds;
    assert ConnInv(e, cfg, w[i]);
    AllocateKeepsInv(e, cfg, w[i], a, OpenFds(w));
    ReplaceKeepsInv(e, cfg, w, i, Allocate(e, cfg, w[i], a, OpenFds(w)));
  }

  /** Cleanup followed by a new allocation, as setup does to a finished connection. */
  ghost function RecycleAt(e: Engine, cfg: Config, w: World, i: nat, a: Alloc): (r: World)
    requires i < |w|
    ensures |r| == |w| && forall j | 0 <= j < |w| && j != i :: r[j] == w[j]
  {
    AllocateIn(e, cfg, w[i := Cleanup(e, w[i])], i, a)
  }

  lemma RecycleKeepsInv(e: Engine, cfg: Config, w: World, i: nat, a: Alloc)
    requires WorldInv(e, cfg, w) && i < |w| && !Active(w[i].state)
    ensures var w1 := RecycleAt(e, cfg, w, i, a);
            WorldInv(e, cfg, w1) && (w1[i].state.Idle? || w1[i].state.Connecting?)
  {
    hide ConnInv, Disjoint, Cleanup, AllocateIn;
    assert ConnInv(e, cfg, w[i]);
    CleanupKeepsInv(e, cfg, w[i]);
    ReplaceKeepsInv(e, cfg, w, i, Cleanup(e, w[i]));
    AllocateInKeepsInv(e, cfg, w[i := Cleanup(e, w[i])], i, a);
  }

  /** The first `k` connections visited by a setup loop: finished ones recycled, the others untouched. */
  ghost function Recycled(e: Engine, cfg: Config, w: World, allocs: seq<Alloc>, k: nat): (r: World)
    requires k <= |w| && WorldInv(e, cfg, w)
    ensures WorldInv(e, cfg, r) && |r| == |w|
    ensures forall i | 0 <= i < |w| && !(i < k && Done(w[i].state)) :: r[i] == w[i]
  {
    if k == 0 then w
    else
      var p := Recycled(e, cfg, w, allocs, k - 1);
      if Done(p[k - 1].state) then
        RecycleKeepsInv(e, cfg, p, k - 1, AllocAt(allocs, k - 1));
        RecycleAt(e, cfg, p, k - 1, AllocAt(allocs, k - 1))
      else p
  }

  lemma AllFresh(e: Engine, cfg: Config, w: World)
    requires forall i | 0 <= i < |w| :: w[i] == FRESH
    ensures WorldInv(e, cfg, w)
  {
    FreshInv(e, cfg);
  }

  /** The start-up loop: `n` fresh connections, the first `k` of them with a socket allocated. */
  ghost function Started(e: Engine, cfg: Config, n: nat, allocs: seq<Alloc>, k: nat): (r: World)
    requires k <= n
    ensures WorldInv(e, cfg, r) && |r| == n
    ensures forall i | k <= i < n :: r[i] == FRESH
  {
    if k == 0 then
      AllFresh(e, cfg, seq(n, _ => FRESH));
      seq(n, _ => FRESH)
    else
      var p := Started(e, cfg, n, allocs, k - 1);
      AllocateInKeepsInv(e, cfg, p, k - 1, AllocAt(allocs, k - 1));
      AllocateIn(e, cfg, p, k - 1, AllocAt(allocs, k - 1))
  }

  ghost function Start(e: Engine, cfg: Config, n: nat, allocs: seq<Alloc>): (r: World)
    ensures WorldInv(e, cfg, r) && |r| == n
  {
    Started(e, cfg, n, allocs, n)
  }

  lemma AllKept(e: Engine, cfg: Config, w: World, w1: World)
    requires WorldInv(e, cfg, w) && |w1| == |w|
    requires forall i | 0 <= i < |w| :: w1[i] == w[i] || Kept(e, cfg, w[i], w1[i])
    ensures WorldInv(e, cfg, w1)
  {
    hide ConnInv;
    forall i | 0 <= i < |w| ensures w1[i].log.fds == w[i].log.fds {
    }
  }

  /** The handlers of a round, each run once on a connection in `chosen`, with that connection's events. */
  ghost function Dispatched(e: Engine, cfg: Config, w: World, chosen: set<nat>, r: Round): (w1: World)
    requires WorldInv(e, cfg, w)
    requires forall i | i in chosen :: i < |w| && Active(w[i].state)
    ensures |w1| == |w|
    ensures forall i | 0 <= i < |w| && i !in chosen :: w1[i] == w[i]
    ensures forall i | i in chosen ::
              Shape(cfg, w[i]) && w1[i] == Handle(e, cfg, w[i], Reported(r.ready, w[i]), IoAt(r, i))
    ensures WorldInv(e, cfg, w1)
  {
    forall i | i in chosen
      ensures Shape(cfg, w[i])
      ensures Kept(e, cfg, w[i], Handle(e, cfg, w[i], Reported(r.ready, w[i]), IoAt(r, i)))
    {
      HandleKeepsInv(e, cfg, w[i], Reported(r.ready, w[i]), IoAt(r, i));
    }
    var w1 := seq(|w|, i requires 0 <= i < |w| =>
      if i in chosen then Handle(e, cfg, w[i], Reported(r.ready, w[i]), IoAt(r, i)) else w[i]);
    AllKept(e, cfg, w, w1);
    w1
  }

  /** The connections a setup pass finds active. */
  ghost function ActiveSet(w: World): set<nat> {
    set i: nat | i < |w| && Active(w[i].state)
  }

  /** The active connections whose descriptor has something to report. */
  ghost function Stirring(w: World, ready: map<int, Events>): set<nat> {
    set i: nat | i < |w| && Active(w[i].state) && Stirs(Reported(ready, w[i]))
  }

  /** The number of active connections below `k`. */
  function Rank(w: World, k: nat): (r: nat)
    requires k <= |w|
    ensures r <= k
  {
    if k == 0 then 0 else Rank(w, k - 1) + InFlight(w[k - 1].state)
  }

  ghost function ActiveBelow(w: World, k: nat): set<nat> {
    set i: nat | i < k && i < |w| && Active(w[i].state)
  }

  lemma {:induction false} RankCounts(w: World, k: nat)
    requires k <= |w|
    ensures |ActiveBelow(w, k)| == Rank(w, k)
  {
    if k == 0 {
      assert ActiveBelow(w, 0) == {};
    } else {
      RankCounts(w, k - 1);
      if Active(w[k - 1].state) {
        assert ActiveBelow(w, k) == ActiveBelow(w, k - 1) + {k - 1};
      } else {
        assert ActiveBelow(w, k) == ActiveBelow(w, k - 1);
      }
    }
  }
}
