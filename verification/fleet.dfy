/**
 The connections of a benchmark and the kernel's descriptor table, as both engines hold them: start-up,
 recycling, one handler call, and the final loop, each proved to do to the world what the model says.
 */
module Fleets {
  import opened Automaton
  import opened Invariants
  import opened Rounds
  import opened Totalling
  import opened Connections

  lemma OpenAfterReplace(w: World, i: nat, c: Conn)
    requires Disjoint(w) && i < |w|
    ensures OpenFds(w[i := c]) == (OpenFds(w) - w[i].log.fds) + c.log.fds
  {
    var w1 := w[i := c];
    forall f | f in (OpenFds(w) - w[i].log.fds) + c.log.fds
      ensures f in OpenFds(w1)
    {
      if f in c.log.fds {
        assert f in w1[i].log.fds;
      } else {
        var j :| 0 <= j < |w| && f in w[j].log.fds;
        assert f in w1[j].log.fds;
      }
    }
    forall f | f in OpenFds(w1)
      ensures f in (OpenFds(w) - w[i].log.fds) + c.log.fds
    {
      var j :| 0 <= j < |w1| && f in w1[j].log.fds;
      if j != i {
        assert f in w[j].log.fds;
      }
    }
  }

  /** The first `i` elements of `after`, and the rest of `before`. */
  function Blend<T>(after: seq<T>, before: seq<T>, i: nat): (r: seq<T>)
    requires |after| == |before| && i <= |after|
    ensures |r| == |after|
  {
    after[..i] + before[i..]
  }

  lemma BlendSteps<T>(after: seq<T>, before: seq<T>, i: nat)
    requires |after| == |before| && i < |after|
    ensures Blend(after, before, i)[i] == before[i]
    ensures Blend(after, before, i + 1) == Blend(after, before, i)[i := after[i]]
    ensures after[i] == before[i] ==> Blend(after, before, i + 1) == Blend(after, before, i)
  {
  }

  lemma BlendEnds<T>(after: seq<T>, before: seq<T>)
    requires |after| == |before|
    ensures Blend(after, before, 0) == before && Blend(after, before, |after|) == after
  {
  }

  /** A world in which every connection holds its own socket at most, as in `w`, or none any more. */
  ghost predicate SubHoldings(now: World, w: World) {
    |now| == |w| && forall j | 0 <= j < |w| :: now[j].log.fds <= w[j].log.fds
  }

  lemma PositiveFds(w: World, now: World)
    requires SubHoldings(now, w)
    requires forall j | 0 <= j < |w| :: HoldsOk(w[j])
    ensures forall f | f in OpenFds(now) :: f > 0
  {
  }

  lemma SubDisjoint(w: World, now: World)
    requires SubHoldings(now, w) && Disjoint(w)
    ensures Disjoint(now)
  {
  }

  lemma AllReleasedHold(e: Engine, cfg: Config, w: World)
    requires WorldInv(e, cfg, w)
    ensures forall j | 0 <= j < |w| :: HoldsOk(w[j]) && Cleanup(e, w[j]).log.fds == {}
    ensures Disjoint(w)
  {
    forall j | 0 <= j < |w| ensures HoldsOk(w[j]) && Cleanup(e, w[j]).log.fds == {} {
      assert ConnInv(e, cfg, w[j]);
      CleanupReleases(e, w[j]);
    }
  }

  /** Releasing connection `i` after the ones below it closes its descriptor and no other. */
  lemma ReleaseEffect(e: Engine, cfg: Config, w: World, i: nat)
    requires WorldInv(e, cfg, w) && i < |w|
    ensures var now := Blend(Released(e, w), w, i);
            && now[i] == w[i]
            && OpenFds(now[i := Cleanup(e, w[i])]) == OpenFds(now) - {w[i].sockfd}
            && (w[i].sockfd <= 0 ==> OpenFds(now) - {w[i].sockfd} == OpenFds(now))
  {
    hide ConnInv, WorldInv, Cleanup, OpenFds, Disjoint, Blend, SubHoldings, Released, HoldsOk;
    var now := Blend(Released(e, w), w, i);
    AllReleasedHold(e, cfg, w);
    BlendSteps(Released(e, w), w, i);
    BlendHolds(e, w, i);
    SubDisjoint(w, now);
    OpenAfterReplace(now, i, Cleanup(e, w[i]));
    PositiveFds(w, now);
    OwnFd(w[i]);
  }

  lemma BlendHolds(e: Engine, w: World, i: nat)
    requires i < |w| && forall j | 0 <= j < |w| :: Cleanup(e, w[j]).log.fds == {}
    ensures SubHoldings(Blend(Released(e, w), w, i), w)
  {
    hide Cleanup;
  }

  lemma OwnFd(c: Conn)
    requires HoldsOk(c)
    ensures c.log.fds == (if c.sockfd > 0 then {c.sockfd} else {})
  {
  }

  lemma NothingOpen(e: Engine, cfg: Config, w: World)
    requires WorldInv(e, cfg, w)
    ensures Blend(Released(e, w), w, |w|) == Released(e, w) && OpenFds(Released(e, w)) == {}
  {
    AllReleasedHold(e, cfg, w);
  }

  lemma DoneHasFd(e: Engine, cfg: Config, c: Conn)
    requires ConnInv(e, cfg, c) && Done(c.state)
    ensures c.sockfd > 0 && c.log.fds == {c.sockfd} && |c.buffer| == CAP
  {
  }

  lemma CleanupKeepsCounters(e: Engine, c: Conn)
    ensures var c1 := Cleanup(e, c); c1.speed == c.speed && c1.failed == c.failed && c1.bytes == c.bytes
  {
  }

  class Fleet {
    const engine: Engine
    const cfg: Config
    const connections: seq<Connection>
    const kernel: Kernel

    /** Every object a method of the fleet may change. */
    ghost function Objects(): set<object> {
      (set i | 0 <= i < |connections| :: connections[i] as object)
      + (set i | 0 <= i < |connections| :: connections[i].receivedResponse as object)
      + {kernel}
    }

    ghost function World(): World
      reads Objects()
    {
      seq(|connections|, i requires 0 <= i < |connections| reads Objects() => connections[i].Value())
    }

    /** The structures are distinct, and so are their buffers. */
    ghost predicate Separate() {
      && connections != []
      && (forall i | 0 <= i < |connections| :: connections[i].engine == engine && connections[i].cfg == cfg)
      && (forall i, j | 0 <= i < j < |connections| ::
            connections[i] != connections[j] && connections[i].receivedResponse != connections[j].receivedResponse)
    }

    /** The kernel's open descriptors are the ones the connections hold. */
    ghost predicate Valid()
      reads Objects()
    {
      Separate() && WorldInv(engine, cfg, World()) && kernel.open == OpenFds(World())
    }

    /** Memory for the connections and the start-up loop. */
    constructor (e: Engine, cfg: Config, n: nat, allocs: seq<Alloc>)
      requires n > 0
      ensures Valid() && World() == Start(e, cfg, n, allocs)
      ensures engine == e && this.cfg == cfg && |connections| == n && fresh(Objects())
    {
      var k := new Kernel();
      var cs: seq<Connection> := [];
      while |cs| < n
        invariant |cs| <= n
        invariant forall i | 0 <= i < |cs| ::
                    && cs[i].engine == e && cs[i].cfg == cfg && cs[i].Value() == FRESH
                    && fresh(cs[i]) && fresh(cs[i].receivedResponse)
        invariant forall i, j | 0 <= i < j < |cs| :: cs[i] != cs[j] && cs[i].receivedResponse != cs[j].receivedResponse
        invariant fresh(k) && k.open == {}
        decreases n - |cs|
      {
        var c := new Connection(e, cfg);
        cs := cs + [c];
      }
      engine, this.cfg, connections, kernel := e, cfg, cs, k;
      new;
      assert World() == Started(e, cfg, n, allocs, 0);
      assert OpenFds(World()) == {};
      StartUp(allocs);
    }

    /** The start-up loop: a socket for each connection in turn. */
    method StartUp(allocs: seq<Alloc>)
      requires Separate() && World() == Started(engine, cfg, |connections|, allocs, 0)
      requires kernel.open == OpenFds(World())
      modifies Objects()
      ensures Valid() && World() == Start(engine, cfg, |connections|, allocs)
    {
      hide ConnInv, Disjoint;
      for i := 0 to |connections|
        invariant World() == Started(engine, cfg, |connections|, allocs, i)
        invariant kernel.open == OpenFds(World())
      {
        assert World()[i] == FRESH && connections[i].Value() == World()[i];
        AllocateAt(i, if i < |allocs| then allocs[i] else NO_SOCKET);
      }
    }

    /** A socket for a connection that has none. */
    method AllocateAt(i: nat, a: Alloc)
      requires Separate() && i < |connections| && Disjoint(World()) && kernel.open == OpenFds(World())
      requires connections[i].log.fds == {}
      modifies connections[i], kernel
      ensures World() == old(World())[i := Allocate(engine, cfg, old(World())[i], a, OpenFds(old(World())))]
      ensures kernel.open == OpenFds(World())
    {
      ghost var w := World();
      var ret := connections[i].AllocateSocket(a, kernel);
      ghost var c := connections[i].Value();
      OpenAfterReplace(w, i, c);
      assert forall j | 0 <= j < |connections| && j != i :: connections[j].Value() == w[j];
      assert World() == w[i := c];
    }

    /** One connection handled. */
    method HandleAt(i: nat, ev: Events, io: Outcome)
      requires Separate() && i < |connections| && Shape(cfg, connections[i].Value())
      modifies connections[i], connections[i].receivedResponse
      ensures World() == old(World())[i := Handle(engine, cfg, old(World())[i], ev, io)]
    {
      ghost var w := World();
      connections[i].HandleReady(ev, io);
      assert forall j | 0 <= j < |connections| && j != i :: connections[j].Value() == w[j];
    }

    /** A finished connection recycled. */
    method RecycleConnection(i: nat, a: Alloc)
      requires Valid() && i < |connections| && Done(connections[i].state)
      modifies connections[i], connections[i].receivedResponse, kernel
      ensures Valid() && World() == RecycleAt(engine, cfg, old(World()), i, a)
    {
      hide ConnInv, WorldInv, Disjoint, Cleanup, OpenFds, Allocate, RecycleAt, HoldsOk;
      ghost var w := World();
      ghost var c0 := connections[i].Value();
      RecycleFacts(w, i, a);
      connections[i].CleanUp(kernel);
      assert forall j | 0 <= j < |connections| && j != i :: connections[j].Value() == w[j];
      assert World() == w[i := Cleanup(engine, c0)];
      AllocateAt(i, a);
    }

    lemma RecycleFacts(w: World, i: nat, a: Alloc)
      requires Valid() && w == World() && i < |connections| && Done(connections[i].state)
      ensures Separate() && |w| == |connections| && WorldInv(engine, cfg, w)
      ensures var c := connections[i]; var clean := w[i := Cleanup(engine, w[i])];
              && c.Value() == w[i] && c.receivedResponse.Length == CAP && c.sockfd > 0
              && kernel.open - {c.sockfd} == OpenFds(clean)
              && Disjoint(clean) && Cleanup(engine, w[i]).log.fds == {}
      ensures RecycleAt(engine, cfg, w, i, a)
           == var clean := w[i := Cleanup(engine, w[i])];
              clean[i := Allocate(engine, cfg, clean[i], a, OpenFds(clean))]
      ensures WorldInv(engine, cfg, RecycleAt(engine, cfg, w, i, a))
    {
      hide ConnInv, Disjoint, Cleanup, OpenFds, Allocate;
      var c0 := connections[i].Value();
      assert c0 == w[i] && ConnInv(engine, cfg, c0);
      CleanupKeepsInv(engine, cfg, c0);
      OpenAfterReplace(w, i, Cleanup(engine, c0));
      ReplaceKeepsInv(engine, cfg, w, i, Cleanup(engine, c0));
      RecycleKeepsInv(engine, cfg, w, i, a);
      DoneHasFd(engine, cfg, c0);
    }

    /** The last loop: counters added up, every connection cleaned up, no descriptor left open. */
    method Summarize() returns (speed: nat, failed: nat, bytes: nat)
      requires Valid()
      modifies Objects()
      ensures var t := Total(old(World())); speed == t.speed && failed == t.failed && bytes == t.bytes
      ensures World() == Released(engine, old(World())) && kernel.open == {}
    {
      hide *;
      ghost var w := World();
      ghost var done := Released(engine, w);
      SummaryFacts(w);
      speed, failed, bytes := 0, 0, 0;
      for i := 0 to |connections|
        invariant World() == Blend(done, w, i) && kernel.open == OpenFds(World())
        invariant var t := Total(w[..i]); speed == t.speed && failed == t.failed && bytes == t.bytes
      {
        TotalStep(w, i);
        var c := connections[i];
        ReleaseAt(i, w);
        speed := speed + c.speed;
        failed := failed + c.failed;
        bytes := bytes + c.bytes;
      }
    }

    lemma SummaryFacts(w: World)
      requires Valid() && w == World()
      ensures Separate() && |w| == |connections| && WorldInv(engine, cfg, w) && kernel.open == OpenFds(w)
      ensures Blend(Released(engine, w), w, 0) == w && Blend(Released(engine, w), w, |w|) == Released(engine, w)
      ensures OpenFds(Released(engine, w)) == {}
      ensures Total(w[..0]) == Totals(0, 0, 0, 0, 0, 0) && w[..|w|] == w
      ensures kernel in Objects()
      ensures forall i | 0 <= i < |connections| ::
                connections[i] in Objects() && connections[i].receivedResponse in Objects()
    {
      hide WorldInv, Released, OpenFds, Blend;
      BlendEnds(Released(engine, w), w);
      NothingOpen(engine, cfg, w);
    }

    /** One connection cleaned up for good. */
    method ReleaseAt(i: nat, ghost w: World)
      requires Separate() && |w| == |connections| && i < |w| && WorldInv(engine, cfg, w)
      requires World() == Blend(Released(engine, w), w, i) && kernel.open == OpenFds(World())
      modifies connections[i], connections[i].receivedResponse, kernel
      ensures World() == Blend(Released(engine, w), w, i + 1) && kernel.open == OpenFds(World())
      ensures var c := connections[i]; c.speed == w[i].speed && c.failed == w[i].failed && c.bytes == w[i].bytes
    {
      hide WorldInv, Blend, OpenFds, Cleanup, Released, ConnInv;
      ghost var w1 := World();
      ReleaseEffect(engine, cfg, w, i);
      ReleaseFacts(w, i);
      connections[i].CleanUp(kernel);
      assert forall j | 0 <= j < |connections| && j != i :: connections[j].Value() == w1[j];
      assert World() == w1[i := Cleanup(engine, w[i])];
      BlendSteps(Released(engine, w), w, i);
      CleanupKeepsCounters(engine, w[i]);
    }

    lemma ReleaseFacts(w: World, i: nat)
      requires |w| == |connections| && i < |w| && WorldInv(engine, cfg, w) && World()[i] == w[i]
      ensures connections[i].Value() == w[i] && |w[i].buffer| == CAP && w[i].sockfd != 0
    {
      assert ConnInv(engine, cfg, w[i]);
    }
  }
}
