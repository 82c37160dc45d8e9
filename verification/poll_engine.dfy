/** `bench_poll`: the bitmap and the pollfd array over the connections, changed in place round by round. */
module PollEngine {
  import opened Automaton
  import opened Invariants
  import opened Rounds
  import opened PollModel
  import opened Totalling
  import opened Bitmap
  import opened Fleets

  datatype PollFd = PollFd(fd: int, events: Events, revents: Events)

  lemma {:induction false} RankGrows(w: World, i: nat, k: nat)
    requires i <= k <= |w|
    ensures Rank(w, i) <= Rank(w, k)
    ensures i < k && Active(w[i].state) ==> Rank(w, i) < Rank(w, k)
    decreases k
  {
    if i < k {
      RankGrows(w, i, k - 1);
    }
  }

  /** Every entry of the compacted array belongs to an active connection. */
  lemma {:induction false} RankOnto(w: World, k: nat, entry: nat) returns (i: nat)
    requires k <= |w| && entry < Rank(w, k)
    ensures i < k && Active(w[i].state) && Rank(w, i) == entry
  {
    if Active(w[k - 1].state) && entry == Rank(w, k - 1) {
      i := k - 1;
    } else {
      i := RankOnto(w, k - 1, entry);
    }
  }

  lemma RecycledNone(cfg: Config, w: World, allocs: seq<Alloc>)
    requires WorldInv(Poll, cfg, w)
    ensures Recycled(Poll, cfg, w, allocs, 0) == w
  {
  }

  lemma RecycledStep(cfg: Config, w: World, allocs: seq<Alloc>, i: nat)
    requires i < |w| && WorldInv(Poll, cfg, w)
    ensures var p := Recycled(Poll, cfg, w, allocs, i);
            && p[i] == w[i]
            && Recycled(Poll, cfg, w, allocs, i + 1) ==
               if Done(w[i].state) then RecycleAt(Poll, cfg, p, i, AllocAt(allocs, i)) else p
  {
    hide WorldInv, RecycleAt;
  }

  /** No handshake below `k` is refused by the bitmap. */
  ghost predicate HandshakesFit(w: World, limit: nat, k: nat)
    requires k <= |w|
  {
    forall j | 0 <= j < k && w[j].state.TlsHandshake? :: j < limit
  }

  lemma OneMoreFits(w: World, limit: nat, i: nat)
    requires i < |w| && HandshakesFit(w, limit, i) && (w[i].state.TlsHandshake? ==> i < limit)
    ensures HandshakesFit(w, limit, i + 1)
  {
  }

  lemma SetupRefused(cfg: Config, limit: nat, w: World, allocs: seq<Alloc>)
    requires w != [] && w[0].sockfd < 0 && WorldInv(Poll, cfg, w)
    ensures RunSetup(cfg, limit, w, allocs) == Setup(w, false)
  {
    hide WorldInv;
  }

  lemma SetupStopsAt(cfg: Config, limit: nat, w: World, allocs: seq<Alloc>, i: nat)
    requires w != [] && w[0].sockfd >= 0 && WorldInv(Poll, cfg, w) && i <= |w|
    requires HandshakesFit(w, limit, i)
    requires i < |w| ==> w[i].state.TlsHandshake? && i >= limit
    ensures RunSetup(cfg, limit, w, allocs) == Setup(Recycled(Poll, cfg, w, allocs, i), i == |w|)
  {
    hide WorldInv, Recycled;
  }

  lemma DispatchKeepsOpen(e: Engine, cfg: Config, w: World, chosen: set<nat>, r: Round)
    requires WorldInv(e, cfg, w)
    requires forall i | i in chosen :: i < |w| && Active(w[i].state)
    ensures OpenFds(Dispatched(e, cfg, w, chosen, r)) == OpenFds(w)
  {
    hide WorldInv, Dispatched, Handle, Active, ConnInv, Kept, Shape;
    var w1 := Dispatched(e, cfg, w, chosen, r);
    forall i | i in chosen ensures w1[i].log.fds == w[i].log.fds {
      HandleKeepsFds(e, cfg, w, i, Reported(r.ready, w[i]), IoAt(r, i));
    }
    assert forall i | 0 <= i < |w| :: w1[i].log.fds == w[i].log.fds;
  }

  lemma HandleKeepsFds(e: Engine, cfg: Config, w: World, i: nat, ev: Events, io: Outcome)
    requires WorldInv(e, cfg, w) && i < |w| && Active(w[i].state)
    ensures Shape(cfg, w[i]) && Handle(e, cfg, w[i], ev, io).log.fds == w[i].log.fds
  {
    hide ConnInv, Handle;
    assert ConnInv(e, cfg, w[i]);
    HandleKeepsInv(e, cfg, w[i], ev, io);
  }

  /** `poll` on the first `num` entries: it reports each descriptor's readiness and how many have any. */
  method PollWait(pollfds: array<PollFd>, num: nat, ready: map<int, Events>, fails: bool) returns (count: int)
    requires num <= pollfds.Length
    modifies pollfds
    ensures count < 0 <==> fails
    ensures !fails ==>
              && (forall k | 0 <= k < num ::
                    var p := old(pollfds[k]);
                    pollfds[k] == p.(revents := Masked(ready, p.fd, p.events)))
              && (count == 0 <==> forall k | 0 <= k < num :: !Stirs(pollfds[k].revents))
  {
    if fails {
      return -1;
    }
    count := 0;
    for i := 0 to num
      invariant count >= 0
      invariant forall k | 0 <= k < i ::
                  pollfds[k] == old(pollfds[k]).(revents := Masked(ready, old(pollfds[k]).fd, old(pollfds[k]).events))
      invariant forall k | i <= k < num :: pollfds[k] == old(pollfds[k])
      invariant count == 0 <==> forall k | 0 <= k < i :: !Stirs(pollfds[k].revents)
    {
      var p := pollfds[i];
      var revents := Masked(ready, p.fd, p.events);
      pollfds[i] := p.(revents := revents);
      count := count + if Stirs(revents) then 1 else 0;
    }
  }


  /** The world while the dispatch loop is at `i`: handled up to there, not yet from there on. */
  lemma DispatchStep(cfg: Config, w: World, w1: World, d: World, i: nat, r: Round)
    requires WorldInv(Poll, cfg, w1) && |w| == |w1| == |d| && i < |w|
    requires forall j | j in ActiveSet(w) :: w1[j] == w[j]
    requires d == Dispatched(Poll, cfg, w1, ActiveSet(w), r)
    ensures var now := Blend(d, w1, i); var next := Blend(d, w1, i + 1);
            && (i in ActiveSet(w) ==> now[i] == w[i] && Shape(cfg, w[i]))
            && next == if i in ActiveSet(w)
                       then now[i := Handle(Poll, cfg, w[i], Reported(r.ready, w[i]), IoAt(r, i))] else now
  {
    hide WorldInv, Handle, Shape, Reported, Blend;
    BlendSteps(d, w1, i);
    if i in ActiveSet(w) {
      assert d[i] == Handle(Poll, cfg, w[i], Reported(r.ready, w[i]), IoAt(r, i));
    }
  }

  /** After `poll`, the entry of each active connection holds that connection's events. */
  ghost predicate Answered(pollfds: seq<PollFd>, w: World, ready: map<int, Events>)
    requires |pollfds| == |w|
  {
    forall i | 0 <= i < |w| && Active(w[i].state) ::
      Rank(w, i) < |w| && pollfds[Rank(w, i)].revents == Reported(ready, w[i])
  }

  /** The world at the end of a dispatch, and that the loop starts and ends where it should. */
  lemma StartDispatch(cfg: Config, w: World, w1: World, r: Round) returns (d: World)
    requires WorldInv(Poll, cfg, w1) && |w| == |w1|
    requires forall j | j in ActiveSet(w) :: w1[j] == w[j]
    ensures d == Dispatched(Poll, cfg, w1, ActiveSet(w), r) && |d| == |w1|
    ensures Blend(d, w1, 0) == w1 && Blend(d, w1, |w1|) == d && Rank(w, 0) == 0
  {
    d := Dispatched(Poll, cfg, w1, ActiveSet(w), r);
    BlendEnds(d, w1);
  }

  /** A round of the model, told by what setup returns. */
  lemma TurnOf(cfg: Config, limit: nat, w: World, r: Round)
    requires WorldInv(Poll, cfg, w)
    ensures var s := RunSetup(cfg, limit, w, r.allocs);
            && |s.world| == |w|
            && (forall i | i in ActiveSet(w) :: i < |w| && Active(s.world[i].state) && s.world[i] == w[i])
            && PollRound(cfg, limit, w, r) ==
               if !s.ok || |ActiveSet(w)| == 0 then RoundEnd(s.world, false)
               else RoundEnd(if r.waitFails || Stirring(w, r.ready) == {} then s.world
                             else Dispatched(Poll, cfg, s.world, ActiveSet(w), r), r.waitFails)
  {
    hide WorldInv, Dispatched, RunSetup, Stirring;
  }

  class BenchPoll {
    const fleet: Fleet
    /** The size given to `set_bitmap` for a connection in TLS handshake. */
    const handshakeSize: nat
    const bitmap: array<bv8>
    const pollfds: array<PollFd>

    ghost predicate Sized() {
      && fleet.engine == Poll
      && bitmap.Length == BytesFor(|fleet.connections|)
      && pollfds.Length == |fleet.connections|
      && bitmap as object != pollfds as object
      && bitmap as object !in fleet.Objects() && pollfds as object !in fleet.Objects()
    }

    ghost predicate Valid()
      reads fleet.Objects()
    {
      Sized() && fleet.Valid()
    }

    /** Memory for the connections, the bitmap and the pollfds, and the start-up loop. */
    constructor (cfg: Config, handshakeSize: nat, n: nat, allocs: seq<Alloc>)
      requires n > 0
      ensures Valid() && fleet.World() == Start(Poll, cfg, n, allocs)
      ensures fleet.cfg == cfg && this.handshakeSize == handshakeSize && |fleet.connections| == n
      ensures fresh(fleet.Objects()) && fresh(bitmap) && fresh(pollfds)
    {
      fleet := new Fleet(Poll, cfg, n, allocs);
      this.handshakeSize := handshakeSize;
      bitmap := new bv8[BytesFor(n)];
      pollfds := new PollFd[n](_ => PollFd(-1, QUIET, QUIET));
    }

    /** The pollfd entry of each active connection below `k` is at its rank: its descriptor and its state's mask. */
    ghost predicate Filled(w: World, k: nat)
      requires k <= |w| && pollfds.Length == |w|
      reads pollfds
    {
      forall i | 0 <= i < k && Active(w[i].state) ::
        Rank(w, i) < |w| && pollfds[Rank(w, i)] == PollFd(w[i].sockfd, Interest(w[i].state), QUIET)
    }

    /** One active connection entered in the bitmap and in the pollfd array, or refused by the bitmap. */
    method Enter(i: nat, ghost w: World, slot: nat, size: nat) returns (ok: bool)
      requires Sized() && fleet.Separate() && |w| == |fleet.connections| && i < |w| && slot == Rank(w, i)
      requires Active(w[i].state)
      requires fleet.connections[i].sockfd == w[i].sockfd && fleet.connections[i].state == w[i].state
      requires Positions(bitmap[..]) == ActiveBelow(w, i) && Filled(w, i)
      modifies bitmap, pollfds
      ensures ok <==> i < 8 * size
      ensures ok ==> Positions(bitmap[..]) == ActiveBelow(w, i + 1) && Filled(w, i + 1)
    {
      var r := SetBitmap(i, bitmap, size);
      if r < 0 {
        return false;
      }
      forall j | 0 <= j < i && Active(w[j].state)
        ensures Rank(w, j) < slot
      {
        RankGrows(w, j, i);
      }
      assert ActiveBelow(w, i + 1) == ActiveBelow(w, i) + {i};
      pollfds[slot] := PollFd(fleet.connections[i].sockfd, Interest(fleet.connections[i].state), QUIET);
      assert Positions(bitmap[..]) == ActiveBelow(w, i + 1);
      assert Filled(w, i + 1);
      return true;
    }

    /** Bitmap, pollfds and count after the first `k` connections of a setup pass over `w`. */
    ghost predicate Marked(w: World, k: nat, num: int)
      requires k <= |w| && pollfds.Length == |w|
      reads bitmap, pollfds
    {
      Positions(bitmap[..]) == ActiveBelow(w, k) && Filled(w, k) && num == Rank(w, k)
    }

    /** The body of the setup loop: connection `i` recycled, entered, or left alone. */
    method Visit(i: nat, a: Alloc, ghost w: World, num: nat) returns (ok: bool, num1: nat)
      requires Valid() && |w| == |fleet.connections| && i < |w| && fleet.World()[i] == w[i] && Marked(w, i, num)
      modifies fleet.connections[i], fleet.connections[i].receivedResponse, fleet.kernel, bitmap, pollfds
      ensures Valid()
      ensures fleet.World() == if Done(w[i].state) then RecycleAt(Poll, fleet.cfg, old(fleet.World()), i, a)
                               else old(fleet.World())
      ensures ok <==> (w[i].state.TlsHandshake? ==> i < 8 * handshakeSize)
      ensures ok ==> Marked(w, i + 1, num1)
    {
      hide WorldInv, ConnInv, RecycleAt, OpenFds, Positions, Fleet.Valid;
      ok, num1 := true, num;
      var c := fleet.connections[i];
      VisitFacts(i, w, num);
      match c.state
      case Error | Completed =>
        fleet.RecycleConnection(i, a);
      case Connecting | Sending | ProxyConnect | Receiving | ProxyResponse =>
        ok := Enter(i, w, num, bitmap.Length);
        num1 := num + 1;
      case TlsHandshake =>
        ok := Enter(i, w, num, handshakeSize);
        num1 := num + 1;
      case Idle =>
    }

    lemma VisitFacts(i: nat, w: World, num: nat)
      requires Valid() && |w| == |fleet.connections| && i < |w| && fleet.World()[i] == w[i] && Marked(w, i, num)
      ensures fleet.Separate() && fleet.connections[i].Value() == w[i] && i < 8 * bitmap.Length
      ensures Rank(w, i + 1) == Rank(w, i) + InFlight(w[i].state)
      ensures !Active(w[i].state) ==> Marked(w, i + 1, num)
    {
      hide WorldInv, Positions;
      assert fleet.connections[i].Value() == w[i];
      if !Active(w[i].state) {
        assert ActiveBelow(w, i + 1) == ActiveBelow(w, i);
      }
    }

    /** A setup pass over `w` that has visited the first `i` connections and filled `num` entries. */
    ghost predicate MidSetup(w: World, allocs: seq<Alloc>, i: nat, num: int)
      reads fleet.Objects(), bitmap, pollfds
    {
      && Valid() && |w| == |fleet.connections| && i <= |w|
      && WorldInv(Poll, fleet.cfg, w) && w[0].sockfd >= 0
      && fleet.World() == Recycled(Poll, fleet.cfg, w, allocs, i)
      && num >= 0 && Marked(w, i, num)
      && HandshakesFit(w, 8 * handshakeSize, i)
    }

    /** One connection of a setup pass: on to the next, or the pass is given up here. */
    method SetupStep(ghost w: World, allocs: seq<Alloc>, i: nat, num: nat) returns (ok: bool, num1: nat)
      requires MidSetup(w, allocs, i, num) && i < |w|
      modifies fleet.connections[i], fleet.connections[i].receivedResponse, fleet.kernel, bitmap, pollfds
      ensures ok ==> MidSetup(w, allocs, i + 1, num1)
      ensures !ok ==> Valid() && WorldInv(Poll, fleet.cfg, w)
                      && RunSetup(fleet.cfg, 8 * handshakeSize, w, allocs) == Setup(fleet.World(), false)
    {
      assert |fleet.connections| == pollfds.Length;
      RecycledStep(fleet.cfg, w, allocs, i);
      ok, num1 := Visit(i, AllocAt(allocs, i), w, num);
      if ok {
        OneMoreFits(w, 8 * handshakeSize, i);
      } else {
        SetupStopsAt(fleet.cfg, 8 * handshakeSize, w, allocs, i);
      }
    }

    /**
     `setup_connection_fdsets`: finished connections are recycled, active ones get a bit and a pollfd.
     Every set bit then belongs to a connection that was active on entry, and its pollfd is found at
     the number of set bits below.
     */
    method SetupConnectionFdsets(allocs: seq<Alloc>) returns (num: int)
      requires Valid() && Positions(bitmap[..]) == {}
      modifies fleet.Objects(), bitmap, pollfds
      ensures Valid()
      ensures var s := RunSetup(fleet.cfg, 8 * handshakeSize, old(fleet.World()), allocs);
              fleet.World() == s.world && (num >= 0 <==> s.ok)
      ensures num >= 0 ==>
                && Positions(bitmap[..]) == ActiveSet(old(fleet.World()))
                && num == |ActiveSet(old(fleet.World()))|
                && Marked(old(fleet.World()), |fleet.connections|, num)
    {
      hide *;
      ghost var w := fleet.World();
      SetupFacts(w);
      if fleet.connections[0].sockfd < 0 {
        SetupRefused(fleet.cfg, 8 * handshakeSize, w, allocs);
        return -1;
      }
      num := 0;
      StartSetup(w, allocs);
      for i := 0 to |fleet.connections|
        invariant num >= 0 && MidSetup(w, allocs, i, num)
      {
        var ok;
        ok, num := SetupStep(w, allocs, i, num);
        if !ok {
          return -1;
        }
      }
      EndSetup(w, allocs, num);
    }

    lemma SetupFacts(w: World)
      requires Valid() && w == fleet.World()
      ensures WorldInv(Poll, fleet.cfg, w)
      ensures |w| == |fleet.connections| == pollfds.Length > 0 && fleet.connections[0].sockfd == w[0].sockfd
      ensures fleet.kernel in fleet.Objects()
      ensures forall i | 0 <= i < |fleet.connections| ::
                fleet.connections[i] in fleet.Objects() && fleet.connections[i].receivedResponse in fleet.Objects()
    {
      hide WorldInv;
    }

    lemma StartSetup(w: World, allocs: seq<Alloc>)
      requires Valid() && w == fleet.World() && w[0].sockfd >= 0 && Positions(bitmap[..]) == {}
      ensures MidSetup(w, allocs, 0, 0)
    {
      hide ConnInv, Disjoint, Positions;
      NothingMarked(w);
      RecycledNone(fleet.cfg, w, allocs);
    }

    lemma EndSetup(w: World, allocs: seq<Alloc>, num: int)
      requires |w| == |fleet.connections| && MidSetup(w, allocs, |w|, num)
      ensures Valid() && WorldInv(Poll, fleet.cfg, w)
      ensures RunSetup(fleet.cfg, 8 * handshakeSize, w, allocs) == Setup(fleet.World(), true)
      ensures Positions(bitmap[..]) == ActiveSet(w) && num == |ActiveSet(w)|
      ensures Marked(w, |fleet.connections|, num)
    {
      hide WorldInv, Recycled, RunSetup, Positions;
      SetupStopsAt(fleet.cfg, 8 * handshakeSize, w, allocs, |w|);
      AllMarked(w, num);
    }

    lemma NothingMarked(w: World)
      requires pollfds.Length == |w| && Positions(bitmap[..]) == {}
      ensures Marked(w, 0, 0)
    {
      assert ActiveBelow(w, 0) == {};
    }

    lemma AllMarked(w: World, num: int)
      requires pollfds.Length == |w| && Marked(w, |w|, num)
      ensures Positions(bitmap[..]) == ActiveSet(w) && num == |ActiveSet(w)|
    {
      RankCounts(w, |w|);
      assert ActiveBelow(w, |w|) == ActiveSet(w);
    }

    /** The body of the dispatch loop: connection `i` is handled if its bit is set, and the cursor moves on. */
    method DispatchAt(i: nat, cursor: nat, ghost w: World, r: Round) returns (cursor1: nat)
      requires Sized() && fleet.Separate() && |w| == |fleet.connections| && i < |w|
      requires Positions(bitmap[..]) == ActiveSet(w) && Answered(pollfds[..], w, r.ready) && cursor == Rank(w, i)
      requires i in ActiveSet(w) ==> fleet.World()[i] == w[i] && Shape(fleet.cfg, w[i])
      modifies fleet.connections[i], fleet.connections[i].receivedResponse
      ensures bitmap[..] == old(bitmap[..]) && pollfds[..] == old(pollfds[..])
      ensures cursor1 == Rank(w, i + 1)
      ensures GetBitmap(i, bitmap[..], bitmap.Length) >= 0
      ensures var ev := Reported(r.ready, w[i]);
              fleet.World() == if i in ActiveSet(w)
                               then old(fleet.World())[i := Handle(Poll, fleet.cfg, w[i], ev, IoAt(r, i))]
                               else old(fleet.World())
    {
      hide Handle, Shape, Reported, Positions;
      cursor1 := cursor;
      assert fleet.connections[i].Value() == fleet.World()[i];
      if GetBitmap(i, bitmap[..], bitmap.Length) != 0 {
        assert i in ActiveSet(w);
        fleet.HandleAt(i, pollfds[cursor].revents, IoAt(r, i));
        cursor1 := cursor + 1;
      }
    }

    /** The loop over the connections that runs the handlers. */
    method DispatchLoop(ghost w: World, r: Round)
      requires Sized() && fleet.Separate() && |w| == |fleet.connections| && WorldInv(Poll, fleet.cfg, fleet.World())
      requires Positions(bitmap[..]) == ActiveSet(w) && Answered(pollfds[..], w, r.ready)
      requires forall i | i in ActiveSet(w) :: fleet.World()[i] == w[i]
      modifies fleet.Objects() - {fleet.kernel}
      ensures fleet.World() == Dispatched(Poll, fleet.cfg, old(fleet.World()), ActiveSet(w), r)
    {
      hide WorldInv, Dispatched, Positions, ActiveSet, Reported, GetBitmap, Answered, Handle, Shape, Blend, Rank, IoAt;
      ghost var w1 := fleet.World();
      assert |w1| == |w|;
      assert forall i | 0 <= i < |fleet.connections| ::
          && fleet.connections[i] in fleet.Objects() && fleet.connections[i].receivedResponse in fleet.Objects()
          && fleet.connections[i] as object != fleet.kernel
          && fleet.connections[i].receivedResponse as object != fleet.kernel;
      ghost var d := StartDispatch(fleet.cfg, w, w1, r);
      ghost var bits, entries := bitmap[..], pollfds[..];
      var cursor := 0;
      for i := 0 to |fleet.connections|
        invariant fleet.World() == Blend(d, w1, i) && cursor == Rank(w, i)
        invariant bitmap[..] == bits && pollfds[..] == entries
      {
        DispatchStep(fleet.cfg, w, w1, d, i, r);
        cursor := DispatchAt(i, cursor, w, r);
      }
    }

    /** The dispatch of a round, after which the engine is as sound as before. */
    method Dispatch(ghost w: World, r: Round)
      requires Valid() && |w| == |fleet.connections|
      requires Positions(bitmap[..]) == ActiveSet(w) && Answered(pollfds[..], w, r.ready)
      requires forall i | i in ActiveSet(w) :: fleet.World()[i] == w[i]
      modifies fleet.Objects()
      ensures Valid()
      ensures fleet.World() == Dispatched(Poll, fleet.cfg, old(fleet.World()), ActiveSet(w), r)
    {
      ghost var w1 := fleet.World();
      DispatchKeepsOpen(Poll, fleet.cfg, w1, ActiveSet(w), r);
      DispatchLoop(w, r);
    }

    lemma {:induction false} AnsweredAfterPoll(w: World, ready: map<int, Events>, before: seq<PollFd>)
      requires pollfds.Length == |w| == |before|
      requires forall i | 0 <= i < |w| && Active(w[i].state) ::
                 Rank(w, i) < |w| && before[Rank(w, i)] == PollFd(w[i].sockfd, Interest(w[i].state), QUIET)
      requires Rank(w, |w|) <= |w|
      requires forall k | 0 <= k < Rank(w, |w|) ::
                 pollfds[k] == before[k].(revents := Masked(ready, before[k].fd, before[k].events))
      ensures Answered(pollfds[..], w, ready)
      ensures (forall k | 0 <= k < Rank(w, |w|) :: !Stirs(pollfds[k].revents)) <==> Stirring(w, ready) == {}
    {
      forall i | 0 <= i < |w| && Active(w[i].state)
        ensures Rank(w, i) < Rank(w, |w|) && pollfds[Rank(w, i)].revents == Reported(ready, w[i])
      {
        RankGrows(w, i, |w|);
      }
      if Stirring(w, ready) == {} {
        forall k | 0 <= k < Rank(w, |w|) ensures !Stirs(pollfds[k].revents) {
          var i := RankOnto(w, |w|, k);
          assert i !in Stirring(w, ready);
        }
      } else {
        var i :| i in Stirring(w, ready);
        assert Stirs(pollfds[Rank(w, i)].revents);
      }
    }

    /** `poll`, and the handlers if it reports anything. `w` is the world setup found. */
    method WaitAndDispatch(ghost w: World, num: nat, r: Round) returns (halted: bool)
      requires Valid() && |w| == |fleet.connections|
      requires Positions(bitmap[..]) == ActiveSet(w) && Marked(w, |w|, num)
      requires forall i | i in ActiveSet(w) :: fleet.World()[i] == w[i]
      modifies fleet.Objects(), pollfds
      ensures Valid() && halted == r.waitFails
      ensures fleet.World() == if r.waitFails || Stirring(w, r.ready) == {} then old(fleet.World())
                         else Dispatched(Poll, fleet.cfg, old(fleet.World()), ActiveSet(w), r)
    {
      hide WorldInv, Dispatched, Reported, Stirring, Positions;
      ghost var before, w1 := pollfds[..], fleet.World();
      assert num == Rank(w, |w|) && num <= |w|;
      var ready := PollWait(pollfds, num, r.ready, r.waitFails);
      assert fleet.World() == w1;
      if ready < 0 {
        return true;
      }
      AnsweredAfterPoll(w, r.ready, before);
      if ready == 0 {
        return false;
      }
      Dispatch(w, r);
      return false;
    }

    /** One turn of the loop in `bench_poll`. */
    method Turn(r: Round) returns (halted: bool)
      requires Valid()
      modifies fleet.Objects(), bitmap, pollfds
      ensures Valid()
      ensures RoundEnd(fleet.World(), halted) == PollRound(fleet.cfg, 8 * handshakeSize, old(fleet.World()), r)
    {
      ghost var w := fleet.World();
      Clear(bitmap);
      assert Valid() && fleet.World() == w && |w| == |fleet.connections|;
      TurnOf(fleet.cfg, 8 * handshakeSize, w, r);
      var num := SetupConnectionFdsets(r.allocs);
      halted := false;
      if num > 0 {
        halted := WaitAndDispatch(w, num, r);
      }
    }

    /** The loop over the rounds, until time is up or `poll` fails. */
    method Rounds(rounds: seq<Round>)
      requires Valid()
      modifies fleet.Objects(), bitmap, pollfds
      ensures Valid() && fleet.World() == PollRun(fleet.cfg, 8 * handshakeSize, old(fleet.World()), rounds)
    {
      ghost var limit := 8 * handshakeSize;
      var k := 0;
      assert rounds[0..] == rounds;
      while k < |rounds|
        invariant k <= |rounds| && Valid()
        invariant PollRun(fleet.cfg, limit, fleet.World(), rounds[k..])
               == PollRun(fleet.cfg, limit, old(fleet.World()), rounds)
      {
        assert rounds[k..][1..] == rounds[k + 1..];
        var halted := Turn(rounds[k]);
        if halted {
          break;
        }
        k := k + 1;
      }
    }
  }

  const MAX_CONNECTIONS: nat := 1000

  /** `bench_poll`: the numbers it prints are the totals of the connections when the rounds are over. */
  method RunBenchPoll(cfg: Config, handshakeSize: nat, clients: nat, allocs: seq<Alloc>, rounds: seq<Round>)
    returns (speed: nat, failed: nat, bytes: nat)
    requires clients > 0
    ensures var n := if clients > MAX_CONNECTIONS then MAX_CONNECTIONS else clients;
            var t := Total(PollBench(cfg, 8 * handshakeSize, n, allocs, rounds));
            speed == t.speed && failed == t.failed && bytes == t.bytes
  {
    var numConnections := if clients > MAX_CONNECTIONS then MAX_CONNECTIONS else clients;
    var engine := new BenchPoll(cfg, handshakeSize, numConnections, allocs);
    engine.Rounds(rounds);
    speed, failed, bytes := engine.fleet.Summarize();
  }
}
