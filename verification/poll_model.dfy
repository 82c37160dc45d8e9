/**
 The rounds of the poll engine as functions on the world, and the stalls of its setup pass.

 `limit` is the number of bits `set_bitmap` accepts for a connection in TLS handshake: 64 as the call
 is written, with 8-byte addresses, and the whole bitmap where the bitmap's own size is passed.
 */
module PollModel {
  import opened Text
  import opened Automaton
  import opened Rounds

  /** `sizeof(conn_setup_bitmap)` is the size of a `char *`. */
  const ADDRESS_BITS: nat := 64

  datatype Setup = Setup(world: World, ok: bool)

  datatype RoundEnd = RoundEnd(world: World, halted: bool)

  /** The first connection at or after `i` that is in TLS handshake. */
  function FirstHandshake(w: World, i: nat): (r: nat)
    requires i <= |w|
    ensures i <= r <= |w|
    ensures forall j | i <= j < r :: !w[j].state.TlsHandshake?
    ensures r < |w| ==> w[r].state.TlsHandshake?
    decreases |w| - i
  {
    if i == |w| || w[i].state.TlsHandshake? then i else FirstHandshake(w, i + 1)
  }

  /**
   `setup_connection_fdsets`: refused at once if the first connection has no socket; otherwise the
   connections are visited in order, and the pass is given up at a handshake the bitmap call rejects.
   */
  ghost function RunSetup(cfg: Config, limit: nat, w: World, allocs: seq<Alloc>): (r: Setup)
    requires WorldInv(Poll, cfg, w)
    ensures WorldInv(Poll, cfg, r.world) && |r.world| == |w|
    ensures forall i | 0 <= i < |w| && !Done(w[i].state) :: r.world[i] == w[i]
  {
    if w == [] || w[0].sockfd < 0 then Setup(w, false)
    else
      var stop := FirstHandshake(w, Min(limit, |w|));
      Setup(Recycled(Poll, cfg, w, allocs, stop), stop == |w|)
  }

  /** A setup pass succeeds exactly when the first connection has a socket and no handshake is rejected. */
  predicate SetupPasses(limit: nat, w: World) {
    w != [] && w[0].sockfd >= 0 && forall i | 0 <= i < |w| && w[i].state.TlsHandshake? :: i < limit
  }

  /** One turn of the loop in `bench_poll`. */
  ghost function PollRound(cfg: Config, limit: nat, w: World, r: Round): (end: RoundEnd)
    requires WorldInv(Poll, cfg, w)
    ensures WorldInv(Poll, cfg, end.world) && |end.world| == |w|
  {
    var s := RunSetup(cfg, limit, w, r.allocs);
    if !s.ok || ActiveSet(w) == {} then RoundEnd(s.world, false)
    else if r.waitFails then RoundEnd(s.world, true)
    else if Stirring(w, r.ready) == {} then RoundEnd(s.world, false)
    else RoundEnd(Dispatched(Poll, cfg, s.world, ActiveSet(w), r), false)
  }

  /** Any number of rounds. */
  ghost function PollRun(cfg: Config, limit: nat, w: World, rounds: seq<Round>): (w1: World)
    requires WorldInv(Poll, cfg, w)
    ensures WorldInv(Poll, cfg, w1) && |w1| == |w|
    decreases |rounds|
  {
    if rounds == [] then w
    else
      var end := PollRound(cfg, limit, w, rounds[0]);
      if end.halted then end.world else PollRun(cfg, limit, end.world, rounds[1..])
  }

  /** The world after start-up and any number of rounds. */
  ghost function PollBench(cfg: Config, limit: nat, n: nat, allocs: seq<Alloc>, rounds: seq<Round>): (w: World)
    ensures WorldInv(Poll, cfg, w) && |w| == n
  {
    PollRun(cfg, limit, Start(Poll, cfg, n, allocs), rounds)
  }

  lemma SetupOutcome(cfg: Config, limit: nat, w: World, allocs: seq<Alloc>)
    requires WorldInv(Poll, cfg, w)
    ensures RunSetup(cfg, limit, w, allocs).ok <==> SetupPasses(limit, w)
  {
  }

  /** Two worlds agree on the connections no setup pass can touch and on every counter. */
  ghost predicate SameCounters(w: World, w1: World) {
    && |w1| == |w|
    && forall i | 0 <= i < |w| :: w1[i].speed == w[i].speed && w1[i].failed == w[i].failed && w1[i].bytes == w[i].bytes
  }

  lemma RecyclingCounts(cfg: Config, w: World, i: nat, a: Alloc)
    requires i < |w|
    ensures SameCounters(w, RecycleAt(Poll, cfg, w, i, a))
  {
    hide OpenFds, TryAddresses, Zeros;
  }

  lemma {:induction false} RecycleKeepsCounters(cfg: Config, w: World, allocs: seq<Alloc>, k: nat)
    requires k <= |w| && WorldInv(Poll, cfg, w)
    ensures SameCounters(w, Recycled(Poll, cfg, w, allocs, k))
  {
    hide WorldInv, RecycleAt;
    if k > 0 {
      RecycleKeepsCounters(cfg, w, allocs, k - 1);
      RecyclingCounts(cfg, Recycled(Poll, cfg, w, allocs, k - 1), k - 1, AllocAt(allocs, k - 1));
    }
  }

  /** A pass that cannot succeed runs no handler, and neither does any later one. */
  lemma FailedSetupStalls(cfg: Config, limit: nat, w: World, rounds: seq<Round>)
    requires WorldInv(Poll, cfg, w) && w != [] && !SetupPasses(limit, w)
    ensures SameCounters(w, PollRun(cfg, limit, w, rounds))
    ensures !SetupPasses(limit, PollRun(cfg, limit, w, rounds))
    decreases |rounds|
  {
    hide WorldInv, Recycled;
    if rounds != [] {
      SetupOutcome(cfg, limit, w, rounds[0].allocs);
      var w1 := PollRound(cfg, limit, w, rounds[0]).world;
      if w[0].sockfd >= 0 {
        var i :| 0 <= i < |w| && w[i].state.TlsHandshake? && i >= limit;
        assert w1[i] == w[i];
        RecycleKeepsCounters(cfg, w, rounds[0].allocs, FirstHandshake(w, Min(limit, |w|)));
      }
      FailedSetupStalls(cfg, limit, w1, rounds[1..]);
    }
  }

  /** A connection whose socket allocation failed is never looked at again. */
  lemma {:induction false} IdleForever(cfg: Config, limit: nat, w: World, rounds: seq<Round>, i: nat)
    requires WorldInv(Poll, cfg, w) && i < |w| && w[i].state.Idle?
    ensures PollRun(cfg, limit, w, rounds)[i] == w[i]
    decreases |rounds|
  {
    hide WorldInv, RunSetup, Dispatched, Stirring;
    if rounds != [] {
      IdleForever(cfg, limit, PollRound(cfg, limit, w, rounds[0]).world, rounds[1..], i);
    }
  }

  /** Without a socket for the first connection the whole benchmark stands still: no handler runs any more. */
  lemma {:induction false} NoFirstSocketStalls(cfg: Config, limit: nat, w: World, rounds: seq<Round>)
    requires WorldInv(Poll, cfg, w) && (w == [] || w[0].sockfd < 0)
    ensures PollRun(cfg, limit, w, rounds) == w
    decreases |rounds|
  {
    hide WorldInv, Dispatched;
    if rounds != [] {
      NoFirstSocketStalls(cfg, limit, w, rounds[1..]);
    }
  }
}
