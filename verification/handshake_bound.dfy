/**
 What the size handed to `set_bitmap` for a connection in TLS handshake decides. The call as written
 passes the size of a `char *`; here are the runs it stalls, and that the bitmap's own size never does.
 */
module HandshakeBound {
  import opened Automaton
  import opened Invariants
  import opened Rounds
  import opened PollModel
  import opened Lockstep

  lemma HandshakesPass(cfg: Config, limit: nat, w: World)
    requires w != [] && Uniform(cfg, w, TlsHandshake)
    ensures SetupPasses(limit, w) <==> |w| <= limit
    ensures w[0].sockfd >= 0 && forall i | 0 <= i < |w| :: w[i].speed == 0 && w[i].failed == 0
  {
    hide ConnInv;
    if |w| > limit {
      assert w[limit].state.TlsHandshake?;
    }
  }

  /**
   With more connections than `limit`, HTTPS connections can all get to their handshake. From then on no
   setup pass succeeds: whatever follows, nothing completes and nothing fails. Had the bitmap's own size
   been passed, setup would go through.
   */
  lemma TooManyHandshakesStall(cfg: Config, limit: nat, n: nat, more: seq<Round>)
    requires CanReachHandshake(cfg) && n > limit
    ensures var w := PollBench(cfg, limit, n, AllDial(n), ToHandshake(cfg, n, Bound) + more);
            && !SetupPasses(limit, w)
            && forall i | 0 <= i < n :: w[i].speed == 0 && w[i].failed == 0
    ensures SetupPasses(n, PollBench(cfg, n, n, AllDial(n), ToHandshake(cfg, n, Bound)))
  {
    hide WorldInv, PollRun, SetupPasses, Uniform, ToHandshake;
    var w := AllReachHandshake(cfg, limit, n, Bound, more);
    HandshakesPass(cfg, limit, w);
    FailedSetupStalls(cfg, limit, w, more);
    var v := AllReachHandshake(cfg, n, n, Bound, []);
    HandshakesPass(cfg, n, v);
    NoMoreRounds(cfg, n, v);
    assert ToHandshake(cfg, n, Bound) + [] == ToHandshake(cfg, n, Bound);
  }

  /**
   In any run over HTTP, or with no more connections than `limit`, a setup pass succeeds exactly when
   the first connection has a socket.
   */
  lemma EnoughRoomForHandshakes(cfg: Config, limit: nat, n: nat, allocs: seq<Alloc>, rounds: seq<Round>)
    requires n > 0 && (!cfg.isHttps || n <= limit)
    ensures var w := PollBench(cfg, limit, n, allocs, rounds);
            SetupPasses(limit, w) <==> w[0].sockfd >= 0
  {
    var w := PollBench(cfg, limit, n, allocs, rounds);
    forall i | 0 <= i < n && w[i].state.TlsHandshake? ensures i < limit {
      assert ConnInv(Poll, cfg, w[i]);
    }
  }

  /** A run after which the first connection has a socket and setup is refused all the same. */
  ghost predicate Stalls(cfg: Config, limit: nat, n: nat, allocs: seq<Alloc>, rounds: seq<Round>) {
    var w := PollBench(cfg, limit, n, allocs, rounds);
    w != [] && w[0].sockfd >= 0 && !SetupPasses(limit, w)
  }

  ghost predicate SomeRunStalls(cfg: Config, limit: nat, n: nat) {
    exists allocs: seq<Alloc>, rounds: seq<Round> :: Stalls(cfg, limit, n, allocs, rounds)
  }

  /** Handshakes can stall a run exactly for configurations that reach them, with more connections than `limit`. */
  lemma StallsExactly(cfg: Config, limit: nat, n: nat)
    ensures SomeRunStalls(cfg, limit, n) <==> CanReachHandshake(cfg) && n > limit
  {
    hide WorldInv, PollRun, SetupPasses, Uniform, ToHandshake, CanReachHandshake;
    if CanReachHandshake(cfg) && n > limit {
      var w := AllReachHandshake(cfg, limit, n, Bound, []);
      HandshakesPass(cfg, limit, w);
      NoMoreRounds(cfg, limit, w);
      assert Stalls(cfg, limit, n, AllDial(n), ToHandshake(cfg, n, Bound) + []);
    }
    if SomeRunStalls(cfg, limit, n) {
      var allocs: seq<Alloc>, rounds: seq<Round> :| Stalls(cfg, limit, n, allocs, rounds);
      var i := StalledBy(cfg, limit, n, allocs, rounds);
      HandshakesAreReached(cfg, limit, n, allocs, rounds, i);
    }
  }

  /** A stalled run has a handshake out of bounds. */
  lemma StalledBy(cfg: Config, limit: nat, n: nat, allocs: seq<Alloc>, rounds: seq<Round>) returns (i: nat)
    requires Stalls(cfg, limit, n, allocs, rounds)
    ensures limit <= i < n && PollBench(cfg, limit, n, allocs, rounds)[i].state.TlsHandshake?
  {
    hide WorldInv, PollRun;
    var w := PollBench(cfg, limit, n, allocs, rounds);
    i :| 0 <= i < n && w[i].state.TlsHandshake? && i >= limit;
  }

  /** With the size of a `char *`, as the call is written: exactly with more than 64 connections. */
  lemma AsWritten(cfg: Config, n: nat)
    ensures SomeRunStalls(cfg, ADDRESS_BITS, n) <==> CanReachHandshake(cfg) && n > 64
    ensures !SomeRunStalls(cfg, n, n)
  {
    StallsExactly(cfg, ADDRESS_BITS, n);
    StallsExactly(cfg, n, n);
  }
}
