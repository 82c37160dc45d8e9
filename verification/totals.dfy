/** The counters of all connections added up, and everything they hold given back. */
module Totalling {
  import opened Automaton
  import opened Invariants
  import opened Rounds

  /** The counters of all connections added up, with the attempts behind them. */
  datatype Totals = Totals(speed: nat, failed: nat, bytes: nat, attempts: nat, forced: nat, inFlight: nat)

  function Add(t: Totals, c: Conn): Totals {
    Totals(t.speed + c.speed, t.failed + c.failed, t.bytes + c.bytes,
           t.attempts + c.log.attempts, t.forced + c.log.forced, t.inFlight + InFlight(c.state))
  }

  function Total(w: World): Totals {
    if w == [] then Totals(0, 0, 0, 0, 0, 0) else Add(Total(w[..|w| - 1]), w[|w| - 1])
  }

  lemma TotalStep(w: World, i: nat)
    requires i < |w|
    ensures var t := Total(w[..i]); var t1 := Total(w[..i + 1]);
            t1.speed == t.speed + w[i].speed && t1.failed == t.failed + w[i].failed && t1.bytes == t.bytes + w[i].bytes
  {
    assert w[..i + 1][..i] == w[..i];
  }

  /** The counters of the connections, one by one. */
  function Speeds(w: World): seq<nat> {
    seq(|w|, i requires 0 <= i < |w| => w[i].speed)
  }

  function Failures(w: World): seq<nat> {
    seq(|w|, i requires 0 <= i < |w| => w[i].failed)
  }

  function Lengths(w: World): seq<nat> {
    seq(|w|, i requires 0 <= i < |w| => w[i].bytes)
  }

  /** `Sum` adds up. */
  lemma {:induction false} SumLaws(s: seq<nat>, t: seq<nat>, x: nat)
    ensures Sum([]) == 0 && Sum([x]) == x && Sum(s + t) == Sum(s) + Sum(t)
  {
    assert [x][..0] == [];
    if t == [] {
      assert s + t == s;
    } else {
      var m := |t| - 1;
      SumLaws(s, t[..m], x);
      assert (s + t)[..|s + t| - 1] == s + t[..m];
    }
  }

  /** The totals are the sums of the connections' counters, each of its own. */
  lemma {:induction false} TotalExactly(w: World)
    ensures var t := Total(w);
            t.speed == Sum(Speeds(w)) && t.failed == Sum(Failures(w)) && t.bytes == Sum(Lengths(w))
  {
    if w != [] {
      var m := |w| - 1;
      TotalExactly(w[..m]);
      assert Speeds(w)[..m] == Speeds(w[..m]) && Failures(w)[..m] == Failures(w[..m]);
      assert Lengths(w)[..m] == Lengths(w[..m]);
    }
  }

  /** Every attempt ends up in exactly one counter, or is in flight. */
  predicate Accounted(t: Totals) {
    t.attempts == t.failed + t.speed + t.forced + t.inFlight
  }

  /** Completed responses have 4 to 8095 bytes. */
  predicate BytesFit(t: Totals) {
    4 * t.speed <= t.bytes <= (CAP - 1) * t.speed
  }

  lemma {:induction false} SumBounds(s: seq<nat>)
    requires forall r | r in s :: 4 <= r < CAP
    ensures 4 * |s| <= Sum(s) <= (CAP - 1) * |s|
  {
    if s != [] {
      var t := s[..|s| - 1];
      assert s[|s| - 1] in s;
      forall r | r in t ensures 4 <= r < CAP {
        assert r in s;
      }
      SumBounds(t);
    }
  }

  lemma {:induction false} TotalLaws(e: Engine, cfg: Config, w: World)
    requires forall i | 0 <= i < |w| :: ConnInv(e, cfg, w[i])
    ensures Accounted(Total(w)) && BytesFit(Total(w))
    ensures cfg.force ==> Total(w).speed == 0
    ensures !cfg.force ==> Total(w).forced == 0
  {
    if w != [] {
      var c := w[|w| - 1];
      assert CountOk(cfg, c);
      SumBounds(c.log.replies);
      assert cfg.force ==> c.speed == 0;
      TotalLaws(e, cfg, w[..|w| - 1]);
    }
  }

  /** The final loop of either engine: every connection cleaned up, whatever its state. */
  function Released(e: Engine, w: World): (r: World)
    ensures |r| == |w|
    ensures forall i | 0 <= i < |w| :: r[i] == Cleanup(e, w[i])
  {
    seq(|w|, i requires 0 <= i < |w| => Cleanup(e, w[i]))
  }

  lemma CleanupReleases(e: Engine, c: Conn)
    requires HoldsOk(c)
    ensures HoldsOk(Cleanup(e, c)) && Cleanup(e, c).log.fds == {} && Cleanup(e, c).log.ssls == {}
  {
  }

  /** Each connection holds its own socket and no other, and no socket belongs to two. */
  ghost predicate SocketsDistinct(w: World) {
    && (forall i | 0 <= i < |w| :: w[i].log.fds == if w[i].sockfd > 0 then {w[i].sockfd} else {})
    && (forall i | 0 <= i < |w| :: Active(w[i].state) ==> w[i].sockfd > 0)
    && (forall i, j | 0 <= i < j < |w| && w[i].sockfd > 0 :: w[i].sockfd != w[j].sockfd)
  }

  /** Nothing is held any more, and everything ever made was released once. */
  predicate AllReleased(c: Conn) {
    && c.log.fds == {} && c.log.ssls == {}
    && c.log.socketsMade == c.log.socketsClosed && c.sslMade == c.log.sslFreed
    && c.log.strayCloses == 0
  }

  lemma InvSocketsDistinct(e: Engine, cfg: Config, w: World)
    requires WorldInv(e, cfg, w)
    ensures SocketsDistinct(w)
  {
    forall i | 0 <= i < |w| ensures HoldsOk(w[i]) {
      assert ConnInv(e, cfg, w[i]);
    }
    forall i, j | 0 <= i < j < |w| && w[i].sockfd > 0
      ensures w[i].sockfd != w[j].sockfd
    {
      assert w[i].sockfd in w[i].log.fds;
    }
  }

  lemma InvReleased(e: Engine, cfg: Config, w: World, i: nat)
    requires WorldInv(e, cfg, w) && i < |w|
    ensures AllReleased(Released(e, w)[i])
  {
    assert ConnInv(e, cfg, w[i]);
    CleanupReleases(e, w[i]);
  }
}
