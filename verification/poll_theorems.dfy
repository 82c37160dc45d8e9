/** What holds of every connection after start-up and any rounds of the poll engine, and at its end. */
module PollTheorems {
  import opened Text
  import opened Automaton
  import opened Invariants
  import opened Rounds
  import opened PollModel
  import opened Totalling

  /**
   The bytes accepted on the current attempt are the CONNECT request, if a tunnel is needed, followed
   by the body sent so far; once the response is awaited the whole body has gone out, once and in order.
   */
  lemma BytesOnTheWire(cfg: Config, limit: nat, n: nat, allocs: seq<Alloc>, rounds: seq<Round>, i: nat)
    requires i < n
    ensures var c := PollBench(cfg, limit, n, allocs, rounds)[i];
            var pre := Preamble(Poll, cfg);
            var wire := c.log.plain + c.log.tls;
            && (c.state.Connecting? ==> wire == "")
            && (c.state.ProxyConnect? ==> c.sent < |pre| && wire == pre[..c.sent])
            && (c.state.ProxyResponse? || c.state.TlsHandshake? ==> wire == pre)
            && (c.state.Sending? ==> c.sent <= |cfg.body| && wire == pre + cfg.body[..c.sent])
            && (c.state.Receiving? || c.state.Completed? ==> wire == pre + cfg.body)
            && (c.state.Error? ==> wire <= pre + cfg.body)
  {
    var c := PollBench(cfg, limit, n, allocs, rounds)[i];
    assert ConnInv(Poll, cfg, c);
    if c.state.Error? && cfg.isHttps && c.log.tls != "" {
      assert c.log.plain == Preamble(Poll, cfg);
    }
  }

  /**
   HTTPS puts the body only on a channel whose handshake succeeded, and only the CONNECT request in
   clear; the SSL object is there whenever it is written to or read from, and a write to be retried
   is repeated with the offset and length it had. Plain HTTP never sees a tunnel or a TLS state. In the
   two states that set TLS up there is no SSL object to lose, and without a tunnel a handshake has its own.
   */
  lemma TlsSafety(cfg: Config, limit: nat, n: nat, allocs: seq<Alloc>, rounds: seq<Round>, i: nat)
    requires i < n
    ensures var c := PollBench(cfg, limit, n, allocs, rounds)[i];
            && (cfg.isHttps && Active(c.state) ==>
                  c.log.plain <= Preamble(Poll, cfg) && (c.log.tls != "" ==> c.log.secured))
            && (cfg.isHttps && (c.state.Sending? || c.state.Receiving?) ==> c.log.secured && c.ssl.Some?)
            && (c.state.Sending? && c.log.retry.Some? ==> c.log.retry.value == (c.sent, |cfg.body| - c.sent))
            && (!cfg.isHttps ==>
                  && !c.state.ProxyConnect? && !c.state.ProxyResponse? && !c.state.TlsHandshake?
                  && c.ssl.None?)
            && (!cfg.isHttps && Active(c.state) ==> c.log.tls == "")
            && (c.state.Connecting? || c.state.ProxyResponse? ==> c.ssl.None?)
            && (c.state.TlsHandshake? && !Tunnels(Poll, cfg) ==> c.ssl.Some?)
  {
    var c := PollBench(cfg, limit, n, allocs, rounds)[i];
    assert ConnInv(Poll, cfg, c);
  }

  /** Every attempt went to the proxy, if there is one with a good port, and to the target otherwise. */
  lemma DialsWhom(cfg: Config, limit: nat, n: nat, allocs: seq<Alloc>, rounds: seq<Round>, i: nat)
    requires i < n
    ensures var c := PollBench(cfg, limit, n, allocs, rounds)[i];
            c.state != Idle ==>
              c.log.peer == Some(if cfg.proxyHost != "" && 0 < cfg.proxyPort <= 65535
                                 then Peer(cfg.proxyHost, cfg.proxyPort) else Peer(cfg.targetHost, cfg.targetPort))
  {
    hide PollRun, BufferOk, StageOk, WireOk, CountOk, HoldsOk;
    assert ConnInv(Poll, cfg, PollBench(cfg, limit, n, allocs, rounds)[i]);
  }

  /**
   While the proxy's answer is awaited the buffer never overflows: a read always has its terminator in
   bounds, so the answer is never rejected for length, and a full buffer never turns out to hold the
   success phrase.
   */
  lemma ProxyAnswerFits(cfg: Config, limit: nat, n: nat, allocs: seq<Alloc>, rounds: seq<Round>, i: nat, got: string)
    requires i < n
    requires PollBench(cfg, limit, n, allocs, rounds)[i].state.ProxyResponse?
    ensures var c := PollBench(cfg, limit, n, allocs, rounds)[i];
            && |c.buffer| == CAP && c.received <= CAP - 1
            && !StrStr(c.buffer, TUNNEL_OK)
            && (c.received == CAP - 1 ==> !StrStr(c.buffer[CAP - 1 := NUL], TUNNEL_OK))
            && (|got| <= CAP - c.received - 1 ==>
                  && Store(c, got).received < CAP
                  && (StrStr(Store(c, got).buffer, TUNNEL_OK) <==> StrStr(c.log.inbox + got, TUNNEL_OK)))
  {
    var c := PollBench(cfg, limit, n, allocs, rounds)[i];
    assert ConnInv(Poll, cfg, c);
    StrStrIgnoresPadding(c.log.inbox, CAP - |c.log.inbox|, TUNNEL_OK);
    if c.received == CAP - 1 {
      FullBufferIsTerminated(c);
    }
    if |got| <= CAP - c.received - 1 {
      StoreKeepsPadding(c, got);
    }
  }

  /**
   The benchmark's totals, whatever the rounds: attempts started are the failed, the completed, the
   forced and those still in flight; the byte count fits the completions; a forced run reports neither.
   */
  lemma BenchTotals(cfg: Config, limit: nat, n: nat, allocs: seq<Alloc>, rounds: seq<Round>)
    ensures var t := Total(PollBench(cfg, limit, n, allocs, rounds));
            && Accounted(t) && BytesFit(t)
            && (cfg.force ==> t.speed == 0 && t.bytes == 0)
            && (!cfg.force ==> t.forced == 0)
    ensures forall c | c in PollBench(cfg, limit, n, allocs, rounds) ::
              && Accounted(Total([c])) && BytesFit(Total([c]))
              && c.bytes == Sum(c.log.replies) && c.speed == |c.log.replies|
  {
    var w := PollBench(cfg, limit, n, allocs, rounds);
    TotalLaws(Poll, cfg, w);
    forall c | c in w
      ensures Accounted(Total([c])) && BytesFit(Total([c]))
      ensures c.bytes == Sum(c.log.replies) && c.speed == |c.log.replies|
    {
      var i :| 0 <= i < |w| && w[i] == c;
      assert ConnInv(Poll, cfg, c);
      TotalLaws(Poll, cfg, [c]);
    }
  }

  /**
   While the benchmark runs, the sockets in use are pairwise distinct and each belongs to one
   connection, which holds no other; when it ends, every socket and SSL object ever made has been
   released exactly once, and no close ever hit a descriptor its connection did not hold.
   */
  lemma Resources(cfg: Config, limit: nat, n: nat, allocs: seq<Alloc>, rounds: seq<Round>)
    ensures SocketsDistinct(PollBench(cfg, limit, n, allocs, rounds))
    ensures forall i | 0 <= i < n :: AllReleased(Released(Poll, PollBench(cfg, limit, n, allocs, rounds))[i])
  {
    hide WorldInv, PollRun, AllReleased, SocketsDistinct;
    var w := PollBench(cfg, limit, n, allocs, rounds);
    InvSocketsDistinct(Poll, cfg, w);
    forall i | 0 <= i < n ensures AllReleased(Released(Poll, w)[i]) {
      InvReleased(Poll, cfg, w, i);
    }
  }
}
