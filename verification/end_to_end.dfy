/** From the arguments to the wire: what a server reads is the request that was asked for. */
module EndToEnd {
  import opened Text
  import opened ArgumentParsing
  import opened Requests
  import opened HttpReader
  import opened RequestTheorems
  import opened ConnectRequest
  import A = Automaton
  import opened Invariants
  import opened Rounds
  import opened PollModel
  import PollTheorems
  import opened EpollModel
  import EpollTheorems
  import Equivalence

  /** The benchmark `main` starts with the arguments a build left behind. */
  function ConfigOf(a: Args, force: bool): A.Config {
    A.Config(a.isHttps, force, Clip(PlainRequest(a), BODY_SIZE - 1),
             a.proxyHost, a.proxyPort, a.targetHost, a.targetPort)
  }

  /** What a server makes of the request: what was asked for if the arguments are acceptable, an error otherwise. */
  function Reading(a: Args): Option<Request> {
    if Acceptable(a) then Some(Asked(a)) else None
  }

  /** What a proxy makes of the CONNECT request in front of it. */
  function ConnectReading(a: Args): Option<Request> {
    var authority := a.targetHost + ":" + Decimal(a.targetPort);
    if NoSpace(a.targetHost) then
      Some(Request("CONNECT", authority, "HTTP/1.1", [Field("Host", authority), Field("Connection", "close")]))
    else None
  }

  /** Requests go to the proxy, whose port the poll engine takes. */
  predicate Proxied(a: Args) {
    a.proxyHost != "" && 0 < a.proxyPort <= 65535
  }

  /**
   The wire holds the CONNECT request, if a tunnel is needed, and the request, each as it is to be read; it leads to
   the proxy, if there is one, and to the target otherwise.
   */
  predicate WireReads(a: Args, cfg: A.Config, c: A.Conn) {
    var pre, wire := Preamble(A.Poll, cfg), c.log.plain + c.log.tls;
    && pre <= wire
    && (pre != "" <==> a.isHttps && Proxied(a))
    && ParseRequest(wire[|pre|..]) == Reading(a)
    && (a.isHttps && Proxied(a) && OneLine(a.targetHost) ==> ParseRequest(wire[..|pre|]) == ConnectReading(a))
    && c.log.peer == Some(if Proxied(a) then A.Peer(a.proxyHost, a.proxyPort) else A.Peer(a.targetHost, a.targetPort))
  }

  /** The arguments of an HTTP/1.x benchmark. */
  predicate Benchmarked(a: Args) {
    WithinLimits(a) && LinesOnly(a) && !a.version.Http09?
  }

  /**
   In any run of the poll engine, a connection that waits for its response, or has completed, has put on
   the wire the CONNECT request, if a tunnel is needed, and behind it a request which a server reads
   back as the method, target, version and fields asked for exactly if the arguments are acceptable,
   whatever the writes were cut into.
   */
  lemma ServerReadsTheRequest(a: Args, force: bool, limit: nat,
      n: nat, allocs: seq<A.Alloc>, rounds: seq<Round>, i: nat)
    requires Benchmarked(a) && i < n
    ensures var cfg := ConfigOf(a, force);
            var c := PollBench(cfg, limit, n, allocs, rounds)[i];
            c.state.Receiving? || c.state.Completed? ==> WireReads(a, cfg, c)
  {
    hide PollRun, WorldInv, PlainRequest, ParseRequest, Preamble, Asked, Acceptable, ConnectReading;
    var cfg := ConfigOf(a, force);
    var c := PollBench(cfg, limit, n, allocs, rounds)[i];
    PollTheorems.BytesOnTheWire(cfg, limit, n, allocs, rounds, i);
    PollTheorems.DialsWhom(cfg, limit, n, allocs, rounds, i);
    TunnelsByArguments(a, force);
    NothingIsCut(a);
    RequestReadsBack(a);
    if (c.state.Receiving? || c.state.Completed?) && a.isHttps && Proxied(a) && OneLine(cfg.targetHost) {
      NamedInRun(cfg, limit, n, allocs, rounds, i);
      PreambleReads(a, force);
    }
  }

  lemma TunnelsByArguments(a: Args, force: bool)
    ensures var cfg := ConfigOf(a, force);
            && (A.Tunnels(A.Poll, cfg) <==> a.isHttps && Proxied(a))
            && (Preamble(A.Poll, cfg) != "" <==> a.isHttps && Proxied(a))
  {
    hide A.ConnectText, PlainRequest;
  }

  lemma NamedInRun(cfg: A.Config, limit: nat, n: nat, allocs: seq<A.Alloc>, rounds: seq<Round>, i: nat)
    requires i < n && PastConnect(PollBench(cfg, limit, n, allocs, rounds)[i].state) && A.Tunnels(A.Poll, cfg)
    ensures A.CanName(A.Poll, cfg)
  {
    hide PollRun, BufferOk, StageOk, WireOk, CountOk, HoldsOk;
    assert ConnInv(A.Poll, cfg, PollBench(cfg, limit, n, allocs, rounds)[i]);
  }

  lemma PreambleReads(a: Args, force: bool)
    requires var cfg := ConfigOf(a, force); A.CanName(A.Poll, cfg) && A.Tunnels(A.Poll, cfg)
    requires |a.targetHost| < HOST_SIZE && OneLine(a.targetHost)
    ensures ParseRequest(Preamble(A.Poll, ConfigOf(a, force))) == ConnectReading(a)
  {
    hide A.ConnectText, ParseRequest, PlainRequest, Decimal;
    ConnectReadsBack(A.Poll, ConfigOf(a, force));
  }

  /** The same for the epoll engine, which `main` starts, where there is no CONNECT request to lose. */
  lemma EpollServerReadsTheRequest(a: Args, force: bool,
      n: nat, allocs: seq<A.Alloc>, rounds: seq<EpollRoundInput>, i: nat)
    requires Benchmarked(a) && i < n
    requires !A.Tunnels(A.Epoll, ConfigOf(a, force))
    ensures var c := EpollBench(ConfigOf(a, force), n, allocs, rounds).world[i];
            c.state.Receiving? || c.state.Completed? ==>
              && ParseRequest(c.log.plain + c.log.tls) == Reading(a)
              && c.log.peer == Some(if a.proxyHost != "" && 1 < a.proxyPort <= 65535
                                    then A.Peer(a.proxyHost, a.proxyPort) else A.Peer(a.targetHost, a.targetPort))
  {
    hide EpollRun, EpollInv, PlainRequest, ParseRequest, Asked, Acceptable;
    EpollTheorems.EpollChannels(ConfigOf(a, force), n, allocs, rounds, i);
    EpollTheorems.EpollDialsWhom(ConfigOf(a, force), n, allocs, rounds, i);
    NothingIsCut(a);
    RequestReadsBack(a);
  }

  /** And through a tunnel, in the runs in which no `send` of a CONNECT request fails. */
  lemma EpollTunnelReadsTheRequest(a: Args, force: bool,
      n: nat, allocs: seq<A.Alloc>, rounds: seq<EpollRoundInput>, i: nat)
    requires Benchmarked(a) && i < n && Equivalence.CommonPorts(ConfigOf(a, force))
    requires var cfg := ConfigOf(a, force);
             && IsRun(cfg, n, allocs, rounds)
             && Equivalence.ConnectsGoOutThroughout(cfg, n, Start(A.Poll, cfg, n, allocs), Equivalence.PollPart(rounds))
    ensures var cfg := ConfigOf(a, force);
            var c := EpollBench(cfg, n, allocs, rounds).world[i];
            c.state.Receiving? || c.state.Completed? ==> WireReads(a, cfg, c)
  {
    hide EpollRun, EpollInv, PollRun, WorldInv, ConfigOf, WireReads, IsRun;
    Equivalence.EnginesAgree(ConfigOf(a, force), n, n, allocs, rounds);
    ServerReadsTheRequest(a, force, n, n, allocs, Equivalence.PollPart(rounds), i);
  }
}
