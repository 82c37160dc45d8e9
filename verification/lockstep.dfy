/** Runs in which all connections of the poll engine go from state to state together. */
module Lockstep {
  import opened Text
  import opened Automaton
  import opened Invariants
  import opened Rounds
  import opened PollModel
  import Progress

  /** Everything works: sockets connect, writes take all they are given, the proxy grants the tunnel. */
  const FINE := Outcome(true, Bound, CONNECT_SIZE, TUNNEL_OK, false, false, false, true)

  /** The same, but for what OpenSSL gives. */
  function FineBut(tls: TlsSetup): Outcome {
    FINE.(tls := tls)
  }

  /** OpenSSL has no context, or no object. */
  predicate NoObject(tls: TlsSetup) {
    tls.NoContext? || tls.NoSsl?
  }

  /** Connections dial out on descriptors 3, 4, and so on. */
  function Dial(i: nat): Alloc {
    Alloc(true, [Address(i + 3, true)])
  }

  function AllDial(n: nat): seq<Alloc> {
    seq(n, i requires 0 <= i < n => Dial(i))
  }

  function AllReady(n: nat, ev: Events): (r: map<int, Events>)
    ensures forall fd :: fd in r <==> 3 <= fd < n + 3
    ensures forall fd | fd in r :: r[fd] == ev
  {
    if n == 0 then map[] else AllReady(n - 1, ev)[n + 2 := ev]
  }

  /** A round in which every socket has the same events, and every handler meets the same outcome. */
  function AllMeet(n: nat, ev: Events, io: Outcome): Round {
    Round([], false, AllReady(n, ev), seq(n, _ => io))
  }

  /** Nothing has been received, completed or failed. */
  predicate Blank(c: Conn) {
    c.received == 0 && c.speed == 0 && c.failed == 0
  }

  /** Connections in one state, each on the descriptor it dialled, with nothing received. */
  ghost predicate Uniform(cfg: Config, w: World, state: State) {
    forall i | 0 <= i < |w| :: ConnInv(Poll, cfg, w[i]) && w[i].state == state && w[i].sockfd == i + 3 && Blank(w[i])
  }

  predicate HasDialled(c: Conn, i: nat) {
    c.state.Connecting? && c.sockfd == i + 3 && Blank(c) && c.log.fds == {i + 3} && c.log.plain == ""
  }

  lemma DialOne(e: Engine, cfg: Config, i: nat, open: set<int>)
    requires ValidPort(e, Dialled(e, cfg).port) && i + 3 !in open
    ensures HasDialled(Allocate(e, cfg, FRESH, Dial(i), open), i)
  {
    var a := Dial(i).addresses;
    assert TryAddresses(a, open) == Search(i + 3, 1, 0);
  }

  lemma {:induction false} DialAll(e: Engine, cfg: Config, n: nat, k: nat)
    requires ValidPort(e, Dialled(e, cfg).port) && k <= n
    ensures forall i | 0 <= i < k :: HasDialled(Started(e, cfg, n, AllDial(n), k)[i], i)
    ensures forall f | f in OpenFds(Started(e, cfg, n, AllDial(n), k)) :: f < k + 3
  {
    hide WorldInv, Allocate, Dial;
    if k > 0 {
      DialAll(e, cfg, n, k - 1);
      var p := Started(e, cfg, n, AllDial(n), k - 1);
      DialOne(e, cfg, k - 1, OpenFds(p));
      assert AllocAt(AllDial(n), k - 1) == Dial(k - 1);
      var w := Started(e, cfg, n, AllDial(n), k);
      forall f | f in OpenFds(w) ensures f < k + 3 {
        var j :| 0 <= j < n && f in w[j].log.fds;
        if j != k - 1 {
          assert f in p[j].log.fds;
        }
      }
    }
  }

  lemma StartIsUniform(cfg: Config, n: nat)
    requires ValidPort(Poll, Dialled(Poll, cfg).port)
    ensures Uniform(cfg, Start(Poll, cfg, n, AllDial(n)), Connecting)
  {
    hide ConnInv, Started;
    DialAll(Poll, cfg, n, n);
  }

  /** With nothing to recycle and no handshake, setup passes under any bound and changes nothing. */
  lemma NothingToRecycle(cfg: Config, limit: nat, w: World, state: State)
    requires WorldInv(Poll, cfg, w) && w != [] && Uniform(cfg, w, state) && Active(state) && !state.TlsHandshake?
    ensures RunSetup(cfg, limit, w, []) == Setup(w, true)
  {
    hide WorldInv, ConnInv;
    var s := RunSetup(cfg, limit, w, []);
    assert forall i | 0 <= i < |w| :: s.world[i] == w[i];
    assert s.world == w;
    SetupOutcome(cfg, limit, w, []);
  }

  /** A round of connections in step with each other is one handler call on each. */
  lemma InStep(cfg: Config, limit: nat, w: World, state: State, ev: Events, io: Outcome)
    requires WorldInv(Poll, cfg, w) && w != [] && Uniform(cfg, w, state) && Active(state) && !state.TlsHandshake?
    requires ev == Interest(state)
    ensures var end := PollRound(cfg, limit, w, AllMeet(|w|, ev, io));
            && !end.halted
            && forall i | 0 <= i < |w| :: Shape(cfg, w[i]) && end.world[i] == Handle(Poll, cfg, w[i], ev, io)
  {
    hide WorldInv, ConnInv, Handle, Shape, RunSetup, OpenFds, Blank;
    var r := AllMeet(|w|, ev, io);
    NothingToRecycle(cfg, limit, w, state);
    forall i | 0 <= i < |w|
      ensures Reported(r.ready, w[i]) == ev && IoAt(r, i) == io
      ensures i in ActiveSet(w) && i in Stirring(w, r.ready)
    {
    }
    assert 0 in Stirring(w, r.ready);
  }

  lemma ConnectedNext(e: Engine, cfg: Config, c: Conn)
    requires ConnInv(e, cfg, c) && c.state.Connecting? && Blank(c) && cfg.isHttps
    ensures Shape(cfg, c)
    ensures var c1 := Handle(e, cfg, c, WRITABLE, FINE);
            && c1.state == (if Tunnels(e, cfg) then ProxyConnect else TlsHandshake)
            && c1.sockfd == c.sockfd && Blank(c1) && ConnInv(e, cfg, c1)
            && c1.sent == 0 && c1.log.plain == c.log.plain
  {
    hide ConnectText, ConnInv, TUNNEL_OK;
    InvShape(e, cfg, c);
    HandleKeepsInv(e, cfg, c, WRITABLE, FINE);
    NothingSentYet(e, cfg, c);
  }

  lemma NothingSentYet(e: Engine, cfg: Config, c: Conn)
    requires ConnInv(e, cfg, c) && c.state.Connecting?
    ensures c.sent == 0
  {
  }

  lemma RequestedNext(e: Engine, cfg: Config, c: Conn)
    requires ConnInv(e, cfg, c) && c.state.ProxyConnect? && Blank(c)
    requires CanName(e, cfg)
    ensures Shape(cfg, c)
    ensures var c1 := Handle(e, cfg, c, WRITABLE, FINE);
            c1.state.ProxyResponse? && c1.sockfd == c.sockfd && Blank(c1) && ConnInv(e, cfg, c1)
  {
    hide ConnectText, ConnInv, TUNNEL_OK;
    InvShape(e, cfg, c);
    HandleKeepsInv(e, cfg, c, WRITABLE, FINE);
    CanSayConnect(e, cfg, c);
  }

  lemma CanSayConnect(e: Engine, cfg: Config, c: Conn)
    requires ConnInv(e, cfg, c) && c.state.ProxyConnect?
    ensures c.sent < |ConnectText(cfg)| && c.sockfd > 0 && NeedProxy(e, cfg)
  {
  }

  lemma GrantedNext(e: Engine, cfg: Config, c: Conn, tls: TlsSetup)
    requires ConnInv(e, cfg, c) && c.state.ProxyResponse? && Blank(c)
    ensures Shape(cfg, c)
    ensures var c1 := Handle(e, cfg, c, READABLE, FineBut(tls));
            && c1.state.TlsHandshake? && c1.sockfd == c.sockfd && Blank(c1) && ConnInv(e, cfg, c1)
            && (c1.ssl.None? <==> NoObject(tls))
  {
    hide ConnInv, StrStr, OnProxyResponse, TunnelUp, Store;
    var io := FineBut(tls);
    InvShape(e, cfg, c);
    HandleKeepsInv(e, cfg, c, READABLE, io);
    Grants();
    Progress.GrantInOneRead(e, cfg, c, io);
    Progress.HandshakeWithoutSslHappens(e, cfg, c, io);
    TunnelUpIsBlank(c, io);
  }

  lemma Grants()
    ensures 0 < |TUNNEL_OK| < CAP && StrStr(TUNNEL_OK, TUNNEL_OK)
  {
    hide StrStr;
    assert NUL !in TUNNEL_OK;
    FoundInItself(TUNNEL_OK);
  }

  lemma FoundInItself(p: string)
    requires NUL !in p
    ensures StrStr(p, p)
  {
    assert CStr(p) == p;
    assert OccursAt(p, p, 0);
  }

  lemma TunnelUpIsBlank(c: Conn, io: Outcome)
    requires |c.buffer| == CAP && c.received == 0 && Blank(c) && |io.data| < CAP
    ensures var c1 := TunnelUp(Store(c, io.data), io);
            c1.state.TlsHandshake? && c1.sockfd == c.sockfd && Blank(c1)
  {
    hide Splice, TUNNEL_OK;
  }

  /** The rounds that bring every connection to its handshake; `tls` is what a tunnel's set-up meets. */
  function ToHandshake(cfg: Config, n: nat, tls: TlsSetup): seq<Round> {
    if Tunnels(Poll, cfg) then
      [AllMeet(n, WRITABLE, FINE), AllMeet(n, WRITABLE, FINE), AllMeet(n, READABLE, FineBut(tls))]
    else [AllMeet(n, WRITABLE, FINE)]
  }

  /** HTTPS, with a port to dial, and through a tunnel a target to name. */
  predicate CanReachHandshake(cfg: Config) {
    && cfg.isHttps && ValidPort(Poll, Dialled(Poll, cfg).port)
    && (Tunnels(Poll, cfg) ==> CanName(Poll, cfg))
  }

  lemma ConnectedRound(cfg: Config, limit: nat, w: World)
    requires cfg.isHttps && WorldInv(Poll, cfg, w) && w != [] && Uniform(cfg, w, Connecting)
    ensures var end := PollRound(cfg, limit, w, AllMeet(|w|, WRITABLE, FINE));
            !end.halted && Uniform(cfg, end.world, if Tunnels(Poll, cfg) then ProxyConnect else TlsHandshake)
  {
    hide WorldInv, ConnInv, Handle, Shape, PollRound, Blank, Tunnels;
    InStep(cfg, limit, w, Connecting, WRITABLE, FINE);
    forall i | 0 <= i < |w| { ConnectedNext(Poll, cfg, w[i]); }
  }

  lemma RequestedRound(cfg: Config, limit: nat, w: World)
    requires WorldInv(Poll, cfg, w) && w != [] && Uniform(cfg, w, ProxyConnect)
    requires CanName(Poll, cfg)
    ensures var end := PollRound(cfg, limit, w, AllMeet(|w|, WRITABLE, FINE));
            !end.halted && Uniform(cfg, end.world, ProxyResponse)
  {
    hide WorldInv, ConnInv, Handle, Shape, PollRound, Blank;
    InStep(cfg, limit, w, ProxyConnect, WRITABLE, FINE);
    forall i | 0 <= i < |w| { RequestedNext(Poll, cfg, w[i]); }
  }

  lemma GrantedRound(cfg: Config, limit: nat, w: World, tls: TlsSetup)
    requires WorldInv(Poll, cfg, w) && w != [] && Uniform(cfg, w, ProxyResponse)
    ensures var end := PollRound(cfg, limit, w, AllMeet(|w|, READABLE, FineBut(tls)));
            && !end.halted && Uniform(cfg, end.world, TlsHandshake)
            && forall i | 0 <= i < |w| :: end.world[i].ssl.None? <==> NoObject(tls)
  {
    hide WorldInv, ConnInv, Handle, Shape, PollRound, Blank;
    InStep(cfg, limit, w, ProxyResponse, READABLE, FineBut(tls));
    forall i | 0 <= i < |w| { GrantedNext(Poll, cfg, w[i], tls); }
  }

  lemma OneRound(cfg: Config, limit: nat, w: World, r: Round, more: seq<Round>)
    requires WorldInv(Poll, cfg, w) && !PollRound(cfg, limit, w, r).halted
    ensures PollRun(cfg, limit, w, [r] + more) == PollRun(cfg, limit, PollRound(cfg, limit, w, r).world, more)
  {
    hide WorldInv, PollRound;
    assert ([r] + more)[1..] == more;
  }

  /** Every connection gets to its handshake, under any bound; through a tunnel it may lack its SSL object. */
  lemma AllReachHandshake(cfg: Config, limit: nat, n: nat, tls: TlsSetup, more: seq<Round>) returns (w: World)
    requires CanReachHandshake(cfg) && n > 0
    ensures WorldInv(Poll, cfg, w) && |w| == n && Uniform(cfg, w, TlsHandshake)
    ensures Tunnels(Poll, cfg) ==> forall i | 0 <= i < n :: w[i].ssl.None? <==> NoObject(tls)
    ensures PollBench(cfg, limit, n, AllDial(n), ToHandshake(cfg, n, tls) + more) == PollRun(cfg, limit, w, more)
  {
    hide WorldInv, PollRound, PollRun, Uniform, AllMeet, AllDial;
    StartIsUniform(cfg, n);
    w := Start(Poll, cfg, n, AllDial(n));
    var a, c := AllMeet(n, WRITABLE, FINE), AllMeet(n, READABLE, FineBut(tls));
    ConnectedRound(cfg, limit, w);
    if Tunnels(Poll, cfg) {
      assert [a, a, c] + more == [a] + ([a] + ([c] + more));
      OneRound(cfg, limit, w, a, [a] + ([c] + more));
      w := PollRound(cfg, limit, w, a).world;
      RequestedRound(cfg, limit, w);
      OneRound(cfg, limit, w, a, [c] + more);
      w := PollRound(cfg, limit, w, a).world;
      GrantedRound(cfg, limit, w, tls);
      OneRound(cfg, limit, w, c, more);
      w := PollRound(cfg, limit, w, c).world;
    } else {
      OneRound(cfg, limit, w, a, more);
      w := PollRound(cfg, limit, w, a).world;
    }
  }

  lemma NoMoreRounds(cfg: Config, limit: nat, w: World)
    requires WorldInv(Poll, cfg, w)
    ensures PollRun(cfg, limit, w, []) == w
  {
    hide WorldInv;
  }

  /** A handshake means that there was someone to dial, and through a tunnel someone to name. */
  lemma HandshakesAreReached(cfg: Config, limit: nat, n: nat, allocs: seq<Alloc>, rounds: seq<Round>, i: nat)
    requires i < n && PollBench(cfg, limit, n, allocs, rounds)[i].state.TlsHandshake?
    ensures CanReachHandshake(cfg)
    ensures PollBench(cfg, limit, n, allocs, rounds)[i].ssl.None? ==> Tunnels(Poll, cfg)
  {
    hide PollRun, BufferOk, WireOk, CountOk, HoldsOk;
    assert ConnInv(Poll, cfg, PollBench(cfg, limit, n, allocs, rounds)[i]);
  }
}
