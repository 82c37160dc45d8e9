/** What every handler call, cleanup and socket allocation keeps true of one connection. */
module Invariants {
  import opened Text
  import opened Automaton

  /** The receive buffer is the received text followed by NULs. */
  predicate Padded(c: Conn) {
    && c.received == |c.log.inbox| < CAP
    && c.buffer == c.log.inbox + Zeros(CAP - |c.log.inbox|)
  }

  /** A response is complete: the end of its header has arrived, or the buffer is full. */
  predicate ResponseComplete(text: string) {
    StrStr(text, HEADER_END) || |text| == CAP - 1
  }

  /** Received bytes, per state. */
  predicate BufferOk(cfg: Config, c: Conn) {
    && Padded(c)
    && match c.state
       case Idle | Connecting | ProxyConnect | TlsHandshake | Sending => c.received == 0
       case ProxyResponse => !StrStr(c.log.inbox, TUNNEL_OK)
       case Receiving => !StrStr(c.log.inbox, HEADER_END)
       case Completed => !cfg.force ==> ResponseComplete(c.log.inbox)
       case Error => true
  }

  /** The body travels over TLS after a handshake for HTTPS, and never over TLS for HTTP. */
  predicate Channel(cfg: Config, c: Conn) {
    if cfg.isHttps then c.log.secured && c.ssl.Some? && c.log.tls == Clip(cfg.body, c.sent)
    else !c.log.secured && c.ssl.None? && c.log.tls == "" && c.log.retry.None?
  }

  predicate BeforeTls(c: Conn) {
    c.log.tls == "" && !c.log.secured && c.log.retry.None?
  }

  /** Offsets, TLS objects and TLS bytes, per state. */
  predicate StageOk(e: Engine, cfg: Config, c: Conn) {
    match c.state
    case Idle => c.sent == 0 && c.ssl.None?
    case Connecting => c.sent == 0 && c.ssl.None? && BeforeTls(c)
    case ProxyConnect => Tunnels(e, cfg) && c.sent < |ConnectText(cfg)| && c.ssl.None? && BeforeTls(c)
    case ProxyResponse => Tunnels(e, cfg) && c.sent == 0 && c.ssl.None? && BeforeTls(c)
    case TlsHandshake =>
      cfg.isHttps && c.sent == 0 && BeforeTls(c) && (!Tunnels(e, cfg) ==> c.ssl.Some?)
    case Sending =>
      && c.sent <= |cfg.body|
      && (c.sent == |cfg.body| ==> c.sent == 0)
      && Channel(cfg, c)
      && (c.log.retry.Some? ==> c.log.retry.value == (c.sent, |cfg.body| - c.sent))
    case Receiving => c.sent == |cfg.body| && Channel(cfg, c) && !cfg.force
    case Completed => c.sent == |cfg.body| && Channel(cfg, c)
    case Error =>
      && c.log.tls <= cfg.body
      && (c.log.tls != "" ==> c.log.secured)
      && (!cfg.isHttps ==> c.log.tls == "" && !c.log.secured && c.ssl.None?)
  }

  /** What must leave in clear before the handshake: the CONNECT request, if there is a tunnel. */
  function Preamble(e: Engine, cfg: Config): string {
    if Tunnels(e, cfg) then ConnectText(cfg) else ""
  }

  /** Bytes sent in clear, per state. */
  predicate WireOk(e: Engine, cfg: Config, c: Conn) {
    match c.state
    case Idle => true
    case Connecting => c.log.plain == ""
    case ProxyConnect => c.log.plain == Clip(ConnectText(cfg), c.sent)
    case ProxyResponse | TlsHandshake => c.log.plain == Preamble(e, cfg)
    case Sending | Receiving | Completed =>
      c.log.plain == if cfg.isHttps then Preamble(e, cfg) else Clip(cfg.body, c.sent)
    case Error =>
      if cfg.isHttps then c.log.plain <= Preamble(e, cfg) && (c.log.tls != "" ==> c.log.plain == Preamble(e, cfg))
      else c.log.plain <= cfg.body
  }

  function Sum(s: seq<nat>): nat {
    if s == [] then 0 else Sum(s[..|s| - 1]) + s[|s| - 1]
  }

  function InFlight(s: State): nat {
    if Active(s) then 1 else 0
  }

  /** Every attempt is accounted for once, and `bytes` adds up the completed responses. */
  predicate CountOk(cfg: Config, c: Conn) {
    && c.log.attempts == c.failed + c.speed + c.log.forced + InFlight(c.state)
    && c.speed == |c.log.replies|
    && c.bytes == Sum(c.log.replies)
    && (forall r | r in c.log.replies :: 4 <= r < CAP)
    && (if cfg.force then c.log.replies == [] else c.log.forced == 0)
  }

  /** The connection holds exactly the socket and the SSL object its fields name. */
  predicate HoldsOk(c: Conn) {
    && (c.state.Idle? <==> c.sockfd <= 0)
    && c.sockfd != 0
    && c.log.fds == (if c.sockfd > 0 then {c.sockfd} else {})
    && c.log.ssls == (if c.ssl.Some? then {c.ssl.value} else {})
    && c.log.socketsMade == c.log.socketsClosed + |c.log.fds|
    && c.sslMade == c.log.sslFreed + |c.log.ssls|
    && (forall h | h in c.log.ssls :: h < c.sslMade)
    && c.log.strayCloses == 0
  }

  /** The states behind the CONNECT request. */
  predicate PastConnect(s: State) {
    s.ProxyResponse? || s.TlsHandshake? || s.Sending? || s.Receiving? || s.Completed?
  }

  /** An attempt dials whom it should, and a tunnel has a target to name. */
  predicate PeersOk(e: Engine, cfg: Config, c: Conn) {
    && (!c.state.Idle? ==> ValidPort(e, Dialled(e, cfg).port) && c.log.peer == Some(Dialled(e, cfg)))
    && (Tunnels(e, cfg) && PastConnect(c.state) ==> CanName(e, cfg))
  }

  predicate ConnInv(e: Engine, cfg: Config, c: Conn) {
    && BufferOk(cfg, c)
    && StageOk(e, cfg, c)
    && (e.Poll? || !Tunnels(e, cfg) ==> WireOk(e, cfg, c))
    && CountOk(cfg, c)
    && HoldsOk(c)
    && PeersOk(e, cfg, c)
  }

  lemma InvShape(e: Engine, cfg: Config, c: Conn)
    requires ConnInv(e, cfg, c)
    ensures Shape(cfg, c)
  {
  }

  lemma SumAppend(s: seq<nat>, x: nat)
    ensures Sum(s + [x]) == Sum(s) + x
  {
    assert (s + [x])[..|s|] == s;
  }

  lemma StrStrEmpty(p: string)
    requires p != ""
    ensures !StrStr("", p)
  {
  }

  lemma StoreKeepsPadding(c: Conn, got: string)
    requires Padded(c) && c.received + |got| < CAP
    ensures Padded(Store(c, got))
    ensures Store(c, got).log.inbox == c.log.inbox + got
    ensures forall p :: StrStr(Store(c, got).buffer, p) <==> StrStr(c.log.inbox + got, p)
  {
    SpliceKeepsPadding(c.log.inbox, got, CAP);
    forall p ensures StrStr(Store(c, got).buffer, p) <==> StrStr(c.log.inbox + got, p) {
      StrStrIgnoresPadding(c.log.inbox + got, CAP - |c.log.inbox| - |got|, p);
    }
  }

  /** With the buffer full and no answer from the proxy, the attempt fails; the terminator write changes nothing. */
  lemma FullBufferIsTerminated(c: Conn)
    requires Padded(c) && c.received == CAP - 1
    ensures c.(buffer := c.buffer[CAP - 1 := NUL]) == c
  {
    assert c.buffer[CAP - 1 := NUL] == c.buffer;
  }

  lemma FinishKeepsCount(cfg: Config, c: Conn)
    requires CountOk(cfg, c) && Active(c.state) && !cfg.force && 4 <= c.received < CAP
    ensures CountOk(cfg, Finish(c))
  {
    SumAppend(c.log.replies, c.received);
  }

  /** The handler left the connection's socket alone and kept the invariant. */
  predicate Kept(e: Engine, cfg: Config, c: Conn, c1: Conn) {
    ConnInv(e, cfg, c1) && c1.sockfd == c.sockfd && c1.log.fds == c.log.fds
  }

  lemma SetupSslHolds(c: Conn, t: TlsSetup)
    requires HoldsOk(c) && c.ssl.None?
    ensures HoldsOk(SetupSsl(c, t))
  {
    var h := c.sslMade;
    assert c.log.ssls + {h} == {h};
  }

  lemma FailureKept(e: Engine, cfg: Config, c: Conn)
    requires ConnInv(e, cfg, c) && Active(c.state)
    ensures Kept(e, cfg, c, Failed(c))
  {
    hide Contains, Zeros, Sum, ConnectText;
  }

  lemma ConnectingKept(e: Engine, cfg: Config, c: Conn, io: Outcome)
    requires ConnInv(e, cfg, c) && c.state.Connecting?
    ensures Kept(e, cfg, c, OnConnecting(e, cfg, c, io))
  {
    hide Contains, Zeros, Sum, ConnectText;
    SetupSslHolds(c, io.tls);
  }

  /** The offset of the CONNECT phase moved to `sent`, or the phase over, with `plain` on the wire. */
  lemma ConnectOffsetKept(e: Engine, cfg: Config, c: Conn, sent: nat, plain: string)
    requires ConnInv(e, cfg, c) && c.state.ProxyConnect? && CanName(e, cfg)
    requires e.Poll? ==> plain == Clip(ConnectText(cfg), sent)
    ensures var c1 := c.(sent := sent, log := c.log.(plain := plain));
            Kept(e, cfg, c, if sent >= |ConnectText(cfg)| then c1.(sent := 0, state := ProxyResponse) else c1)
  {
    hide Contains, Zeros, Sum, ConnectText, Splice;
    StrStrEmpty(TUNNEL_OK);
  }

  lemma ProxyConnectKept(e: Engine, cfg: Config, c: Conn, io: Outcome)
    requires ConnInv(e, cfg, c) && c.state.ProxyConnect?
    ensures Kept(e, cfg, c, OnProxyConnect(e, cfg, c, io))
  {
    hide ConnInv, ConnectText, CanConnect, Failed, Kept;
    ConnectPhase(e, cfg, c);
    var text := ConnectText(cfg);
    var n := Min(io.offer, |text| - c.sent);
    if CanConnect(e, cfg, c) {
      CanConnectNames(e, cfg, c);
      if n > 0 {
        assert text[..c.sent] + text[c.sent..c.sent + n] == text[..c.sent + n];
        ConnectOffsetKept(e, cfg, c, c.sent + n, c.log.plain + text[c.sent..c.sent + n]);
      } else if e.Epoll? {
        ConnectOffsetKept(e, cfg, c, (c.sent + SIZE_T - 1) % SIZE_T, c.log.plain);
      }
    }
    FailureKept(e, cfg, c);
    StillKept(e, cfg, c);
  }

  lemma CanConnectNames(e: Engine, cfg: Config, c: Conn)
    requires CanConnect(e, cfg, c)
    ensures CanName(e, cfg)
  {
  }

  lemma ConnectPhase(e: Engine, cfg: Config, c: Conn)
    requires ConnInv(e, cfg, c) && c.state.ProxyConnect?
    ensures c.sent < |ConnectText(cfg)| && (e.Poll? ==> c.log.plain == ConnectText(cfg)[..c.sent])
  {
  }

  lemma StillKept(e: Engine, cfg: Config, c: Conn)
    requires ConnInv(e, cfg, c)
    ensures Kept(e, cfg, c, c)
  {
  }

  lemma TunnelUpKept(e: Engine, cfg: Config, c: Conn, io: Outcome)
    requires StageOk(e, cfg, c) && CountOk(cfg, c) && HoldsOk(c) && PeersOk(e, cfg, c) && c.state.ProxyResponse?
    requires e.Poll? || !Tunnels(e, cfg) ==> WireOk(e, cfg, c)
    ensures Kept(e, cfg, c, TunnelUp(c, io))
  {
    hide Contains, Sum, ConnectText;
    assert "" + Zeros(CAP) == Zeros(CAP);
    SetupSslHolds(c, io.tls);
  }

  lemma ProxySaidKept(e: Engine, cfg: Config, c: Conn, got: string, io: Outcome)
    requires ConnInv(e, cfg, c) && c.state.ProxyResponse? && c.received + |got| < CAP
    ensures Kept(e, cfg, c, ProxySaid(c, got, io))
  {
    hide Contains, Sum, Zeros, ConnectText, TunnelUp;
    StoreKeepsPadding(c, got);
    TunnelUpKept(e, cfg, Store(c, got), io);
  }

  lemma ProxyResponseKept(e: Engine, cfg: Config, c: Conn, io: Outcome)
    requires ConnInv(e, cfg, c) && c.state.ProxyResponse?
    ensures Kept(e, cfg, c, OnProxyResponse(e, cfg, c, io))
  {
    hide Contains, Sum, Zeros, ConnectText, TunnelUp, ProxySaid;
    var got := Got(io, CAP - c.received - 1);
    ProxySaidKept(e, cfg, c, got, io);
    FailureKept(e, cfg, c);
    if c.received == CAP - 1 {
      FullBufferIsTerminated(c);
      StrStrIgnoresPadding(c.log.inbox, 1, TUNNEL_OK);
    }
  }

  lemma HandshakeKept(e: Engine, cfg: Config, c: Conn, io: Outcome)
    requires ConnInv(e, cfg, c) && c.state.TlsHandshake? && c.ssl.Some?
    ensures Kept(e, cfg, c, OnHandshake(c, io))
  {
    hide Contains, Zeros, Sum, ConnectText;
  }

  /** What the next bytes of the body leave as it was, and that the body is one piece. */
  lemma WroteStage(e: Engine, cfg: Config, c: Conn, n: nat)
    requires ConnInv(e, cfg, c) && c.state.Sending? && 0 < n <= |cfg.body| - c.sent
    ensures var c1 := Wrote(cfg, c, n);
            && StageOk(e, cfg, c1) && (e.Poll? || !Tunnels(e, cfg) ==> WireOk(e, cfg, c1))
            && c1.received == 0 && c1.log.inbox == "" && c1.buffer == c.buffer
  {
    hide Zeros, Sum, ConnectText, StrStr, CountOk, HoldsOk, PeersOk;
    assert cfg.body[..c.sent] + cfg.body[c.sent..c.sent + n] == cfg.body[..c.sent + n];
  }

  lemma WroteRest(e: Engine, cfg: Config, c: Conn, n: nat)
    requires ConnInv(e, cfg, c) && c.state.Sending? && 0 < n <= |cfg.body| - c.sent
    ensures var c1 := Wrote(cfg, c, n);
            && CountOk(cfg, c1) && HoldsOk(c1) && PeersOk(e, cfg, c1)
            && c1.sockfd == c.sockfd && c1.log.fds == c.log.fds
            && (c1.state.Sending? || c1.state == if cfg.force then Completed else Receiving)
  {
    hide Zeros, Sum, ConnectText, BufferOk, WireOk, Channel;
  }

  lemma WroteKept(e: Engine, cfg: Config, c: Conn, n: nat)
    requires ConnInv(e, cfg, c) && c.state.Sending? && 0 < n <= |cfg.body| - c.sent
    ensures Kept(e, cfg, c, Wrote(cfg, c, n))
  {
    hide Wrote, Zeros, StrStr, StageOk, WireOk, CountOk, HoldsOk, PeersOk;
    WroteStage(e, cfg, c, n);
    WroteRest(e, cfg, c, n);
    StrStrEmpty(HEADER_END);
  }

  lemma SendingKept(e: Engine, cfg: Config, c: Conn, io: Outcome)
    requires ConnInv(e, cfg, c) && c.state.Sending?
    ensures Kept(e, cfg, c, OnSending(cfg, c, io))
  {
    hide Zeros, Sum, ConnectText, Contains, Wrote;
    var n := Min(io.offer, |cfg.body| - c.sent);
    if n > 0 {
      WroteKept(e, cfg, c, n);
    }
    FailureKept(e, cfg, c);
    StrStrEmpty(HEADER_END);
  }

  lemma FinishKept(e: Engine, cfg: Config, c: Conn)
    requires StageOk(e, cfg, c) && CountOk(cfg, c) && HoldsOk(c) && PeersOk(e, cfg, c) && c.state.Receiving?
    requires e.Poll? || !Tunnels(e, cfg) ==> WireOk(e, cfg, c)
    requires Padded(c) && ResponseComplete(c.log.inbox)
    ensures Kept(e, cfg, c, Finish(c))
  {
    if StrStr(c.log.inbox, HEADER_END) {
      ContainsNonEmpty(c.log.inbox, HEADER_END);
    }
    FinishKeepsCount(cfg, c);
  }

  /** Storing received bytes touches nothing but the buffer. */
  lemma StoreKeepsRest(e: Engine, cfg: Config, c: Conn, got: string)
    requires ConnInv(e, cfg, c) && c.state.Receiving? && c.received + |got| < CAP
    ensures var c1 := Store(c, got);
            && c1.state == c.state && c1.sockfd == c.sockfd && c1.log.fds == c.log.fds
            && StageOk(e, cfg, c1) && (e.Poll? || !Tunnels(e, cfg) ==> WireOk(e, cfg, c1))
            && CountOk(cfg, c1) && HoldsOk(c1) && PeersOk(e, cfg, c1)
  {
    hide Splice, Zeros, Sum, StrStr, ConnectText;
  }

  lemma ServerSaidKept(e: Engine, cfg: Config, c: Conn, got: string)
    requires ConnInv(e, cfg, c) && c.state.Receiving? && c.received + |got| < CAP
    ensures Kept(e, cfg, c, ServerSaid(c, got))
  {
    hide StrStr, Zeros, Finish, Store, StageOk, WireOk, CountOk, HoldsOk, PeersOk;
    StoreKeepsPadding(c, got);
    StoreKeepsRest(e, cfg, c, got);
    if StrStr(Store(c, got).buffer, HEADER_END) {
      FinishKept(e, cfg, Store(c, got));
    }
  }

  lemma ReceivingKept(e: Engine, cfg: Config, c: Conn, io: Outcome)
    requires ConnInv(e, cfg, c) && c.state.Receiving?
    ensures Kept(e, cfg, c, OnReceiving(cfg, c, io))
  {
    hide Contains, Sum, Zeros, ConnectText, Finish, ServerSaid;
    var got := Got(io, CAP - c.received - 1);
    ServerSaidKept(e, cfg, c, got);
    FailureKept(e, cfg, c);
    if c.received == CAP - 1 {
      FinishKept(e, cfg, c);
    }
  }

  /** One handler call on a connection that was active when it was polled. */
  lemma HandleKeepsInv(e: Engine, cfg: Config, c: Conn, ev: Events, io: Outcome)
    requires ConnInv(e, cfg, c) && Active(c.state)
    ensures Shape(cfg, c)
    ensures Kept(e, cfg, c, Handle(e, cfg, c, ev, io))
  {
    InvShape(e, cfg, c);
    FailureKept(e, cfg, c);
    match c.state
    case Connecting => ConnectingKept(e, cfg, c, io);
    case ProxyConnect => ProxyConnectKept(e, cfg, c, io);
    case ProxyResponse => ProxyResponseKept(e, cfg, c, io);
    case TlsHandshake => if c.ssl.Some? { HandshakeKept(e, cfg, c, io); }
    case Sending => SendingKept(e, cfg, c, io);
    case Receiving => ReceivingKept(e, cfg, c, io);
  }

  /** Cleaning up a connection with no attempt in flight. */
  lemma CleanupKeepsInv(e: Engine, cfg: Config, c: Conn)
    requires ConnInv(e, cfg, c) && !Active(c.state)
    ensures ConnInv(e, cfg, Cleanup(e, c))
    ensures Cleanup(e, c).state == Idle && Cleanup(e, c).log.fds == {}
  {
  }

  lemma AllocateKeepsInv(e: Engine, cfg: Config, c: Conn, a: Alloc, open: set<int>)
    requires ConnInv(e, cfg, c) && c.state == Idle
    ensures var c1 := Allocate(e, cfg, c, a, open);
            && ConnInv(e, cfg, c1)
            && (c1.state.Idle? || c1.state.Connecting?)
            && (forall f | f in c1.log.fds :: f !in open)
  {
  }

  lemma FreshInv(e: Engine, cfg: Config)
    ensures ConnInv(e, cfg, FRESH)
  {
    assert "" + Zeros(CAP) == Zeros(CAP);
  }
}
