/** Every attempt is bounded: handler calls either leave a connection as it is or bring it closer to its end. */
module Progress {
  import opened Text
  import opened Automaton
  import opened Invariants

  datatype Call = Call(ev: Events, io: Outcome)

  /** Handler calls a connection that starts to send its body has left, at most. */
  function SendingBudget(cfg: Config): nat {
    (if cfg.body == "" then 1 else |cfg.body|) + CAP
  }

  /** An upper bound on the handler calls that can still change the connection before its attempt ends. */
  function Budget(e: Engine, cfg: Config, c: Conn): nat
    requires Shape(cfg, c)
  {
    match c.state
    case Idle | Completed | Error => 0
    case Receiving => CAP - c.received
    case Sending => (if cfg.body == "" then 1 else |cfg.body| - c.sent) + CAP
    case TlsHandshake => 1 + SendingBudget(cfg)
    case ProxyResponse => CAP - c.received + 1 + SendingBudget(cfg)
    case ProxyConnect => |ConnectText(cfg)| - c.sent + CAP + 1 + SendingBudget(cfg)
    case Connecting =>
      1 + (if Tunnels(e, cfg) then |ConnectText(cfg)| + CAP + 1 else if cfg.isHttps then 1 else 0)
      + SendingBudget(cfg)
  }

  /** All fields of the source's structure are as before; only the history may have grown. */
  predicate Untouched(c: Conn, c1: Conn) {
    c1 == c.(log := c1.log)
  }

  lemma ProxySaidProgress(e: Engine, cfg: Config, c: Conn, got: string, io: Outcome)
    requires ConnInv(e, cfg, c) && c.state.ProxyResponse? && got != "" && c.received + |got| < CAP
    ensures ConnInv(e, cfg, ProxySaid(c, got, io))
    ensures Budget(e, cfg, ProxySaid(c, got, io)) < Budget(e, cfg, c)
  {
    ProxySaidKept(e, cfg, c, got, io);
    InvShape(e, cfg, ProxySaid(c, got, io));
  }

  lemma ServerSaidProgress(e: Engine, cfg: Config, c: Conn, got: string)
    requires ConnInv(e, cfg, c) && c.state.Receiving? && got != "" && c.received + |got| < CAP
    ensures ConnInv(e, cfg, ServerSaid(c, got))
    ensures Budget(e, cfg, ServerSaid(c, got)) < Budget(e, cfg, c)
  {
    ServerSaidKept(e, cfg, c, got);
    InvShape(e, cfg, ServerSaid(c, got));
    hide ConnInv, StrStr, Zeros, ConnectText, Splice;
  }

  lemma WroteProgress(e: Engine, cfg: Config, c: Conn, n: nat)
    requires ConnInv(e, cfg, c) && c.state.Sending? && 0 < n <= |cfg.body| - c.sent
    ensures ConnInv(e, cfg, Wrote(cfg, c, n))
    ensures Budget(e, cfg, Wrote(cfg, c, n)) < Budget(e, cfg, c)
  {
    WroteKept(e, cfg, c, n);
    InvShape(e, cfg, Wrote(cfg, c, n));
    assert c.received == 0;
  }

  /** The call left every field as it was, or lowered the budget. */
  predicate WaitsOrAdvances(e: Engine, cfg: Config, c: Conn, c1: Conn) {
    Shape(cfg, c) && Shape(cfg, c1) && (Untouched(c, c1) || Budget(e, cfg, c1) < Budget(e, cfg, c))
  }

  /**
   The `send` of a CONNECT request fails behind its first byte in the epoll engine, where the result is
   held in a `size_t`: the offset moves back.
   */
  predicate SendGoesBack(e: Engine, cfg: Config, c: Conn, io: Outcome) {
    e.Epoll? && CanConnect(e, cfg, c) && io.offer == 0 && !io.eof && c.sent > 0
  }

  /** A handler call in which that happens. */
  predicate LosesGround(e: Engine, cfg: Config, c: Conn, ev: Events, io: Outcome) {
    c.state.ProxyConnect? && !ev.bad && ev.writable && SendGoesBack(e, cfg, c, io)
  }

  lemma ProxyResponseProgress(e: Engine, cfg: Config, c: Conn, io: Outcome)
    requires ConnInv(e, cfg, c) && c.state.ProxyResponse?
    ensures WaitsOrAdvances(e, cfg, c, OnProxyResponse(e, cfg, c, io))
  {
    var got := Got(io, CAP - c.received - 1);
    ProxyResponseKept(e, cfg, c, io);
    InvShape(e, cfg, OnProxyResponse(e, cfg, c, io));
    if got != "" {
      ProxySaidProgress(e, cfg, c, got, io);
    } else if c.received == CAP - 1 {
      FullBufferIsTerminated(c);
      StrStrIgnoresPadding(c.log.inbox, 1, TUNNEL_OK);
    }
    assert BufferOk(cfg, c);
  }

  lemma ReceivingProgress(e: Engine, cfg: Config, c: Conn, io: Outcome)
    requires ConnInv(e, cfg, c) && c.state.Receiving?
    ensures WaitsOrAdvances(e, cfg, c, OnReceiving(cfg, c, io))
  {
    hide ConnInv, ConnectText, ServerSaid, Splice;
    InvShape(e, cfg, c);
    var got := Got(io, CAP - c.received - 1);
    if got != "" {
      ServerSaidProgress(e, cfg, c, got);
      InvShape(e, cfg, ServerSaid(c, got));
    }
  }

  lemma SendingFacts(e: Engine, cfg: Config, c: Conn)
    requires ConnInv(e, cfg, c) && c.state.Sending?
    ensures |c.buffer| == CAP && c.received == 0 && c.sent <= |cfg.body| && (c.sent == |cfg.body| ==> c.sent == 0)
    ensures cfg.isHttps ==> c.ssl.Some?
  {
  }

  lemma SendingProgress(e: Engine, cfg: Config, c: Conn, io: Outcome)
    requires ConnInv(e, cfg, c) && c.state.Sending?
    ensures WaitsOrAdvances(e, cfg, c, OnSending(cfg, c, io))
  {
    hide ConnInv, ConnectText, Wrote;
    SendingFacts(e, cfg, c);
    var n := Min(io.offer, |cfg.body| - c.sent);
    if n > 0 {
      WroteProgress(e, cfg, c, n);
      InvShape(e, cfg, Wrote(cfg, c, n));
    }
  }

  lemma ProxyConnectProgress(e: Engine, cfg: Config, c: Conn, io: Outcome)
    requires ConnInv(e, cfg, c) && c.state.ProxyConnect?
    ensures var c1 := OnProxyConnect(e, cfg, c, io); var back := SendGoesBack(e, cfg, c, io);
            && (WaitsOrAdvances(e, cfg, c, c1) <==> !back)
            && (back ==> c1 == c.(sent := c.sent - 1))
  {
    hide ConnInv, ConnectText, CanConnect;
    OffsetInPhase(e, cfg, c);
  }

  lemma OffsetInPhase(e: Engine, cfg: Config, c: Conn)
    requires ConnInv(e, cfg, c) && c.state.ProxyConnect?
    ensures c.sent < |ConnectText(cfg)| && c.received == 0 && |c.buffer| == CAP
  {
  }

  lemma ConnectingProgress(e: Engine, cfg: Config, c: Conn, io: Outcome)
    requires ConnInv(e, cfg, c) && c.state.Connecting?
    ensures WaitsOrAdvances(e, cfg, c, OnConnecting(e, cfg, c, io))
  {
    assert |c.buffer| == CAP && c.received == 0 && c.sent == 0;
  }

  lemma HandshakeProgress(e: Engine, cfg: Config, c: Conn, io: Outcome)
    requires ConnInv(e, cfg, c) && c.state.TlsHandshake?
    ensures WaitsOrAdvances(e, cfg, c, OnHandshake(c, io))
  {
    assert |c.buffer| == CAP && c.received == 0 && c.sent == 0;
  }

  lemma FailureProgress(e: Engine, cfg: Config, c: Conn)
    requires ConnInv(e, cfg, c) && Active(c.state)
    ensures WaitsOrAdvances(e, cfg, c, Failed(c)) && WaitsOrAdvances(e, cfg, c, c)
  {
    InvShape(e, cfg, c);
    assert StageOk(e, cfg, c);
  }

  /**
   A handler call leaves every field as it was, or lowers the budget, unless a `send` of the epoll
   engine goes back: then it does neither, and the offset is one less.
   */
  lemma EveryCallWaitsOrAdvances(e: Engine, cfg: Config, c: Conn, ev: Events, io: Outcome)
    requires ConnInv(e, cfg, c) && Active(c.state)
    ensures Shape(cfg, c)
    ensures var c1 := Handle(e, cfg, c, ev, io);
            && (WaitsOrAdvances(e, cfg, c, c1) <==> !LosesGround(e, cfg, c, ev, io))
            && (LosesGround(e, cfg, c, ev, io) ==> c1 == c.(sent := c.sent - 1))
  {
    hide ConnInv, WaitsOrAdvances, SendGoesBack, OnConnecting, OnProxyConnect, OnProxyResponse,
      OnHandshake, OnSending, OnReceiving;
    InvShape(e, cfg, c);
    FailureProgress(e, cfg, c);
    match c.state
    case Connecting => ConnectingProgress(e, cfg, c, io);
    case ProxyConnect => ProxyConnectProgress(e, cfg, c, io);
    case ProxyResponse => ProxyResponseProgress(e, cfg, c, io);
    case TlsHandshake => HandshakeProgress(e, cfg, c, io);
    case Sending => SendingProgress(e, cfg, c, io);
    case Receiving => ReceivingProgress(e, cfg, c, io);
  }

  /**
   A call that finds nothing to do: the events are not those the state waits for, the operation asks to
   be retried, or the handshake has no SSL object to work with.
   */
  predicate NothingToDo(e: Engine, cfg: Config, c: Conn, ev: Events, io: Outcome) {
    !ev.bad &&
    match c.state
    case Connecting => !ev.writable
    case ProxyConnect => !ev.writable || (CanConnect(e, cfg, c) && io.offer == 0 && io.again && (e.Poll? || io.eof))
    case ProxyResponse => !ev.readable || (c.received < CAP - 1 && io.data == "" && io.again)
    case TlsHandshake => c.ssl.None? || !(ev.readable || ev.writable) || (!io.handshake && io.want)
    case Sending =>
      !ev.writable ||
      (cfg.body != "" && io.offer == 0 && (if cfg.isHttps then io.want else !io.eof && io.again))
    case Receiving =>
      !ev.readable ||
      (c.received < CAP - 1 && io.data == "" && (if cfg.isHttps then io.want else !io.eof && io.again))
    case Idle | Completed | Error => true
  }

  lemma ReadingAdvances(e: Engine, cfg: Config, c: Conn, ev: Events, io: Outcome)
    requires ConnInv(e, cfg, c) && (c.state.Receiving? || c.state.ProxyResponse?) && !ev.bad
    ensures Shape(cfg, c) && (Untouched(c, Handle(e, cfg, c, ev, io)) <==> NothingToDo(e, cfg, c, ev, io))
  {
    hide StageOk, WireOk, CountOk, StrStr, Zeros, Splice, SetupSsl;
    InvShape(e, cfg, c);
    assert c.sockfd > 0;
    var got := Got(io, CAP - c.received - 1);
    if got != "" {
      ReceivedMore(c, got, io);
    }
  }

  lemma ReceivedMore(c: Conn, got: string, io: Outcome)
    requires |c.buffer| == CAP && c.received + |got| < CAP && got != ""
    ensures c.state.Receiving? ==> !Untouched(c, ServerSaid(c, got))
    ensures c.state.ProxyResponse? ==> !Untouched(c, ProxySaid(c, got, io))
  {
    hide StrStr, Zeros, Splice;
  }

  lemma WritingAdvances(e: Engine, cfg: Config, c: Conn, ev: Events, io: Outcome)
    requires ConnInv(e, cfg, c) && !ev.bad
    requires c.state.Connecting? || c.state.ProxyConnect? || c.state.TlsHandshake? || c.state.Sending?
    ensures Shape(cfg, c) && (Untouched(c, Handle(e, cfg, c, ev, io)) <==> NothingToDo(e, cfg, c, ev, io))
  {
    hide BufferOk, WireOk, CountOk, HoldsOk, ConnectText;
    InvShape(e, cfg, c);
  }

  /**
   A call leaves every field as it was exactly when there is nothing to do; any other lowers the budget or
   loses ground.
   */
  lemma UntouchedExactly(e: Engine, cfg: Config, c: Conn, ev: Events, io: Outcome)
    requires ConnInv(e, cfg, c) && Active(c.state)
    ensures Shape(cfg, c)
    ensures var c1 := Handle(e, cfg, c, ev, io);
            && (Untouched(c, c1) <==> NothingToDo(e, cfg, c, ev, io))
            && (!Untouched(c, c1) && !LosesGround(e, cfg, c, ev, io) ==>
                  Shape(cfg, c1) && Budget(e, cfg, c1) < Budget(e, cfg, c))
            && (LosesGround(e, cfg, c, ev, io) ==> c1 == c.(sent := c.sent - 1))
  {
    hide ConnInv, Budget, NothingToDo, LosesGround, OnConnecting, OnHandshake,
      OnProxyConnect, OnProxyResponse, OnSending, OnReceiving;
    EveryCallWaitsOrAdvances(e, cfg, c, ev, io);
    if ev.bad {
      BadIsSomething(e, cfg, c, ev, io);
    } else if c.state.Receiving? || c.state.ProxyResponse? {
      ReadingAdvances(e, cfg, c, ev, io);
    } else {
      WritingAdvances(e, cfg, c, ev, io);
    }
  }

  /** Bytes to read, room to write, and everything else as one would wish. */
  const BUSY := Outcome(true, Bound, 1, "x", false, false, false, true)

  predicate Awaited(s: State, ev: Events) {
    (ev.readable && Interest(s).readable) || (ev.writable && Interest(s).writable)
  }

  /**
   The mask a state is watched with is exactly what its handler answers: any other event finds nothing
   to do, and each event of the mask can find something, unless a handshake has no SSL object.
   */
  lemma InterestIsExact(e: Engine, cfg: Config, c: Conn, ev: Events)
    requires ConnInv(e, cfg, c) && Active(c.state) && !ev.bad
    ensures !Awaited(c.state, ev) ==> forall io: Outcome :: NothingToDo(e, cfg, c, ev, io)
    ensures Awaited(c.state, ev) && !(c.state.TlsHandshake? && c.ssl.None?) ==>
              Shape(cfg, c) && !Untouched(c, Handle(e, cfg, c, ev, BUSY))
  {
    hide ConnInv, Handle, Untouched, Budget, Shape;
    if Awaited(c.state, ev) {
      UntouchedExactly(e, cfg, c, ev, BUSY);
    }
  }

  lemma BadIsSomething(e: Engine, cfg: Config, c: Conn, ev: Events, io: Outcome)
    requires Shape(cfg, c) && ev.bad
    ensures !Untouched(c, Handle(e, cfg, c, ev, io)) && !NothingToDo(e, cfg, c, ev, io)
  {
  }

  /** A sequence of handler calls on one connection, up to the end of its attempt. */
  ghost function Calls(e: Engine, cfg: Config, c: Conn, calls: seq<Call>): (c1: Conn)
    requires ConnInv(e, cfg, c)
    ensures ConnInv(e, cfg, c1)
    decreases |calls|
  {
    if calls == [] || !Active(c.state) then c
    else
      HandleKeepsInv(e, cfg, c, calls[0].ev, calls[0].io);
      Calls(e, cfg, Handle(e, cfg, c, calls[0].ev, calls[0].io), calls[1..])
  }

  /** How many of those calls had something to do. */
  ghost function Moves(e: Engine, cfg: Config, c: Conn, calls: seq<Call>): nat
    requires ConnInv(e, cfg, c)
    decreases |calls|
  {
    if calls == [] || !Active(c.state) then 0
    else
      HandleKeepsInv(e, cfg, c, calls[0].ev, calls[0].io);
      (if NothingToDo(e, cfg, c, calls[0].ev, calls[0].io) then 0 else 1)
      + Moves(e, cfg, Handle(e, cfg, c, calls[0].ev, calls[0].io), calls[1..])
  }

  /** How many of them lost ground. */
  ghost function Losses(e: Engine, cfg: Config, c: Conn, calls: seq<Call>): nat
    requires ConnInv(e, cfg, c)
    decreases |calls|
  {
    if calls == [] || !Active(c.state) then 0
    else
      HandleKeepsInv(e, cfg, c, calls[0].ev, calls[0].io);
      (if LosesGround(e, cfg, c, calls[0].ev, calls[0].io) then 1 else 0)
      + Losses(e, cfg, Handle(e, cfg, c, calls[0].ev, calls[0].io), calls[1..])
  }

  lemma UntouchedBudget(e: Engine, cfg: Config, c: Conn, c1: Conn)
    requires Shape(cfg, c) && Untouched(c, c1)
    ensures Shape(cfg, c1) && Budget(e, cfg, c1) == Budget(e, cfg, c)
  {
  }

  /** What a lost byte costs, and that it is something to do. */
  lemma LossBudget(e: Engine, cfg: Config, c: Conn, ev: Events, io: Outcome)
    requires Shape(cfg, c) && LosesGround(e, cfg, c, ev, io)
    ensures !NothingToDo(e, cfg, c, ev, io)
    ensures var c1 := c.(sent := c.sent - 1); Shape(cfg, c1) && Budget(e, cfg, c1) == Budget(e, cfg, c) + 1
  {
    hide ConnectText;
  }

  lemma {:induction false} MovesAreBounded(e: Engine, cfg: Config, c: Conn, calls: seq<Call>)
    requires ConnInv(e, cfg, c)
    ensures Shape(cfg, c) && Shape(cfg, Calls(e, cfg, c, calls))
    ensures Moves(e, cfg, c, calls) + Budget(e, cfg, Calls(e, cfg, c, calls))
         <= Budget(e, cfg, c) + 2 * Losses(e, cfg, c, calls)
    decreases |calls|
  {
    hide Handle, ConnInv, Budget, NothingToDo, LosesGround, Untouched, Shape;
    InvShape(e, cfg, c);
    if calls != [] && Active(c.state) {
      var ev, io := calls[0].ev, calls[0].io;
      var c1 := Handle(e, cfg, c, ev, io);
      HandleKeepsInv(e, cfg, c, ev, io);
      UntouchedExactly(e, cfg, c, ev, io);
      if Untouched(c, c1) {
        UntouchedBudget(e, cfg, c, c1);
      }
      if LosesGround(e, cfg, c, ev, io) {
        LossBudget(e, cfg, c, ev, io);
      }
      MovesAreBounded(e, cfg, c1, calls[1..]);
    }
  }

  /** Nothing is lost by the poll engine, nor where no CONNECT request can be sent. */
  lemma {:induction false} NothingLost(e: Engine, cfg: Config, c: Conn, calls: seq<Call>)
    requires ConnInv(e, cfg, c) && (e.Poll? || !Tunnels(e, cfg) || !CanName(e, cfg))
    ensures Losses(e, cfg, c, calls) == 0
    decreases |calls|
  {
    hide Handle, BufferOk, WireOk, CountOk, HoldsOk;
    if calls != [] && Active(c.state) {
      HandleKeepsInv(e, cfg, c, calls[0].ev, calls[0].io);
      NothingLost(e, cfg, Handle(e, cfg, c, calls[0].ev, calls[0].io), calls[1..]);
    }
  }

  /** The calls with something to do that a new attempt has room for. */
  function AttemptBound(e: Engine, cfg: Config): nat {
    CAP + 1 + (if cfg.body == "" then 1 else |cfg.body|)
    + (if Tunnels(e, cfg) then |ConnectText(cfg)| + CAP + 1 else if cfg.isHttps then 1 else 0)
  }

  /**
   A new attempt ends within 8097 + max(1, request length) calls that have something to do for plain
   HTTP, one more for HTTPS without a tunnel, and the CONNECT exchange on top of that through a tunnel:
   while it is still active, fewer such calls than that have been made. Each call that loses ground,
   which only the epoll engine's tunnel knows, makes room for two more.
   */
  lemma AttemptsEnd(e: Engine, cfg: Config, c: Conn, calls: seq<Call>)
    requires ConnInv(e, cfg, c) && c.state.Connecting?
    ensures var bound := AttemptBound(e, cfg) + 2 * Losses(e, cfg, c, calls);
            && Moves(e, cfg, c, calls) <= bound
            && (Active(Calls(e, cfg, c, calls).state) ==> Moves(e, cfg, c, calls) < bound)
    ensures e.Poll? || !Tunnels(e, cfg) || !CanName(e, cfg) ==> Losses(e, cfg, c, calls) == 0
  {
    hide Handle, Moves, Calls, Losses, ConnectText;
    MovesAreBounded(e, cfg, c, calls);
    BudgetIsPositive(e, cfg, Calls(e, cfg, c, calls));
    if e.Poll? || !Tunnels(e, cfg) || !CanName(e, cfg) {
      NothingLost(e, cfg, c, calls);
    }
  }

  lemma BudgetIsPositive(e: Engine, cfg: Config, c: Conn)
    requires ConnInv(e, cfg, c)
    ensures Shape(cfg, c) && (Active(c.state) ==> Budget(e, cfg, c) > 0)
  {
    hide ConnectText, WireOk, CountOk, HoldsOk, Zeros, Contains;
  }

  /**
   The result of `setup_ssl_context` is ignored once a tunnel is up, so a handshake can begin without
   an SSL object. Such an attempt never ends unless the socket reports an error: this is exactly the
   case in which a handshake does not answer readiness.
   */
  lemma HandshakeWithoutSsl(e: Engine, cfg: Config, c: Conn, calls: seq<Call>)
    requires ConnInv(e, cfg, c) && c.state.TlsHandshake?
    requires forall k | 0 <= k < |calls| :: !calls[k].ev.bad
    ensures c.ssl.None? ==> Calls(e, cfg, c, calls) == c
    ensures c.ssl.Some? ==> forall ev: Events, io: Outcome | !ev.bad && ev.writable && (io.handshake || !io.want) ::
              Shape(cfg, c) && !Handle(e, cfg, c, ev, io).state.TlsHandshake?
    decreases |calls|
  {
    InvShape(e, cfg, c);
    if calls != [] && c.ssl.None? {
      HandshakeWithoutSsl(e, cfg, c, calls[1..]);
    }
  }

  lemma AnswerInOneRead(e: Engine, cfg: Config, c: Conn, io: Outcome)
    requires |c.buffer| == CAP && c.sockfd > 0 && c.received == 0 && 0 < |io.data| < CAP
    ensures OnProxyResponse(e, cfg, c, io) == ProxySaid(c, io.data, io)
  {
    hide ProxySaid, TunnelUp, StrStr;
  }

  /** A proxy that grants the tunnel in one read: the phase goes straight to the TLS set-up. */
  lemma GrantInOneRead(e: Engine, cfg: Config, c: Conn, io: Outcome)
    requires ConnInv(e, cfg, c) && c.state.ProxyResponse? && c.received == 0
    requires 0 < |io.data| < CAP && StrStr(io.data, TUNNEL_OK)
    ensures |c.buffer| == CAP && OnProxyResponse(e, cfg, c, io) == TunnelUp(Store(c, io.data), io)
  {
    hide ConnInv, OnProxyResponse, Store, TunnelUp, StrStr, Padded;
    NothingReceived(e, cfg, c);
    AnswerInOneRead(e, cfg, c, io);
    StoreKeepsPadding(c, io.data);
  }

  lemma NothingReceived(e: Engine, cfg: Config, c: Conn)
    requires ConnInv(e, cfg, c) && c.state.ProxyResponse? && c.received == 0
    ensures Padded(c) && |c.buffer| == CAP && c.sockfd > 0
    ensures forall s :: c.log.inbox + s == s
  {
  }

  /**
   Whatever the answer was cut into, a tunnel that has been granted leads to a handshake without an SSL
   object exactly when OpenSSL has no context or no object to give.
   */
  lemma HandshakeWithoutSslHappens(e: Engine, cfg: Config, c: Conn, io: Outcome)
    requires ConnInv(e, cfg, c) && c.state.ProxyResponse?
    ensures |c.buffer| == CAP && c.received < CAP
    ensures var c1 := OnProxyResponse(e, cfg, c, io);
            c1.state.TlsHandshake? ==> (c1.ssl.None? <==> io.tls.NoContext? || io.tls.NoSsl?)
  {
    hide StrStr, Zeros, Splice, WireOk, CountOk, HoldsOk;
  }
}
