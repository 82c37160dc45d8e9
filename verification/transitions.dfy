/**
 The handler told by what it meets: when an attempt fails, when it moves on and where to, and what one call
 adds to the counters, to the wire and to the text received. Everything is said of events, outcomes,
 configuration and history, with ports, sizes and states spelled out.
 */
module Transitions {
  import opened Text
  import opened Automaton
  import opened Invariants

  /** Connections go to the proxy: there is one, and its port is good (2 is epoll's lowest, 1 poll's). */
  predicate ByProxy(e: Engine, cfg: Config) {
    cfg.proxyHost != "" && (if e.Poll? then 1 else 2) <= cfg.proxyPort <= 65535
  }

  /** A CONNECT request has a host and a good port to name. */
  predicate Nameable(e: Engine, cfg: Config) {
    cfg.targetHost != "" && (if e.Poll? then 1 else 2) <= cfg.targetPort <= 65535
  }

  /** The text received after a read: the buffer takes 8095 bytes and a terminator. */
  function TextAfter(c: Conn, io: Outcome): string {
    c.log.inbox + Clip(io.data, 8095 - Min(c.received, 8095))
  }

  // When an attempt fails.

  /** A read delivers nothing, and not because it has to wait. */
  predicate ReadBreaks(c: Conn, io: Outcome, waits: bool) {
    c.received < 8095 && io.data == "" && !waits
  }

  /** What makes a state fail, besides an error reported for the socket. */
  predicate Breaks(e: Engine, cfg: Config, c: Conn, ev: Events, io: Outcome) {
    match c.state
    case Connecting =>
      ev.writable && (!io.connected || (cfg.isHttps && !ByProxy(e, cfg) && io.tls != Bound))
    case ProxyConnect =>
      ev.writable && (!Nameable(e, cfg) || (io.offer == 0 && !io.again && (e.Poll? || io.eof)))
    case ProxyResponse =>
      ev.readable && (c.received == 8095 || ReadBreaks(c, io, io.again))
    case TlsHandshake =>
      c.ssl.Some? && (ev.readable || ev.writable) && !io.handshake && !io.want
    case Sending =>
      && ev.writable && cfg.body != "" && io.offer == 0
      && (if cfg.isHttps then !io.want else io.eof || !io.again)
    case Receiving =>
      ev.readable && ReadBreaks(c, io, if cfg.isHttps then io.want else io.again && !io.eof)
    case Idle | Completed | Error => false
  }

  lemma ConnectingFails(e: Engine, cfg: Config, c: Conn, ev: Events, io: Outcome)
    requires ConnInv(e, cfg, c) && c.state.Connecting?
    ensures Shape(cfg, c)
    ensures Handle(e, cfg, c, ev, io).state.Error? <==> ev.bad || Breaks(e, cfg, c, ev, io)
  {
    hide ConnInv, ConnectText;
    InvShape(e, cfg, c);
  }

  lemma OffsetInText(e: Engine, cfg: Config, c: Conn)
    requires ConnInv(e, cfg, c) && c.state.ProxyConnect?
    ensures c.sent < |ConnectText(cfg)| && c.sockfd > 0 && ByProxy(e, cfg) && cfg.isHttps
  {
    hide BufferOk, WireOk, CountOk;
  }

  lemma ProxyConnectFails(e: Engine, cfg: Config, c: Conn, ev: Events, io: Outcome)
    requires ConnInv(e, cfg, c) && c.state.ProxyConnect?
    ensures Shape(cfg, c)
    ensures Handle(e, cfg, c, ev, io).state.Error? <==> ev.bad || Breaks(e, cfg, c, ev, io)
  {
    hide ConnInv, ConnectText;
    InvShape(e, cfg, c);
    OffsetInText(e, cfg, c);
  }

  lemma ProxyResponseFails(e: Engine, cfg: Config, c: Conn, ev: Events, io: Outcome)
    requires ConnInv(e, cfg, c) && c.state.ProxyResponse?
    ensures Shape(cfg, c)
    ensures Handle(e, cfg, c, ev, io).state.Error? <==> ev.bad || Breaks(e, cfg, c, ev, io)
  {
    hide ConnInv, ConnectText, Padded, StrStr, Zeros, Splice, SetupSsl;
    InvShape(e, cfg, c);
    AwaitsAnswer(e, cfg, c);
    if c.received == CAP - 1 {
      FullBufferIsTerminated(c);
    }
  }

  lemma AwaitsAnswer(e: Engine, cfg: Config, c: Conn)
    requires ConnInv(e, cfg, c) && c.state.ProxyResponse?
    ensures Padded(c) && c.sockfd > 0 && !StrStr(c.buffer, TUNNEL_OK)
  {
    hide StrStr, Zeros, ConnectText, WireOk, CountOk;
    StrStrIgnoresPadding(c.log.inbox, CAP - |c.log.inbox|, TUNNEL_OK);
  }

  lemma TlsHandshakeFails(e: Engine, cfg: Config, c: Conn, ev: Events, io: Outcome)
    requires ConnInv(e, cfg, c) && c.state.TlsHandshake?
    ensures Shape(cfg, c)
    ensures Handle(e, cfg, c, ev, io).state.Error? <==> ev.bad || Breaks(e, cfg, c, ev, io)
  {
    hide ConnInv, ConnectText;
    InvShape(e, cfg, c);
  }

  lemma SendsFrom(e: Engine, cfg: Config, c: Conn)
    requires ConnInv(e, cfg, c) && c.state.Sending?
    ensures c.sent <= |cfg.body| && (c.sent == |cfg.body| <==> cfg.body == "") && (cfg.isHttps ==> c.ssl.Some?)
  {
    hide BufferOk, WireOk, CountOk, HoldsOk;
  }

  lemma SendingFails(e: Engine, cfg: Config, c: Conn, ev: Events, io: Outcome)
    requires ConnInv(e, cfg, c) && c.state.Sending?
    ensures Shape(cfg, c)
    ensures Handle(e, cfg, c, ev, io).state.Error? <==> ev.bad || Breaks(e, cfg, c, ev, io)
  {
    hide ConnInv, ConnectText;
    InvShape(e, cfg, c);
    SendsFrom(e, cfg, c);
  }

  lemma ReceivingFails(e: Engine, cfg: Config, c: Conn, ev: Events, io: Outcome)
    requires ConnInv(e, cfg, c) && c.state.Receiving?
    ensures Shape(cfg, c)
    ensures Handle(e, cfg, c, ev, io).state.Error? <==> ev.bad || Breaks(e, cfg, c, ev, io)
  {
    hide ConnInv, ConnectText, StrStr, Splice;
    InvShape(e, cfg, c);
  }

  /** An attempt fails in a handler call exactly if the socket reports an error or the state's own operation breaks. */
  lemma FailsExactly(e: Engine, cfg: Config, c: Conn, ev: Events, io: Outcome)
    requires ConnInv(e, cfg, c) && Active(c.state)
    ensures Shape(cfg, c)
    ensures Handle(e, cfg, c, ev, io).state.Error? <==> ev.bad || Breaks(e, cfg, c, ev, io)
  {
    hide ConnInv, Handle, Shape, Breaks;
    match c.state
    case Connecting => ConnectingFails(e, cfg, c, ev, io);
    case ProxyConnect => ProxyConnectFails(e, cfg, c, ev, io);
    case ProxyResponse => ProxyResponseFails(e, cfg, c, ev, io);
    case TlsHandshake => TlsHandshakeFails(e, cfg, c, ev, io);
    case Sending => SendingFails(e, cfg, c, ev, io);
    case Receiving => ReceivingFails(e, cfg, c, ev, io);
  }

  // When it moves on.

  /** Where an attempt goes from a state that has done its part. */
  function Successor(e: Engine, cfg: Config, s: State): State {
    match s
    case Connecting => if !cfg.isHttps then Sending else if ByProxy(e, cfg) then ProxyConnect else TlsHandshake
    case ProxyConnect => ProxyResponse
    case ProxyResponse => TlsHandshake
    case TlsHandshake => Sending
    case Sending => if cfg.force then Completed else Receiving
    case Receiving => Completed
    case Idle | Completed | Error => s
  }

  /** A state has done its part. The epoll engine also takes a failed first `send` of the CONNECT request for that. */
  predicate Succeeds(e: Engine, cfg: Config, c: Conn, ev: Events, io: Outcome) {
    match c.state
    case Connecting => ev.writable && io.connected && (cfg.isHttps && !ByProxy(e, cfg) ==> io.tls == Bound)
    case ProxyConnect =>
      && ev.writable && Nameable(e, cfg)
      && (c.sent + io.offer >= |ConnectText(cfg)| || (e.Epoll? && c.sent == 0 && io.offer == 0 && !io.eof))
    case ProxyResponse =>
      ev.readable && c.received < 8095 && io.data != "" && StrStr(TextAfter(c, io), TUNNEL_OK)
    case TlsHandshake => c.ssl.Some? && (ev.readable || ev.writable) && io.handshake
    case Sending => ev.writable && c.sent + io.offer >= |cfg.body|
    case Receiving =>
      ev.readable && (c.received == 8095 || (io.data != "" && StrStr(TextAfter(c, io), HEADER_END)))
    case Idle | Completed | Error => false
  }

  /** A state moves on to its successor, or stays where it is unless it fails. */
  predicate MovesRight(e: Engine, cfg: Config, c: Conn, ev: Events, io: Outcome)
    requires Shape(cfg, c)
  {
    var c1 := Handle(e, cfg, c, ev, io);
    if !ev.bad && Succeeds(e, cfg, c, ev, io) then c1.state == Successor(e, cfg, c.state)
    else c1.state == c.state || c1.state.Error?
  }

  lemma ConnectingMoves(e: Engine, cfg: Config, c: Conn, ev: Events, io: Outcome)
    requires ConnInv(e, cfg, c) && c.state.Connecting?
    ensures Shape(cfg, c) && MovesRight(e, cfg, c, ev, io)
  {
    hide ConnInv, ConnectText;
    InvShape(e, cfg, c);
  }

  lemma ProxyConnectMoves(e: Engine, cfg: Config, c: Conn, ev: Events, io: Outcome)
    requires ConnInv(e, cfg, c) && c.state.ProxyConnect?
    ensures Shape(cfg, c) && MovesRight(e, cfg, c, ev, io)
  {
    hide ConnInv, ConnectText;
    InvShape(e, cfg, c);
    OffsetInText(e, cfg, c);
  }

  lemma ProxyResponseMoves(e: Engine, cfg: Config, c: Conn, ev: Events, io: Outcome)
    requires ConnInv(e, cfg, c) && c.state.ProxyResponse?
    ensures Shape(cfg, c) && MovesRight(e, cfg, c, ev, io)
  {
    hide ConnInv, ConnectText, Padded, StrStr, Zeros, Splice, SetupSsl, Store;
    InvShape(e, cfg, c);
    AwaitsAnswer(e, cfg, c);
    if c.received == CAP - 1 {
      FullBufferIsTerminated(c);
    } else {
      StoredText(c, io);
    }
  }

  /** What a read leaves in the buffer. */
  lemma StoredText(c: Conn, io: Outcome)
    requires Padded(c) && c.received < CAP - 1
    ensures var c1 := Store(c, Got(io, CAP - c.received - 1));
            && c1.log.inbox == TextAfter(c, io) && Padded(c1)
            && c1 == c.(buffer := c1.buffer, received := c1.received, log := c1.log)
            && forall p :: StrStr(c1.buffer, p) <==> StrStr(TextAfter(c, io), p)
  {
    hide StrStr, Zeros, Splice;
    StoreKeepsPadding(c, Got(io, CAP - c.received - 1));
  }

  lemma TlsHandshakeMoves(e: Engine, cfg: Config, c: Conn, ev: Events, io: Outcome)
    requires ConnInv(e, cfg, c) && c.state.TlsHandshake?
    ensures Shape(cfg, c) && MovesRight(e, cfg, c, ev, io)
  {
    hide ConnInv, ConnectText;
    InvShape(e, cfg, c);
  }

  lemma SendingMoves(e: Engine, cfg: Config, c: Conn, ev: Events, io: Outcome)
    requires ConnInv(e, cfg, c) && c.state.Sending?
    ensures Shape(cfg, c) && MovesRight(e, cfg, c, ev, io)
  {
    hide ConnInv, ConnectText;
    InvShape(e, cfg, c);
    SendsFrom(e, cfg, c);
  }

  lemma ReceivingMoves(e: Engine, cfg: Config, c: Conn, ev: Events, io: Outcome)
    requires ConnInv(e, cfg, c) && c.state.Receiving?
    ensures Shape(cfg, c) && MovesRight(e, cfg, c, ev, io)
  {
    hide ConnInv, ConnectText, Padded, StrStr, Zeros, Splice, Store;
    InvShape(e, cfg, c);
    assert Padded(c) by { ReceivedText(e, cfg, c); }
    if c.received < CAP - 1 {
      StoredText(c, io);
    }
  }

  lemma ReceivedText(e: Engine, cfg: Config, c: Conn)
    requires ConnInv(e, cfg, c)
    ensures Padded(c)
  {
    hide StageOk, WireOk, CountOk, HoldsOk, Zeros, StrStr;
  }

  /** A handler call takes a connection to the successor of its state exactly if the state has done its part. */
  lemma MovesExactly(e: Engine, cfg: Config, c: Conn, ev: Events, io: Outcome)
    requires ConnInv(e, cfg, c) && Active(c.state)
    ensures Shape(cfg, c)
    ensures var c1 := Handle(e, cfg, c, ev, io);
            && (c1.state == Successor(e, cfg, c.state) <==> !ev.bad && Succeeds(e, cfg, c, ev, io))
            && (c1.state == c.state || c1.state.Error? || c1.state == Successor(e, cfg, c.state))
  {
    hide ConnInv, Handle, Shape, Succeeds;
    match c.state
    case Connecting => ConnectingMoves(e, cfg, c, ev, io);
    case ProxyConnect => ProxyConnectMoves(e, cfg, c, ev, io);
    case ProxyResponse => ProxyResponseMoves(e, cfg, c, ev, io);
    case TlsHandshake => TlsHandshakeMoves(e, cfg, c, ev, io);
    case Sending => SendingMoves(e, cfg, c, ev, io);
    case Receiving => ReceivingMoves(e, cfg, c, ev, io);
  }

  // What a call adds.

  /** A completed response is counted once, with its length; a failure once; a forced end in the history alone. */
  predicate CountsRight(cfg: Config, c: Conn, c1: Conn) {
    var reply := if c1.state.Completed? && !cfg.force then [|c1.log.inbox|] else [];
    && c1.failed == c.failed + (if c1.state.Error? then 1 else 0)
    && c1.log.forced == c.log.forced + (if c1.state.Completed? && cfg.force then 1 else 0)
    && c1.log.replies == c.log.replies + reply
    && c1.speed == c.speed + |reply|
    && c1.bytes == c.bytes + (if reply == [] then 0 else reply[0])
  }

  /** Nothing is opened, closed or dialled. */
  predicate SocketKept(c: Conn, c1: Conn) {
    && c1.sockfd == c.sockfd && c1.log.fds == c.log.fds && c1.log.peer == c.log.peer
    && c1.log.attempts == c.log.attempts
    && c1.log.socketsMade == c.log.socketsMade && c1.log.socketsClosed == c.log.socketsClosed
    && c1.log.sslFreed == c.log.sslFreed && c1.log.strayCloses == c.log.strayCloses
  }

  predicate Counted(e: Engine, cfg: Config, c: Conn, ev: Events, io: Outcome)
    requires Shape(cfg, c)
  {
    CountsRight(cfg, c, Handle(e, cfg, c, ev, io)) && SocketKept(c, Handle(e, cfg, c, ev, io))
  }

  /** A call that fails for the socket, or finds none of the events its state waits for. */
  predicate Unanswered(c: Conn, ev: Events) {
    ev.bad || !((ev.readable && Interest(c.state).readable) || (ev.writable && Interest(c.state).writable))
  }

  lemma UnansweredCall(e: Engine, cfg: Config, c: Conn, ev: Events, io: Outcome)
    requires Shape(cfg, c) && Active(c.state) && Unanswered(c, ev)
    ensures Handle(e, cfg, c, ev, io) == if ev.bad then Failed(c) else c
  {
    hide Shape;
  }

  lemma CountsUnanswered(e: Engine, cfg: Config, c: Conn, ev: Events, io: Outcome)
    requires Shape(cfg, c) && Active(c.state) && Unanswered(c, ev)
    ensures Counted(e, cfg, c, ev, io)
  {
    hide Shape, Handle;
    UnansweredCall(e, cfg, c, ev, io);
  }

  lemma CountsConnecting(e: Engine, cfg: Config, c: Conn, ev: Events, io: Outcome)
    requires Shape(cfg, c) && c.state.Connecting? && !Unanswered(c, ev)
    ensures Counted(e, cfg, c, ev, io)
  {
    hide Shape, ByProxy;
  }

  lemma CountsProxyConnect(e: Engine, cfg: Config, c: Conn, ev: Events, io: Outcome)
    requires Shape(cfg, c) && c.state.ProxyConnect? && !Unanswered(c, ev)
    ensures Counted(e, cfg, c, ev, io)
  {
    hide ConnectText, CanConnect;
  }

  lemma CountsHandshake(e: Engine, cfg: Config, c: Conn, ev: Events, io: Outcome)
    requires Shape(cfg, c) && c.state.TlsHandshake? && !Unanswered(c, ev)
    ensures Counted(e, cfg, c, ev, io)
  {
    hide Shape;
  }

  lemma CountsSending(e: Engine, cfg: Config, c: Conn, ev: Events, io: Outcome)
    requires Shape(cfg, c) && c.state.Sending? && !Unanswered(c, ev)
    ensures Counted(e, cfg, c, ev, io)
  {
    hide ConnectText;
  }

  /** The history knows as many received bytes as the counter. */
  lemma NotForcedToWait(e: Engine, cfg: Config, c: Conn)
    requires ConnInv(e, cfg, c)
    ensures c.received == |c.log.inbox| && (c.state.Receiving? ==> !cfg.force)
  {
    hide WireOk, CountOk, HoldsOk, Zeros, StrStr;
  }

  lemma CountsReceiving(e: Engine, cfg: Config, c: Conn, ev: Events, io: Outcome)
    requires Shape(cfg, c) && c.state.Receiving? && !Unanswered(c, ev)
    requires c.received == |c.log.inbox| && !cfg.force
    ensures Counted(e, cfg, c, ev, io)
  {
    hide ConnectText, StrStr, Splice;
  }

  lemma CountsProxyResponse(e: Engine, cfg: Config, c: Conn, ev: Events, io: Outcome)
    requires Shape(cfg, c) && c.state.ProxyResponse? && !Unanswered(c, ev)
    ensures Counted(e, cfg, c, ev, io)
  {
    hide ConnectText, StrStr, Splice, Zeros;
  }

  /** What any handler call does to the counters, and that it leaves the socket alone. */
  lemma CountsExactly(e: Engine, cfg: Config, c: Conn, ev: Events, io: Outcome)
    requires ConnInv(e, cfg, c) && Active(c.state)
    ensures Shape(cfg, c)
    ensures CountsRight(cfg, c, Handle(e, cfg, c, ev, io)) && SocketKept(c, Handle(e, cfg, c, ev, io))
  {
    hide ConnInv, Handle, Shape, CountsRight, SocketKept, Unanswered;
    InvShape(e, cfg, c);
    NotForcedToWait(e, cfg, c);
    if Unanswered(c, ev) {
      CountsUnanswered(e, cfg, c, ev, io);
    } else {
      match c.state
      case Connecting => CountsConnecting(e, cfg, c, ev, io);
      case ProxyConnect => CountsProxyConnect(e, cfg, c, ev, io);
      case ProxyResponse => CountsProxyResponse(e, cfg, c, ev, io);
      case TlsHandshake => CountsHandshake(e, cfg, c, ev, io);
      case Sending => CountsSending(e, cfg, c, ev, io);
      case Receiving => CountsReceiving(e, cfg, c, ev, io);
    }
  }

  /** The bytes of `text` from `sent` on that an offer takes. */
  function Taken(text: string, sent: nat, offer: nat): string {
    if sent <= |text| then Clip(text[sent..], offer) else ""
  }

  /** The bytes a call puts on the wire in clear: of the CONNECT request, or of the body for plain HTTP. */
  function InClear(e: Engine, cfg: Config, c: Conn, ev: Events, io: Outcome): string {
    if ev.bad || !ev.writable then ""
    else if c.state.ProxyConnect? && Nameable(e, cfg) then Taken(ConnectText(cfg), c.sent, io.offer)
    else if c.state.Sending? && !cfg.isHttps then Taken(cfg.body, c.sent, io.offer)
    else ""
  }

  /** The bytes a call puts on the wire through TLS: of the body for HTTPS, and nothing else. */
  function InTls(cfg: Config, c: Conn, ev: Events, io: Outcome): string {
    if !ev.bad && ev.writable && c.state.Sending? && cfg.isHttps then Taken(cfg.body, c.sent, io.offer) else ""
  }

  /** The offset and length an `SSL_write` that asks to be retried had; one that succeeds clears them. */
  function RetryAfter(cfg: Config, c: Conn, ev: Events, io: Outcome): Option<(nat, nat)> {
    if !ev.bad && ev.writable && c.state.Sending? && cfg.isHttps && c.sent < |cfg.body| then
      if io.offer > 0 then None
      else if io.want then Some((c.sent, |cfg.body| - c.sent)) else c.log.retry
    else c.log.retry
  }

  predicate BytesRight(e: Engine, cfg: Config, c: Conn, ev: Events, io: Outcome)
    requires Shape(cfg, c)
  {
    var c1 := Handle(e, cfg, c, ev, io);
    && c1.log.plain == c.log.plain + InClear(e, cfg, c, ev, io)
    && c1.log.tls == c.log.tls + InTls(cfg, c, ev, io)
  }

  /** The channel is secured by an `SSL_connect` that succeeds, and by nothing else. */
  predicate SecuredRight(cfg: Config, c: Conn, ev: Events, io: Outcome, c1: Conn) {
    && (c1.log.secured <==> c.log.secured || (c.state.TlsHandshake? && c1.state.Sending?))
    && (c1.log.secured && !c.log.secured ==> io.handshake && c.ssl.Some?)
    && c1.log.retry == RetryAfter(cfg, c, ev, io)
  }

  /** The offset counts the bytes taken; the epoll engine takes one back for a failed `send` of the CONNECT request. */
  predicate OffsetRight(e: Engine, cfg: Config, c: Conn, ev: Events, io: Outcome)
    requires Shape(cfg, c)
  {
    var c1 := Handle(e, cfg, c, ev, io);
    match c.state
    case Sending => c1.sent == c.sent + |InClear(e, cfg, c, ev, io)| + |InTls(cfg, c, ev, io)|
    case ProxyConnect =>
      && (c1.state.ProxyResponse? ==> c1.sent == 0)
      && (c1.state.ProxyConnect? ==>
            c1.sent == c.sent + |InClear(e, cfg, c, ev, io)|
                       - (if !ev.bad && ev.writable && e.Epoll? && io.offer == 0 && !io.eof then 1 else 0))
    case _ => c1.sent == c.sent
  }

  predicate WireRight(e: Engine, cfg: Config, c: Conn, ev: Events, io: Outcome)
    requires Shape(cfg, c)
  {
    && BytesRight(e, cfg, c, ev, io)
    && OffsetRight(e, cfg, c, ev, io)
    && SecuredRight(cfg, c, ev, io, Handle(e, cfg, c, ev, io))
  }

  lemma TakenIs(text: string, sent: nat, offer: nat)
    requires sent <= |text|
    ensures Taken(text, sent, offer) == text[sent..sent + Min(offer, |text| - sent)]
  {
  }

  lemma AddNothing(c: Conn)
    ensures c.log.plain + "" == c.log.plain && c.log.tls + "" == c.log.tls
  {
  }

  /** A call that sends nothing. */
  lemma WireUnanswered(e: Engine, cfg: Config, c: Conn, ev: Events, io: Outcome)
    requires Shape(cfg, c) && Active(c.state) && Unanswered(c, ev)
    ensures WireRight(e, cfg, c, ev, io)
  {
    hide Shape, Handle, Taken;
    UnansweredCall(e, cfg, c, ev, io);
    AddNothing(c);
  }

  lemma ConnectBytes(e: Engine, cfg: Config, c: Conn, ev: Events, io: Outcome)
    requires Shape(cfg, c) && c.state.ProxyConnect? && !Unanswered(c, ev)
    requires c.sent < |ConnectText(cfg)| && c.sockfd > 0 && ByProxy(e, cfg)
    ensures BytesRight(e, cfg, c, ev, io)
  {
    hide ConnectText, Taken;
    TakenIs(ConnectText(cfg), c.sent, io.offer);
    AddNothing(c);
  }

  lemma ConnectOffset(e: Engine, cfg: Config, c: Conn, ev: Events, io: Outcome)
    requires Shape(cfg, c) && c.state.ProxyConnect? && !Unanswered(c, ev)
    requires c.sent < |ConnectText(cfg)| && c.sockfd > 0 && ByProxy(e, cfg)
    ensures OffsetRight(e, cfg, c, ev, io) && SecuredRight(cfg, c, ev, io, Handle(e, cfg, c, ev, io))
  {
    hide ConnectText, Taken;
    TakenIs(ConnectText(cfg), c.sent, io.offer);
  }

  /** What a call in the state that sends the body comes to. */
  lemma SendingCall(e: Engine, cfg: Config, c: Conn, ev: Events, io: Outcome)
    requires Shape(cfg, c) && c.state.Sending? && !Unanswered(c, ev)
    ensures Handle(e, cfg, c, ev, io) == OnSending(cfg, c, io)
  {
    hide Shape, OnSending;
  }

  lemma WroteBytes(cfg: Config, c: Conn, n: nat)
    requires c.sent + n <= |cfg.body|
    ensures var c1 := Wrote(cfg, c, n); var part := cfg.body[c.sent..c.sent + n];
            && c1.log.plain == c.log.plain + (if cfg.isHttps then "" else part)
            && c1.log.tls == c.log.tls + (if cfg.isHttps then part else "")
            && c1.sent == c.sent + n && c1.log.secured == c.log.secured
            && c1.log.retry == if cfg.isHttps then None else c.log.retry
  {
    AddNothing(c);
  }

  lemma BodyBytes(e: Engine, cfg: Config, c: Conn, ev: Events, io: Outcome)
    requires Shape(cfg, c) && c.state.Sending? && !Unanswered(c, ev)
    requires c.sent <= |cfg.body| && (cfg.isHttps ==> c.ssl.Some?)
    ensures WireRight(e, cfg, c, ev, io)
  {
    hide Shape, Handle, Taken, Wrote;
    SendingCall(e, cfg, c, ev, io);
    TakenIs(cfg.body, c.sent, io.offer);
    AddNothing(c);
    var n := Min(io.offer, |cfg.body| - c.sent);
    if n > 0 {
      WroteBytes(cfg, c, n);
    }
  }

  lemma NoBytesOpening(e: Engine, cfg: Config, c: Conn, ev: Events, io: Outcome)
    requires Shape(cfg, c) && (c.state.Connecting? || c.state.TlsHandshake?) && !Unanswered(c, ev)
    requires !c.log.secured
    ensures WireRight(e, cfg, c, ev, io)
  {
    hide Shape;
    AddNothing(c);
  }

  predicate SendsNothing(c: Conn, c1: Conn) {
    && c1.log.plain == c.log.plain && c1.log.tls == c.log.tls && c1.sent == c.sent
    && c1.log.secured == c.log.secured && c1.log.retry == c.log.retry
  }

  lemma ReceivingSendsNothing(e: Engine, cfg: Config, c: Conn, ev: Events, io: Outcome)
    requires Shape(cfg, c) && c.state.Receiving?
    ensures SendsNothing(c, Handle(e, cfg, c, ev, io))
  {
    hide ConnectText, StrStr, Splice;
  }

  lemma AwaitingSendsNothing(e: Engine, cfg: Config, c: Conn, ev: Events, io: Outcome)
    requires Shape(cfg, c) && c.state.ProxyResponse?
    ensures SendsNothing(c, Handle(e, cfg, c, ev, io))
  {
    hide ConnectText, StrStr, Splice, Zeros;
  }

  lemma NoBytesReading(e: Engine, cfg: Config, c: Conn, ev: Events, io: Outcome)
    requires Shape(cfg, c) && (c.state.Receiving? || c.state.ProxyResponse?)
    ensures WireRight(e, cfg, c, ev, io)
  {
    hide Shape, Handle, Taken;
    if c.state.Receiving? {
      ReceivingSendsNothing(e, cfg, c, ev, io);
    } else {
      AwaitingSendsNothing(e, cfg, c, ev, io);
    }
    AddNothing(c);
  }

  lemma NothingSentHere(e: Engine, cfg: Config, c: Conn)
    requires ConnInv(e, cfg, c)
    ensures c.state.TlsHandshake? || c.state.ProxyResponse? ==> c.sent == 0 && !c.log.secured
    ensures c.state.Connecting? ==> !c.log.secured
  {
    hide BufferOk, WireOk, CountOk, HoldsOk, ConnectText;
  }

  /** What any handler call puts on the wire, and that only an `SSL_connect` that succeeds secures the channel. */
  lemma WireExactly(e: Engine, cfg: Config, c: Conn, ev: Events, io: Outcome)
    requires ConnInv(e, cfg, c) && Active(c.state)
    ensures Shape(cfg, c) && WireRight(e, cfg, c, ev, io)
  {
    hide ConnInv, Handle, Shape, BytesRight, OffsetRight, SecuredRight, Unanswered;
    InvShape(e, cfg, c);
    NothingSentHere(e, cfg, c);
    if Unanswered(c, ev) {
      WireUnanswered(e, cfg, c, ev, io);
    } else {
      match c.state
      case Connecting | TlsHandshake => NoBytesOpening(e, cfg, c, ev, io);
      case ProxyConnect =>
        OffsetInText(e, cfg, c);
        ConnectBytes(e, cfg, c, ev, io);
        ConnectOffset(e, cfg, c, ev, io);
      case ProxyResponse | Receiving => NoBytesReading(e, cfg, c, ev, io);
      case Sending =>
        SendsFrom(e, cfg, c);
        BodyBytes(e, cfg, c, ev, io);
    }
  }

  /** The text received after a call: more of it in the two reading states, none once a tunnel is up. */
  function InboxAfter(c: Conn, ev: Events, io: Outcome, next: State): string {
    if !ev.bad && ev.readable && (c.state.Receiving? || c.state.ProxyResponse?) then
      if next.TlsHandshake? then "" else TextAfter(c, io)
    else c.log.inbox
  }

  lemma TextUnread(c: Conn, io: Outcome)
    requires io.data == "" || c.received >= CAP - 1
    ensures TextAfter(c, io) == c.log.inbox
  {
  }

  /** What any handler call receives; the buffer holds it, terminated. */
  lemma TextExactly(e: Engine, cfg: Config, c: Conn, ev: Events, io: Outcome)
    requires ConnInv(e, cfg, c) && Active(c.state)
    ensures Shape(cfg, c)
    ensures var c1 := Handle(e, cfg, c, ev, io);
            && c1.log.inbox == InboxAfter(c, ev, io, c1.state)
            && c1.received == |c1.log.inbox| < 8096
            && c1.buffer == c1.log.inbox + Zeros(8096 - c1.received)
  {
    hide ConnInv, Handle, Shape, TextAfter;
    HandleKeepsInv(e, cfg, c, ev, io);
    ReceivedText(e, cfg, Handle(e, cfg, c, ev, io));
    match c.state
    case Receiving => ResponseGrows(e, cfg, c, ev, io);
    case ProxyResponse => AnswerGrows(e, cfg, c, ev, io);
    case _ => InboxStays(e, cfg, c, ev, io);
  }

  lemma ResponseGrows(e: Engine, cfg: Config, c: Conn, ev: Events, io: Outcome)
    requires ConnInv(e, cfg, c) && c.state.Receiving?
    ensures Shape(cfg, c)
    ensures var c1 := Handle(e, cfg, c, ev, io); c1.log.inbox == InboxAfter(c, ev, io, c1.state)
  {
    hide ConnInv, ConnectText, StrStr, Splice;
    InvShape(e, cfg, c);
    if io.data == "" || c.received >= CAP - 1 {
      TextUnread(c, io);
    }
  }

  lemma AnswerGrows(e: Engine, cfg: Config, c: Conn, ev: Events, io: Outcome)
    requires ConnInv(e, cfg, c) && c.state.ProxyResponse?
    ensures Shape(cfg, c)
    ensures var c1 := Handle(e, cfg, c, ev, io); c1.log.inbox == InboxAfter(c, ev, io, c1.state)
  {
    hide ConnInv, ConnectText, Padded, StrStr, Zeros, Splice, Store, TextAfter;
    InvShape(e, cfg, c);
    AwaitsAnswer(e, cfg, c);
    if c.received == CAP - 1 {
      FullBufferIsTerminated(c);
      TextUnread(c, io);
    } else {
      StoredText(c, io);
      if io.data == "" {
        TextUnread(c, io);
      }
    }
  }

  lemma InboxStays(e: Engine, cfg: Config, c: Conn, ev: Events, io: Outcome)
    requires ConnInv(e, cfg, c) && Active(c.state) && !c.state.Receiving? && !c.state.ProxyResponse?
    ensures Shape(cfg, c) && Handle(e, cfg, c, ev, io).log.inbox == c.log.inbox
  {
    hide ConnInv, ConnectText;
    InvShape(e, cfg, c);
  }

  /** A call sets TLS up: a connection made without a tunnel, or a tunnel granted. */
  predicate SetsTlsUp(e: Engine, cfg: Config, c: Conn, ev: Events, io: Outcome) {
    && !ev.bad
    && (if c.state.Connecting? then ev.writable && io.connected && cfg.isHttps && !ByProxy(e, cfg)
        else c.state.ProxyResponse? && Succeeds(e, cfg, c, ev, io))
  }

  predicate ObjectRight(e: Engine, cfg: Config, c: Conn, ev: Events, io: Outcome, c1: Conn) {
    if SetsTlsUp(e, cfg, c, ev, io) && io.tls != NoContext && io.tls != NoSsl
    then c1.ssl == Some(c.sslMade) && c1.sslMade == c.sslMade + 1 && c1.log.ssls == c.log.ssls + {c.sslMade}
    else c1.ssl == c.ssl && c1.sslMade == c.sslMade && c1.log.ssls == c.log.ssls
  }

  lemma NoObjectYet(e: Engine, cfg: Config, c: Conn)
    requires ConnInv(e, cfg, c) && (c.state.Connecting? || c.state.ProxyResponse?)
    ensures c.ssl.None?
  {
  }

  lemma ObjectForTunnel(e: Engine, cfg: Config, c: Conn, ev: Events, io: Outcome)
    requires ConnInv(e, cfg, c) && c.state.ProxyResponse?
    ensures Shape(cfg, c) && ObjectRight(e, cfg, c, ev, io, Handle(e, cfg, c, ev, io))
  {
    hide ConnInv, ConnectText, Padded, StrStr, Zeros, Splice, Store;
    InvShape(e, cfg, c);
    AwaitsAnswer(e, cfg, c);
    NoObjectYet(e, cfg, c);
    if c.received == CAP - 1 {
      FullBufferIsTerminated(c);
    } else {
      StoredText(c, io);
      StoreKeepsTls(c, Got(io, CAP - c.received - 1));
    }
  }

  lemma StoreKeepsTls(c: Conn, got: string)
    requires |c.buffer| == CAP && c.received + |got| < CAP
    ensures Store(c, got).log.ssls == c.log.ssls
  {
    hide Splice;
  }

  lemma ObjectForConnection(e: Engine, cfg: Config, c: Conn, ev: Events, io: Outcome)
    requires Shape(cfg, c) && c.state.Connecting? && c.ssl.None?
    ensures ObjectRight(e, cfg, c, ev, io, Handle(e, cfg, c, ev, io))
  {
    hide Shape;
  }

  lemma NoObjectWhileSending(e: Engine, cfg: Config, c: Conn, ev: Events, io: Outcome)
    requires Shape(cfg, c) && (c.state.ProxyConnect? || c.state.TlsHandshake? || c.state.Sending?)
    ensures ObjectRight(e, cfg, c, ev, io, Handle(e, cfg, c, ev, io))
  {
    hide ConnectText, CanConnect, Succeeds;
  }

  lemma NoObjectWhileReceiving(e: Engine, cfg: Config, c: Conn, ev: Events, io: Outcome)
    requires Shape(cfg, c) && c.state.Receiving?
    ensures ObjectRight(e, cfg, c, ev, io, Handle(e, cfg, c, ev, io))
  {
    hide ConnectText, StrStr, Splice, Succeeds;
  }

  /** An SSL object comes exactly from setting TLS up, if OpenSSL has a context and an object. */
  lemma ObjectExactly(e: Engine, cfg: Config, c: Conn, ev: Events, io: Outcome)
    requires ConnInv(e, cfg, c) && Active(c.state)
    ensures Shape(cfg, c) && ObjectRight(e, cfg, c, ev, io, Handle(e, cfg, c, ev, io))
  {
    hide ConnInv, Handle, Shape, Succeeds;
    InvShape(e, cfg, c);
    match c.state
    case Connecting =>
      NoObjectYet(e, cfg, c);
      ObjectForConnection(e, cfg, c, ev, io);
    case ProxyResponse => ObjectForTunnel(e, cfg, c, ev, io);
    case ProxyConnect | TlsHandshake | Sending => NoObjectWhileSending(e, cfg, c, ev, io);
    case Receiving => NoObjectWhileReceiving(e, cfg, c, ev, io);
  }
}
