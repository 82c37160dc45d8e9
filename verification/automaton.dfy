/**
 One benchmark connection as a value, and what one call of the engines' handlers does to it.

 The operating system and OpenSSL appear as an `Outcome`: what the calls made by one handler
 invocation meet. An outcome is an offer, cut down to what the call asked for (a read returns at most
 the room it was given, a write accepts at most the bytes it was handed), so every offer is possible.

 `Poll` and `Epoll` are the two source files; their handlers differ in the ports they accept and in
 how they read the result of `send` while the CONNECT request goes out.
 */
module Automaton {
  import opened Text

  const CAP: nat := 8096
  const CONNECT_SIZE: nat := 1024
  const MAX_PORT := 65535
  const SIZE_T: nat := 0x1_0000_0000_0000_0000
  const TUNNEL_OK := "HTTP/1.1 200 Connection established"

  datatype Engine = Poll | Epoll

  datatype State =
    | Idle | Connecting | ProxyConnect | ProxyResponse | TlsHandshake
    | Sending | Receiving | Completed | Error

  datatype Config = Config(
    isHttps: bool, force: bool, body: string,
    proxyHost: string, proxyPort: int, targetHost: string, targetPort: int)

  /** Readiness of a descriptor; `bad` is POLLERR, POLLHUP or POLLNVAL (EPOLLERR or EPOLLHUP). */
  datatype Events = Events(readable: bool, writable: bool, bad: bool)

  const WRITABLE := Events(false, true, false)
  const READABLE := Events(true, false, false)

  /** What `setup_ssl_context` meets: no context, `SSL_new` fails, `SSL_set_fd` fails, or success. */
  datatype TlsSetup = NoContext | NoSsl | NotBound | Bound

  /**
   What the calls of one handler invocation meet.
   `connected`: `getsockopt` succeeds and reports no error. `offer`: bytes a write would accept.
   `data`: bytes waiting for a read. A write with no offer, or a read with no data, returns 0 if `eof`
   and -1 otherwise; then `again` says whether errno is EAGAIN or EWOULDBLOCK and `want` whether
   `SSL_get_error` is WANT_READ or WANT_WRITE. `handshake`: `SSL_connect` returns 1.
   */
  datatype Outcome = Outcome(
    connected: bool, tls: TlsSetup, offer: nat, data: string,
    eof: bool, again: bool, want: bool, handshake: bool)

  /** One entry of the address list: what `socket` returns for it and whether `connect` goes ahead. */
  datatype Address = Address(fd: int, connects: bool)

  /** What one socket allocation meets: whether the name resolves, and the address list. */
  datatype Alloc = Alloc(resolved: bool, addresses: seq<Address>)

  /** Whom a socket is connected to. */
  datatype Peer = Peer(host: string, port: int)

  /**
   History of a connection. Since the connection was created: attempts started, attempts completed in
   force mode, lengths of the completed responses, sockets opened and closed, SSL objects freed,
   descriptors and SSL objects it still holds, closes of a descriptor it did not hold.
   On the current attempt: whom it dialled, bytes accepted by `send`, bytes accepted by `SSL_write`, whether a
   handshake succeeded, bytes received since the buffer was last cleared, and the offset and length
   of the latest `SSL_write` if it asked to be retried.
   */
  datatype Log = Log(
    attempts: nat, forced: nat, replies: seq<nat>,
    socketsMade: nat, socketsClosed: nat, sslFreed: nat,
    fds: set<int>, ssls: set<nat>, strayCloses: nat,
    peer: Option<Peer>, plain: string, tls: string, secured: bool, inbox: string, retry: Option<(nat, nat)>)

  /**
   The source's `connection`, with its history. `ssl` names the SSL object, if any; `sslMade` counts
   the objects OpenSSL has made for the connection and so names the next one.
   */
  datatype Conn = Conn(
    state: State, sockfd: int, ssl: Option<nat>, buffer: string,
    sent: nat, received: nat, speed: nat, failed: nat, bytes: nat, sslMade: nat, log: Log)

  const EMPTY_LOG := Log(0, 0, [], 0, 0, 0, {}, {}, 0, None, "", "", false, "", None)

  /** A connection as `init_connection` leaves it. */
  const FRESH := Conn(Idle, -1, None, Zeros(CAP), 0, 0, 0, 0, 0, 0, EMPTY_LOG)

  predicate Active(s: State) {
    s.Connecting? || s.ProxyConnect? || s.ProxyResponse? || s.TlsHandshake? || s.Sending? || s.Receiving?
  }

  predicate Done(s: State) {
    s.Completed? || s.Error?
  }

  /** The events a state waits for. */
  function Interest(s: State): Events {
    match s
    case Connecting | ProxyConnect | Sending => Events(false, true, false)
    case ProxyResponse | Receiving => Events(true, false, false)
    case TlsHandshake => Events(true, true, false)
    case Idle | Completed | Error => Events(false, false, false)
  }

  /** The ports an engine accepts: 1..65535 for poll, 2..65535 for epoll. */
  predicate ValidPort(e: Engine, port: int) {
    (if e.Poll? then 0 else 1) < port <= MAX_PORT
  }

  /** `need_connect_proxy`. */
  predicate NeedProxy(e: Engine, cfg: Config) {
    cfg.proxyHost != "" && ValidPort(e, cfg.proxyPort)
  }

  /** HTTPS through a proxy, which needs a CONNECT tunnel. */
  predicate Tunnels(e: Engine, cfg: Config) {
    NeedProxy(e, cfg) && cfg.isHttps
  }

  /** The CONNECT request as it stands in its 1024-byte buffer. */
  function ConnectText(cfg: Config): (r: string)
    ensures 8 <= |r| < CONNECT_SIZE
  {
    var authority := cfg.targetHost + ":" + Decimal(cfg.targetPort);
    var text := ("CONNECT " + authority + " HTTP/1.1\r\n") + ("Host: " + authority + "\r\n")
                + "Connection: close\r\n\r\n";
    Clip(text, CONNECT_SIZE - 1)
  }

  /** The memory the handler touches is in bounds, and the SSL object it reads from exists. */
  predicate Shape(cfg: Config, c: Conn) {
    && |c.buffer| == CAP
    && c.received < CAP
    && (c.state.ProxyConnect? ==> c.sent <= |ConnectText(cfg)|)
    && (c.state.Sending? ==> c.sent <= |cfg.body|)
    && (c.state.Receiving? && cfg.isHttps ==> c.ssl.Some?)
  }

  function Failed(c: Conn): Conn {
    c.(state := Error, failed := c.failed + 1)
  }

  /** `setup_ssl_context`; it succeeds only when the outcome is `Bound`. */
  function SetupSsl(c: Conn, t: TlsSetup): Conn {
    match t
    case NoContext => c
    case NoSsl => c.(ssl := None)
    case NotBound | Bound =>
      c.(ssl := Some(c.sslMade), sslMade := c.sslMade + 1, log := c.log.(ssls := c.log.ssls + {c.sslMade}))
  }

  /** The bytes a read into `room` bytes delivers. */
  function Got(io: Outcome, room: nat): (r: string)
    ensures |r| <= room
  {
    Clip(io.data, room)
  }

  /** `got` appended to the receive buffer, with a terminator behind it. */
  function Store(c: Conn, got: string): Conn
    requires |c.buffer| == CAP && c.received + |got| < CAP
  {
    c.(buffer := Splice(c.buffer, c.received, got)[c.received + |got| := NUL],
       received := c.received + |got|,
       log := c.log.(inbox := c.log.inbox + got))
  }

  function OnConnecting(e: Engine, cfg: Config, c: Conn, io: Outcome): Conn {
    if !io.connected then Failed(c)
    else if Tunnels(e, cfg) then c.(state := ProxyConnect)
    else if cfg.isHttps then
      var c1 := SetupSsl(c.(state := TlsHandshake), io.tls);
      if io.tls.Bound? then c1 else Failed(c1)
    else c.(state := Sending)
  }

  /** There is a target a CONNECT request can name. */
  predicate CanName(e: Engine, cfg: Config) {
    cfg.targetHost != "" && ValidPort(e, cfg.targetPort)
  }

  /** `send_proxy_connect` finds nothing to complain about. */
  predicate CanConnect(e: Engine, cfg: Config, c: Conn) {
    NeedProxy(e, cfg) && CanName(e, cfg) && c.sockfd > 0
  }

  /** The CONNECT phase: `send_proxy_connect` and what the handler makes of its result. */
  function OnProxyConnect(e: Engine, cfg: Config, c: Conn, io: Outcome): Conn
    requires c.sent <= |ConnectText(cfg)|
  {
    var text := ConnectText(cfg);
    var n := Min(io.offer, |text| - c.sent);
    if !CanConnect(e, cfg, c) then Failed(c)
    else if c.sent == |text| then c.(state := ProxyResponse)
    else if n > 0 then
      var c1 := c.(sent := c.sent + n, log := c.log.(plain := c.log.plain + text[c.sent..c.sent + n]));
      if c1.sent >= |text| then c1.(sent := 0, state := ProxyResponse) else c1
    else if e.Epoll? && !io.eof then
      // The -1 of a failed send is held in a size_t and added to the offset.
      var sent := (c.sent + SIZE_T - 1) % SIZE_T;
      if sent >= |text| then c.(sent := 0, state := ProxyResponse) else c.(sent := sent)
    else if io.again then c
    else Failed(c)
  }

  /** The proxy granted the tunnel: the receive buffer is cleared and the handshake begins. */
  function TunnelUp(c: Conn, io: Outcome): Conn {
    SetupSsl(c.(buffer := Zeros(CAP), received := 0, log := c.log.(inbox := "")), io.tls).(state := TlsHandshake)
  }

  /** Some more of the proxy's answer arrived. */
  function ProxySaid(c: Conn, got: string, io: Outcome): Conn
    requires |c.buffer| == CAP && c.received + |got| < CAP
  {
    var c1 := Store(c, got);
    if StrStr(c1.buffer, TUNNEL_OK) then TunnelUp(c1, io)
    else if c1.received >= CAP then Failed(c1)
    else c1
  }

  /** The phase that waits for the proxy's answer: `handle_proxy_response` and its use. */
  function OnProxyResponse(e: Engine, cfg: Config, c: Conn, io: Outcome): Conn
    requires |c.buffer| == CAP && c.received < CAP
  {
    var room := CAP - c.received - 1;
    if (if e.Poll? then c.sockfd <= 0 else c.sockfd < 0) then Failed(c)
    else if room == 0 then
      var c1 := c.(buffer := c.buffer[CAP - 1 := NUL]);
      if StrStr(c1.buffer, TUNNEL_OK) then TunnelUp(c1, io) else Failed(c1)
    else
      var got := Got(io, room);
      if got != "" then ProxySaid(c, got, io)
      else if io.again then c
      else Failed(c)
  }

  function OnHandshake(c: Conn, io: Outcome): Conn {
    if io.handshake then c.(state := Sending, log := c.log.(secured := true))
    else if io.want then c
    else Failed(c)
  }

  /** The whole body is out: done in force mode, otherwise wait for the response. */
  function BodyDone(cfg: Config, c: Conn): Conn {
    if cfg.force then c.(state := Completed, log := c.log.(forced := c.log.forced + 1))
    else c.(state := Receiving)
  }

  /** `n` bytes of the body accepted, by `SSL_write` for HTTPS and by `send` for HTTP. */
  function Wrote(cfg: Config, c: Conn, n: nat): Conn
    requires c.sent + n <= |cfg.body|
  {
    var part := cfg.body[c.sent..c.sent + n];
    var log := if cfg.isHttps then c.log.(tls := c.log.tls + part, retry := None)
               else c.log.(plain := c.log.plain + part);
    var c1 := c.(sent := c.sent + n, log := log);
    if c1.sent >= |cfg.body| then BodyDone(cfg, c1) else c1
  }

  function OnSending(cfg: Config, c: Conn, io: Outcome): Conn
    requires c.sent <= |cfg.body|
  {
    var remaining := |cfg.body| - c.sent;
    var n := Min(io.offer, remaining);
    if remaining == 0 then BodyDone(cfg, c)
    else if cfg.isHttps then
      if c.ssl.None? then Failed(c)
      else if n > 0 then Wrote(cfg, c, n)
      else if io.want then c.(log := c.log.(retry := Some((c.sent, remaining))))
      else Failed(c)
    else
      if n > 0 then Wrote(cfg, c, n)
      else if !io.eof && io.again then c
      else Failed(c)
  }

  /** The response counts as complete, with the bytes received so far. */
  function Finish(c: Conn): Conn {
    c.(state := Completed, speed := c.speed + 1, bytes := c.bytes + c.received,
       log := c.log.(replies := c.log.replies + [c.received]))
  }

  /** Some more of the response arrived; the end of its header completes it. */
  function ServerSaid(c: Conn, got: string): Conn
    requires |c.buffer| == CAP && c.received + |got| < CAP
  {
    var c1 := Store(c, got);
    if StrStr(c1.buffer, HEADER_END) then Finish(c1) else c1
  }

  function OnReceiving(cfg: Config, c: Conn, io: Outcome): Conn
    requires |c.buffer| == CAP && c.received < CAP
  {
    var room := CAP - c.received - 1;
    if room == 0 then Finish(c)
    else
      var got := Got(io, room);
      if got != "" then ServerSaid(c, got)
      else if (if cfg.isHttps then io.want else !io.eof && io.again) then c
      else Failed(c)
  }

  /** `handle_ready_connection`. */
  function Handle(e: Engine, cfg: Config, c: Conn, ev: Events, io: Outcome): Conn
    requires Shape(cfg, c)
  {
    if ev.bad then Failed(c)
    else match c.state
      case Connecting => if ev.writable then OnConnecting(e, cfg, c, io) else c
      case ProxyConnect => if ev.writable then OnProxyConnect(e, cfg, c, io) else c
      case ProxyResponse => if ev.readable then OnProxyResponse(e, cfg, c, io) else c
      case TlsHandshake => if c.ssl.Some? && (ev.readable || ev.writable) then OnHandshake(c, io) else c
      case Sending => if ev.writable then OnSending(cfg, c, io) else c
      case Receiving => if ev.readable then OnReceiving(cfg, c, io) else c
      case Idle | Completed | Error => c
  }

  /** `close(fd)` on behalf of a connection. */
  function Close(g: Log, fd: int): Log {
    if fd in g.fds then g.(fds := g.fds - {fd}, socketsClosed := g.socketsClosed + 1)
    else if fd > 0 then g.(strayCloses := g.strayCloses + 1)
    else g
  }

  function FreeSsl(c: Conn): Conn {
    match c.ssl
    case None => c
    case Some(h) => c.(ssl := None, log := c.log.(ssls := c.log.ssls - {h}, sslFreed := c.log.sslFreed + 1))
  }

  /** `cleanup_connection`. Poll closes any descriptor but 0, epoll only positive ones. */
  function Cleanup(e: Engine, c: Conn): Conn {
    var c1 := FreeSsl(c);
    var c2 := if (if e.Poll? then c1.sockfd != 0 else c1.sockfd > 0)
              then c1.(log := Close(c1.log, c1.sockfd), sockfd := -1) else c1;
    c2.(state := Idle, sent := 0, received := 0, buffer := Zeros(CAP), log := c2.log.(inbox := ""))
  }

  /** What `socket` returns: never a descriptor that is already open. */
  function Socket(offer: int, open: set<int>): (fd: int)
    ensures fd > 0 ==> fd == offer && fd !in open
  {
    if offer > 0 && offer !in open then offer else -1
  }

  /** The descriptor an address loop ends with (-1 if none) and the sockets it opened and closed. */
  datatype Search = Search(fd: int, made: nat, dropped: nat)

  /** The loop over the address list in `create_nonblocking_socket`. */
  function TryAddresses(addresses: seq<Address>, open: set<int>): (r: Search)
    ensures r.fd > 0 ==> r.fd !in open && r.made == r.dropped + 1
    ensures r.fd <= 0 ==> r.fd == -1 && r.made == r.dropped
  {
    if addresses == [] then Search(-1, 0, 0)
    else
      var fd := Socket(addresses[0].fd, open);
      if fd <= 0 then TryAddresses(addresses[1..], open)
      else if addresses[0].connects then Search(fd, 1, 0)
      else
        var r := TryAddresses(addresses[1..], open);
        Search(r.fd, r.made + 1, r.dropped + 1)
  }

  /** `create_nonblocking_socket`. */
  function CreateSocket(e: Engine, port: int, a: Alloc, open: set<int>): (r: Search)
    ensures r.fd > 0 ==> r.fd !in open && r.made == r.dropped + 1
    ensures r.fd <= 0 ==> r.fd == -1 && r.made == r.dropped
  {
    if !ValidPort(e, port) || !a.resolved then Search(-1, 0, 0) else TryAddresses(a.addresses, open)
  }

  /** Whom the engine connects to: the proxy if there is one. */
  function Dialled(e: Engine, cfg: Config): Peer {
    if NeedProxy(e, cfg) then Peer(cfg.proxyHost, cfg.proxyPort) else Peer(cfg.targetHost, cfg.targetPort)
  }

  /** `allocate_socket`: a new attempt, unless no socket could be had. */
  function Allocate(e: Engine, cfg: Config, c: Conn, a: Alloc, open: set<int>): Conn {
    var r := CreateSocket(e, Dialled(e, cfg).port, a, open);
    var g := c.log.(socketsMade := c.log.socketsMade + r.made, socketsClosed := c.log.socketsClosed + r.dropped);
    if r.fd <= 0 then c.(sockfd := r.fd, log := g)
    else c.(sockfd := r.fd, state := Connecting,
            log := g.(attempts := g.attempts + 1, fds := g.fds + {r.fd}, peer := Some(Dialled(e, cfg)),
                      plain := "", tls := "", secured := false, retry := None))
  }
}
