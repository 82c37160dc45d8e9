/**
 The source's `connection` structure and the functions that update it in place, proved against the
 automaton. The two engines carry textual copies of these functions; here they are one class whose
 `engine` selects the few expressions in which the copies differ.
 */
module Connections {
  import opened Text
  import opened Automaton

  /** The kernel's table of open descriptors. */
  class Kernel {
    var open: set<int>

    constructor ()
      ensures open == {}
    {
      open := {};
    }

    /** `socket`: the offered descriptor if it is positive and free, and otherwise a failure. */
    method Socket(offer: int) returns (fd: int)
      modifies this
      ensures fd == Automaton.Socket(offer, old(open))
      ensures open == old(open) + (if fd > 0 then {fd} else {})
    {
      if offer > 0 && offer !in open {
        open := open + {offer};
        fd := offer;
      } else {
        fd := -1;
      }
    }

    /** `close`. */
    method Close(fd: int)
      modifies this
      ensures open == old(open) - {fd}
    {
      open := open - {fd};
    }
  }

  /** What a write offered `io` returns when handed `remaining` bytes. */
  function WriteResult(io: Outcome, remaining: nat): (r: int)
    ensures r <= remaining
  {
    var n := Min(io.offer, remaining);
    if n > 0 then n else if io.eof then 0 else -1
  }

  /** What a read returns; `got` is the data it delivers. */
  function ReadResult(io: Outcome, got: string): (r: int)
    ensures r > 0 ==> r == |got|
  {
    if got != "" then |got| else if io.eof then 0 else -1
  }

  /** The loop over the address list: each socket that cannot connect is closed before the next is tried. */
  method CreateNonblockingSocket(e: Engine, peer: Peer, a: Alloc, kernel: Kernel) returns (sockfd: int, ghost r: Search)
    modifies kernel
    ensures r == CreateSocket(e, peer.port, a, old(kernel.open)) && sockfd == r.fd
    ensures kernel.open == old(kernel.open) + (if sockfd > 0 then {sockfd} else {})
  {
    if !ValidPort(e, peer.port) || !a.resolved {
      return -1, Search(-1, 0, 0);
    }
    ghost var open := kernel.open;
    ghost var made := 0;
    var rp := 0;
    sockfd := -1;
    while rp < |a.addresses|
      invariant rp <= |a.addresses|
      invariant kernel.open == open
      invariant CreateSocket(e, peer.port, a, open) ==
                var rest := TryAddresses(a.addresses[rp..], open);
                Search(rest.fd, made + rest.made, made + rest.dropped)
    {
      sockfd := kernel.Socket(a.addresses[rp].fd);
      assert a.addresses[rp..][1..] == a.addresses[rp + 1..];
      if sockfd <= 0 {
        rp := rp + 1;
        continue;
      }
      if !a.addresses[rp].connects {
        kernel.Close(sockfd);
        made := made + 1;
        rp := rp + 1;
        continue;
      } else {
        break;
      }
    }
    r := CreateSocket(e, peer.port, a, open);
    if rp == |a.addresses| {
      return -1, r;
    }
  }

  class Connection {
    const engine: Engine
    const cfg: Config
    var state: State
    var sockfd: int
    var ssl: Option<nat>
    const receivedResponse: array<char>
    var bytesSent: nat
    var bytesReceived: nat
    var speed: nat
    var failed: nat
    var bytes: nat
    var sslMade: nat
    ghost var log: Log

    ghost function Value(): Conn
      reads this, receivedResponse
    {
      Conn(state, sockfd, ssl, receivedResponse[..], bytesSent, bytesReceived, speed, failed, bytes, sslMade, log)
    }

    /** `init_connection`. */
    constructor (e: Engine, cfg: Config)
      ensures Value() == FRESH && engine == e && this.cfg == cfg && fresh(receivedResponse)
    {
      engine, this.cfg := e, cfg;
      state, sockfd, ssl := Idle, -1, None;
      bytesSent, bytesReceived := 0, 0;
      speed, failed, bytes, sslMade := 0, 0, 0, 0;
      log := EMPTY_LOG;
      receivedResponse := new char[CAP](_ => NUL);
      new;
      assert receivedResponse[..] == Zeros(CAP);
    }

    method Fail()
      modifies this
      ensures Value() == Failed(old(Value()))
    {
      state := Error;
      failed := failed + 1;
    }

    /** `memset(conn->received_response, 0, sizeof(conn->received_response))`. */
    method ClearBuffer()
      requires receivedResponse.Length == CAP
      modifies receivedResponse
      ensures receivedResponse[..] == Zeros(CAP)
    {
      forall k | 0 <= k < receivedResponse.Length {
        receivedResponse[k] := NUL;
      }
    }

    /** A read stores its data behind what is there, and the caller terminates the text. */
    method Receive(got: string)
      requires receivedResponse.Length == CAP && bytesReceived + |got| < CAP
      modifies this, receivedResponse
      ensures Value() == Store(old(Value()), got)
    {
      ghost var before := receivedResponse[..];
      forall k | 0 <= k < |got| {
        receivedResponse[bytesReceived + k] := got[k];
      }
      assert receivedResponse[..] == Splice(before, bytesReceived, got);
      log := log.(inbox := log.inbox + got);
      bytesReceived := bytesReceived + |got|;
      receivedResponse[bytesReceived] := NUL;
    }

    /** `setup_ssl_context`. */
    method SetupSslContext(t: TlsSetup) returns (ret: int)
      modifies this
      ensures Value() == SetupSsl(old(Value()), t)
      ensures ret > 0 <==> t.Bound?
    {
      if t.NoContext? {
        return -1;
      }
      if t.NoSsl? {
        ssl := None;
        return -1;
      }
      ssl := Some(sslMade);
      log := log.(ssls := log.ssls + {sslMade});
      sslMade := sslMade + 1;
      return if t.Bound? then 1 else -1;
    }

    /**
     `send_proxy_connect`: 1 when the CONNECT request is out, 0 to go on later, -1 on failure. The
     epoll copy keeps the result of `send` in a `size_t`.
     */
    method SendProxyConnect(io: Outcome) returns (ret: int)
      requires bytesSent <= |ConnectText(cfg)|
      modifies this
      ensures OnProxyConnect(engine, cfg, old(Value()), io) ==
              if ret > 0 then Value().(state := ProxyResponse) else if ret == 0 then Value() else Failed(Value())
    {
      hide ConnectText, Clip;
      if cfg.proxyHost == "" || cfg.targetHost == "" {
        return -1;
      }
      if !ValidPort(engine, cfg.proxyPort) || !ValidPort(engine, cfg.targetPort) {
        return -1;
      }
      if sockfd <= 0 {
        return -1;
      }
      var connectRequest := ConnectText(cfg);
      var remaining := |connectRequest| - bytesSent;
      if remaining <= 0 {
        return 1;
      }
      var result := WriteResult(io, remaining);
      assert result >= 0 ==> result % SIZE_T == result && (bytesSent + result) % SIZE_T == bytesSent + result;
      assert result == -1 ==> result % SIZE_T == SIZE_T - 1;
      if result > 0 {
        log := log.(plain := log.plain + connectRequest[bytesSent..bytesSent + result]);
      }
      if engine.Epoll? {
        result := result % SIZE_T;
      }
      if result <= 0 {
        return if io.again then 0 else -1;
      } else {
        bytesSent := (bytesSent + result) % SIZE_T;
        if bytesSent >= |connectRequest| {
          bytesSent := 0;
          return 1;
        } else {
          return 0;
        }
      }
    }

    /** `handle_proxy_response`: 1 when the tunnel is granted, 0 to go on later, -1 on failure. */
    method HandleProxyResponse(io: Outcome) returns (ret: int)
      requires receivedResponse.Length == CAP && bytesReceived < CAP
      modifies this, receivedResponse
      ensures OnProxyResponse(engine, cfg, old(Value()), io) ==
              if ret == 1 then SetupSsl(Value(), io.tls).(state := TlsHandshake)
              else if ret == 0 then Value() else Failed(Value())
    {
      hide StrStr, Zeros, Splice, SetupSsl;
      if (if engine.Poll? then sockfd <= 0 else sockfd < 0) {
        return -1;
      }
      var remaining := CAP - bytesReceived - 1;
      if remaining <= 0 {
        receivedResponse[CAP - 1] := NUL;
        if !StrStr(receivedResponse[..], TUNNEL_OK) {
          return -1;
        } else {
          GrantTunnel();
          return 1;
        }
      }
      var got := Got(io, remaining);
      if ReadResult(io, got) > 0 {
        Receive(got);
        if StrStr(receivedResponse[..], TUNNEL_OK) {
          GrantTunnel();
          return 1;
        } else if bytesReceived >= CAP {
          return -1;
        } else {
          return 0;
        }
      } else {
        return if io.again then 0 else -1;
      }
    }

    /** The receive buffer and its count reset for the TLS phase. */
    method GrantTunnel()
      requires receivedResponse.Length == CAP
      modifies this, receivedResponse
      ensures Value() == old(Value()).(buffer := Zeros(CAP), received := 0, log := old(log).(inbox := ""))
    {
      ClearBuffer();
      bytesReceived := 0;
      log := log.(inbox := "");
    }

    method HandleConnecting(io: Outcome)
      modifies this
      ensures Value() == OnConnecting(engine, cfg, old(Value()), io)
    {
      if io.connected {
        if NeedProxy(engine, cfg) && cfg.isHttps {
          state := ProxyConnect;
        } else {
          state := if cfg.isHttps then TlsHandshake else Sending;
          if cfg.isHttps {
            var ret := SetupSslContext(io.tls);
            if ret <= 0 {
              Fail();
            }
          }
        }
      } else {
        Fail();
      }
    }

    /** What follows the last byte of the body. */
    method FinishBody()
      modifies this
      ensures Value() == BodyDone(cfg, old(Value()))
    {
      if cfg.force {
        state := Completed;
        log := log.(forced := log.forced + 1);
      } else {
        state := Receiving;
      }
    }

    /** HTTPS: some more of the body through `SSL_write`. */
    method SendTls(io: Outcome)
      requires cfg.isHttps && bytesSent < |cfg.body|
      modifies this
      ensures Value() == OnSending(cfg, old(Value()), io)
    {
      var remaining := |cfg.body| - bytesSent;
      var bytesWritten := WriteResult(io, remaining);
      if ssl.Some? {
        if bytesWritten > 0 {
          log := log.(tls := log.tls + cfg.body[bytesSent..bytesSent + bytesWritten], retry := None);
          bytesSent := bytesSent + bytesWritten;
          if bytesSent >= |cfg.body| {
            FinishBody();
          }
        } else if io.want {
          log := log.(retry := Some((bytesSent, remaining)));
        } else {
          Fail();
        }
      } else {
        Fail();
      }
    }

    /** HTTP: some more of the body through `send`. */
    method SendClear(io: Outcome)
      requires !cfg.isHttps && bytesSent < |cfg.body|
      modifies this
      ensures Value() == OnSending(cfg, old(Value()), io)
    {
      var bytesWritten := WriteResult(io, |cfg.body| - bytesSent);
      if bytesWritten > 0 {
        log := log.(plain := log.plain + cfg.body[bytesSent..bytesSent + bytesWritten]);
        bytesSent := bytesSent + bytesWritten;
        if bytesSent >= |cfg.body| {
          FinishBody();
        }
      } else if bytesWritten == -1 && io.again {
      } else {
        Fail();
      }
    }

    method HandleSending(io: Outcome)
      requires bytesSent <= |cfg.body|
      modifies this
      ensures Value() == OnSending(cfg, old(Value()), io)
    {
      hide Wrote;
      if bytesSent >= |cfg.body| {
        FinishBody();
      } else if cfg.isHttps {
        SendTls(io);
      } else {
        SendClear(io);
      }
    }

    /** The response is complete. */
    method Complete()
      modifies this
      ensures Value() == Finish(old(Value()))
    {
      state := Completed;
      speed := speed + 1;
      bytes := bytes + bytesReceived;
      log := log.(replies := log.replies + [bytesReceived]);
    }

    /** The reads go through the SSL object without a test, so it has to be there. */
    method HandleReceiving(io: Outcome)
      requires receivedResponse.Length == CAP && bytesReceived < CAP
      requires cfg.isHttps ==> ssl.Some?
      modifies this, receivedResponse
      ensures Value() == OnReceiving(cfg, old(Value()), io)
    {
      hide StrStr, Zeros, Splice;
      var remaining := CAP - bytesReceived - 1;
      if remaining <= 0 {
        Complete();
      } else {
        var got := Got(io, remaining);
        var bytesRead := ReadResult(io, got);
        if bytesRead > 0 {
          Receive(got);
          if StrStr(receivedResponse[..], HEADER_END) {
            Complete();
          }
        } else if (if cfg.isHttps then io.want else bytesRead == -1 && io.again) {
        } else {
          Fail();
        }
      }
    }

    /** `handle_ready_connection`, from the check for error events on. */
    method HandleReady(ev: Events, io: Outcome)
      requires Shape(cfg, Value())
      modifies this, receivedResponse
      ensures Value() == Handle(engine, cfg, old(Value()), ev, io)
    {
      if ev.bad {
        Fail();
        return;
      }
      match state
      case Connecting =>
        if ev.writable {
          HandleConnecting(io);
        }
      case ProxyConnect =>
        if ev.writable {
          var ret := SendProxyConnect(io);
          if ret > 0 {
            state := ProxyResponse;
          } else if ret < 0 {
            Fail();
          }
        }
      case ProxyResponse =>
        if ev.readable {
          var ret := HandleProxyResponse(io);
          if ret == 1 {
            var ignored := SetupSslContext(io.tls);
            state := TlsHandshake;
          } else if ret != 0 {
            Fail();
          }
        }
      case TlsHandshake =>
        if ssl.Some? && (ev.readable || ev.writable) {
          if io.handshake {
            log := log.(secured := true);
            state := Sending;
          } else if !io.want {
            Fail();
          }
        }
      case Sending =>
        if ev.writable {
          HandleSending(io);
        }
      case Receiving =>
        if ev.readable {
          HandleReceiving(io);
        }
      case Idle | Completed | Error =>
    }

    /** `SSL_free`, if there is an object. */
    method ReleaseSsl()
      modifies `ssl, `log
      ensures Value() == FreeSsl(old(Value()))
    {
      if ssl.Some? {
        log := log.(ssls := log.ssls - {ssl.value}, sslFreed := log.sslFreed + 1);
        ssl := None;
      }
    }

    /** `cleanup_connection`. */
    method CleanUp(kernel: Kernel)
      requires receivedResponse.Length == CAP
      modifies this, receivedResponse, kernel
      ensures Value() == Cleanup(engine, old(Value()))
      ensures kernel.open == old(kernel.open) -
              (if (if engine.Poll? then old(sockfd) != 0 else old(sockfd) > 0) then {old(sockfd)} else {})
    {
      hide Zeros, Close, FreeSsl;
      ReleaseSsl();
      if (if engine.Poll? then sockfd != 0 else sockfd > 0) {
        log := Close(log, sockfd);
        kernel.Close(sockfd);
        sockfd := -1;
      }
      state := Idle;
      bytesSent := 0;
      bytesReceived := 0;
      ClearBuffer();
      log := log.(inbox := "");
    }

    /** `allocate_socket`. */
    method AllocateSocket(a: Alloc, kernel: Kernel) returns (ret: int)
      modifies this, kernel
      ensures Value() == Allocate(engine, cfg, old(Value()), a, old(kernel.open))
      ensures kernel.open == old(kernel.open) + (if sockfd > 0 then {sockfd} else {})
      ensures ret > 0 <==> sockfd > 0
    {
      ghost var r;
      var peer;
      if NeedProxy(engine, cfg) {
        peer := Peer(cfg.proxyHost, cfg.proxyPort);
        sockfd, r := CreateNonblockingSocket(engine, peer, a, kernel);
      } else {
        peer := Peer(cfg.targetHost, cfg.targetPort);
        sockfd, r := CreateNonblockingSocket(engine, peer, a, kernel);
      }
      log := log.(socketsMade := log.socketsMade + r.made, socketsClosed := log.socketsClosed + r.dropped);
      if sockfd <= 0 {
        return -1;
      }
      state := Connecting;
      log := log.(attempts := log.attempts + 1, fds := log.fds + {sockfd}, peer := Some(peer),
                  plain := "", tls := "", secured := false, retry := None);
      return 1;
    }
  }
}
