/** The CONNECT request: never cut off, and what a proxy reads in it. */
module ConnectRequest {
  import opened Text
  import opened Numbers
  import opened ArgumentParsing
  import opened Requests
  import opened HttpReader
  import opened RequestTheorems
  import A = Automaton

  function TargetAuthority(cfg: A.Config): string {
    cfg.targetHost + ":" + Decimal(cfg.targetPort)
  }

  function ConnectFields(cfg: A.Config): seq<Field> {
    [Field("Host", TargetAuthority(cfg)), Field("Connection", "close")]
  }

  /** The text `send_proxy_connect` formats. */
  function ConnectMessage(cfg: A.Config): string {
    Message("CONNECT", TargetAuthority(cfg), "HTTP/1.1", ConnectFields(cfg))
  }

  lemma TargetPortIsShort(e: A.Engine, port: int)
    requires A.ValidPort(e, port)
    ensures |Decimal(port)| <= 5
    ensures forall i | 0 <= i < |Decimal(port)| :: IsDigit(Decimal(port)[i])
  {
    hide Decimal;
    DecimalReads(port);
    assert Power(5) == 100_000;
    DecimalLength(port, 5, 100_000);
  }

  lemma FieldBlockOfTwo(f: Field, g: Field)
    ensures FieldBlock([f, g]) == FieldLine(f) + CRLF + FieldLine(g) + CRLF
  {
    hide FieldLine;
    assert [f, g][..1] == [f] && [f][..0] == [];
    NoFields();
  }

  lemma ConnectLines(authority: string)
    ensures "CONNECT " + authority + " HTTP/1.1\r\n" == HeadLine("CONNECT", authority, "HTTP/1.1") + CRLF
    ensures "Host: " + authority + "\r\n" == FieldLine(Field("Host", authority)) + CRLF
  {
    assert "CONNECT " == "CONNECT" + " " && " HTTP/1.1\r\n" == " " + "HTTP/1.1" + CRLF;
    assert "Host: " == "Host" + ": ";
  }

  lemma LastConnectLine()
    ensures "Connection: close\r\n\r\n" == FieldLine(CLOSE) + CRLF + CRLF
  {
  }

  /** The lines of the format string are those of the message. */
  lemma SameText(authority: string)
    ensures ("CONNECT " + authority + " HTTP/1.1\r\n") + ("Host: " + authority + "\r\n") + "Connection: close\r\n\r\n"
         == Message("CONNECT", authority, "HTTP/1.1", [Field("Host", authority), CLOSE])
  {
    hide FieldBlock, FieldLine, HeadLine;
    var host := Field("Host", authority);
    ConnectLines(authority);
    LastConnectLine();
    FieldBlockOfTwo(host, CLOSE);
    Regroup(HeadLine("CONNECT", authority, "HTTP/1.1") + CRLF, FieldLine(host) + CRLF, FieldLine(CLOSE));
  }

  lemma Regroup(first: string, second: string, third: string)
    ensures first + second + (third + CRLF + CRLF) == first + (second + third + CRLF) + CRLF
  {
  }

  /** With a host that fits its array the request is never cut off. */
  lemma NothingIsCutFromConnect(e: A.Engine, cfg: A.Config)
    requires A.CanName(e, cfg) && |cfg.targetHost| < HOST_SIZE
    ensures A.ConnectText(cfg) == ConnectMessage(cfg)
  {
    hide Decimal, Message;
    TargetPortIsShort(e, cfg.targetPort);
    SameText(TargetAuthority(cfg));
  }

  lemma AuthorityIsPlain(e: A.Engine, cfg: A.Config)
    requires A.CanName(e, cfg)
    ensures var v := TargetAuthority(cfg);
            && v != "" && !IsBlank(v[|v| - 1]) && v[0] == (if cfg.targetHost == "" then ':' else cfg.targetHost[0])
            && (OneLine(v) <==> OneLine(cfg.targetHost)) && (NoSpace(v) <==> NoSpace(cfg.targetHost)) && PortOk(v)
  {
    hide Decimal, PortOk;
    TargetPortIsShort(e, cfg.targetPort);
    PortBehind(cfg.targetHost, Decimal(cfg.targetPort));
    var h, d, v := cfg.targetHost, Decimal(cfg.targetPort), TargetAuthority(cfg);
    assert forall i | 0 <= i < |h| :: v[i] == h[i];
    assert forall i | 0 <= i < |d| :: v[|h| + 1 + i] == d[i];
    assert forall i | |h| + 1 <= i < |v| :: v[i] == d[i - |h| - 1];
  }

  lemma ConnectWords()
    ensures IsToken("CONNECT") && IsVersion("HTTP/1.1")
  {
    assert "HTTP/1.1"[..5] == "HTTP/";
  }

  /** With no whitespace in the authority its Host field is in order, and comes back as it was. */
  lemma ConnectHost(cfg: A.Config)
    requires TargetAuthority(cfg) != "" && NoSpace(TargetAuthority(cfg)) && PortOk(TargetAuthority(cfg))
    ensures AllTrimmed(ConnectFields(cfg)) == ConnectFields(cfg) && HostsOk("HTTP/1.1", ConnectFields(cfg))
  {
    hide TargetAuthority, TrimLeft, TrimRight, IsHostField;
    var v := TargetAuthority(cfg);
    TrimNothing(v);
    OthersAreTrimmed();
    OthersAreNotHost();
    HostIsHost(v);
    assert IsHostField(ConnectFields(cfg)[0]);
  }

  /**
   A proxy reads the CONNECT request back as CONNECT host:port with Host and Connection, exactly if there is
   no whitespace in the host; the empty line is there once, at its end.
   */
  lemma ConnectReadsBack(e: A.Engine, cfg: A.Config)
    requires A.CanName(e, cfg) && |cfg.targetHost| < HOST_SIZE && OneLine(cfg.targetHost)
    ensures ParseRequest(A.ConnectText(cfg))
         == if NoSpace(cfg.targetHost)
            then Some(Request("CONNECT", TargetAuthority(cfg), "HTTP/1.1", ConnectFields(cfg))) else None
    ensures EndsOnce(A.ConnectText(cfg))
  {
    hide A.ConnectText, TargetAuthority, Message, ParseRequest, HostsOk, AllTrimmed, EndsOnce, NoSpace,
      OneLine, Readable, IsToken, IsVersion;
    NothingIsCutFromConnect(e, cfg);
    AuthorityIsPlain(e, cfg);
    ConnectWords();
    HostIsReadable(TargetAuthority(cfg));
    CloseIsReadable();
    MessageReads("CONNECT", TargetAuthority(cfg), "HTTP/1.1", ConnectFields(cfg));
    MessageEndsOnce("CONNECT", TargetAuthority(cfg), "HTTP/1.1", ConnectFields(cfg));
    if NoSpace(cfg.targetHost) {
      ConnectHost(cfg);
    }
  }
}
