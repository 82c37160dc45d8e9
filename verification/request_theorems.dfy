/** What the built request is: whole, readable exactly where it ought to be, and stable. */
module RequestTheorems {
  import opened Text
  import opened Numbers
  import opened ArgumentParsing
  import opened Requests
  import opened HttpReader
  import UrlTheorems

  /** The arguments the rest of the program can hand over. */
  predicate WithinLimits(a: Args) {
    |a.url| < URL_SIZE && |a.targetHost| < HOST_SIZE && !a.httpMethod.Unknown?
  }

  /** No line break in the part of the arguments that goes into a request. */
  predicate LinesOnly(a: Args) {
    if a.proxyHost == "" then OneLine(a.targetHost) else OneLine(a.url)
  }

  function LineSize(f: Field): nat {
    |f.name| + |f.value| + 4
  }

  lemma OptionalField(fields: seq<Field>, present: bool, f: Field)
    ensures |FieldBlock(fields + if present then [f] else [])|
         == |FieldBlock(fields)| + if present then LineSize(f) else 0
  {
    if present {
      assert (fields + [f])[..|fields|] == fields;
    } else {
      assert fields + [] == fields;
    }
  }

  lemma ConstantSizes()
    ensures LineSize(USER_AGENT) == 24 && LineSize(PRAGMA) == 18
    ensures LineSize(CACHE_CONTROL) == 25 && LineSize(CLOSE) == 19
  {
  }

  lemma FieldsSize(a: Args)
    requires |a.targetHost| < HOST_SIZE
    ensures |FieldBlock(Fields(a))| <= if a.proxyHost == "" then 189 else 68
  {
    hide FieldBlock, LineSize, PortText;
    var reload := a.proxyHost != "" && a.forceReload;
    var host := Field("Host", Authority(a));
    var s0: seq<Field> := [];
    var s1 := s0 + if true then [USER_AGENT] else [];
    var s2 := s1 + if a.proxyHost == "" then [host] else [];
    var s3 := s2 + if reload && a.version.Http10? then [PRAGMA] else [];
    var s4 := s3 + if reload && a.version.Http11? then [CACHE_CONTROL] else [];
    NoFields();
    ConstantSizes();
    HostSize(a);
    OptionalField(s0, true, USER_AGENT);
    OptionalField(s1, a.proxyHost == "", host);
    OptionalField(s2, reload && a.version.Http10?, PRAGMA);
    OptionalField(s3, reload && a.version.Http11?, CACHE_CONTROL);
    OptionalField(s4, a.version.Http11?, CLOSE);
    assert s1 == [USER_AGENT];
    assert Fields(a) == s4 + if a.version.Http11? then [CLOSE] else [];
  }

  lemma HostSize(a: Args)
    requires |a.targetHost| < HOST_SIZE
    ensures LineSize(Field("Host", Authority(a))) <= 146
  {
  }

  /** Within the field limits nothing is ever cut off: at most 1112 bytes go into the 2047 there are. */
  lemma NothingIsCut(a: Args)
    requires WithinLimits(a)
    ensures |PlainRequest(a)| <= 1112
    ensures Clip(PlainRequest(a), BODY_SIZE - 1) == PlainRequest(a)
  {
    hide FieldBlock, Fields;
    FieldsSize(a);
    assert |VersionName(a.version)| <= 8 && |MethodName(a.httpMethod)| <= 7;
    assert |Target(a)| <= if a.proxyHost == "" then 1 else 1023;
  }

  // Reading the request back.

  lemma MinusDecimal(n: int)
    requires n > 0
    ensures Decimal(-n) == "-" + Decimal(n)
  {
  }

  lemma DecimalChars(n: int)
    ensures forall i | 0 <= i < |Decimal(n)| :: IsDigit(Decimal(n)[i]) || Decimal(n)[i] == '-'
    ensures n < 0 ==> Decimal(n)[0] == '-'
  {
    hide Decimal, IsDigit;
    if n < 0 {
      DecimalReads(-n);
      MinusDecimal(-n);
      assert forall i | 0 < i < |Decimal(n)| :: Decimal(n)[i] == Decimal(-n)[i - 1];
    } else {
      DecimalReads(n);
    }
  }

  /** No port looks like a line break, a blank or the end of a value, whatever its sign and size. */
  lemma PortTextIsPlain(port: int)
    ensures var p := PortText(port);
            p != "" && p[0] == ':' && OneLine(p) && NoSpace(p) && !IsBlank(p[|p| - 1])
  {
    hide Decimal;
    DecimalChars(port);
    var p := PortText(port);
    assert forall i | 0 <= i < |p| :: IsDigit(p[i]) || p[i] == '-' || p[i] == ':';
  }

  /** Behind its colon it is a sign, if the port is negative, and digits. */
  lemma PortTextSign(port: int)
    ensures var p := PortText(port);
            |p| > 1 && p == ":" + p[1..] && ':' !in p[1..] && p[|p| - 1] != ']' && (AllDigits(p[1..]) <==> port >= 0)
  {
    hide Decimal;
    DecimalChars(port);
    var p := PortText(port);
    assert forall i | 0 < i < |p| :: p[i] == Decimal(port)[i - 1];
    if port < 0 {
      assert p[1..][0] == '-';
    } else {
      DecimalReads(port);
    }
  }

  lemma PortTextIs(port: int)
    requires 0 < port <= INT_MAX
    ensures PortText(port) == ":" + Decimal(port)
  {
    hide Decimal;
    assert Power(10) == 10_000_000_000 by { assert Power(5) == 100_000; }
    DecimalLength(port, 10, 10_000_000_000);
  }

  lemma AgentIsReadable()
    ensures Readable(USER_AGENT)
  {
  }

  lemma PragmaIsReadable()
    ensures Readable(PRAGMA)
  {
  }

  lemma CacheControlIsReadable()
    ensures Readable(CACHE_CONTROL)
  {
  }

  lemma CloseIsReadable()
    ensures Readable(CLOSE)
  {
  }

  lemma HostIsReadable(authority: string)
    requires OneLine(authority)
    ensures Readable(Field("Host", authority)) && IsHostField(Field("Host", authority))
  {
  }

  lemma FieldsAreReadable(a: Args)
    requires LinesOnly(a)
    ensures forall i | 0 <= i < |Fields(a)| :: Readable(Fields(a)[i])
  {
    hide Readable, PortText;
    AgentIsReadable();
    PragmaIsReadable();
    CacheControlIsReadable();
    CloseIsReadable();
    if a.proxyHost == "" {
      PortTextIsPlain(a.targetPort);
      HostIsReadable(Authority(a));
    }
  }

  lemma NamesAndVersions(a: Args)
    requires !a.version.Http09? && !a.httpMethod.Unknown?
    ensures IsToken(MethodName(a.httpMethod)) && IsVersion(VersionName(a.version))
    ensures VersionName(a.version) == "HTTP/1.1" <==> a.version.Http11?
  {
    assert VersionName(a.version)[7] == if a.version.Http10? then '0' else '1';
  }

  lemma TargetIsOneLine(a: Args)
    requires LinesOnly(a)
    ensures OneLine(Target(a))
  {
  }

  lemma RequestIsMessage(a: Args)
    requires !a.version.Http09?
    ensures PlainRequest(a) == Message(MethodName(a.httpMethod), Target(a), VersionName(a.version), Fields(a))
  {
    hide Fields, FieldBlock, MethodName, VersionName, Target;
  }

  lemma {:induction false} TrimLeftThrough(s: string, t: string)
    requires t != "" && !IsBlank(t[0])
    ensures TrimLeft(s + t) == TrimLeft(s) + t
  {
    if s == "" {
      assert s + t == t;
    } else if IsBlank(s[0]) {
      assert (s + t)[1..] == s[1..] + t;
      TrimLeftThrough(s[1..], t);
    }
  }

  /** What a server takes for the value of the Host field: blanks in front of the host are gone. */
  lemma HostValue(a: Args)
    ensures Trimmed(Field("Host", Authority(a))).value == TrimLeft(a.targetHost) + PortText(a.targetPort)
    ensures NoSpace(Trimmed(Field("Host", Authority(a))).value) <==> NoSpace(TrimLeft(a.targetHost))
    ensures PortOk(Trimmed(Field("Host", Authority(a))).value) <==> a.targetPort >= 0
  {
    hide PortText, TrimLeft, PortOk, AllDigits;
    var h, p := a.targetHost, PortText(a.targetPort);
    PortTextIsPlain(a.targetPort);
    TrimLeftThrough(h, p);
    var v := TrimLeft(h) + p;
    PortTextSign(a.targetPort);
    PortBehind(TrimLeft(h), p[1..]);
    assert v == TrimLeft(h) + ":" + p[1..];
    assert v[|v| - 1] == p[|p| - 1];
    assert forall i | 0 <= i < |TrimLeft(h)| :: v[i] == TrimLeft(h)[i];
    assert forall i | |TrimLeft(h)| <= i < |v| :: v[i] == p[i - |TrimLeft(h)|];
  }

  lemma OthersAreNotHost()
    ensures !IsHostField(USER_AGENT) && !IsHostField(PRAGMA) && !IsHostField(CACHE_CONTROL) && !IsHostField(CLOSE)
  {
  }

  /** The Host field is the second one, and is there exactly without a proxy. */
  lemma WhereHostIs(a: Args)
    ensures forall i | 0 <= i < |Fields(a)| :: IsHostField(Fields(a)[i]) <==> a.proxyHost == "" && i == 1
    ensures a.proxyHost == "" ==> |Fields(a)| > 1 && Fields(a)[1] == Field("Host", Authority(a))
  {
    hide IsHostField, Authority;
    OthersAreNotHost();
    HostIsHost(Authority(a));
  }

  lemma HostIsHost(authority: string)
    ensures IsHostField(Field("Host", authority))
  {
  }

  lemma TrimKeepsName(f: Field)
    ensures IsHostField(Trimmed(f)) <==> IsHostField(f)
  {
  }

  /** When the Host field is in order: section 3.2 of RFC 9112 wants one with HTTP/1.1. */
  lemma HostInOrder(a: Args)
    ensures HostsOk(VersionName(a.version), AllTrimmed(Fields(a))) <==>
            if a.proxyHost == "" then NoSpace(TrimLeft(a.targetHost)) && a.targetPort >= 0
            else VersionName(a.version) != "HTTP/1.1"
  {
    hide PortOk, Fields, IsHostField, NoSpace, TrimLeft, Trimmed, Authority, VersionName;
    var fields, read := Fields(a), AllTrimmed(Fields(a));
    WhereHostIs(a);
    HostValue(a);
    forall i | 0 <= i < |fields| ensures IsHostField(read[i]) <==> a.proxyHost == "" && i == 1 {
      TrimKeepsName(fields[i]);
    }
    if a.proxyHost == "" {
      assert read[1] == Trimmed(Field("Host", Authority(a)));
    }
  }

  /**
   The arguments whose request a server can read: the target is there and has no whitespace, and either
   the host has none behind leading blanks and the port no sign, or there is a proxy and the version does
   without Host.
   */
  predicate Acceptable(a: Args) {
    && (a.proxyHost != "" ==> a.url != "" && NoSpace(a.url))
    && if a.proxyHost == "" then NoSpace(TrimLeft(a.targetHost)) && a.targetPort >= 0 else a.version.Http10?
  }

  /** The name of a method, as it is to stand in a request. */
  function Spelled(m: Method): string {
    match m
    case Get => "GET"
    case Head => "HEAD"
    case Options => "OPTIONS"
    case Trace => "TRACE"
    case Unknown => ""
  }

  /** The host, without blanks in front of it, and the port, in eleven bytes at most with its ':'. */
  function AskedHost(a: Args): string {
    TrimLeft(a.targetHost) + Clip(":" + Decimal(a.targetPort), 11)
  }

  /**
   What the arguments ask for: the method, "/" or through a proxy the URL, the version, and the fields, each
   on its condition.
   */
  function Asked(a: Args): Request {
    Request(
      Spelled(a.httpMethod),
      if a.proxyHost == "" then "/" else a.url,
      if a.version == Http11 then "HTTP/1.1" else "HTTP/1.0",
      [Field("User-Agent", "WebBench 2")]
      + (if a.proxyHost == "" then [Field("Host", AskedHost(a))] else [])
      + (if a.proxyHost != "" && a.forceReload && a.version == Http10 then [Field("Pragma", "no-cache")] else [])
      + (if a.proxyHost != "" && a.forceReload && a.version == Http11 then [Field("Cache-Control", "no-cache")] else [])
      + (if a.version == Http11 then [Field("Connection", "close")] else []))
  }

  lemma AllTrimmedJoins(s: seq<Field>, t: seq<Field>)
    ensures AllTrimmed(s + t) == AllTrimmed(s) + AllTrimmed(t)
  {
  }

  lemma AllTrimmedOne(present: bool, f: Field)
    ensures AllTrimmed(if present then [f] else []) == if present then [Trimmed(f)] else []
  {
  }

  lemma AskedFields(a: Args)
    ensures Asked(a).fields == AllTrimmed(Fields(a))
  {
    hide AllTrimmed, Trimmed, TrimLeft, TrimRight, Decimal;
    var reload := a.proxyHost != "" && a.forceReload;
    var host := if a.proxyHost == "" then [Field("Host", Authority(a))] else [];
    var pragma := if reload && a.version.Http10? then [PRAGMA] else [];
    var cache := if reload && a.version.Http11? then [CACHE_CONTROL] else [];
    var close := if a.version.Http11? then [CLOSE] else [];
    assert Fields(a) == (((([USER_AGENT] + host) + pragma) + cache) + close);
    AllTrimmedJoins((([USER_AGENT] + host) + pragma) + cache, close);
    AllTrimmedJoins(([USER_AGENT] + host) + pragma, cache);
    AllTrimmedJoins([USER_AGENT] + host, pragma);
    AllTrimmedJoins([USER_AGENT], host);
    AllTrimmedOne(true, USER_AGENT);
    AllTrimmedOne(a.proxyHost == "", Field("Host", Authority(a)));
    AllTrimmedOne(reload && a.version.Http10?, PRAGMA);
    AllTrimmedOne(reload && a.version.Http11?, CACHE_CONTROL);
    AllTrimmedOne(a.version.Http11?, CLOSE);
    OthersAreTrimmed();
    HostValue(a);
    TrimKeepsNameText(Field("Host", Authority(a)));
  }

  lemma TrimKeepsNameText(f: Field)
    ensures Trimmed(f).name == f.name
  {
    hide TrimLeft, TrimRight;
  }

  lemma AskedHead(a: Args)
    requires !a.version.Http09?
    ensures var r := Asked(a);
            r.name == MethodName(a.httpMethod) && r.target == Target(a) && r.version == VersionName(a.version)
  {
    hide TrimLeft, Decimal;
  }

  /** The bytes of a request, from the first to the last. */
  function Bytes(a: Args): string {
    var target := if a.proxyHost == "" then "/" else a.url;
    var reload := a.proxyHost != "" && a.forceReload;
    Spelled(a.httpMethod) + " " + target +
    (match a.version
     case Http09 => ""
     case Http10 =>
       " HTTP/1.0\r\n" + "User-Agent: WebBench 2\r\n" + HostBytes(a)
       + (if reload then "Pragma: no-cache\r\n" else "") + "\r\n"
     case Http11 =>
       " HTTP/1.1\r\n" + "User-Agent: WebBench 2\r\n" + HostBytes(a)
       + (if reload then "Cache-Control: no-cache\r\n" else "") + "Connection: close\r\n" + "\r\n")
  }

  function HostBytes(a: Args): string {
    if a.proxyHost == "" then "Host: " + a.targetHost + Clip(":" + Decimal(a.targetPort), 11) + "\r\n" else ""
  }

  lemma OptionalLine(fields: seq<Field>, present: bool, f: Field, line: string)
    requires FieldLine(f) + CRLF == line
    ensures FieldBlock(fields + if present then [f] else []) == FieldBlock(fields) + if present then line else ""
  {
    hide FieldLine;
    if present {
      MoreFields(fields, f);
    } else {
      assert fields + [] == fields && FieldBlock(fields) + "" == FieldBlock(fields);
    }
  }

  /** The field lines of a request, whatever the texts of the lines. */
  lemma FieldBlockOf(a: Args, agent: string, pragma: string, cache: string, close: string)
    requires FieldLine(USER_AGENT) + CRLF == agent && FieldLine(PRAGMA) + CRLF == pragma
    requires FieldLine(CACHE_CONTROL) + CRLF == cache && FieldLine(CLOSE) + CRLF == close
    ensures var reload := a.proxyHost != "" && a.forceReload;
            FieldBlock(Fields(a)) == agent
              + (if a.proxyHost == "" then FieldLine(Field("Host", Authority(a))) + CRLF else "")
              + (if reload && a.version.Http10? then pragma else "")
              + (if reload && a.version.Http11? then cache else "")
              + (if a.version.Http11? then close else "")
  {
    hide FieldBlock, FieldLine, Authority;
    var reload := a.proxyHost != "" && a.forceReload;
    var host := Field("Host", Authority(a));
    var s0: seq<Field> := [];
    var s1 := s0 + if true then [USER_AGENT] else [];
    var s2 := s1 + if a.proxyHost == "" then [host] else [];
    var s3 := s2 + if reload && a.version.Http10? then [PRAGMA] else [];
    var s4 := s3 + if reload && a.version.Http11? then [CACHE_CONTROL] else [];
    NoFields();
    OptionalLine(s0, true, USER_AGENT, agent);
    OptionalLine(s1, a.proxyHost == "", host, FieldLine(host) + CRLF);
    OptionalLine(s2, reload && a.version.Http10?, PRAGMA, pragma);
    OptionalLine(s3, reload && a.version.Http11?, CACHE_CONTROL, cache);
    OptionalLine(s4, a.version.Http11?, CLOSE, close);
    assert s1 == [USER_AGENT] && "" + agent == agent;
    assert Fields(a) == s4 + if a.version.Http11? then [CLOSE] else [];
  }

  lemma FieldBytes(a: Args)
    ensures var reload := a.proxyHost != "" && a.forceReload;
            FieldBlock(Fields(a)) == "User-Agent: WebBench 2\r\n" + HostBytes(a)
              + (if reload && a.version.Http10? then "Pragma: no-cache\r\n" else "")
              + (if reload && a.version.Http11? then "Cache-Control: no-cache\r\n" else "")
              + (if a.version.Http11? then "Connection: close\r\n" else "")
  {
    hide FieldBlock, Fields, FieldLine, Decimal;
    LineTexts();
    HostLine(a);
    FieldBlockOf(a, "User-Agent: WebBench 2\r\n", "Pragma: no-cache\r\n", "Cache-Control: no-cache\r\n",
                 "Connection: close\r\n");
  }

  lemma Rejoined(start: string, version: string, agent: string, host: string, extra: string, close: string, end: string)
    ensures (start + version) + (agent + host + extra + close) + end
         == start + (version + agent + host + extra + close + end)
  {
  }

  /** A request in full. */
  lemma BytesInFull(a: Args)
    ensures PlainRequest(a) == Bytes(a)
  {
    hide FieldBlock, Fields, HostBytes, Decimal, RequestLine;
    var start := MethodName(a.httpMethod) + " " + Target(a);
    var reload := a.proxyHost != "" && a.forceReload;
    var agent, host := "User-Agent: WebBench 2\r\n", HostBytes(a);
    FieldBytes(a);
    VersionEnd(a);
    NameAndTarget(a);
    match a.version
    case Http09 =>
      assert start + "" == start;
    case Http10 =>
      var extra := if reload then "Pragma: no-cache\r\n" else "";
      assert FieldBlock(Fields(a)) == agent + host + extra + "" + "";
      NothingAdded(agent + host + extra);
      NothingAdded(" HTTP/1.0\r\n" + agent + host + extra);
      Rejoined(start, " HTTP/1.0\r\n", agent, host, extra, "", "\r\n");
    case Http11 =>
      var extra := if reload then "Cache-Control: no-cache\r\n" else "";
      assert FieldBlock(Fields(a)) == agent + host + "" + extra + "Connection: close\r\n";
      NothingAdded(agent + host);
      Rejoined(start, " HTTP/1.1\r\n", agent, host, extra, "Connection: close\r\n", "\r\n");
  }

  lemma NothingAdded(s: string)
    ensures s + "" == s
  {
  }

  lemma NameAndTarget(a: Args)
    ensures MethodName(a.httpMethod) == Spelled(a.httpMethod)
    ensures Target(a) == if a.proxyHost == "" then "/" else a.url
  {
  }

  lemma TargetHasNoSpace(a: Args)
    ensures Target(a) != "" && NoSpace(Target(a)) <==> (a.proxyHost != "" ==> a.url != "" && NoSpace(a.url))
  {
  }

  /**
   An HTTP/1.x request reads back as the method, target, version and fields asked for, in order, exactly
   if the arguments are acceptable; any other is refused.
   */
  lemma RequestReadsBack(a: Args)
    requires !a.version.Http09? && !a.httpMethod.Unknown? && LinesOnly(a)
    ensures ParseRequest(PlainRequest(a)) == if Acceptable(a) then Some(Asked(a)) else None
  {
    hide Asked, Fields, NoSpace, TrimLeft, HostsOk, ParseRequest, Message, PlainRequest, Readable,
      AllTrimmed, IsToken, IsVersion, MethodName;
    RequestIsMessage(a);
    NamesAndVersions(a);
    TargetIsOneLine(a);
    FieldsAreReadable(a);
    MessageReads(MethodName(a.httpMethod), Target(a), VersionName(a.version), Fields(a));
    HostInOrder(a);
    AskedHead(a);
    AskedFields(a);
    TargetHasNoSpace(a);
  }

  /**
   Through a proxy a request for a plain URL is refused as HTTP/1.1 and read as HTTP/1.0; one with a space in
   it is refused as HTTP/1.0 too.
   */
  lemma RefusedThroughProxy()
    ensures var a := DEFAULTS.(proxyHost := "proxy", url := "http://h/");
            && ParseRequest(PlainRequest(a)) == None
            && ParseRequest(PlainRequest(a.(version := Http10))).Some?
    ensures var a := DEFAULTS.(proxyHost := "proxy", url := "http://h/a b/", version := Http10);
            ParseRequest(PlainRequest(a)) == None
  {
    hide Fields, TrimLeft, ParseRequest, PlainRequest, AllTrimmed, OneLine, NoSpace;
    var a := DEFAULTS.(proxyHost := "proxy", url := "http://h/");
    var b := DEFAULTS.(proxyHost := "proxy", url := "http://h/a b/", version := Http10);
    SampleUrls();
    RequestReadsBack(a);
    RequestReadsBack(a.(version := Http10));
    RequestReadsBack(b);
  }

  lemma SampleUrls()
    ensures OneLine("http://h/") && NoSpace("http://h/")
    ensures OneLine("http://h/a b/") && !NoSpace("http://h/a b/")
  {
    assert "http://h/a b/"[10] == ' ';
  }

  /** The fields come back as they were exactly if no host that begins with a blank is among them. */
  lemma FieldsAreTrimmed(a: Args)
    ensures AllTrimmed(Fields(a)) == Fields(a) <==>
            a.proxyHost != "" || a.targetHost == "" || !IsBlank(a.targetHost[0])
  {
    hide PortText, TrimLeft, TrimRight, IsBlank;
    HostIsTrimmed(a);
    OthersAreTrimmed();
    if a.proxyHost == "" {
      assert Fields(a)[1] == Field("Host", Authority(a));
      assert AllTrimmed(Fields(a))[1] == Trimmed(Field("Host", Authority(a)));
    }
  }

  lemma OthersAreTrimmed()
    ensures Trimmed(USER_AGENT) == USER_AGENT && Trimmed(PRAGMA) == PRAGMA
    ensures Trimmed(CACHE_CONTROL) == CACHE_CONTROL && Trimmed(CLOSE) == CLOSE
  {
    hide TrimLeft, TrimRight;
    TrimNothing(USER_AGENT.value);
    TrimNothing(PRAGMA.value);
    TrimNothing(CLOSE.value);
  }

  lemma HostIsTrimmed(a: Args)
    ensures Trimmed(Field("Host", Authority(a))) == Field("Host", Authority(a)) <==>
            a.targetHost == "" || !IsBlank(a.targetHost[0])
  {
    hide PortText;
    HostValue(a);
    TrimsExactly(a.targetHost);
    assert TrimLeft(a.targetHost) == a.targetHost ==>
           TrimLeft(a.targetHost) + PortText(a.targetPort) == Authority(a);
    assert TrimLeft(a.targetHost) != a.targetHost ==>
           |TrimLeft(a.targetHost) + PortText(a.targetPort)| < |Authority(a)|;
  }

  lemma {:induction false} TrimsExactly(s: string)
    ensures |TrimLeft(s)| <= |s|
    ensures if s == "" || !IsBlank(s[0]) then TrimLeft(s) == s else |TrimLeft(s)| < |s|
  {
    if s != "" && IsBlank(s[0]) {
      TrimsExactly(s[1..]);
    }
  }

  /** CRLFCRLF occurs exactly once in an HTTP/1.x request, at its end. */
  lemma RequestEndsOnce(a: Args)
    requires !a.version.Http09? && !a.httpMethod.Unknown? && LinesOnly(a)
    ensures EndsOnce(PlainRequest(a))
  {
    hide Fields, EndsOnce, Message, PlainRequest, Readable, IsToken, IsVersion, MethodName, VersionName;
    RequestIsMessage(a);
    NamesAndVersions(a);
    TargetIsOneLine(a);
    FieldsAreReadable(a);
    SomeField(a);
    MessageEndsOnce(MethodName(a.httpMethod), Target(a), VersionName(a.version), Fields(a));
  }

  lemma SomeField(a: Args)
    ensures |Fields(a)| > 0
  {
  }

  // The version.

  /** A version knows the method, and the reload header if one is to be sent. */
  predicate Supports(v: Version, a: Args) {
    && (a.httpMethod.Options? || a.httpMethod.Trace? ==> Level(v) >= 2)
    && (a.httpMethod.Head? ==> Level(v) >= 1)
    && (a.forceReload && a.proxyHost != "" ==> Level(v) >= 1)
  }

  /** Normalisation picks the lowest version, from the one asked for upwards, that supports the request. */
  lemma VersionIsLowest(a: Args)
    ensures Level(a.version) <= Level(Normalised(a)) && Supports(Normalised(a), a)
    ensures forall v: Version | Level(a.version) <= Level(v) && Supports(v, a) :: Level(Normalised(a)) <= Level(v)
  {
  }

  /** Building again from the arguments a build left behind changes neither them nor the bytes. */
  lemma RebuildIsSame(a: Args)
    ensures var b := a.(version := Normalised(a));
            Normalised(b) == b.version && PlainRequest(b.(version := Normalised(b))) == PlainRequest(b)
  {
  }

  // From the URL to the Host header and back.

  /** The authority in a URL with nothing around it. */
  function UrlOf(authority: string): string {
    UrlTheorems.Render("http", authority, "")
  }

  /** Host and port a URL with this authority gives the default arguments. */
  predicate Gives(authority: string, host: string, port: nat) {
    var url := UrlOf(authority);
    && IsSupported(url) && HostStart(Stored(url)) <= |Stored(url)|
    && var b := SetTarget(DEFAULTS, url, false).0;
       b.targetHost == host && b.targetPort == port
  }

  /** The arguments a build leaves behind for a URL. */
  function Built(a0: Args, url: string): Args
    requires IsSupported(url) && |url| < URL_SIZE ==> HostStart(Stored(url)) <= |Stored(url)|
  {
    var a := SetTarget(a0, url, false).0;
    a.(version := Normalised(a))
  }

  lemma AuthorityGives(host: string, port: nat)
    requires UrlTheorems.IsHost(host) && 0 < |host| < HOST_SIZE && 0 < port <= 999_999_999
    ensures Gives(host + ":" + Decimal(port), host, port)
  {
    hide Decimal, SetTarget, HostStart, Stored, IsSupported;
    UrlTheorems.PortIsDigits(port);
    UrlTheorems.UrlWithPort(DEFAULTS, "http", false, host, port, "");
  }

  lemma BuiltFor(a0: Args, scheme: string, https: bool, host: string, port: nat, tail: string)
    requires UrlTheorems.NoTarget(a0) && a0.proxyHost == ""
    requires UrlTheorems.IsScheme(scheme, https) && UrlTheorems.IsHost(host) && UrlTheorems.IsTail(tail)
    requires 0 < |host| < HOST_SIZE && 0 < port <= 999_999_999
    requires UrlTheorems.HasRoom(UrlTheorems.Render(scheme, host + ":" + Decimal(port), tail))
    ensures var url := UrlTheorems.Render(scheme, host + ":" + Decimal(port), tail);
            && HostStart(Stored(url)) <= |Stored(url)|
            && var b := Built(a0, url);
               && b.targetHost == host && b.targetPort == port && b.proxyHost == "" && b.httpMethod == a0.httpMethod
               && b.version == Normalised(a0) && Authority(b) == host + ":" + Decimal(port)
  {
    hide Decimal, SetTarget, HostStart, Stored, IsSupported, PortText;
    UrlTheorems.UrlWithPort(a0, scheme, https, host, port, tail);
    PortTextIs(port);
  }

  /**
   Without a proxy, the HTTP/1.x request made for `scheme://host:port...`, whatever its method, version and
   reload, carries the Host value `host:port`, and a URL with it gives host and port again. A host without
   whitespace is also what a server reads out of the bytes, and then that value gives host and port.
   */
  lemma HostHeaderRoundTrip(a0: Args, scheme: string, https: bool, host: string, port: nat, tail: string)
    requires UrlTheorems.NoTarget(a0) && a0.proxyHost == "" && !Normalised(a0).Http09?
    requires UrlTheorems.IsScheme(scheme, https) && UrlTheorems.IsHost(host) && UrlTheorems.IsTail(tail)
    requires 0 < |host| < HOST_SIZE && 0 < port <= 999_999_999
    requires UrlTheorems.HasRoom(UrlTheorems.Render(scheme, host + ":" + Decimal(port), tail))
    ensures var url := UrlTheorems.Render(scheme, host + ":" + Decimal(port), tail);
            && HostStart(Stored(url)) <= |Stored(url)|
            && var b := Built(a0, url);
               && Field("Host", host + ":" + Decimal(port)) in Fields(b)
               && Gives(Authority(b), host, port)
               && (NoSpace(host) ==>
                     var r := ParseRequest(PlainRequest(b));
                     && r.Some? && |r.value.fields| > 1
                     && IsHostField(r.value.fields[1]) && Gives(r.value.fields[1].value, host, port))
  {
    hide Asked, Decimal, SetTarget, HostStart, Stored, IsSupported, Gives, Built, Fields, Authority,
      ParseRequest, PlainRequest, TrimLeft, TrimRight, IsHostField;
    BuiltFor(a0, scheme, https, host, port, tail);
    AuthorityGives(host, port);
    var b := Built(a0, UrlTheorems.Render(scheme, host + ":" + Decimal(port), tail));
    WhereHostIs(b);
    if NoSpace(host) {
      PlainHost(host);
      RequestReadsBack(b);
      FieldsAreTrimmed(b);
      AskedFields(b);
    }
  }

  lemma PlainHost(host: string)
    requires NoSpace(host) && host != ""
    ensures OneLine(host) && !IsBlank(host[0]) && TrimLeft(host) == host
  {
  }
}
