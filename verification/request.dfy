/**
 The request builder: version normalised to what method and options need, then header lines appended
 with truncation. Without truncation the result is the plain text of the request, which reads back.
 */
module Requests {
  import opened Text
  import opened ArgumentParsing

  const HOSTNAME_SIZE: nat := 128
  const BODY_SIZE: nat := 2048
  const CRLF := "\r\n"

  function Level(v: Version): nat {
    match v
    case Http09 => 0
    case Http10 => 1
    case Http11 => 2
  }

  /** The version `build_request` settles on. */
  function Normalised(a: Args): Version {
    if a.httpMethod.Options? || a.httpMethod.Trace? then Http11
    else if a.version.Http09? && (a.httpMethod.Head? || (a.forceReload && a.proxyHost != "")) then Http10
    else a.version
  }

  function MethodName(m: Method): string {
    match m
    case Get => "GET"
    case Head => "HEAD"
    case Options => "OPTIONS"
    case Trace => "TRACE"
    case Unknown => ""
  }

  function VersionName(v: Version): string {
    match v
    case Http09 => ""
    case Http10 => "HTTP/1.0"
    case Http11 => "HTTP/1.1"
  }

  /** The request target: "/" without a proxy, the whole URL with one. */
  function Target(a: Args): string {
    if a.proxyHost == "" then "/" else a.url
  }

  /** One header field. */
  datatype Field = Field(name: string, value: string)

  const USER_AGENT := Field("User-Agent", "WebBench 2")
  const PRAGMA := Field("Pragma", "no-cache")
  const CACHE_CONTROL := Field("Cache-Control", "no-cache")
  const CLOSE := Field("Connection", "close")

  /** The port as it stands in its 12-byte array. */
  function PortText(port: int): string {
    Clip(":" + Decimal(port), 11)
  }

  function Authority(a: Args): string {
    a.targetHost + PortText(a.targetPort)
  }

  /** The fields of an HTTP/1.x request, in order; `a.version` is the normalised one. */
  function Fields(a: Args): seq<Field> {
    [USER_AGENT]
    + (if a.proxyHost == "" then [Field("Host", Authority(a))] else [])
    + (if a.proxyHost != "" && a.forceReload && a.version.Http10? then [PRAGMA] else [])
    + (if a.proxyHost != "" && a.forceReload && a.version.Http11? then [CACHE_CONTROL] else [])
    + (if a.version.Http11? then [CLOSE] else [])
  }

  function FieldLine(f: Field): string {
    f.name + ": " + f.value
  }

  function RequestLine(a: Args): string {
    MethodName(a.httpMethod) + " " + Target(a) + " " + VersionName(a.version)
  }

  /** Field lines, each ended by CRLF. */
  function FieldBlock(fields: seq<Field>): string {
    if |fields| == 0 then "" else FieldBlock(fields[..|fields| - 1]) + FieldLine(fields[|fields| - 1]) + CRLF
  }

  /** A request: for HTTP/0.9 the bare method and target, otherwise a message with an empty line at its end. */
  function PlainRequest(a: Args): string {
    if a.version.Http09? then MethodName(a.httpMethod) + " " + Target(a)
    else RequestLine(a) + CRLF + FieldBlock(Fields(a)) + CRLF
  }

  lemma ClipTwice(s: string, t: string, n: nat)
    ensures Clip(Clip(s, n) + t, n) == Clip(s + t, n)
  {
    if |s| > n {
      assert (Clip(s, n) + t)[..n] == s[..n];
      assert (s + t)[..n] == s[..n];
    }
  }

  class HttpRequest {
    var host: string
    var body: string
    /** Everything appended so far, without truncation. */
    ghost var whole: string

    ghost predicate Valid()
      reads this
    {
      body == Clip(whole, BODY_SIZE - 1)
    }

    constructor ()
      ensures Valid() && host == "" && body == ""
    {
      host, body, whole := "", "", "";
    }

    /** `memset(request, 0, sizeof(*request))`. */
    method Clear()
      modifies this
      ensures Valid() && host == "" && whole == ""
    {
      host, body, whole := "", "", "";
    }

    /** `strncat` with what room the array has left. */
    method Append(text: string)
      requires Valid()
      modifies this
      ensures Valid() && whole == old(whole) + text && host == old(host)
    {
      ClipTwice(whole, text, BODY_SIZE - 1);
      body := body + Clip(text, BODY_SIZE - 1 - |body|);
      whole := whole + text;
      assert body == Clip(old(body) + text, BODY_SIZE - 1);
    }

    /** The request line; -1 for a method that is none. */
    method AppendRequestLine(args: Arguments) returns (ret: int)
      requires Valid() && whole == "" && args as object != this
      modifies this
      ensures Valid() && host == old(host)
      ensures ret == if args.httpMethod.Unknown? then -1 else 0
      ensures var a := args.Value();
              whole == if ret == -1 then ""
                       else if a.version.Http09? then PlainRequest(a)
                       else RequestLine(a) + CRLF
    {
      hide FieldBlock, Fields, Clip;
      match args.httpMethod {
        case Get => Append("GET ");
        case Head => Append("HEAD ");
        case Options => Append("OPTIONS ");
        case Trace => Append("TRACE ");
        case Unknown => return -1;
      }
      assert whole == MethodName(args.httpMethod) + " ";
      if args.proxyHost == "" {
        Append("/");
      } else {
        Append(args.url);
      }
      assert whole == MethodName(args.httpMethod) + " " + Target(args.Value());
      if args.version.Http10? {
        Append(" HTTP/1.0\r\n");
      } else if args.version.Http11? {
        Append(" HTTP/1.1\r\n");
      }
      VersionEnd(args.Value());
      return 0;
    }

    /** One header field, given as the line the source appends; `fields` are the ones before it. */
    method AppendField(line: string, ghost start: string, ghost fields: seq<Field>, ghost f: Field)
      requires Valid() && whole == start + FieldBlock(fields) && line == FieldLine(f) + CRLF
      modifies this
      ensures Valid() && host == old(host) && whole == start + FieldBlock(fields + [f])
    {
      hide Clip, FieldBlock, FieldLine;
      Append(line);
      MoreFields(fields, f);
    }

    /** The header of an HTTP/1.x request and the empty line behind it. */
    method AppendHeader(args: Arguments)
      requires Valid() && args as object != this && !args.version.Http09?
      requires whole == RequestLine(args.Value()) + CRLF
      modifies this
      ensures Valid() && host == old(host) && whole == PlainRequest(args.Value())
    {
      hide FieldBlock, Clip, RequestLine;
      ghost var a := args.Value();
      ghost var start := whole;
      ghost var fields: seq<Field> := [];
      NoFields();
      LineTexts();
      AppendField("User-Agent: WebBench 2\r\n", start, fields, USER_AGENT);
      fields := fields + [USER_AGENT];
      if args.proxyHost == "" {
        AppendHost(args, start, fields);
        fields := fields + [Field("Host", Authority(a))];
      }
      if args.proxyHost != "" && args.forceReload {
        if args.version.Http10? {
          AppendField("Pragma: no-cache\r\n", start, fields, PRAGMA);
          fields := fields + [PRAGMA];
        } else if args.version.Http11? {
          AppendField("Cache-Control: no-cache\r\n", start, fields, CACHE_CONTROL);
          fields := fields + [CACHE_CONTROL];
        }
      }
      if args.version.Http11? {
        AppendField("Connection: close\r\n", start, fields, CLOSE);
        fields := fields + [CLOSE];
      }
      assert fields == Fields(a);
      Append("\r\n");
    }

    /** The Host field, appended in four parts. */
    method AppendHost(args: Arguments, ghost start: string, ghost fields: seq<Field>)
      requires Valid() && args as object != this && whole == start + FieldBlock(fields)
      modifies this
      ensures Valid() && host == old(host)
      ensures whole == start + FieldBlock(fields + [Field("Host", Authority(args.Value()))])
    {
      hide Clip, PortText, Authority, FieldBlock, FieldLine;
      ghost var before := whole;
      Append("Host: ");
      Append(args.targetHost);
      var portStr := PortText(args.targetPort);
      Append(portStr);
      Append("\r\n");
      HostLine(args.Value());
      MoreFields(fields, Field("Host", Authority(args.Value())));
      assert whole == before + ("Host: " + args.targetHost + portStr + "\r\n");
    }

    /**
     `build_request`: the version is normalised, and the array holds the plain text of the request as far
     as it takes it. With no method there is nothing in it, and the result is -1.
     */
    method Build(args: Arguments) returns (ret: int)
      requires args as object != this
      modifies this, args`version
      ensures args.Value() == old(args.Value()).(version := Normalised(old(args.Value())))
      ensures ret == if args.httpMethod.Unknown? then -1 else 0
      ensures ret == 0 ==>
                && body == Clip(PlainRequest(args.Value()), BODY_SIZE - 1)
                && host == Clip(args.targetHost, HOSTNAME_SIZE - 1)
      ensures ret == -1 ==> body == "" && host == ""
    {
      Clear();
      if args.forceReload && args.proxyHost != "" && args.version.Http09? {
        args.version := Http10;
      }
      if args.httpMethod.Head? && args.version.Http09? {
        args.version := Http10;
      }
      if (args.httpMethod.Options? || args.httpMethod.Trace?) && !args.version.Http11? {
        args.version := Http11;
      }
      ret := AppendRequestLine(args);
      if ret == -1 {
        return -1;
      }
      host := Clip(args.targetHost, HOSTNAME_SIZE - 1);
      if !args.version.Http09? {
        AppendHeader(args);
      }
      return 0;
    }
  }

  lemma NoFields()
    ensures FieldBlock([]) == ""
  {
  }

  lemma MoreFields(fields: seq<Field>, f: Field)
    ensures FieldBlock(fields + [f]) == FieldBlock(fields) + (FieldLine(f) + CRLF)
  {
    hide FieldLine;
    assert (fields + [f])[..|fields|] == fields;
  }

  lemma HostLine(a: Args)
    ensures FieldLine(Field("Host", Authority(a))) + CRLF == "Host: " + a.targetHost + PortText(a.targetPort) + "\r\n"
  {
    hide PortText;
    assert "Host: " == "Host" + ": ";
  }

  lemma LineTexts()
    ensures FieldLine(USER_AGENT) + CRLF == "User-Agent: WebBench 2\r\n"
    ensures FieldLine(PRAGMA) + CRLF == "Pragma: no-cache\r\n"
    ensures FieldLine(CACHE_CONTROL) + CRLF == "Cache-Control: no-cache\r\n"
    ensures FieldLine(CLOSE) + CRLF == "Connection: close\r\n"
  {
  }

  lemma VersionEnd(a: Args)
    ensures a.version.Http10? ==> MethodName(a.httpMethod) + " " + Target(a) + " HTTP/1.0\r\n" == RequestLine(a) + CRLF
    ensures a.version.Http11? ==> MethodName(a.httpMethod) + " " + Target(a) + " HTTP/1.1\r\n" == RequestLine(a) + CRLF
  {
    assert " HTTP/1.0\r\n" == " " + "HTTP/1.0" + CRLF;
    assert " HTTP/1.1\r\n" == " " + "HTTP/1.1" + CRLF;
  }
}
