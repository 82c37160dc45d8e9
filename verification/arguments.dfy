/**
 Command-line arguments: the target taken from the URL and the proxy from `--proxy host:port`. The
 character arrays of the source's structure appear as the texts they hold.
 */
module ArgumentParsing {
  import opened Text
  import opened Numbers

  const HOST_SIZE: nat := 128
  const URL_SIZE: nat := 1024
  const PORT_SIZE: nat := 10

  datatype Method = Get | Head | Options | Trace | Unknown

  /** `http10`: 0, 1 and 2 for HTTP/0.9, 1.0 and 1.1. */
  datatype Version = Http09 | Http10 | Http11

  datatype Args = Args(
    httpMethod: Method, version: Version, forceReload: bool,
    proxyHost: string, proxyPort: int, isHttps: bool, targetHost: string, targetPort: int, url: string)

  /** `create_default_arguments`. */
  const DEFAULTS := Args(Get, Http11, false, "", 80, false, "", 80, "")

  /** `strchr` from offset `from`; the length of the text stands for NULL. */
  function Find(s: string, c: char, from: nat): (r: nat)
    requires from <= |s|
    ensures from <= r <= |s|
    ensures forall i | from <= i < r :: s[i] != c
    ensures r < |s| ==> s[r] == c
    decreases |s| - from
  {
    if from == |s| || s[from] == c then from else Find(s, c, from + 1)
  }

  /** `strrchr` below offset `k`, or None. */
  function FindLast(s: string, c: char, k: nat): (r: Option<nat>)
    requires k <= |s|
    ensures r.Some? ==> r.value < k && s[r.value] == c && forall i | r.value < i < k :: s[i] != c
    ensures r.None? ==> forall i | 0 <= i < k :: s[i] != c
  {
    if k == 0 then None else if s[k - 1] == c then Some(k - 1) else FindLast(s, c, k - 1)
  }

  /** `strstr` as an offset; the length of the text stands for NULL. */
  function FindText(s: string, p: string, from: nat): (r: nat)
    requires from <= |s|
    ensures from <= r <= |s|
    ensures forall i: nat | from <= i < r :: !OccursAt(s, p, i)
    ensures r < |s| ==> OccursAt(s, p, r)
    decreases |s| - from
  {
    if from == |s| || OccursAt(s, p, from) then from else FindText(s, p, from + 1)
  }

  function Lower(c: char): char {
    if 'A' <= c <= 'Z' then c + (32 as char) else c
  }

  /** `strncasecmp(prefix, s, strlen(prefix)) == 0`. */
  predicate StartsWith(s: string, prefix: string) {
    |prefix| <= |s| && forall i | 0 <= i < |prefix| :: Lower(s[i]) == Lower(prefix[i])
  }

  /** `is_https`. */
  predicate IsHttps(url: string) {
    StartsWith(url, "https://")
  }

  /** `is_supported_url`. */
  predicate IsSupported(url: string) {
    StartsWith(url, "http://") || IsHttps(url)
  }

  /** `strncpy` of fewer bytes than the array has: what the array held behind them stays. */
  function CopiedOver(before: string, text: string): string {
    text + if |text| < |before| then before[|text|..] else ""
  }

  function HostStart(url: string): nat {
    FindText(url, "://", 0) + 3
  }

  /** The host ends at the first ':' or '/' behind the scheme. */
  datatype Split = WithPort(host: string, port: string) | Bare(host: string) | ColonInPath

  /** How the URL is taken apart, for a URL with a scheme and something behind it. */
  function SplitUrl(url: string): Split
    requires HostStart(url) <= |url|
  {
    var start := HostStart(url);
    var colon := Find(url, ':', start);
    var slash := Find(url, '/', start);
    if colon < |url| && slash < |url| && colon < slash then WithPort(url[start..colon], url[colon + 1..slash])
    else if colon == |url| then Bare(url[start..slash])
    else ColonInPath
  }

  /**
   What `set_arguments_from_url` demands of the URL, since it checks neither: the copied host fits its
   array and the port its own, with a terminator behind; and a '/' follows the scheme.
   */
  predicate FitsArrays(url: string) {
    && HostStart(url) <= |url|
    && Find(url, '/', HostStart(url)) < |url|
    && match SplitUrl(url)
       case WithPort(host, port) => |host| < HOST_SIZE && |port| < PORT_SIZE
       case Bare(host) => |host| < HOST_SIZE
       case ColonInPath => true
  }

  /** The arguments `set_arguments_from_url` leaves, and whether it returns 0. */
  function FromUrl(a: Args, errnoSet: bool): (r: (Args, bool))
    requires a.url != "" ==> HostStart(a.url) <= |a.url|
  {
    if a.url == "" || a.url[|a.url| - 1] != '/' then (a, false)
    else
      var b := if IsHttps(a.url) then a.(isHttps := true, targetPort := 443) else a;
      match SplitUrl(a.url)
      case WithPort(host, port) =>
        var c := b.(targetHost := CopiedOver(b.targetHost, host));
        var t := Strtol(port);
        if errnoSet || t.overflow || !t.found || t.value <= 0 then (c, false)
        else (c.(targetPort := ToInt(t.value)), true)
      case Bare(host) => (b.(targetHost := CopiedOver(b.targetHost, host)), true)
      case ColonInPath => (b, true)
  }

  /** The URL as it is stored: with a '/' at its end, if there is room for one. */
  function Stored(url: string): string {
    if url != "" && url[|url| - 1] == '/' then url else Clip(url + "/", URL_SIZE - 1)
  }

  /** The positional argument: checked, stored and taken apart. False is an exit. */
  function SetTarget(a: Args, url: string, errnoSet: bool): (Args, bool)
    requires IsSupported(url) && |url| < URL_SIZE ==> HostStart(Stored(url)) <= |Stored(url)|
  {
    if |url| >= URL_SIZE || !IsSupported(url) then (a, false)
    else
      var (b, ok) := FromUrl(a.(url := Stored(url)), errnoSet);
      (b, ok && !b.httpMethod.Unknown?)
  }

  /** `--proxy host:port`: the arguments it leaves, and whether the program goes on. */
  function SetProxy(a: Args, arg: string): (Args, bool) {
    var host := Clip(arg, HOST_SIZE - 1);
    var b := a.(proxyHost := host);
    match FindLast(host, ':', |host|)
    case None => (b.(proxyPort := 80), true)
    case Some(colon) =>
      if colon == |host| - 1 then (b.(proxyPort := 80, proxyHost := host[..colon]), true)
      else
        var t := Strtol(host[colon + 1..]);
        if t.overflow || !t.found || t.value <= 0 then (b, false)
        else
          (b.(proxyPort := ToInt(t.value), proxyHost := if colon == 0 then "127.0.0.1" else host[..colon]), true)
  }

  class Arguments {
    var httpMethod: Method
    var version: Version
    var forceReload: bool
    var proxyHost: string
    var proxyPort: int
    var isHttps: bool
    var targetHost: string
    var targetPort: int
    var url: string

    function Value(): Args
      reads this
    {
      Args(httpMethod, version, forceReload, proxyHost, proxyPort, isHttps, targetHost, targetPort, url)
    }

    /** `create_default_arguments`. */
    constructor ()
      ensures Value() == DEFAULTS == Args(Get, Http11, false, "", 80, false, "", 80, "")
    {
      httpMethod, version, forceReload := Get, Http11, false;
      proxyHost, proxyPort := "", 80;
      isHttps, targetHost, targetPort, url := false, "", 80, "";
    }

    /** `set_arguments_from_url`: 0, or -1 if the URL is refused. `errnoSet`: errno is not 0 on entry. */
    method SetArgumentsFromUrl(errnoSet: bool) returns (ret: int)
      requires url != "" ==> FitsArrays(url)
      modifies this
      ensures (Value(), ret == 0) == FromUrl(old(Value()), errnoSet) && (ret == 0 || ret == -1)
    {
      hide Strtol, IsHttps, Find, FindText, CopiedOver, ToInt;
      if url == "" {
        return -1;
      }
      if url[|url| - 1] != '/' {
        return -1;
      }
      if IsHttps(url) {
        isHttps := true;
        targetPort := 443;
      }
      var hostnameStartOffset := FindText(url, "://", 0) + 3;
      var firstColon := Find(url, ':', hostnameStartOffset);
      var firstSlash := Find(url, '/', hostnameStartOffset);
      if firstColon < |url| && firstSlash < |url| && firstColon < firstSlash {
        targetHost := CopiedOver(targetHost, url[hostnameStartOffset..firstColon]);
        var portStr := url[firstColon + 1..firstSlash];
        var t := Strtol(portStr);
        if errnoSet || t.overflow || !t.found || t.value <= 0 {
          return -1;
        }
        targetPort := ToInt(t.value);
      } else if firstColon == |url| {
        targetHost := CopiedOver(targetHost, url[hostnameStartOffset..firstSlash]);
      }
      return 0;
    }

    /** The end of `set_arguments_values`: the positional argument. */
    method SetTargetUrl(arg: string, errnoSet: bool) returns (ok: bool)
      requires IsSupported(arg) && |arg| < URL_SIZE ==> FitsArrays(Stored(arg))
      modifies this
      ensures (Value(), ok) == SetTarget(old(Value()), arg, errnoSet)
    {
      if |arg| >= URL_SIZE {
        return false;
      }
      if !IsSupported(arg) {
        return false;
      }
      url := Clip(arg, URL_SIZE - 1);
      if '/' != arg[|arg| - 1] {
        url := Clip(url + "/", URL_SIZE - 1);
      }
      var ret := SetArgumentsFromUrl(errnoSet);
      if ret < 0 {
        return false;
      }
      return !httpMethod.Unknown?;
    }

    /** The case of option `p` in `set_arguments_values`; false is an exit. */
    method SetProxyServer(optarg: string) returns (ok: bool)
      modifies this
      ensures (Value(), ok) == SetProxy(old(Value()), optarg)
    {
      hide Strtol, FindLast, ToInt;
      proxyHost := Clip(optarg, HOST_SIZE - 1);
      var tmp := FindLast(proxyHost, ':', |proxyHost|);
      if tmp.None? {
        proxyPort := 80;
        return true;
      }
      if tmp.value == |proxyHost| - 1 {
        proxyPort := 80;
      } else {
        var t := Strtol(proxyHost[tmp.value + 1..]);
        if t.overflow || !t.found || t.value <= 0 {
          return false;
        }
        proxyPort := ToInt(t.value);
        if tmp.value == 0 {
          proxyHost := "127.0.0.1";
          return true;
        }
      }
      proxyHost := proxyHost[..tmp.value];
      return true;
    }
  }
}
