/** What a URL or a proxy argument written by a user gives back, and exactly when it does not. */
module UrlTheorems {
  import opened Text
  import opened Numbers
  import opened ArgumentParsing

  predicate IsLetter(c: char) {
    'a' <= c <= 'z'
  }

  /** "http" or "https" in any case. */
  predicate IsScheme(scheme: string, https: bool) {
    var name := if https then "https" else "http";
    |scheme| == |name| && forall i | 0 <= i < |name| :: Lower(scheme[i]) == name[i]
  }

  predicate IsHost(host: string) {
    ':' !in host && '/' !in host
  }

  /** What follows host and port: nothing, or a path. */
  predicate IsTail(tail: string) {
    tail == "" || tail[0] == '/'
  }

  function Render(scheme: string, authority: string, tail: string): string {
    scheme + "://" + authority + tail
  }

  /** `strchr` finds the first byte behind a part without it. */
  lemma FindAfter(s: string, c: char, from: nat, part: string, rest: string)
    requires from <= |s| && s[from..] == part + rest && c !in part && (rest == "" || rest[0] == c)
    ensures |s| == from + |part| + |rest| && Find(s, c, from) == from + |part|
  {
    hide Find;
    assert |s[from..]| == |part| + |rest|;
    assert forall i | from <= i < |s| :: s[i] == s[from..][i - from];
    assert forall i | from <= i < from + |part| :: s[i] == part[i - from];
    var k := from + |part|;
    assert rest != "" ==> s[k] == rest[0];
  }

  lemma SchemeHasNoColon(scheme: string, https: bool)
    requires IsScheme(scheme, https)
    ensures ':' !in scheme && 4 <= |scheme| <= 5
  {
    forall i | 0 <= i < |scheme| ensures scheme[i] != ':' {
      assert IsLetter(Lower(scheme[i]));
    }
  }

  lemma SchemeStarts(scheme: string, https: bool, rest: string)
    requires IsScheme(scheme, https)
    ensures IsSupported(scheme + "://" + rest) && (IsHttps(scheme + "://" + rest) <==> https)
  {
    var url := scheme + "://" + rest;
    assert forall i | 0 <= i < |scheme| :: url[i] == scheme[i];
    if https {
      assert StartsWith(url, "https://");
    } else {
      assert StartsWith(url, "http://");
      assert Lower(url[4]) == ':' && "https://"[4] == 's';
    }
  }

  predicate IsEither(c: char, lower: char, upper: char) {
    c == lower || c == upper
  }

  /** "http://" in any case. */
  predicate HttpLetters(url: string) {
    && |url| >= 7
    && IsEither(url[0], 'h', 'H') && IsEither(url[1], 't', 'T') && IsEither(url[2], 't', 'T')
    && IsEither(url[3], 'p', 'P') && url[4] == ':' && url[5] == '/' && url[6] == '/'
  }

  /** "https://" in any case. */
  predicate HttpsLetters(url: string) {
    && |url| >= 8
    && IsEither(url[0], 'h', 'H') && IsEither(url[1], 't', 'T') && IsEither(url[2], 't', 'T')
    && IsEither(url[3], 'p', 'P') && IsEither(url[4], 's', 'S') && url[5] == ':' && url[6] == '/' && url[7] == '/'
  }

  lemma LowerIs(c: char, lower: char)
    requires ('a' <= lower <= 'z') || lower == ':' || lower == '/'
    ensures Lower(lower) == lower
    ensures Lower(c) == lower <==> c == lower || ('a' <= lower <= 'z' && c == lower - (32 as char))
  {
  }

  lemma HttpExactly(url: string)
    ensures StartsWith(url, "http://") <==> HttpLetters(url)
  {
    hide Lower;
    var p := "http://";
    if |url| >= 7 {
      forall i | 0 <= i < 7 ensures Lower(p[i]) == p[i] {
        LowerIs(url[i], p[i]);
      }
      LowerIs(url[0], 'h');
      LowerIs(url[1], 't');
      LowerIs(url[2], 't');
      LowerIs(url[3], 'p');
      LowerIs(url[4], ':');
      LowerIs(url[5], '/');
      LowerIs(url[6], '/');
      assert StartsWith(url, p) <==> forall i | 0 <= i < 7 :: Lower(url[i]) == p[i];
      assert p[0] == 'h' && p[1] == 't' && p[2] == 't' && p[3] == 'p' && p[4] == ':' && p[5] == '/' && p[6] == '/';
    }
  }

  lemma HttpsExactly(url: string)
    ensures StartsWith(url, "https://") <==> HttpsLetters(url)
  {
    hide Lower;
    var p := "https://";
    if |url| >= 8 {
      forall i | 0 <= i < 8 ensures Lower(p[i]) == p[i] {
        LowerIs(url[i], p[i]);
      }
      LowerIs(url[0], 'h');
      LowerIs(url[1], 't');
      LowerIs(url[2], 't');
      LowerIs(url[3], 'p');
      LowerIs(url[4], 's');
      LowerIs(url[5], ':');
      LowerIs(url[6], '/');
      LowerIs(url[7], '/');
      assert StartsWith(url, p) <==> forall i | 0 <= i < 8 :: Lower(url[i]) == p[i];
      assert p[0] == 'h' && p[1] == 't' && p[2] == 't' && p[3] == 'p' && p[4] == 's' && p[5] == ':';
      assert p[6] == '/' && p[7] == '/';
    }
  }

  lemma SchemeFound(scheme: string, https: bool, rest: string)
    requires IsScheme(scheme, https)
    ensures HostStart(scheme + "://" + rest) == |scheme| + 3
  {
    hide FindText, IsScheme;
    var url := scheme + "://" + rest;
    SchemeHasNoColon(scheme, https);
    assert OccursAt(url, "://", |scheme|);
    var k := FindText(url, "://", 0);
    assert k <= |scheme|;
    assert url[k..k + 3] == "://";
    assert url[k] == url[k..k + 3][0];
  }

  /** The offset of the host in a URL the program takes. */
  lemma HostBehindScheme(url: string)
    requires HttpLetters(url) || HttpsLetters(url)
    ensures HostStart(url) == (if HttpsLetters(url) then 8 else 7) <= |url|
  {
    hide FindText;
    var https := HttpsLetters(url);
    var m := if https then 5 else 4;
    assert url == url[..m] + "://" + url[m + 3..];
    SchemeFound(url[..m], https, url[m + 3..]);
  }

  /** The URL as the program keeps it: with a '/' at its end if its 1023 bytes have room for one. */
  function Kept(url: string): string {
    if url != "" && url[|url| - 1] != '/' && |url| < 1023 then url + "/" else url
  }

  /** A number the program takes for a port: there is one, it is positive and a `long` holds it. */
  predicate PortTaken(text: string, errnoSet: bool) {
    var t := Strtol(text);
    !errnoSet && t.found && !t.overflow && t.value > 0
  }

  lemma KeptKeepsScheme(url: string)
    requires |url| < 1024 && (HttpLetters(url) || HttpsLetters(url))
    ensures Kept(url) == Stored(url) && |url| >= 7
    ensures (HttpLetters(Kept(url)) <==> HttpLetters(url)) && (HttpsLetters(Kept(url)) <==> HttpsLetters(url))
  {
    var u := Kept(url);
    assert forall i | 0 <= i < |url| :: u[i] == url[i];
    if |url| == 1023 {
      assert (url + "/")[..1023] == url;
    }
  }

  /** The arguments a taken URL gives. A host shorter than the one before it leaves the end of that one in its array. */
  function TargetOf(a: Args, u: string, https: bool, start: nat): Args
    requires start <= |u|
  {
    var colon, slash := Find(u, ':', start), Find(u, '/', start);
    var host := if colon < slash < |u| then u[start..colon] else if colon == |u| then u[start..slash] else "";
    a.(url := u, isHttps := a.isHttps || https,
       targetHost := if colon < slash || colon == |u| then host + a.targetHost[Min(|host|, |a.targetHost|)..]
                     else a.targetHost,
       targetPort := if colon < slash < |u| then ToInt(Strtol(u[colon + 1..slash]).value)
                     else if https then 443 else a.targetPort)
  }

  lemma CopiedIs(before: string, text: string)
    ensures CopiedOver(before, text) == text + before[Min(|text|, |before|)..]
  {
  }

  /** How a stored URL is taken apart. */
  lemma SplitExactly(a: Args, start: nat, https: bool, errnoSet: bool)
    requires |a.url| > 0 && HostStart(a.url) == start <= |a.url| && (IsHttps(a.url) <==> https)
    ensures var (b, ok) := FromUrl(a, errnoSet); var u := a.url;
            var colon, slash := Find(u, ':', start), Find(u, '/', start);
            && (ok <==> u[|u| - 1] == '/' && (colon < slash < |u| ==> PortTaken(u[colon + 1..slash], errnoSet)))
            && (ok ==> b == TargetOf(a, u, https, start))
            && (u[|u| - 1] != '/' ==> b == a)
            && b.httpMethod == a.httpMethod
  {
    hide Strtol, HostStart, IsHttps, CopiedOver, Find;
    var u := a.url;
    var colon, slash := Find(u, ':', start), Find(u, '/', start);
    if u[|u| - 1] == '/' && start < |u| {
      assert slash < |u|;
    }
    if colon < slash < |u| {
      CopiedIs(a.targetHost, u[start..colon]);
    } else if colon == |u| {
      CopiedIs(a.targetHost, u[start..slash]);
    }
  }

  lemma SameTarget(a: Args, u: string, https: bool, start: nat)
    requires start <= |u|
    ensures TargetOf(a.(url := u), u, https, start) == TargetOf(a, u, https, start)
  {
  }

  /**
   The positional argument. It is taken exactly if it has fewer than 1024 bytes, starts with "http://" or
   "https://" in any case, has or gets a '/' at its end, and its port, if a ':' comes before the first '/', is
   a positive number. One that is too long or starts with anything else changes nothing.
   */
  lemma TakenExactly(a: Args, url: string, errnoSet: bool)
    ensures IsSupported(url) && |url| < URL_SIZE ==> HostStart(Stored(url)) <= |Stored(url)|
    ensures var (b, ok) := SetTarget(a, url, errnoSet); var u := Kept(url);
            if |url| >= 1024 || !(HttpLetters(url) || HttpsLetters(url)) then b == a && !ok
            else
              var start := if HttpsLetters(url) then 8 else 7;
              var colon, slash := Find(u, ':', start), Find(u, '/', start);
              && (ok <==> && u[|u| - 1] == '/' && a.httpMethod != Unknown
                          && (colon < slash < |u| ==> PortTaken(u[colon + 1..slash], errnoSet)))
              && (ok ==> b == TargetOf(a, u, HttpsLetters(url), start))
              && (u[|u| - 1] != '/' ==> b == a.(url := u))
  {
    hide Strtol, FindText, Lower, StartsWith, HttpLetters, HttpsLetters, HostStart, FromUrl, TargetOf, PortTaken, Kept,
      Stored;
    HttpExactly(url);
    HttpsExactly(url);
    if |url| < 1024 && (HttpLetters(url) || HttpsLetters(url)) {
      KeptKeepsScheme(url);
      HostBehindScheme(Kept(url));
      HttpsExactly(Kept(url));
      SplitExactly(a.(url := Kept(url)), if HttpsLetters(url) then 8 else 7, HttpsLetters(url), errnoSet);
      SameTarget(a, Kept(url), HttpsLetters(url), if HttpsLetters(url) then 8 else 7);
    }
  }

  /** The stored form needs a '/' at its end: it is there, or there is room for it. */
  predicate HasRoom(url: string) {
    |url| + 1 < URL_SIZE || (|url| + 1 == URL_SIZE && url[|url| - 1] == '/')
  }

  /** A stored URL is one with a path that ends in '/', or one the array had no room to complete. */
  lemma StoredForm(scheme: string, authority: string, tail: string) returns (path: string)
    requires IsTail(tail) && authority != "" && '/' !in authority && HasRoom(Render(scheme, authority, tail))
    ensures Stored(Render(scheme, authority, tail)) == Render(scheme, authority, "/" + path)
    ensures path == "" || path[|path| - 1] == '/'
    ensures ':' in path <==> ':' in tail
  {
    var url := Render(scheme, authority, tail);
    if tail == "" {
      path := "";
      assert url[|url| - 1] == authority[|authority| - 1];
      assert url + "/" == Render(scheme, authority, "/");
    } else {
      assert url[|url| - 1] == tail[|tail| - 1];
      if tail[|tail| - 1] == '/' {
        path := tail[1..];
        assert tail == "/" + path;
      } else {
        path := tail[1..] + "/";
        assert tail + "/" == "/" + path;
        assert url + "/" == Render(scheme, authority, "/" + path);
      }
    }
  }

  lemma PortIsDigits(port: nat)
    ensures ':' !in Decimal(port) && '/' !in Decimal(port)
    ensures port <= 999_999_999 ==> |Decimal(port)| < PORT_SIZE
    ensures port <= LONG_MAX ==> Strtol(Decimal(port)) == Number(port, true, false)
  {
    hide Strtol, Decimal;
    DecimalReads(port);
    if port <= 999_999_999 {
      assert Power(9) == 1_000_000_000;
      DecimalLength(port, 9, 1_000_000_000);
    }
    if port <= LONG_MAX {
      StrtolReadsDecimal(port, "");
      assert Decimal(port) + "" == Decimal(port);
    }
  }

  lemma SplitWithPort(scheme: string, https: bool, host: string, port: string, path: string)
    requires IsScheme(scheme, https) && IsHost(host) && ':' !in port && '/' !in port
    ensures var url := Render(scheme, host + ":" + port, "/" + path);
            && HostStart(url) <= |url|
            && SplitUrl(url) == WithPort(host, port)
            && (FitsArrays(url) <==> |host| < HOST_SIZE && |port| < PORT_SIZE)
  {
    hide IsScheme, Find, HostStart;
    var url := Render(scheme, host + ":" + port, "/" + path);
    var start := |scheme| + 3;
    SchemeFound(scheme, https, host + ":" + port + "/" + path);
    assert url == scheme + "://" + (host + ":" + port + "/" + path);
    assert url[start..] == host + (":" + port + "/" + path);
    FindAfter(url, ':', start, host, ":" + port + "/" + path);
    assert url[start..] == (host + ":" + port) + ("/" + path);
    FindAfter(url, '/', start, host + ":" + port, "/" + path);
    assert url[start..start + |host|] == host;
    assert url[start + |host| + 1..start + |host| + 1 + |port|] == port;
  }

  lemma SplitBare(scheme: string, https: bool, host: string, path: string)
    requires IsScheme(scheme, https) && IsHost(host)
    ensures var url := Render(scheme, host, "/" + path);
            && HostStart(url) <= |url|
            && SplitUrl(url) == (if ':' in path then ColonInPath else Bare(host))
            && (FitsArrays(url) <==> ':' in path || |host| < HOST_SIZE)
  {
    hide IsScheme, Find, HostStart;
    var url := Render(scheme, host, "/" + path);
    var start := |scheme| + 3;
    SchemeFound(scheme, https, host + "/" + path);
    assert url == scheme + "://" + (host + "/" + path);
    assert url[start..] == host + ("/" + path);
    FindAfter(url, '/', start, host, "/" + path);
    assert url[start..start + |host|] == host;
    var k := Find(path, ':', 0);
    assert url[start..] == (host + "/" + path[..k]) + path[k..];
    FindAfter(url, ':', start, host + "/" + path[..k], path[k..]);
  }

  /** Arguments whose target has not been set yet. */
  predicate NoTarget(a: Args) {
    a.targetHost == "" && !a.isHttps && a.targetPort == 80 && !a.httpMethod.Unknown?
  }

  lemma NoRoom(a: Args, url: string, errnoSet: bool)
    requires !HasRoom(url)
    ensures |url| < URL_SIZE ==> Stored(url) == url
    ensures (IsSupported(url) && |url| < URL_SIZE ==> HostStart(Stored(url)) <= |Stored(url)|) ==>
              !SetTarget(a, url, errnoSet).1
  {
    hide SplitUrl, HostStart, IsSupported;
    if |url| < URL_SIZE {
      assert (url + "/")[..|url|] == url;
    }
  }

  /** What becomes of a URL that is supported, short enough, and stored with a '/' at its end. */
  lemma TargetFrom(a: Args, url: string, https: bool)
    requires NoTarget(a) && IsSupported(url) && |url| < URL_SIZE
    requires var stored := Stored(url);
             && HostStart(stored) <= |stored| && stored != "" && stored[|stored| - 1] == '/'
             && (IsHttps(stored) <==> https)
    ensures var b := a.(url := Stored(url), isHttps := https, targetPort := if https then 443 else 80);
            SetTarget(a, url, false) ==
            match SplitUrl(Stored(url))
            case WithPort(host, port) =>
              var t := Strtol(port); var c := b.(targetHost := host);
              if t.overflow || !t.found || t.value <= 0 then (c, false) else (c.(targetPort := ToInt(t.value)), true)
            case Bare(host) => (b.(targetHost := host), true)
            case ColonInPath => (b, true)
  {
    hide Strtol, SplitUrl, IsSupported, IsHttps, HostStart, ToInt, Stored;
    assert forall host :: CopiedOver("", host) == host;
  }

  /**
   A URL with a port: scheme, host and port come back, if the URL ends in '/' or leaves room for one;
   otherwise it is refused. The arrays hold what is copied exactly when host and port are short enough.
   */
  lemma UrlWithPort(a: Args, scheme: string, https: bool, host: string, port: nat, tail: string)
    requires NoTarget(a) && IsScheme(scheme, https) && IsHost(host) && IsTail(tail)
    requires 0 < port <= INT_MAX
    ensures var url := Render(scheme, host + ":" + Decimal(port), tail);
            && IsSupported(url) && (|url| < URL_SIZE ==> HostStart(Stored(url)) <= |Stored(url)|)
            && (HasRoom(url) ==>
                  && (FitsArrays(Stored(url)) <==> |host| < HOST_SIZE && |Decimal(port)| < PORT_SIZE)
                  && SetTarget(a, url, false)
                     == (a.(isHttps := https, targetHost := host, targetPort := port, url := Stored(url)), true))
            && (!HasRoom(url) ==> !SetTarget(a, url, false).1)
  {
    hide IsScheme, Decimal, Strtol, SplitUrl, FitsArrays, IsSupported, IsHttps, HostStart, ToInt, SetTarget, Stored;
    var authority := host + ":" + Decimal(port);
    var url := Render(scheme, authority, tail);
    PortIsDigits(port);
    assert url == scheme + "://" + (authority + tail);
    SchemeStarts(scheme, https, authority + tail);
    SchemeFound(scheme, https, authority + tail);
    if HasRoom(url) {
      var path := StoredForm(scheme, authority, tail);
      var stored := Render(scheme, authority, "/" + path);
      SplitWithPort(scheme, https, host, Decimal(port), path);
      assert stored == scheme + "://" + (authority + "/" + path);
      SchemeStarts(scheme, https, authority + "/" + path);
      assert stored[|stored| - 1] == '/';
      TargetFrom(a, url, https);
      assert ToInt(port) == port;
    } else {
      NoRoom(a, url, false);
    }
  }

  /**
   A URL without a port: the scheme's default port, and the host, exactly when no ':' comes later on;
   with one, the URL is accepted all the same but the host is left empty.
   */
  lemma UrlWithoutPort(a: Args, scheme: string, https: bool, host: string, tail: string)
    requires NoTarget(a) && IsScheme(scheme, https) && IsHost(host) && host != "" && IsTail(tail)
    ensures var url := Render(scheme, host, tail);
            && IsSupported(url) && (|url| < URL_SIZE ==> HostStart(Stored(url)) <= |Stored(url)|)
            && (HasRoom(url) ==>
                  && (FitsArrays(Stored(url)) <==> ':' in tail || |host| < HOST_SIZE)
                  && var (b, ok) := SetTarget(a, url, false);
                     && ok && b.isHttps == https && b.targetPort == (if https then 443 else 80)
                     && b.targetHost == (if ':' in tail then "" else host))
            && (!HasRoom(url) ==> !SetTarget(a, url, false).1)
  {
    hide IsScheme, Strtol, SplitUrl, FitsArrays, IsSupported, IsHttps, HostStart, ToInt, SetTarget, Stored;
    var url := Render(scheme, host, tail);
    assert url == scheme + "://" + (host + tail);
    SchemeStarts(scheme, https, host + tail);
    SchemeFound(scheme, https, host + tail);
    if HasRoom(url) {
      var path := StoredForm(scheme, host, tail);
      var stored := Render(scheme, host, "/" + path);
      SplitBare(scheme, https, host, path);
      assert stored == scheme + "://" + (host + "/" + path);
      SchemeStarts(scheme, https, host + "/" + path);
      assert stored[|stored| - 1] == '/';
      TargetFrom(a, url, https);
    } else {
      NoRoom(a, url, false);
    }
  }

  lemma LastColon(host: string, rest: string)
    requires ':' !in rest
    ensures FindLast(host + ":" + rest, ':', |host + ":" + rest|) == Some(|host|)
  {
    hide FindLast;
    var s := host + ":" + rest;
    assert s[|host|] == ':';
    assert forall i | |host| < i < |s| :: s[i] == rest[i - |host| - 1];
  }

  /** What `--proxy host:port` gives: host and port as they were written. */
  predicate ComesBack(a: Args, host: string, port: nat) {
    SetProxy(a, host + ":" + Decimal(port)) == (a.(proxyHost := host, proxyPort := port), true)
  }

  /**
   A proxy argument that fits its array: an empty host stands for the local machine, and a port too large for
   an `int` is stored modulo 2^32.
   */
  lemma ProxyUncut(a: Args, host: string, port: nat)
    requires 0 < port <= LONG_MAX && |host + ":" + Decimal(port)| < HOST_SIZE
    ensures SetProxy(a, host + ":" + Decimal(port))
         == (a.(proxyHost := if host == "" then "127.0.0.1" else host, proxyPort := ToInt(port)), true)
  {
    hide Strtol, Decimal, FindLast;
    var arg := host + ":" + Decimal(port);
    PortIsDigits(port);
    LastColon(host, Decimal(port));
    assert Clip(arg, HOST_SIZE - 1) == arg;
    assert arg[|host| + 1..] == Decimal(port) && arg[..|host|] == host;
  }

  /** A number `strtol` cannot represent, or 0, is refused. */
  lemma ProxyRefused(a: Args, host: string, port: nat)
    requires (port == 0 || port > LONG_MAX) && |host + ":" + Decimal(port)| < HOST_SIZE
    ensures !SetProxy(a, host + ":" + Decimal(port)).1
  {
    hide Strtol, Decimal, FindLast;
    var arg := host + ":" + Decimal(port);
    PortIsDigits(port);
    LastColon(host, Decimal(port));
    DecimalReads(port);
    DigitsRead(Decimal(port));
    assert Clip(arg, HOST_SIZE - 1) == arg;
    assert arg[|host| + 1..] == Decimal(port);
  }

  /** What `strtol` makes of digits alone. */
  lemma DigitsRead(s: string)
    requires |s| > 0 && forall i | 0 <= i < |s| :: IsDigit(s[i])
    ensures Strtol(s) == if ValueOf(s) > LONG_MAX then Number(LONG_MAX, true, true) else Number(ValueOf(s), true, false)
  {
    hide Strtol, ValueOf;
    StrtolOfDigits(s, "");
    assert s + "" == s;
  }

  /** Digits cut off make a number smaller. */
  lemma {:induction false} CutIsSmaller(n: nat, k: nat)
    requires 0 < k < |Decimal(n)|
    ensures ValueOf(Decimal(n)[..k]) < n
    decreases n
  {
    var d := Decimal(n);
    DecimalReads(n / 10);
    assert d == Decimal(n / 10) + [Digit(n % 10)];
    if k == |d| - 1 {
      assert d[..k] == Decimal(n / 10);
    } else {
      assert d[..k] == Decimal(n / 10)[..k];
      CutIsSmaller(n / 10, k);
    }
  }

  /** With digits cut off the port is another one, or the argument is refused. */
  lemma CutPortIsAnother(a: Args, host: string, port: nat)
    requires |host| + 2 < HOST_SIZE <= |host + ":" + Decimal(port)|
    ensures !ComesBack(a, host, port)
  {
    hide Strtol, Decimal, FindLast, ValueOf;
    var arg, k := host + ":" + Decimal(port), HOST_SIZE - 2 - |host|;
    var digits := Decimal(port)[..k];
    PortIsDigits(port);
    DecimalReads(port);
    CutIsSmaller(port, k);
    DigitsRead(digits);
    assert Clip(arg, HOST_SIZE - 1) == host + ":" + digits;
    LastColon(host, digits);
    assert (host + ":" + digits)[|host| + 1..] == digits;
  }

  /** Where the cut leaves no digit: behind the ':', before it, or within the host. */
  lemma NoDigitLeft(a: Args, host: string, port: nat)
    requires |host| + 2 >= HOST_SIZE
    ensures ComesBack(a, host, port) <==>
            port == 80 && (|host| == HOST_SIZE - 2 || (|host| == HOST_SIZE - 1 && ':' !in host))
  {
    hide Strtol, Decimal, FindLast;
    var arg := host + ":" + Decimal(port);
    var cut := Clip(arg, HOST_SIZE - 1);
    if |host| == HOST_SIZE - 2 {
      assert cut == host + ":" + "";
      LastColon(host, "");
      assert cut[..|host|] == host;
    } else {
      assert cut == host[..HOST_SIZE - 1];
      assert |host| == HOST_SIZE - 1 ==> cut == host;
    }
  }

  /**
   `--proxy host:port` gives host and port back exactly when it names a host and either fits the array
   with a port that is an `int`, or is cut where the port would begin and that port is the default, 80.
   */
  lemma ProxyRoundTrip(a: Args, host: string, port: nat)
    ensures ComesBack(a, host, port) <==>
            && host != ""
            && ((|host + ":" + Decimal(port)| < HOST_SIZE && 0 < port <= INT_MAX)
                || (port == 80 && (|host| == HOST_SIZE - 2 || (|host| == HOST_SIZE - 1 && ':' !in host))))
  {
    hide Strtol, Decimal, FindLast, ComesBack;
    if |host| + 2 >= HOST_SIZE {
      NoDigitLeft(a, host, port);
    } else if |host + ":" + Decimal(port)| >= HOST_SIZE {
      CutPortIsAnother(a, host, port);
    } else {
      UncutComesBack(a, host, port);
    }
  }

  lemma UncutComesBack(a: Args, host: string, port: nat)
    requires |host + ":" + Decimal(port)| < HOST_SIZE
    ensures ComesBack(a, host, port) <==> host != "" && 0 < port <= INT_MAX
  {
    hide SetProxy, Decimal;
    if 0 < port <= LONG_MAX {
      ProxyUncut(a, host, port);
    } else {
      ProxyRefused(a, host, port);
    }
  }

  /** A cut port is accepted without a word: 125 bytes of host and ":8080" make port 8. */
  lemma ProxyPortIsCut(a: Args, host: string)
    requires |host| == 125
    ensures host + ":" + Decimal(8080) == host + ":8080"
    ensures SetProxy(a, host + ":8080") == (a.(proxyHost := host, proxyPort := 8), true)
  {
    hide Strtol, FindLast;
    assert Decimal(808) == "808" && Decimal(8080) == "8080" by { assert Decimal(80) == "80" && Decimal(8) == "8"; }
    assert Clip(host + ":8080", HOST_SIZE - 1) == host + ":" + "8";
    LastColon(host, "8");
    DigitsRead("8");
    assert "8"[..0] == "" && ValueOf("8") == 8;
    assert (host + ":" + "8")[|host| + 1..] == "8" && (host + ":" + "8")[..|host|] == host;
  }

  /**
   Without a port, or with nothing behind the ':', the proxy's port is 80; the host comes back exactly if it
   fits its array.
   */
  lemma ProxyDefaultPort(a: Args, host: string)
    requires ':' !in host
    ensures SetProxy(a, host) == (a.(proxyHost := Clip(host, HOST_SIZE - 1), proxyPort := 80), true)
    ensures SetProxy(a, host + ":") == SetProxy(a, host)
    ensures SetProxy(a, host).0.proxyHost == host <==> |host| < HOST_SIZE
  {
    hide Strtol, FindLast;
    var arg := host + ":";
    if |host| < HOST_SIZE - 1 {
      assert arg == host + ":" + "";
      LastColon(host, "");
      assert arg[..|host|] == host;
    } else {
      assert Clip(arg, HOST_SIZE - 1) == Clip(host, HOST_SIZE - 1);
    }
  }

  lemma LastColonAt(t: string, k: nat)
    requires k < |t| && t[k] == ':' && ':' !in t[k + 1..]
    ensures FindLast(t, ':', |t|) == Some(k)
  {
    hide FindLast;
    assert forall i | k < i < |t| :: t[i] == t[k + 1..][i - k - 1];
  }

  /**
   The option `--proxy` on any argument: 127 bytes of it count, and the last ':' in them, at `k`, comes before the
   port. The port is 80 if nothing follows; the program ends if something follows that is no port.
   */
  lemma ProxyExactly(a: Args, arg: string, k: nat)
    ensures var t := Clip(arg, 127);
            && (':' !in t ==> SetProxy(a, arg) == (a.(proxyHost := t, proxyPort := 80), true))
            && (k < |t| && t[k] == ':' && ':' !in t[k + 1..] ==>
                  var port := t[k + 1..];
                  SetProxy(a, arg) ==
                    if port == "" then (a.(proxyHost := t[..k], proxyPort := 80), true)
                    else if PortTaken(port, false) then
                      (a.(proxyHost := if k == 0 then "127.0.0.1" else t[..k], proxyPort := ToInt(Strtol(port).value)),
                       true)
                    else (a.(proxyHost := t), false))
  {
    hide Strtol, FindLast;
    var t := Clip(arg, 127);
    if k < |t| && t[k] == ':' && ':' !in t[k + 1..] {
      LastColonAt(t, k);
    }
  }
}
