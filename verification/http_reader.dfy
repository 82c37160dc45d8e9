/**
 A server's reading of a request, after sections 2.1, 3 and 5 of RFC 9112: lines end in CRLF, the request
 line is a method, a target and a version with single spaces between them, a field line is a token, a
 colon and a value, and the Host field is as section 3.2 demands. Targets and values are not looked
 into any further than for whitespace, and the Host value for its port.
 */
module HttpReader {
  import opened Text
  import opened Numbers
  import opened ArgumentParsing
  import opened Requests
  import UrlTheorems

  predicate OneLine(s: string) {
    '\r' !in s && '\n' !in s
  }

  predicate NoSpace(s: string) {
    forall i | 0 <= i < |s| :: !IsSpace(s[i])
  }

  predicate IsTokenChar(c: char) {
    'a' <= c <= 'z' || 'A' <= c <= 'Z' || IsDigit(c) || c == '!' || '#' <= c <= '\'' || c == '*' || c == '+'
    || c == '-' || c == '.' || '^' <= c <= '`' || c == '|' || c == '~'
  }

  predicate IsToken(s: string) {
    s != "" && forall i | 0 <= i < |s| :: IsTokenChar(s[i])
  }

  /** "HTTP/" and two digits with a dot between them. */
  predicate IsVersion(v: string) {
    |v| == 8 && v[..5] == "HTTP/" && IsDigit(v[5]) && v[6] == '.' && IsDigit(v[7])
  }

  /** A line ends at the first CRLF. */
  function SplitLine(text: string): (r: Option<(string, string)>)
    ensures r.Some? ==> |r.value.1| + 2 <= |text|
  {
    var k := FindText(text, CRLF, 0);
    if k < |text| then Some((text[..k], text[k + 2..])) else None
  }

  predicate IsBlank(c: char) {
    c == ' ' || c == '\t'
  }

  /** Optional whitespace around a field value is not part of it. */
  function TrimLeft(s: string): string {
    if |s| > 0 && IsBlank(s[0]) then TrimLeft(s[1..]) else s
  }

  function TrimRight(s: string): string {
    if |s| > 0 && IsBlank(s[|s| - 1]) then TrimRight(s[..|s| - 1]) else s
  }

  /** A field line is a token, a colon right behind it, and a value. */
  function ParseField(line: string): Option<Field> {
    var k := Find(line, ':', 0);
    if k < |line| && IsToken(line[..k]) then Some(Field(line[..k], TrimRight(TrimLeft(line[k + 1..])))) else None
  }

  /** Field lines up to the empty line, behind which nothing may follow. */
  function ParseFields(text: string): Option<seq<Field>>
    decreases |text|
  {
    match SplitLine(text)
    case None => None
    case Some((line, rest)) =>
      if line == "" then if rest == "" then Some([]) else None
      else match ParseField(line)
        case None => None
        case Some(f) =>
          match ParseFields(rest)
          case None => None
          case Some(fields) => Some([f] + fields)
  }

  datatype Opening = Opening(name: string, target: string, version: string)

  /** The request line: exactly three parts, with no whitespace in the target. */
  function ParseHead(line: string): Option<Opening> {
    var first := Find(line, ' ', 0);
    if first == |line| then None
    else
      var second := Find(line, ' ', first + 1);
      if second == |line| then None
      else
        var h := Opening(line[..first], line[first + 1..second], line[second + 1..]);
        if IsToken(h.name) && h.target != "" && NoSpace(h.target) && IsVersion(h.version) then Some(h) else None
  }

  predicate IsHostField(f: Field) {
    |f.name| == 4 && StartsWith(f.name, "host")
  }

  predicate AllDigits(s: string) {
    forall i | 0 <= i < |s| :: IsDigit(s[i])
  }

  /** Behind the last colon of an authority comes its port, unless that colon is inside the brackets of an address. */
  predicate PortOk(authority: string) {
    match FindLast(authority, ':', |authority|)
    case None => true
    case Some(k) => authority[|authority| - 1] == ']' || AllDigits(authority[k + 1..])
  }

  lemma PortBehind(host: string, port: string)
    requires port != "" && ':' !in port && port[|port| - 1] != ']'
    ensures PortOk(host + ":" + port) <==> AllDigits(port)
  {
    var v, m := host + ":" + port, |host|;
    assert v[m] == ':' && v[m + 1..] == port && v[|v| - 1] == port[|port| - 1];
    assert forall i | m < i < |v| :: v[i] == port[i - m - 1];
  }

  /** No more than one Host field, with no whitespace in its value and only digits for a port, and one for HTTP/1.1. */
  predicate HostsOk(version: string, fields: seq<Field>) {
    && (forall i, j | 0 <= i < j < |fields| :: !(IsHostField(fields[i]) && IsHostField(fields[j])))
    && (forall i | 0 <= i < |fields| && IsHostField(fields[i]) :: NoSpace(fields[i].value) && PortOk(fields[i].value))
    && (version == "HTTP/1.1" ==> exists i | 0 <= i < |fields| :: IsHostField(fields[i]))
  }

  datatype Request = Request(name: string, target: string, version: string, fields: seq<Field>)

  /** What a server makes of a request without a body; None is an answer of 400. */
  function ParseRequest(text: string): Option<Request> {
    match SplitLine(text)
    case None => None
    case Some((line, rest)) =>
      match ParseHead(line)
      case None => None
      case Some(h) =>
        match ParseFields(rest)
        case None => None
        case Some(fields) =>
          if HostsOk(h.version, fields) then Some(Request(h.name, h.target, h.version, fields)) else None
  }

  // Writing a message and reading it back.

  function HeadLine(name: string, target: string, version: string): string {
    name + " " + target + " " + version
  }

  function Message(name: string, target: string, version: string, fields: seq<Field>): string {
    HeadLine(name, target, version) + CRLF + FieldBlock(fields) + CRLF
  }

  lemma LineSplits(line: string, rest: string)
    requires OneLine(line)
    ensures SplitLine(line + CRLF + rest) == Some((line, rest))
  {
    hide FindText;
    var text := line + CRLF + rest;
    assert forall i | 0 <= i < |line| :: text[i] == line[i];
    assert text[|line|..|line| + 2] == CRLF;
    assert OccursAt(text, CRLF, |line|);
    var k := FindText(text, CRLF, 0);
    assert k <= |line|;
    assert text[k] == text[k..k + 2][0];
    assert text[..|line|] == line && text[|line| + 2..] == rest;
  }

  /** A field whose line reads back as the field with its value trimmed. */
  predicate Readable(f: Field) {
    IsToken(f.name) && OneLine(f.value)
  }

  function Trimmed(f: Field): Field {
    f.(value := TrimRight(TrimLeft(f.value)))
  }

  function AllTrimmed(fields: seq<Field>): (r: seq<Field>)
    ensures |r| == |fields|
    ensures forall i | 0 <= i < |fields| :: r[i] == Trimmed(fields[i])
  {
    seq(|fields|, i requires 0 <= i < |fields| => Trimmed(fields[i]))
  }

  lemma TrimNothing(s: string)
    requires s != "" && !IsBlank(s[0]) && !IsBlank(s[|s| - 1])
    ensures TrimRight(TrimLeft(s)) == s
  {
  }

  lemma TokenIsPlain(s: string)
    requires IsToken(s)
    ensures ':' !in s && ' ' !in s && OneLine(s)
  {
  }

  lemma FieldReads(f: Field)
    requires Readable(f)
    ensures OneLine(FieldLine(f)) && FieldLine(f) != "" && ParseField(FieldLine(f)) == Some(Trimmed(f))
  {
    hide Find, TrimRight, IsToken;
    TokenIsPlain(f.name);
    var line := FieldLine(f);
    assert line == f.name + (": " + f.value);
    assert line[0..] == line;
    UrlTheorems.FindAfter(line, ':', 0, f.name, ": " + f.value);
    assert line[..|f.name|] == f.name;
    var value := line[|f.name| + 1..];
    assert value == " " + f.value;
    assert value[1..] == f.value;
    TokenIsSomething(f.name);
  }

  lemma TokenIsSomething(s: string)
    requires IsToken(s)
    ensures |s| > 0
  {
  }

  lemma {:induction false} FieldBlockFront(fields: seq<Field>)
    requires |fields| > 0
    ensures FieldBlock(fields) == FieldLine(fields[0]) + CRLF + FieldBlock(fields[1..])
  {
    hide FieldLine;
    var n := |fields| - 1;
    if n == 0 {
      NoFields();
      assert fields[..0] == [] && fields[1..] == [];
    } else {
      FieldBlockFront(fields[..n]);
      assert fields[..n][1..] == fields[1..][..n - 1];
      var head, mid, last := FieldLine(fields[0]) + CRLF, FieldBlock(fields[1..][..n - 1]), FieldLine(fields[n]) + CRLF;
      assert FieldBlock(fields[1..]) == mid + FieldLine(fields[n]) + CRLF;
      assert FieldBlock(fields) == (head + mid) + FieldLine(fields[n]) + CRLF;
      assert (head + mid) + FieldLine(fields[n]) + CRLF == head + (mid + FieldLine(fields[n]) + CRLF);
    }
  }

  lemma {:induction false} FieldsRead(fields: seq<Field>)
    requires forall i | 0 <= i < |fields| :: Readable(fields[i])
    ensures ParseFields(FieldBlock(fields) + CRLF) == Some(AllTrimmed(fields))
  {
    hide SplitLine, ParseField, Trimmed, FieldLine, Readable;
    if |fields| == 0 {
      NoFields();
      LineSplits("", "");
      assert "" + CRLF + "" == FieldBlock(fields) + CRLF;
    } else {
      var f, rest := fields[0], fields[1..];
      var more := FieldBlock(rest) + CRLF;
      FieldReads(f);
      FieldsRead(rest);
      FieldBlockFront(fields);
      assert FieldBlock(fields) + CRLF == FieldLine(f) + CRLF + more;
      LineSplits(FieldLine(f), more);
      assert [Trimmed(f)] + AllTrimmed(rest) == AllTrimmed(fields);
    }
  }

  lemma BehindName(name: string, target: string, version: string, k: nat)
    requires k <= |target|
    ensures var line := HeadLine(name, target, version); var m := |name|;
            && |line| == m + 1 + |target| + 1 + |version| && line[..m] == name
            && line[m + 1..] == target[..k] + (target[k..] + " " + version)
            && line[m + 1..m + 1 + k] == target[..k] && line[m + 1 + |target| + 1..] == version
  {
    var line, m := HeadLine(name, target, version), |name|;
    assert line == name + " " + (target + " " + version);
    assert target == target[..k] + target[k..];
  }

  /** Where the first two spaces of a request line are, if `k` is where the target has its first. */
  lemma HeadSplits(name: string, target: string, version: string, k: nat)
    requires ' ' !in name && k == Find(target, ' ', 0)
    ensures var line := HeadLine(name, target, version); var m := |name|;
            && |line| == m + 1 + |target| + 1 + |version|
            && Find(line, ' ', 0) == m && Find(line, ' ', m + 1) == m + 1 + k
            && line[..m] == name && line[m + 1..m + 1 + k] == target[..k]
            && (k == |target| ==> line[m + 1 + k + 1..] == version)
  {
    hide Find;
    var line, m := HeadLine(name, target, version), |name|;
    assert line[0..] == name + (" " + target + " " + version);
    UrlTheorems.FindAfter(line, ' ', 0, name, " " + target + " " + version);
    BehindName(name, target, version, k);
    UrlTheorems.FindAfter(line, ' ', m + 1, target[..k], target[k..] + " " + version);
  }

  lemma HeadReads(name: string, target: string, version: string)
    requires IsToken(name) && IsVersion(version)
    ensures ParseHead(HeadLine(name, target, version))
         == if target != "" && NoSpace(target) then Some(Opening(name, target, version)) else None
  {
    hide Find, HeadLine, IsToken, NoSpace;
    TokenIsPlain(name);
    var k := Find(target, ' ', 0);
    HeadSplits(name, target, version, k);
    if k == |target| {
      assert target[..k] == target;
    } else {
      SpaceInside(target, k);
    }
  }

  lemma SpaceInside(s: string, k: nat)
    requires k < |s| && s[k] == ' '
    ensures !NoSpace(s)
  {
  }

  lemma HeadIsOneLine(name: string, target: string, version: string)
    requires IsToken(name) && OneLine(target) && IsVersion(version)
    ensures OneLine(HeadLine(name, target, version))
  {
    hide IsToken;
    TokenIsPlain(name);
    var line := HeadLine(name, target, version);
    assert "HTTP/"[0] == 'H';
    assert forall i | 0 <= i < 5 :: version[i] == version[..5][i];
  }

  /**
   A message is read back exactly if its target is not empty and has no whitespace and its Host field is in
   order; otherwise it is refused.
   */
  lemma MessageReads(name: string, target: string, version: string, fields: seq<Field>)
    requires IsToken(name) && OneLine(target) && IsVersion(version)
    requires forall i | 0 <= i < |fields| :: Readable(fields[i])
    ensures ParseRequest(Message(name, target, version, fields))
         == if target != "" && NoSpace(target) && HostsOk(version, AllTrimmed(fields))
            then Some(Request(name, target, version, AllTrimmed(fields))) else None
  {
    hide SplitLine, ParseHead, ParseFields, HostsOk, FieldBlock, HeadLine, NoSpace, Readable, AllTrimmed, IsToken;
    var line, rest := HeadLine(name, target, version), FieldBlock(fields) + CRLF;
    FieldsRead(fields);
    HeadReads(name, target, version);
    HeadIsOneLine(name, target, version);
    assert Message(name, target, version, fields) == line + CRLF + rest;
    LineSplits(line, rest);
  }

  /** The end of the header is nowhere but at the end. */
  ghost predicate EndsOnce(text: string) {
    forall i: nat :: OccursAt(text, HEADER_END, i) <==> i + 4 == |text|
  }

  lemma LastLineEndsOnce(line: string)
    requires OneLine(line) && line != ""
    ensures EndsOnce(line + CRLF + CRLF)
  {
    var text := line + CRLF + CRLF;
    assert forall i | 0 <= i < |line| :: text[i] == line[i];
    assert text[|line|..|line| + 4] == HEADER_END;
    forall i: nat | OccursAt(text, HEADER_END, i) ensures i == |line| {
      assert text[i] == text[i..i + 4][0] == '\r';
    }
  }

  lemma BytesAt(text: string, i: nat)
    ensures OccursAt(text, HEADER_END, i) ==> text[i] == '\r' && text[i + 1] == '\n' && text[i + 2] == '\r'
  {
    if OccursAt(text, HEADER_END, i) {
      var at := text[i..i + 4];
      assert text[i] == at[0] && text[i + 1] == at[1] && text[i + 2] == at[2];
    }
  }

  lemma LineKeepsEnd(line: string, rest: string)
    requires OneLine(line) && EndsOnce(rest) && |rest| >= 4 && rest[0] != '\r'
    ensures EndsOnce(line + CRLF + rest)
  {
    var text := line + CRLF + rest;
    var n := |line| + 2;
    assert forall i | 0 <= i < |line| :: text[i] == line[i];
    assert text[|line| + 1] == '\n' && text[n] == rest[0];
    forall i: nat | i + 4 <= |text|
      ensures OccursAt(text, HEADER_END, i) <==> i + 4 == |text|
    {
      if i >= n {
        assert text[i..i + 4] == rest[i - n..i - n + 4];
        assert OccursAt(text, HEADER_END, i) <==> OccursAt(rest, HEADER_END, i - n);
      } else {
        BytesAt(text, i);
      }
    }
  }

  lemma {:induction false} FieldsEndOnce(fields: seq<Field>)
    requires |fields| > 0 && forall i | 0 <= i < |fields| :: Readable(fields[i])
    ensures var text := FieldBlock(fields) + CRLF; EndsOnce(text) && |text| >= 4 && text[0] != '\r'
  {
    hide EndsOnce, ParseField;
    var f, rest := fields[0], fields[1..];
    FieldReads(f);
    FieldBlockFront(fields);
    assert FieldLine(f)[0] == f.name[0];
    if |rest| == 0 {
      NoFields();
      assert FieldBlock(fields) + CRLF == FieldLine(f) + CRLF + CRLF;
      LastLineEndsOnce(FieldLine(f));
    } else {
      FieldsEndOnce(rest);
      var more := FieldBlock(rest) + CRLF;
      assert FieldBlock(fields) + CRLF == FieldLine(f) + CRLF + more;
      LineKeepsEnd(FieldLine(f), more);
    }
  }

  /** The end of the header occurs once in a message with a field, at its end. */
  lemma MessageEndsOnce(name: string, target: string, version: string, fields: seq<Field>)
    requires IsToken(name) && OneLine(target) && IsVersion(version)
    requires |fields| > 0 && forall i | 0 <= i < |fields| :: Readable(fields[i])
    ensures EndsOnce(Message(name, target, version, fields))
  {
    hide FieldBlock, EndsOnce, HeadLine, Readable, IsToken;
    FieldsEndOnce(fields);
    HeadIsOneLine(name, target, version);
    var line, rest := HeadLine(name, target, version), FieldBlock(fields) + CRLF;
    assert Message(name, target, version, fields) == line + CRLF + rest;
    LineKeepsEnd(line, rest);
  }
}
