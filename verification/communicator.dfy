/**
 The blocking TLS loops of the threaded engine, and that they do what the event-driven automaton does
 one readiness event at a time.
 */
module Communicator {
  import opened Text
  import opened Automaton
  import opened Invariants
  import opened Progress
  import opened Chunking

  /** What one `SSL_write` meets: room for some bytes (0 is an error), a request to retry, or an error. */
  datatype WriteMeet = Accepts(n: nat) | WriteWants | WriteFails

  /** What one `SSL_read` meets: bytes (none is an error), a request to retry, or an error. */
  datatype ReadMeet = Gives(data: string) | WantsRead | WantsWrite | ReadFails

  /** How far a write loop got, and whether an error ended it. */
  datatype Writing = Writing(count: nat, broken: bool)

  datatype Reading = Reading(text: string, broken: bool)

  function FirstOf<T>(calls: nat -> T, k: nat): (r: seq<T>)
    ensures |r| == k
  {
    seq(k, i requires 0 <= i < k => calls(i))
  }

  lemma FirstOfStep<T>(calls: nat -> T, k: nat)
    ensures FirstOf(calls, k + 1)[..k] == FirstOf(calls, k) && FirstOf(calls, k + 1)[k] == calls(k)
  {
  }

  predicate WritingOver(text: string, w: Writing) {
    w.broken || w.count == |text|
  }

  /** What a sequence of `SSL_write` calls on the rest of `text` comes to. */
  function AfterWrites(text: string, meets: seq<WriteMeet>): (w: Writing)
    ensures w.count <= |text|
  {
    if meets == [] then Writing(0, false)
    else
      var w := AfterWrites(text, meets[..|meets| - 1]);
      if WritingOver(text, w) then w
      else match meets[|meets| - 1]
        case Accepts(n) => if n > 0 then Writing(w.count + Min(n, |text| - w.count), false) else Writing(w.count, true)
        case WriteWants => w
        case WriteFails => Writing(w.count, true)
  }

  /** Some call at or after `k` is not asked to be retried. */
  ghost predicate WriteMovesAfter(calls: nat -> WriteMeet, k: nat) {
    exists m: nat :: k <= m && !calls(m).WriteWants?
  }

  ghost predicate ReadMovesAfter(calls: nat -> ReadMeet, k: nat) {
    exists m: nat :: k <= m && !calls(m).WantsRead?
  }

  /** What the loop of `send_tls_data` makes of the first `k` calls. */
  ghost predicate Written(text: string, calls: nat -> WriteMeet, k: nat, w: Writing) {
    AfterWrites(text, FirstOf(calls, k)) == w
  }

  lemma NothingWritten(text: string, calls: nat -> WriteMeet)
    ensures Written(text, calls, 0, Writing(0, false))
  {
  }

  lemma WriteStep(text: string, calls: nat -> WriteMeet, k: nat, w: Writing)
    requires Written(text, calls, k, w) && !WritingOver(text, w)
    ensures match calls(k)
            case Accepts(n) =>
              Written(text, calls, k + 1,
                      if n > 0 then Writing(w.count + Min(n, |text| - w.count), false) else Writing(w.count, true))
            case WriteWants => Written(text, calls, k + 1, w)
            case WriteFails => Written(text, calls, k + 1, Writing(w.count, true))
  {
    FirstOfStep(calls, k);
  }

  /**
   `send_tls_data`. `accepted` is what the peer's end of the channel was given. It ends because the
   calls are not asked to be retried for ever; it returns `len` if exactly the data was accepted, in
   order, and -1 with a proper part of it accepted otherwise.
   */
  method SendTlsData(hasSsl: bool, data: Option<string>, len: int, calls: nat -> WriteMeet)
    returns (ret: int, accepted: string, used: nat)
    requires data.Some? ==> len <= |data.value|
    requires forall k :: WriteMovesAfter(calls, k)
    ensures !hasSsl || data.None? || len <= 0 ==> ret == -1 && accepted == "" && used == 0
    ensures hasSsl && data.Some? && len > 0 ==>
              && var text := data.value[..len];
                 var w := AfterWrites(text, FirstOf(calls, used));
              && WritingOver(text, w) && accepted == text[..w.count]
              && ret == (if w.broken then -1 else len)
              && (ret == len <==> accepted == text)
              && (ret == -1 <==> |accepted| < len)
    ensures used > 0 && data.Some? && len > 0 ==>
              !WritingOver(data.value[..len], AfterWrites(data.value[..len], FirstOf(calls, used - 1)))
  {
    hide AfterWrites, FirstOf;
    if !hasSsl || data.None? || len <= 0 {
      return -1, "", 0;
    }
    var text := data.value[..len];
    var totalSent := 0;
    accepted := "";
    used := 0;
    NothingWritten(text, calls);
    assert WriteMovesAfter(calls, 0);
    ghost var next: nat :| used <= next && !calls(next).WriteWants?;
    while totalSent < len
      invariant 0 <= totalSent <= len && accepted == text[..totalSent]
      invariant Written(text, calls, used, Writing(totalSent, false))
      invariant totalSent < len ==> used <= next && !calls(next).WriteWants?
      invariant used > 0 && totalSent == len ==> !WritingOver(text, AfterWrites(text, FirstOf(calls, used - 1)))
      decreases len - totalSent, next - used
    {
      var meet := calls(used);
      WriteStep(text, calls, used, Writing(totalSent, false));
      used := used + 1;
      match meet
      case Accepts(n) =>
        var bytesSent := Min(n, len - totalSent);
        if bytesSent <= 0 {
          return -1, accepted, used;
        }
        accepted := accepted + text[totalSent..totalSent + bytesSent];
        totalSent := totalSent + bytesSent;
        assert WriteMovesAfter(calls, used);
        next :| used <= next && !calls(next).WriteWants?;
      case WriteWants =>
        continue;
      case WriteFails =>
        return -1, accepted, used;
    }
    return totalSent, accepted, used;
  }

  predicate ReadingOver(size: nat, r: Reading) {
    r.broken || |r.text| >= size - 1 || StrStr(r.text, HEADER_END)
  }

  /** What a sequence of `SSL_read` calls into a buffer of `size` bytes comes to. */
  function AfterReads(size: nat, meets: seq<ReadMeet>): (r: Reading)
    ensures size > 0 ==> |r.text| < size
    ensures size == 0 ==> r.text == ""
  {
    if meets == [] then Reading("", false)
    else
      var r := AfterReads(size, meets[..|meets| - 1]);
      if ReadingOver(size, r) then r
      else match meets[|meets| - 1]
        case Gives(data) =>
          if data == "" then Reading(r.text, true) else Reading(r.text + Clip(data, size - 1 - |r.text|), false)
        case WantsRead => r
        case WantsWrite | ReadFails => Reading(r.text, true)
  }

  ghost predicate Read(size: nat, calls: nat -> ReadMeet, k: nat, r: Reading) {
    AfterReads(size, FirstOf(calls, k)) == r
  }

  lemma ReadStep(size: nat, calls: nat -> ReadMeet, k: nat, r: Reading)
    requires Read(size, calls, k, r) && !ReadingOver(size, r)
    ensures match calls(k)
            case Gives(data) =>
              Read(size, calls, k + 1,
                   if data == "" then Reading(r.text, true)
                   else Reading(r.text + Clip(data, size - 1 - |r.text|), false))
            case WantsRead => Read(size, calls, k + 1, r)
            case WantsWrite | ReadFails => Read(size, calls, k + 1, Reading(r.text, true))
  {
    hide StrStr;
    FirstOfStep(calls, k);
  }

  /** A buffer that held `before` and has received `text`: the text, a terminator, and the rest as it was. */
  predicate Holds(now: string, before: string, text: string) {
    if text == "" then now == before
    else |text| < |before| && now == text + [NUL] + before[|text| + 1..]
  }

  lemma HoldsMore(now: string, before: string, text: string, got: string)
    requires Holds(now, before, text) && got != "" && |text| + |got| < |before|
    ensures |now| == |before|
    ensures Holds(now[..|text|] + got + [NUL] + now[|text| + |got| + 1..], before, text + got)
  {
  }

  lemma HoldsFinds(now: string, before: string, text: string)
    requires Holds(now, before, text) && text != ""
    ensures StrStr(now, HEADER_END) <==> StrStr(text, HEADER_END)
  {
    StrStrStopsAtNul(text, before[|text| + 1..], HEADER_END);
  }

  /** A read stored in the buffer, with a terminator behind it. */
  method StoreRead(buffer: array<char>, total: nat, got: string, ghost before: string, ghost text: string)
    requires Holds(buffer[..], before, text) && got != "" && |text| + |got| < buffer.Length == |before|
    requires total == |text|
    modifies buffer
    ensures Holds(buffer[..], before, text + got)
  {
    HoldsMore(buffer[..], before, text, got);
    ghost var now := buffer[..];
    forall k | 0 <= k < |got| {
      buffer[total + k] := got[k];
    }
    buffer[total + |got|] := NUL;
    assert buffer[..] == now[..total] + got + [NUL] + now[total + |got| + 1..];
  }

  /**
   `recv_tls_data`: the text received up to the end of the header, or as much as the buffer takes,
   terminated; -1 on any error, a wish to write among them. Behind the terminator the buffer is as it was.
   */
  method RecvTlsData(buffer: array<char>, size: nat, calls: nat -> ReadMeet) returns (ret: int, used: nat)
    requires size <= buffer.Length
    requires forall k :: ReadMovesAfter(calls, k)
    modifies buffer
    ensures var r := AfterReads(size, FirstOf(calls, used));
            && ReadingOver(size, r)
            && ret == (if r.broken then -1 else |r.text|)
            && Holds(buffer[..], old(buffer[..]), r.text)
    ensures used > 0 ==> !ReadingOver(size, AfterReads(size, FirstOf(calls, used - 1)))
  {
    hide StrStr, AfterReads, Holds, FirstOf;
    var totalReceived := 0;
    ghost var text := "";
    ghost var before := buffer[..];
    used := 0;
    assert ReadMovesAfter(calls, 0);
    ghost var next: nat :| used <= next && !calls(next).WantsRead?;
    NothingRead(size, calls, before);
    while totalReceived < size - 1
      invariant totalReceived == |text| && (size > 0 ==> |text| < size) && (size == 0 ==> text == "")
      invariant Read(size, calls, used, Reading(text, false)) && !StrStr(text, HEADER_END)
      invariant used <= next && !calls(next).WantsRead?
      invariant Holds(buffer[..], before, text)
      invariant used > 0 && totalReceived >= size - 1 ==> !ReadingOver(size, AfterReads(size, FirstOf(calls, used - 1)))
      decreases size - totalReceived, next - used
    {
      var meet := calls(used);
      ReadStep(size, calls, used, Reading(text, false));
      used := used + 1;
      match meet
      case Gives(data) =>
        var got := Clip(data, size - 1 - totalReceived);
        if got == "" {
          return -1, used;
        }
        StoreRead(buffer, totalReceived, got, before, text);
        totalReceived := totalReceived + |got|;
        text := text + got;
        HoldsFinds(buffer[..], before, text);
        if StrStr(buffer[..], HEADER_END) {
          break;
        }
        assert ReadMovesAfter(calls, used);
        next :| used <= next && !calls(next).WantsRead?;
      case WantsRead =>
        continue;
      case WantsWrite | ReadFails =>
        return -1, used;
    }
    return totalReceived, used;
  }

  lemma NothingRead(size: nat, calls: nat -> ReadMeet, before: string)
    ensures Read(size, calls, 0, Reading("", false)) && !StrStr("", HEADER_END) && Holds(before, before, "")
  {
  }

  /** The readiness events that put a connection in the place of the blocking write loop. */
  function WriteCalls(meets: seq<WriteMeet>): (r: seq<Call>)
    ensures |r| == |meets|
  {
    seq(|meets|, k requires 0 <= k < |meets| => WriteCall(meets[k]))
  }

  function WriteCall(meet: WriteMeet): Call {
    Call(Events(false, true, false),
         Outcome(true, Bound, if meet.Accepts? then meet.n else 0, "", false, false, meet.WriteWants?, false))
  }

  function ReadCall(meet: ReadMeet): Call {
    Call(READABLE,
         Outcome(true, Bound, 0, if meet.Gives? then meet.data else "", false, false,
                 meet.WantsRead? || meet.WantsWrite?, false))
  }

  function ReadCalls(meets: seq<ReadMeet>): (r: seq<Call>)
    ensures |r| == |meets|
  {
    seq(|meets|, k requires 0 <= k < |meets| => ReadCall(meets[k]))
  }

  lemma WriteCallsSplit(meets: seq<WriteMeet>)
    requires meets != []
    ensures WriteCalls(meets) == WriteCalls(meets[..|meets| - 1]) + [WriteCall(meets[|meets| - 1])]
  {
  }

  lemma ReadCallsSplit(meets: seq<ReadMeet>)
    requires meets != []
    ensures ReadCalls(meets) == ReadCalls(meets[..|meets| - 1]) + [ReadCall(meets[|meets| - 1])]
  {
  }

  /** The connection stands where the blocking loop stands after the same outcomes. */
  predicate SameWriting(cfg: Config, c1: Conn, w: Writing) {
    && w.count <= |cfg.body|
    && c1.log.tls == cfg.body[..w.count]
    && (w.broken ==> c1.state.Error?)
    && (!w.broken && w.count < |cfg.body| ==> c1.state.Sending? && c1.sent == w.count)
    && (!w.broken && w.count == |cfg.body| ==> c1.state == if cfg.force then Completed else Receiving)
  }

  lemma StartsAlike(e: Engine, cfg: Config, c: Conn)
    requires ConnInv(e, cfg, c) && c.state.Sending? && cfg.isHttps && c.sent == 0 && cfg.body != ""
    ensures SameWriting(cfg, c, Writing(0, false))
  {
    hide WireOk, CountOk, HoldsOk, BufferOk;
  }

  lemma SendOne(e: Engine, cfg: Config, c: Conn, w: Writing, meet: WriteMeet)
    requires ConnInv(e, cfg, c) && cfg.isHttps && SameWriting(cfg, c, w) && !WritingOver(cfg.body, w)
    ensures Shape(cfg, c)
    ensures var call := WriteCall(meet); var c1 := Handle(e, cfg, c, call.ev, call.io);
            match meet
            case Accepts(n) =>
              SameWriting(cfg, c1, if n > 0 then Writing(w.count + Min(n, |cfg.body| - w.count), false)
                                   else Writing(w.count, true))
            case WriteWants => SameWriting(cfg, c1, w)
            case WriteFails => SameWriting(cfg, c1, Writing(w.count, true))
  {
    hide WireOk, CountOk, HoldsOk, BufferOk;
    InvShape(e, cfg, c);
    assert c.ssl.Some?;
    if meet.Accepts? {
      var n := Min(meet.n, |cfg.body| - w.count);
      assert cfg.body[..w.count] + cfg.body[w.count..w.count + n] == cfg.body[..w.count + n];
    }
  }

  /**
   On the same write outcomes the blocking loop and the SENDING state put the same bytes on the
   channel, and end alike: with the whole body out, or with an error after the same part of it.
   */
  lemma {:induction false} WritesAreSending(e: Engine, cfg: Config, c: Conn, meets: seq<WriteMeet>)
    requires ConnInv(e, cfg, c) && c.state.Sending? && cfg.isHttps && c.sent == 0 && cfg.body != ""
    requires !WritingOver(cfg.body, AfterWrites(cfg.body, meets[..if meets == [] then 0 else |meets| - 1]))
    ensures SameWriting(cfg, Calls(e, cfg, c, WriteCalls(meets)), AfterWrites(cfg.body, meets))
  {
    hide ConnInv, Handle, Shape, SameWriting;
    if meets == [] {
      StartsAlike(e, cfg, c);
    } else {
      var init := meets[..|meets| - 1];
      var last := meets[|meets| - 1];
      WritingGrows(cfg.body, init);
      WritesAreSending(e, cfg, c, init);
      WriteCallsSplit(meets);
      CallsAppend(e, cfg, c, WriteCalls(init), WriteCall(last));
      var c1 := Calls(e, cfg, c, WriteCalls(init));
      StillSending(cfg, c1, AfterWrites(cfg.body, init));
      SendOne(e, cfg, c1, AfterWrites(cfg.body, init), last);
    }
  }

  lemma StillSending(cfg: Config, c1: Conn, w: Writing)
    requires SameWriting(cfg, c1, w) && !WritingOver(cfg.body, w)
    ensures c1.state.Sending?
  {
  }

  /** Once a write loop is over it stays over. */
  lemma WritingGrows(text: string, meets: seq<WriteMeet>)
    requires !WritingOver(text, AfterWrites(text, meets))
    ensures !WritingOver(text, AfterWrites(text, meets[..if meets == [] then 0 else |meets| - 1]))
  {
  }

  /** The connection stands where the blocking read loop stands, with the same text in its buffer. */
  predicate SameReading(c: Conn, c1: Conn, r: Reading) {
    && c1.log.inbox == r.text && c1.received == |r.text|
    && (r.broken <==> c1.state.Error?)
    && (!r.broken && StrStr(r.text, HEADER_END) ==> c1.state.Completed? && c1.bytes == c.bytes + |r.text|)
    && (!r.broken && !StrStr(r.text, HEADER_END) ==> c1.state.Receiving? && c1.bytes == c.bytes)
  }

  lemma ListensAlike(e: Engine, cfg: Config, c: Conn)
    requires ConnInv(e, cfg, c) && c.state.Receiving? && c.received == 0
    ensures SameReading(c, c, Reading("", false)) && Shape(cfg, c)
  {
    hide WireOk, CountOk, HoldsOk;
  }

  lemma ReceiveOnce(e: Engine, cfg: Config, c: Conn, c1: Conn, r: Reading, meet: ReadMeet)
    requires ConnInv(e, cfg, c1) && cfg.isHttps && c1.state.Receiving? && SameReading(c, c1, r) && !ReadingOver(CAP, r)
    ensures Shape(cfg, c1)
    ensures var call := ReadCall(meet); var c2 := Handle(e, cfg, c1, call.ev, call.io);
            match meet
            case Gives(data) =>
              SameReading(c, c2, if data == "" then Reading(r.text, true)
                                 else Reading(r.text + Clip(data, CAP - 1 - |r.text|), false))
            case WantsRead => SameReading(c, c2, r)
            case WantsWrite => c2 == c1
            case ReadFails => SameReading(c, c2, Reading(r.text, true))
  {
    hide StageOk, WireOk, CountOk, HoldsOk, StrStr, Zeros;
    InvShape(e, cfg, c1);
    var call := ReadCall(meet);
    var got := Got(call.io, CAP - c1.received - 1);
    if got != "" {
      StoreKeepsPadding(c1, got);
    }
  }

  /** Once a read loop is over it stays over. */
  lemma ReadingGrows(size: nat, meets: seq<ReadMeet>)
    requires !ReadingOver(size, AfterReads(size, meets))
    ensures !ReadingOver(size, AfterReads(size, meets[..if meets == [] then 0 else |meets| - 1]))
  {
    hide StrStr;
  }

  /**
   With equal capacity and the same chunks, the blocking loop and the RECEIVING state hold the same text
   and count the same bytes, until a read wishes to write: the blocking loop gives up there.
   */
  lemma {:induction false} ReadsAreReceiving(e: Engine, cfg: Config, c: Conn, meets: seq<ReadMeet>)
    requires ConnInv(e, cfg, c) && c.state.Receiving? && cfg.isHttps && c.received == 0
    requires !ReadingOver(CAP, AfterReads(CAP, meets[..if meets == [] then 0 else |meets| - 1]))
    requires forall m | m in meets :: !m.WantsWrite?
    ensures SameReading(c, Calls(e, cfg, c, ReadCalls(meets)), AfterReads(CAP, meets))
  {
    hide ConnInv, Handle, Shape, SameReading, StrStr;
    if meets == [] {
      ListensAlike(e, cfg, c);
    } else {
      var init := meets[..|meets| - 1];
      var last := meets[|meets| - 1];
      assert last in meets && forall m | m in init :: m in meets;
      ReadingGrows(CAP, init);
      ReadsAreReceiving(e, cfg, c, init);
      ReadCallsSplit(meets);
      CallsAppend(e, cfg, c, ReadCalls(init), ReadCall(last));
      var c1 := Calls(e, cfg, c, ReadCalls(init));
      StillListening(c, c1, AfterReads(CAP, init));
      ReceiveOnce(e, cfg, c, c1, AfterReads(CAP, init), last);
    }
  }

  lemma StillListening(c: Conn, c1: Conn, r: Reading)
    requires SameReading(c, c1, r) && !ReadingOver(CAP, r)
    ensures c1.state.Receiving?
  {
  }

  /**
   A full buffer without a header end: the blocking loop returns, the automaton completes on the next event,
   with the same count.
   */
  lemma FullBufferCountsAlike(e: Engine, cfg: Config, c: Conn, c1: Conn, r: Reading, io: Outcome)
    requires ConnInv(e, cfg, c1) && SameReading(c, c1, r)
    requires !r.broken && |r.text| == CAP - 1 && !StrStr(r.text, HEADER_END)
    ensures Shape(cfg, c1)
    ensures var c2 := Handle(e, cfg, c1, READABLE, io); c2.state.Completed? && c2.bytes == c.bytes + |r.text|
  {
    hide StrStr, Zeros;
    InvShape(e, cfg, c1);
  }

  /** A read that wishes to write ends the blocking loop with an error, while the automaton waits. */
  lemma WantWriteDiffers(e: Engine, cfg: Config, c: Conn, meets: seq<ReadMeet>)
    requires ConnInv(e, cfg, c) && c.state.Receiving? && cfg.isHttps && c.received == 0
    requires !ReadingOver(CAP, AfterReads(CAP, meets)) && forall m | m in meets :: !m.WantsWrite?
    ensures AfterReads(CAP, meets + [WantsWrite]).broken
    ensures Calls(e, cfg, c, ReadCalls(meets + [WantsWrite])) == Calls(e, cfg, c, ReadCalls(meets))
    ensures Calls(e, cfg, c, ReadCalls(meets)).state.Receiving?
  {
    hide ConnInv, Handle, Shape, SameReading, StrStr;
    var longer := meets + [WantsWrite];
    assert longer[..|meets|] == meets;
    ReadingGrows(CAP, meets);
    ReadsAreReceiving(e, cfg, c, meets);
    ReadCallsSplit(longer);
    CallsAppend(e, cfg, c, ReadCalls(meets), ReadCall(WantsWrite));
    var c1 := Calls(e, cfg, c, ReadCalls(meets));
    StillListening(c, c1, AfterReads(CAP, meets));
    ReceiveOnce(e, cfg, c, c1, AfterReads(CAP, meets), WantsWrite);
  }
}
