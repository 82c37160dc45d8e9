/**
 How a stream is cut into reads and writes does not matter: what a connection has received after some
 readable events is a function of the bytes that arrived, and where it stops depends only on the texts
 at the read boundaries.
 */
module Chunking {
  import opened Text
  import opened Automaton
  import opened Invariants
  import opened Progress

  /** What one readable event meets: bytes, or nothing yet. */
  datatype Step = Arrives(data: string) | Waits

  function CallOf(s: Step, tls: TlsSetup): Call {
    Call(READABLE, Outcome(true, tls, 0, if s.Arrives? then s.data else "", false, true, true, false))
  }

  function CallsOf(steps: seq<Step>, tls: TlsSetup): (r: seq<Call>)
    ensures |r| == |steps|
  {
    seq(|steps|, k requires 0 <= k < |steps| => CallOf(steps[k], tls))
  }

  /** Everything that has arrived. */
  function Arrived(steps: seq<Step>): string {
    if steps == [] then ""
    else
      var last := steps[|steps| - 1];
      Arrived(steps[..|steps| - 1]) + if last.Arrives? then last.data else ""
  }

  /** The text received after `k` events: what has arrived, as far as the buffer holds it. */
  function TextAfter(steps: seq<Step>, k: nat): string
    requires k <= |steps|
  {
    Clip(Arrived(steps[..k]), CAP - 1)
  }

  /** The phrase shows at boundary `k`, or event `k` finds the buffer full. */
  predicate Stops(steps: seq<Step>, phrase: string, k: nat)
    requires k <= |steps|
  {
    k > 0 && (StrStr(TextAfter(steps, k), phrase) || |TextAfter(steps, k - 1)| == CAP - 1)
  }

  /** No stop among the first `n` events. */
  predicate RunsThrough(steps: seq<Step>, phrase: string, n: nat)
    requires n <= |steps|
  {
    forall k | 0 < k <= n :: !Stops(steps, phrase, k)
  }

  predicate StopsFirstAt(steps: seq<Step>, phrase: string, k: nat)
    requires k <= |steps|
  {
    Stops(steps, phrase, k) && RunsThrough(steps, phrase, k - 1)
  }

  lemma {:induction false} CallsAppend(e: Engine, cfg: Config, c: Conn, calls: seq<Call>, last: Call)
    requires ConnInv(e, cfg, c)
    ensures var c1 := Calls(e, cfg, c, calls);
            && ConnInv(e, cfg, c1)
            && (Active(c1.state) ==> Shape(cfg, c1))
            && Calls(e, cfg, c, calls + [last]) == if Active(c1.state) then Handle(e, cfg, c1, last.ev, last.io) else c1
    decreases |calls|
  {
    hide ConnInv, Handle, Shape;
    InvShape(e, cfg, c);
    if calls == [] {
      assert [last][1..] == [];
    } else {
      assert (calls + [last])[1..] == calls[1..] + [last];
      if Active(c.state) {
        HandleKeepsInv(e, cfg, c, calls[0].ev, calls[0].io);
        CallsAppend(e, cfg, Handle(e, cfg, c, calls[0].ev, calls[0].io), calls[1..], last);
      }
    }
  }

  lemma CallsOfSplit(steps: seq<Step>, tls: TlsSetup)
    requires steps != []
    ensures CallsOf(steps, tls) == CallsOf(steps[..|steps| - 1], tls) + [CallOf(steps[|steps| - 1], tls)]
  {
  }

  /** The same boundaries, seen from a longer list of events. */
  lemma PrefixStops(steps: seq<Step>, phrase: string, n: nat)
    requires n <= |steps|
    ensures forall k | 0 <= k <= n :: TextAfter(steps, k) == TextAfter(steps[..n], k)
    ensures forall k | 0 <= k <= n :: Stops(steps, phrase, k) <==> Stops(steps[..n], phrase, k)
  {
    forall k | 0 <= k <= n ensures steps[..k] == steps[..n][..k] {
    }
  }

  /** One more read: the new text is the old one and what the buffer still takes. */
  lemma OneMore(text: string, data: string)
    ensures Clip(Clip(text, CAP - 1) + Clip(data, CAP - 1 - |Clip(text, CAP - 1)|), CAP - 1)
         == Clip(text + data, CAP - 1)
    ensures Clip(text + data, CAP - 1)
         == if |Clip(text, CAP - 1)| == CAP - 1 then Clip(text, CAP - 1)
            else Clip(text, CAP - 1) + Clip(data, CAP - 1 - |Clip(text, CAP - 1)|)
  {
  }

  /** One readable event while the response is awaited. */
  lemma ReceiveOne(e: Engine, cfg: Config, c: Conn, s: Step, tls: TlsSetup)
    requires ConnInv(e, cfg, c) && c.state.Receiving?
    ensures var call := CallOf(s, tls);
            var data := if s.Arrives? then s.data else "";
            var text := c.log.inbox + Clip(data, CAP - 1 - |c.log.inbox|);
            && Shape(cfg, c) && c.received == |c.log.inbox| <= CAP - 1
            && Handle(e, cfg, c, call.ev, call.io) ==
               if |c.log.inbox| == CAP - 1 then Finish(c)
               else if text == c.log.inbox then c
               else if StrStr(text, HEADER_END) then Finish(Store(c, text[|c.log.inbox|..]))
               else Store(c, text[|c.log.inbox|..])
  {
    hide StageOk, WireOk, CountOk, HoldsOk, StrStr, Zeros, Finish, Store;
    InvShape(e, cfg, c);
    var call := CallOf(s, tls);
    var got := Got(call.io, CAP - c.received - 1);
    if got != "" {
      StoreKeepsPadding(c, got);
      assert (c.log.inbox + got)[|c.log.inbox|..] == got;
    }
  }

  /** The response is still awaited, with `text` received and nothing counted since `c`. */
  predicate StillReceiving(c: Conn, c1: Conn, text: string) {
    c1.state.Receiving? && c1.log.inbox == text && c1.speed == c.speed && c1.bytes == c.bytes
  }

  /** The response `text` is complete, and counted once since `c`. */
  predicate Counted(c: Conn, c1: Conn, text: string) {
    c1.state.Completed? && c1.log.inbox == text && c1.speed == c.speed + 1 && c1.bytes == c.bytes + |text|
  }

  lemma ReceiveStep(e: Engine, cfg: Config, c: Conn, c1: Conn, steps: seq<Step>, tls: TlsSetup)
    requires steps != [] && ConnInv(e, cfg, c1) && StillReceiving(c, c1, TextAfter(steps, |steps| - 1))
    ensures var call := CallOf(steps[|steps| - 1], tls);
            && Shape(cfg, c1)
            && var c2 := Handle(e, cfg, c1, call.ev, call.io); var text := TextAfter(steps, |steps|);
               if Stops(steps, HEADER_END, |steps|) then Counted(c, c2, text) else StillReceiving(c, c2, text)
  {
    hide ConnInv, Handle, Shape, StrStr, TextAfter;
    ReceiveOne(e, cfg, c1, steps[|steps| - 1], tls);
    LastText(steps);
    NoHeaderEndYet(e, cfg, c1);
  }

  lemma NoHeaderEndYet(e: Engine, cfg: Config, c: Conn)
    requires ConnInv(e, cfg, c) && c.state.Receiving?
    ensures !StrStr(c.log.inbox, HEADER_END)
    ensures forall got | c.received + |got| < CAP ::
              && |c.buffer| == CAP && Store(c, got).log.inbox == c.log.inbox + got
              && Store(c, got).received == |c.log.inbox + got|
  {
    hide StrStr, Zeros, StageOk, WireOk, CountOk, HoldsOk;
  }

  /**
   The response: while no boundary stops it the connection is still receiving, with the text received;
   otherwise it has completed at the first stop, and counted that text.
   */
  lemma {:induction false} ResponseStopsFirst(e: Engine, cfg: Config, c: Conn, steps: seq<Step>, tls: TlsSetup)
    requires ConnInv(e, cfg, c) && c.state.Receiving? && c.received == 0
    ensures var c1 := Calls(e, cfg, c, CallsOf(steps, tls));
            && (RunsThrough(steps, HEADER_END, |steps|) ==> StillReceiving(c, c1, TextAfter(steps, |steps|)))
            && (forall k | 0 < k <= |steps| && StopsFirstAt(steps, HEADER_END, k) ::
                  Counted(c, c1, TextAfter(steps, k)))
  {
    hide ConnInv, Handle, Shape, StrStr, TextAfter, Stops, StillReceiving, Counted;
    if steps == [] {
      NothingYet(e, cfg, c);
    } else {
      var n := |steps| - 1;
      var init := steps[..n];
      var c1 := Calls(e, cfg, c, CallsOf(init, tls));
      ResponseStopsFirst(e, cfg, c, init, tls);
      PrefixStops(steps, HEADER_END, n);
      CallsOfSplit(steps, tls);
      CallsAppend(e, cfg, c, CallsOf(init, tls), CallOf(steps[n], tls));
      StatesOf(c, c1, TextAfter(steps, n));
      if RunsThrough(init, HEADER_END, n) {
        ReceiveStep(e, cfg, c, c1, steps, tls);
      } else {
        var k := FirstStop(init, HEADER_END, n);
        StatesOf(c, c1, TextAfter(steps, k));
      }
    }
  }

  lemma StatesOf(c: Conn, c1: Conn, text: string)
    ensures StillReceiving(c, c1, text) ==> Active(c1.state)
    ensures Counted(c, c1, text) ==> !Active(c1.state)
  {
  }

  lemma {:induction false} FirstStop(steps: seq<Step>, phrase: string, n: nat) returns (k: nat)
    requires n <= |steps| && !RunsThrough(steps, phrase, n)
    ensures 0 < k <= n && StopsFirstAt(steps, phrase, k)
  {
    hide Stops;
    k := n;
    if RunsThrough(steps, phrase, n - 1) {
      assert Stops(steps, phrase, n);
    } else {
      k := FirstStop(steps, phrase, n - 1);
    }
  }

  lemma NothingYet(e: Engine, cfg: Config, c: Conn)
    requires ConnInv(e, cfg, c) && c.received == 0 && c.state.Receiving?
    ensures StillReceiving(c, c, TextAfter([], 0))
  {
  }

  lemma LastText(steps: seq<Step>)
    requires steps != []
    ensures var n := |steps| - 1;
            var data := if steps[n].Arrives? then steps[n].data else "";
            var text := TextAfter(steps, n);
            && TextAfter(steps[..n], n) == text && |text| <= CAP - 1
            && TextAfter(steps, n + 1) ==
               if |text| == CAP - 1 then text else text + Clip(data, CAP - 1 - |text|)
  {
    var n := |steps| - 1;
    assert steps[..n + 1] == steps && steps[..n][..n] == steps[..n];
    OneMore(Arrived(steps[..n]), if steps[n].Arrives? then steps[n].data else "");
  }

  /** One readable event while the proxy's answer is awaited. */
  lemma AnswerOne(e: Engine, cfg: Config, c: Conn, s: Step, tls: TlsSetup)
    requires ConnInv(e, cfg, c) && c.state.ProxyResponse?
    ensures var call := CallOf(s, tls);
            var data := if s.Arrives? then s.data else "";
            var text := c.log.inbox + Clip(data, CAP - 1 - |c.log.inbox|);
            && Shape(cfg, c) && c.received == |c.log.inbox| <= CAP - 1
            && Handle(e, cfg, c, call.ev, call.io) ==
               if |c.log.inbox| == CAP - 1 then Failed(c)
               else if text == c.log.inbox then c
               else if StrStr(text, TUNNEL_OK) then TunnelUp(Store(c, text[|c.log.inbox|..]), call.io)
               else Store(c, text[|c.log.inbox|..])
  {
    hide StageOk, WireOk, CountOk, StrStr, Zeros, TunnelUp, Store, SetupSsl;
    InvShape(e, cfg, c);
    var call := CallOf(s, tls);
    var got := Got(call.io, CAP - c.received - 1);
    if c.received == CAP - 1 {
      FullBufferIsTerminated(c);
      StrStrIgnoresPadding(c.log.inbox, 1, TUNNEL_OK);
    }
    if got != "" {
      StoreKeepsPadding(c, got);
      StoreCounts(c, got);
      assert (c.log.inbox + got)[|c.log.inbox|..] == got;
    }
  }

  lemma StoreCounts(c: Conn, got: string)
    requires |c.buffer| == CAP && c.received + |got| < CAP
    ensures Store(c, got).received == c.received + |got| && Store(c, got).log.inbox == c.log.inbox + got
    ensures Store(c, got).state == c.state && Store(c, got).failed == c.failed
  {
    hide Splice;
  }

  /** The proxy's answer is still awaited, with `text` received. */
  predicate StillWaiting(c: Conn, c1: Conn, text: string) {
    c1.state.ProxyResponse? && c1.log.inbox == text && c1.failed == c.failed
  }

  /** The answer is decided: `text` grants the tunnel, or fills the buffer without granting it. */
  predicate Decided(c: Conn, c1: Conn, text: string) {
    if StrStr(text, TUNNEL_OK) then c1.state.TlsHandshake? && c1.received == 0 && c1.failed == c.failed
    else c1.state.Error? && c1.failed == c.failed + 1
  }

  lemma NotGrantedYet(e: Engine, cfg: Config, c: Conn)
    requires ConnInv(e, cfg, c) && c.state.ProxyResponse?
    ensures !StrStr(c.log.inbox, TUNNEL_OK) && |c.buffer| == CAP
  {
    hide StrStr, Zeros;
  }

  lemma TunnelUpState(c: Conn, io: Outcome)
    ensures var c1 := TunnelUp(c, io); c1.state.TlsHandshake? && c1.received == 0 && c1.failed == c.failed
  {
    hide Zeros;
  }

  lemma AnswerStep(e: Engine, cfg: Config, c: Conn, c1: Conn, steps: seq<Step>, tls: TlsSetup)
    requires steps != [] && ConnInv(e, cfg, c1) && StillWaiting(c, c1, TextAfter(steps, |steps| - 1))
    ensures var call := CallOf(steps[|steps| - 1], tls);
            && Shape(cfg, c1)
            && var c2 := Handle(e, cfg, c1, call.ev, call.io); var text := TextAfter(steps, |steps|);
               if Stops(steps, TUNNEL_OK, |steps|) then Decided(c, c2, text) else StillWaiting(c, c2, text)
  {
    hide ConnInv, Handle, Shape, StrStr, TextAfter, TunnelUp, Store;
    var call := CallOf(steps[|steps| - 1], tls);
    AnswerOne(e, cfg, c1, steps[|steps| - 1], tls);
    LastText(steps);
    NotGrantedYet(e, cfg, c1);
    var text := TextAfter(steps, |steps|);
    if |c1.log.inbox| < CAP - 1 {
      var got := text[|c1.log.inbox|..];
      StoreCounts(c1, got);
      TunnelUpState(Store(c1, got), call.io);
    }
  }

  /**
   The proxy's answer, however it is cut: awaited until a boundary stops it, and then the tunnel is up
   if that text holds the success phrase, and the attempt has failed if it fills the buffer without it.
   */
  lemma {:induction false} AnswerStopsFirst(e: Engine, cfg: Config, c: Conn, steps: seq<Step>, tls: TlsSetup)
    requires ConnInv(e, cfg, c) && c.state.ProxyResponse? && c.received == 0
    requires steps != [] ==> RunsThrough(steps, TUNNEL_OK, |steps| - 1)
    ensures var c1 := Calls(e, cfg, c, CallsOf(steps, tls)); var text := TextAfter(steps, |steps|);
            if Stops(steps, TUNNEL_OK, |steps|) then Decided(c, c1, text) else StillWaiting(c, c1, text)
  {
    hide ConnInv, Handle, Shape, StrStr, TextAfter, Decided;
    if steps == [] {
      NoAnswerYet(e, cfg, c);
    } else {
      var n := |steps| - 1;
      var init := steps[..n];
      PrefixStops(steps, TUNNEL_OK, n);
      assert n > 0 ==> RunsThrough(init, TUNNEL_OK, n - 1);
      AnswerStopsFirst(e, cfg, c, init, tls);
      CallsOfSplit(steps, tls);
      CallsAppend(e, cfg, c, CallsOf(init, tls), CallOf(steps[n], tls));
      assert !Stops(init, TUNNEL_OK, n);
      AnswerStep(e, cfg, c, Calls(e, cfg, c, CallsOf(init, tls)), steps, tls);
    }
  }

  lemma NoAnswerYet(e: Engine, cfg: Config, c: Conn)
    requires ConnInv(e, cfg, c) && c.received == 0 && c.state.ProxyResponse?
    ensures StillWaiting(c, c, TextAfter([], 0))
  {
  }
}
