/** The connection-notice limiter of onConnectionChange and the watchdog handle that connect and
    cleanupInternalState start and join under cleanup_mtx. */
module Notices {
  import opened Types

  const WINDOW_NS: nat := 5_000_000_000

  datatype Seen = Seen(connected: bool, error: ErrorCode)

  /** One call of onConnectionChange. */
  datatype Change = Change(now: Time, seen: Seen)

  /** One notice in the log, with the count of suppressed repeats it reports. */
  datatype Notice = Notice(seen: Seen, repeats: nat)

  /** The last emitted notice, if any, and the calls suppressed since. */
  datatype Limiter = Limiter(last: Option<Change>, suppressed: nat)

  /** A call is suppressed when it repeats the last notice within the window. */
  predicate Suppresses(l: Limiter, c: Change) {
    l.last.Some? && l.last.value.seen == c.seen && c.now - l.last.value.now < WINDOW_NS
  }

  class ConnectionLog {
    var hasLastConnectionLog: bool
    var lastConnectionState: bool
    var lastConnectionError: ErrorCode
    var lastConnectionLogTs: Time
    var suppressedConnectionNoticeCount: nat

    constructor ()
      ensures View() == Limiter(None, 0)
    {
      hasLastConnectionLog, lastConnectionState := false, false;
      lastConnectionError, lastConnectionLogTs, suppressedConnectionNoticeCount := ERR_NONE, 0, 0;
    }

    function View(): Limiter
      reads this
    {
      Limiter(if hasLastConnectionLog
              then Some(Change(lastConnectionLogTs, Seen(lastConnectionState, lastConnectionError)))
              else None,
              suppressedConnectionNoticeCount)
    }

    /** The locked block of onConnectionChange; `repeats` is reported when a notice is emitted. */
    method Record(now: Time, connected: bool, error: ErrorCode) returns (emitNotice: bool, repeats: nat)
      modifies this
      ensures var r := After(old(View()), Change(now, Seen(connected, error)));
              View() == r.0 && (if emitNotice then r.1 == [Notice(Seen(connected, error), repeats)] else r.1 == [])
    {
      var sameState := hasLastConnectionLog && connected == lastConnectionState && error == lastConnectionError;
      var windowElapsed := hasLastConnectionLog && now - lastConnectionLogTs >= WINDOW_NS;
      emitNotice := !sameState || !hasLastConnectionLog || windowElapsed;
      repeats := 0;
      if emitNotice {
        repeats := suppressedConnectionNoticeCount;
        suppressedConnectionNoticeCount := 0;
        hasLastConnectionLog := true;
        lastConnectionState := connected;
        lastConnectionError := error;
        lastConnectionLogTs := now;
      } else {
        suppressedConnectionNoticeCount := suppressedConnectionNoticeCount + 1;
      }
    }
  }

  function After(l: Limiter, c: Change): (Limiter, seq<Notice>) {
    if Suppresses(l, c) then (l.(suppressed := l.suppressed + 1), [])
    else (Limiter(Some(c), 0), [Notice(c.seen, l.suppressed)])
  }

  /** A sequence of calls from the initial state: the final state and the emitted notices. */
  function Log(cs: seq<Change>): (Limiter, seq<Notice>) {
    if cs == [] then (Limiter(None, 0), [])
    else
      var (l, out) := Log(cs[..|cs| - 1]);
      var (l', more) := After(l, cs[|cs| - 1]);
      (l', out + more)
  }

  function Repeat(x: Seen, n: nat): seq<Seen> { seq(n, i => x) }

  /** Reading the log back: each notice stands for itself and for the repeats that the next notice
      reports; `tail` is the count not reported yet. */
  function Decode(out: seq<Notice>, tail: nat): seq<Seen> {
    if out == [] then []
    else
      var n := |out| - 1;
      Decode(out[..n], out[n].repeats) + [out[n].seen] + Repeat(out[n].seen, tail)
  }

  function Observed(cs: seq<Change>): seq<Seen> { seq(|cs|, i requires 0 <= i < |cs| => cs[i].seen) }

  function SumRepeats(out: seq<Notice>): nat {
    if out == [] then 0 else SumRepeats(out[..|out| - 1]) + out[|out| - 1].repeats
  }

  ghost predicate LimiterInv(l: Limiter, out: seq<Notice>) {
    if l.last.None? then out == [] && l.suppressed == 0
    else out != [] && out[|out| - 1].seen == l.last.value.seen && out[0].repeats == 0
  }

  lemma DecodeRepeat(out: seq<Notice>, tail: nat)
    requires out != []
    ensures Decode(out, tail + 1) == Decode(out, tail) + [out[|out| - 1].seen]
  {
  }

  lemma DecodeNotice(out: seq<Notice>, n: Notice)
    ensures Decode(out + [n], 0) == Decode(out, n.repeats) + [n.seen]
  {
  }

  lemma LosslessStep(l: Limiter, out: seq<Notice>, c: Change)
    requires LimiterInv(l, out)
    ensures LimiterInv(After(l, c).0, out + After(l, c).1)
    ensures Decode(out + After(l, c).1, After(l, c).0.suppressed) == Decode(out, l.suppressed) + [c.seen]
  {
    if Suppresses(l, c) {
      assert out + [] == out;
      DecodeRepeat(out, l.suppressed);
    } else {
      DecodeNotice(out, Notice(c.seen, l.suppressed));
    }
  }

  /** Limiting loses nothing: the notices with their counts, and the count still pending, give back
      the observed sequence of states exactly. */
  lemma {:induction false} LogIsLossless(cs: seq<Change>)
    ensures LimiterInv(Log(cs).0, Log(cs).1)
    ensures Decode(Log(cs).1, Log(cs).0.suppressed) == Observed(cs)
  {
    if cs != [] {
      var n := |cs| - 1;
      LogIsLossless(cs[..n]);
      var (l, out) := Log(cs[..n]);
      assert Observed(cs) == Observed(cs[..n]) + [cs[n].seen];
      LosslessStep(l, out, cs[n]);
    }
  }

  lemma {:induction false} DecodeLength(out: seq<Notice>, tail: nat)
    requires out != [] && out[0].repeats == 0
    ensures |Decode(out, tail)| == |out| + SumRepeats(out) + tail
  {
    var n := |out| - 1;
    if n > 0 {
      DecodeLength(out[..n], out[n].repeats);
    } else {
      assert out[..0] == [];
    }
  }

  /** Every call is emitted, reported as a repeat, or still counted; and the recorded state is the
      last one observed. */
  lemma NoticeConservation(cs: seq<Change>)
    ensures |cs| == |Log(cs).1| + SumRepeats(Log(cs).1) + Log(cs).0.suppressed
    ensures cs != [] ==> Log(cs).0.last.Some? && Log(cs).0.last.value.seen == cs[|cs| - 1].seen
  {
    LogIsLossless(cs);
    if cs != [] {
      DecodeLength(Log(cs).1, Log(cs).0.suppressed);
    }
  }

  /** Call i adds a notice to the log. */
  predicate EmittedAt(cs: seq<Change>, i: nat)
    requires i < |cs|
  {
    Log(cs[..i + 1]).1 != Log(cs[..i]).1
  }

  /** The last call before i that was emitted is e. */
  ghost predicate LastEmission(cs: seq<Change>, i: nat, e: nat)
    requires i <= |cs|
  {
    e < i && EmittedAt(cs, e) && forall j :: e < j < i ==> !EmittedAt(cs, j)
  }

  lemma LogStep(cs: seq<Change>, i: nat)
    requires i < |cs|
    ensures var (l, out) := Log(cs[..i]);
            Log(cs[..i + 1]) == (After(l, cs[i]).0, out + After(l, cs[i]).1)
            && (EmittedAt(cs, i) <==> !Suppresses(l, cs[i]))
  {
    assert cs[..i + 1][..i] == cs[..i];
    assert Log(cs[..i]).1 + [] == Log(cs[..i]).1;
  }

  lemma {:induction false} LimiterRemembersEmission(cs: seq<Change>, i: nat) returns (e: nat)
    requires 0 < i <= |cs|
    ensures LastEmission(cs, i, e) && Log(cs[..i]).0.last == Some(cs[e])
  {
    LogStep(cs, i - 1);
    if EmittedAt(cs, i - 1) {
      e := i - 1;
    } else {
      e := LimiterRemembersEmission(cs, i - 1);
    }
  }

  /** Read off the calls alone: a call is left out exactly when it repeats the last emitted one less
      than five seconds after it. */
  lemma SuppressedExactlyWhen(cs: seq<Change>, i: nat)
    requires i < |cs|
    ensures !EmittedAt(cs, i) <==>
              exists e: nat :: LastEmission(cs, i, e) && cs[e].seen == cs[i].seen && cs[i].now - cs[e].now < WINDOW_NS
  {
    LogStep(cs, i);
    if i > 0 {
      var e := LimiterRemembersEmission(cs, i);
      assert forall d: nat :: LastEmission(cs, i, d) ==> d == e;
    } else {
      assert cs[..0] == [];
    }
  }

  // ----- the watchdog handle

  datatype Call = Connect | Cleanup

  /** `overwritten` counts assignments over a joinable handle, which would terminate the process. */
  datatype Watchdog = Watchdog(running: bool, joinable: bool, live: nat, overwritten: nat)

  /** One block under cleanup_mtx. */
  function Under(w: Watchdog, c: Call): Watchdog {
    match c
    case Connect =>
      if w.running then w
      else Watchdog(true, true, w.live + 1, if w.joinable then w.overwritten + 1 else w.overwritten)
    case Cleanup =>
      if !w.running then w
      // the loop ends once running is false, so the join returns
      else if w.joinable && w.live > 0 then Watchdog(false, false, w.live - 1, w.overwritten)
      else w.(running := false)
  }

  function AfterCalls(cs: seq<Call>): Watchdog {
    if cs == [] then Watchdog(false, false, 0, 0) else Under(AfterCalls(cs[..|cs| - 1]), cs[|cs| - 1])
  }

  /** Over every sequence of connects, server closes and disconnects the watchdog is running exactly
      after a connect; the flag and the handle agree, there is one watchdog exactly while the flag is
      set, and no handle is overwritten. */
  lemma {:induction false} WatchdogHandleConsistent(cs: seq<Call>)
    ensures AfterCalls(cs).running <==> cs != [] && cs[|cs| - 1] == Connect
    ensures AfterCalls(cs).running <==> AfterCalls(cs).joinable
    ensures AfterCalls(cs).live == (if AfterCalls(cs).running then 1 else 0)
    ensures AfterCalls(cs).overwritten == 0
  {
    if cs != [] {
      WatchdogHandleConsistent(cs[..|cs| - 1]);
    }
  }
}
