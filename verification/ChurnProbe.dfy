/**
 The notify churn probe, whose heartbeats the capture script watches: a loop of register, post,
 check and cancel calls that prints a heartbeat after every hundredth iteration, if it succeeded.
 The results of the library calls are inputs; the clock decides how many attempts there are.
 */
module ChurnProbe {
  import opened Decimal
  import opened HeartbeatScan
  import opened CaptureReader

  /** Which calls of one iteration would report NOTIFY_STATUS_OK. */
  datatype Attempt = Attempt(register: bool, post: bool, check: bool, cancel: bool)

  datatype Call = Register(ok: bool) | Post | Check | Cancel

  /** The probe's variables, what it printed, and the library calls it made. */
  datatype Churn = Churn(iter: nat, fails: nat, out: string, calls: seq<Call>)

  function StartLine(duration: int): string {
    "OP150_CHURN_START duration=" + SignedText(duration) + "\n"
  }

  function BeatLine(iter: nat, fails: nat): string {
    TOKEN + Text(iter) + " fails=" + Text(fails) + "\n"
  }

  function TerminalLine(iter: nat, fails: nat, duration: int): string {
    "OP150_CHURN_TERMINAL iter=" + Text(iter) + " fails=" + Text(fails) + " duration=" + SignedText(duration) + "\n"
  }

  predicate Success(a: Attempt) {
    a.register && a.post && a.check && a.cancel
  }

  /** The library calls of one iteration: failing early skips the rest, but never the cancel. */
  function CallsOf(a: Attempt): seq<Call> {
    if !a.register then [Register(false)]
    else if !a.post then [Register(true), Post, Cancel]
    else [Register(true), Post, Check, Cancel]
  }

  /** One loop iteration. */
  function Next(c: Churn, a: Attempt): Churn {
    var fails := if Success(a) then c.fails else c.fails + 1;
    Churn(c.iter + 1, fails,
          if Success(a) && (c.iter + 1) % 100 == 0 then c.out + BeatLine(c.iter + 1, fails) else c.out,
          c.calls + CallsOf(a))
  }

  /** The probe after the loop iterations of a script. */
  function After(duration: int, script: seq<Attempt>): Churn {
    if script == [] then Churn(0, 0, StartLine(duration), [])
    else Next(After(duration, script[..|script| - 1]), script[|script| - 1])
  }

  lemma AfterNone(duration: int)
    ensures After(duration, []) == Churn(0, 0, StartLine(duration), [])
  {
  }

  lemma AfterMore(duration: int, script: seq<Attempt>, k: nat)
    requires k < |script|
    ensures After(duration, script[..k + 1]) == Next(After(duration, script[..k]), script[k])
  {
    assert script[..k + 1][..k] == script[..k];
  }

  class Probe {
    var iter: nat
    var fails: nat
    var out: string
    var calls: seq<Call>

    constructor ()
      ensures iter == fails == 0 && out == "" && calls == []
    {
      iter, fails, out, calls := 0, 0, "", [];
    }

    function Now(): Churn
      reads this
    {
      Churn(iter, fails, out, calls)
    }

    method Run(duration: int, script: seq<Attempt>) returns (status: int)
      requires Now() == Churn(0, 0, "", [])
      modifies this
      ensures var c := After(duration, script);
              && Now() == c.(out := c.out + TerminalLine(c.iter, c.fails, duration))
              && status == if c.fails > 0 then 1 else 0
    {
      hide After, Next, TerminalLine, StartLine, BeatLine;
      out := out + StartLine(duration);
      AfterNone(duration);
      var k := 0;
      while k < |script|
        invariant k <= |script| && Now() == After(duration, script[..k])
      {
        Iterate(script[k]);
        AfterMore(duration, script, k);
        k := k + 1;
      }
      assert script[..|script|] == script;
      out := out + TerminalLine(iter, fails, duration);
      status := if fails > 0 then 1 else 0;
    }

    method Iterate(a: Attempt)
      modifies this
      ensures Now() == Next(old(Now()), a)
    {
      iter := iter + 1;
      calls := calls + [Register(a.register)];
      if !a.register { fails := fails + 1; return; }
      calls := calls + [Post];
      if !a.post { fails := fails + 1; calls := calls + [Cancel]; return; }
      calls := calls + [Check];
      if !a.check { fails := fails + 1; calls := calls + [Cancel]; return; }
      calls := calls + [Cancel];
      if !a.cancel { fails := fails + 1; return; }
      if iter % 100 == 0 {
        out := out + BeatLine(iter, fails);
      }
    }
  }

  // ---- accounting --------------------------------------------------------------------------------

  function Successes(script: seq<Attempt>): nat {
    if script == [] then 0
    else Successes(script[..|script| - 1]) + if Success(script[|script| - 1]) then 1 else 0
  }

  /** At every loop head each attempt has been counted as a failure or as a full success. */
  lemma {:induction false} EveryAttemptCounted(duration: int, script: seq<Attempt>)
    ensures var c := After(duration, script);
            c.iter == |script| == c.fails + Successes(script)
  {
    if script != [] {
      EveryAttemptCounted(duration, script[..|script| - 1]);
    }
  }

  /** How far the use of a registration has come; `Misused` once a call was out of place. */
  datatype Registration = Misused | Closed | Open | Posted | Checked

  /** A registration is posted to once, then checked at most once, then cancelled. */
  function Move(r: Registration, c: Call): Registration {
    match c
    case Register(ok) => if r != Closed then Misused else if ok then Open else Closed
    case Post => if r == Open then Posted else Misused
    case Check => if r == Posted then Checked else Misused
    case Cancel => if r == Posted || r == Checked then Closed else Misused
  }

  /** Replays library calls, allowing at most one registration at a time. */
  function Replay(calls: seq<Call>): Registration {
    if calls == [] then Closed else Move(Replay(calls[..|calls| - 1]), calls[|calls| - 1])
  }

  lemma ReplayOne(calls: seq<Call>, c: Call)
    ensures Replay(calls + [c]) == Move(Replay(calls), c)
  {
    assert (calls + [c])[..|calls|] == calls;
  }

  lemma ReplayTwo(calls: seq<Call>, c: Call, d: Call)
    ensures Replay(calls + [c, d]) == Move(Move(Replay(calls), c), d)
  {
    hide *;
    ReplayOne(calls, c);
    ReplayOne(calls + [c], d);
    assert calls + [c, d] == calls + [c] + [d];
  }

  lemma ReplayAttempt(calls: seq<Call>, a: Attempt)
    requires Replay(calls) == Closed
    ensures Replay(calls + CallsOf(a)) == Closed
  {
    hide Replay;
    if !a.register {
      ReplayOne(calls, Register(false));
    } else {
      ReplayTwo(calls, Register(true), Post);
      var r := calls + [Register(true), Post];
      if a.post {
        ReplayTwo(r, Check, Cancel);
        assert calls + CallsOf(a) == r + [Check, Cancel];
      } else {
        ReplayOne(r, Cancel);
        assert calls + CallsOf(a) == r + [Cancel];
      }
    }
  }

  /** Every successful registration is posted to, and gets exactly one cancel before the next registration. */
  lemma {:induction false} OneCancelEach(duration: int, script: seq<Attempt>)
    ensures Replay(After(duration, script).calls) == Closed
  {
    if script != [] {
      OneCancelEach(duration, script[..|script| - 1]);
      ReplayAttempt(After(duration, script[..|script| - 1]).calls, script[|script| - 1]);
    }
  }

  /** Attempts that register, and those that get as far as the check. */
  function Registered(script: seq<Attempt>): nat {
    if script == [] then 0 else Registered(script[..|script| - 1]) + if script[|script| - 1].register then 1 else 0
  }

  function Posting(script: seq<Attempt>): nat {
    if script == [] then 0
    else Posting(script[..|script| - 1]) + if script[|script| - 1].register && script[|script| - 1].post then 1 else 0
  }

  function Times(calls: seq<Call>, c: Call): nat {
    multiset(calls)[c]
  }

  lemma AfterCalls(duration: int, script: seq<Attempt>, a: Attempt)
    ensures After(duration, script + [a]).calls == After(duration, script).calls + CallsOf(a)
  {
    AfterMore(duration, script + [a], |script|);
    assert (script + [a])[..|script|] == script && (script + [a])[..|script| + 1] == script + [a];
  }

  lemma AttemptCounted(calls: seq<Call>, a: Attempt)
    ensures var more := calls + CallsOf(a); var once := if a.register then 1 else 0;
            && Times(more, Register(true)) == Times(calls, Register(true)) + once
            && Times(more, Post) == Times(calls, Post) + once && Times(more, Cancel) == Times(calls, Cancel) + once
            && Times(more, Register(false)) == Times(calls, Register(false)) + 1 - once
            && Times(more, Check) == Times(calls, Check) + if a.register && a.post then 1 else 0
  {
  }

  /** Each attempt tries to register; each registration posts and is cancelled; it is checked if the post worked. */
  ghost predicate CallsOfScript(calls: seq<Call>, script: seq<Attempt>) {
    && Times(calls, Register(true)) == Times(calls, Post) == Times(calls, Cancel) == Registered(script)
    && Times(calls, Register(false)) == |script| - Registered(script)
    && Times(calls, Check) == Posting(script)
  }

  lemma CallsOfMore(calls: seq<Call>, script: seq<Attempt>, a: Attempt)
    requires CallsOfScript(calls, script)
    ensures CallsOfScript(calls + CallsOf(a), script + [a])
  {
    AttemptCounted(calls, a);
    assert (script + [a])[..|script|] == script;
    hide Times, CallsOf;
  }

  lemma NoCalls(duration: int)
    ensures CallsOfScript(After(duration, []).calls, [])
  {
  }

  lemma {:induction false} CallsCounted(duration: int, script: seq<Attempt>)
    ensures CallsOfScript(After(duration, script).calls, script)
  {
    hide *;
    if script == [] {
      NoCalls(duration);
    } else {
      var init, a := script[..|script| - 1], script[|script| - 1];
      CallsCounted(duration, init);
      AfterCalls(duration, init, a);
      CallsOfMore(After(duration, init).calls, init, a);
      assert init + [a] == script;
    }
  }

  /** Some call of an attempt failed. */
  predicate Failed(a: Attempt) {
    !a.register || !a.post || !a.check || !a.cancel
  }

  function Failures(script: seq<Attempt>): nat {
    if script == [] then 0 else Failures(script[..|script| - 1]) + if Failed(script[|script| - 1]) then 1 else 0
  }

  /** The failure counter counts the attempts of which some call failed. */
  lemma {:induction false} FailuresCounted(duration: int, script: seq<Attempt>)
    ensures After(duration, script).fails == Failures(script)
    ensures Failures(script) > 0 <==> exists k :: 0 <= k < |script| && Failed(script[k])
  {
    if script != [] {
      FailuresCounted(duration, script[..|script| - 1]);
    }
  }

  // ---- the text and what a scan of it finds --------------------------------------------------------

  predicate NoO(s: string) {
    'O' !in s
  }

  lemma DigitsHaveNoO(n: int)
    ensures NoO(SignedText(n))
  {
    assert forall c | c in Text(if n < 0 then -n else n) :: IsDigit(c);
  }

  /** A token can only start where an O is. */
  lemma NoTokenWithoutO(s: string, i: int)
    requires 0 < |s| && NoO(s[1..]) && i != 0
    ensures !TokenAt(s, i)
  {
    if 0 < i < |s| {
      assert s[i] == s[1..][i - 1];
    }
    if TokenAt(s, i) {
      TokenByte(s, i, i);
    }
  }

  lemma OnlyStartOfBeat(iter: nat, fails: nat, i: int)
    requires i != 0
    ensures !TokenAt(BeatLine(iter, fails), i)
  {
    DigitsHaveNoO(iter);
    DigitsHaveNoO(fails);
    NoTokenWithoutO(BeatLine(iter, fails), i);
  }

  lemma BeatReadsBack(iter: nat, fails: nat)
    ensures TokenAt(BeatLine(iter, fails), 0)
    ensures TokenValue(BeatLine(iter, fails), 0) == iter
    ensures TokenEnd(BeatLine(iter, fails), 0) == |TOKEN| + |Text(iter)|
  {
    var d, rest := Text(iter), " fails=" + Text(fails) + "\n";
    assert BeatLine(iter, fails) == TOKEN + d + rest;
    TokenReadsBack(d, rest);
    ValueOfText(iter);
  }

  lemma TokenReadsBack(d: string, rest: string)
    requires AllDigits(d) && d != [] && rest != [] && !IsDigit(rest[0])
    ensures var s := TOKEN + d + rest;
            TokenAt(s, 0) && TokenEnd(s, 0) == |TOKEN| + |d| && TokenDigits(s, 0) == d
  {
    var s := TOKEN + d + rest;
    assert s[0..|TOKEN|] == TOKEN;
    assert forall j | |TOKEN| <= j < |TOKEN| + |d| :: s[j] == d[j - |TOKEN|];
    RunEndIs(s, |TOKEN| + 1, |TOKEN| + |d|);
    assert s[|TOKEN|..|TOKEN| + |d|] == d;
  }

  lemma {:induction false} RunEndIs(s: string, i: nat, e: nat)
    requires i <= e < |s| && !IsDigit(s[e])
    requires forall j | i <= j < e :: IsDigit(s[j])
    ensures RunEnd(s, i) == e
    decreases e - i
  {
    if i < e {
      RunEndIs(s, i + 1, e);
    }
  }

  /** The eleventh byte after the common start tells the line kinds apart. */
  lemma NoTokenAtStart(s: string)
    requires |s| > 12 && s[12] != 'H'
    ensures !TokenAt(s, 0)
  {
    if TokenAt(s, 0) {
      TokenByte(s, 0, 12);
    }
  }

  lemma NoTokenInStartLine(duration: int, i: int)
    ensures !TokenAt(StartLine(duration), i)
  {
    var s, d := StartLine(duration), SignedText(duration);
    DigitsHaveNoO(duration);
    assert s == "OP150_CHURN_START duration=" + d + "\n";
    if i != 0 {
      NoTokenWithoutO(s, i);
    } else {
      NoTokenAtStart(s);
    }
  }

  lemma NoOJoin(a: string, b: string)
    requires a != [] && NoO(a[1..]) && NoO(b)
    ensures NoO((a + b)[1..])
  {
    assert (a + b)[1..] == a[1..] + b;
  }

  lemma TerminalTail(iter: string, fails: string, duration: string)
    requires NoO(iter) && NoO(fails) && NoO(duration)
    ensures NoO(("OP150_CHURN_TERMINAL iter=" + iter + " fails=" + fails + " duration=" + duration + "\n")[1..])
  {
    var start := "OP150_CHURN_TERMINAL iter=";
    assert NoO(start[1..]) && NoO(" fails=") && NoO(" duration=") && NoO("\n");
    hide NoO;
    NoOJoin(start, iter);
    NoOJoin(start + iter, " fails=");
    NoOJoin(start + iter + " fails=", fails);
    NoOJoin(start + iter + " fails=" + fails, " duration=");
    NoOJoin(start + iter + " fails=" + fails + " duration=", duration);
    NoOJoin(start + iter + " fails=" + fails + " duration=" + duration, "\n");
  }

  lemma NoTokenInTerminalLine(duration: int, iter: nat, fails: nat, i: int)
    ensures !TokenAt(TerminalLine(iter, fails, duration), i)
  {
    if i != 0 {
      TerminalLater(duration, iter, fails, i);
    } else {
      NoTokenAtStart(TerminalLine(iter, fails, duration));
    }
  }

  lemma TerminalLater(duration: int, iter: nat, fails: nat, i: int)
    requires i != 0
    ensures !TokenAt(TerminalLine(iter, fails, duration), i)
  {
    hide NoO, TokenAt;
    DigitsHaveNoO(duration);
    DigitsHaveNoO(iter);
    DigitsHaveNoO(fails);
    TerminalTail(SignedText(iter), SignedText(fails), SignedText(duration));
    NoTokenWithoutO(TerminalLine(iter, fails, duration), i);
  }

  /** No token crosses a line end. */
  lemma TokenStopsAtLineEnd(s: string, i: int, n: nat)
    requires TokenAt(s, i) && i <= n < |s| && s[n] == '\n'
    ensures TokenEnd(s, i) <= n
  {
    if n < TokenEnd(s, i) {
      TokenByte(s, i, n);
    }
  }

  lemma TokensSplitAtLineEnd(a: string, b: string, i: int)
    requires a != [] && a[|a| - 1] == '\n'
    ensures TokenAt(a + b, i) == (TokenAt(a, i) || TokenAt(b, i - |a|))
    ensures TokenAt(a, i) ==> TokenValue(a + b, i) == TokenValue(a, i) && TokenEnd(a + b, i) == TokenEnd(a, i)
    ensures TokenAt(b, i - |a|) ==>
              TokenValue(a + b, i) == TokenValue(b, i - |a|) && TokenEnd(a + b, i) == TokenEnd(b, i - |a|) + |a|
  {
    var s := a + b;
    if i >= |a| {
      assert s[|a|..] == b;
      TokenInSuffix(s, |a|, i - |a|);
    } else {
      assert s[..|a|] == a;
      TokenInPrefix(s, |a|, i);
      if TokenAt(s, i) {
        assert s[|a| - 1] == '\n';
        TokenStopsAtLineEnd(s, i, |a| - 1);
        assert TokenDigits(a, i) == TokenDigits(s, i);
      }
    }
  }

  /** Iteration `k` (counted from 1) ends in a heartbeat. */
  predicate Beats(script: seq<Attempt>, k: nat) {
    0 < k <= |script| && k % 100 == 0 && Success(script[k - 1])
  }

  /** The complete output of a run. */
  function Output(duration: int, script: seq<Attempt>): string {
    var c := After(duration, script);
    c.out + TerminalLine(c.iter, c.fails, duration)
  }

  /** Every token of `s` is a heartbeat of the script. */
  ghost predicate OnlyBeats(s: string, script: seq<Attempt>) {
    forall i | TokenAt(s, i) :: BeatToken(s, script, i)
  }

  predicate BeatToken(s: string, script: seq<Attempt>, i: int)
    requires TokenAt(s, i)
  {
    Beats(script, TokenValue(s, i)) && TokenEnd(s, i) - i == |TOKEN| + |Text(TokenValue(s, i))|
  }

  /** And every heartbeat of the script is a token of `s`. */
  ghost predicate ShowsBeats(s: string, script: seq<Attempt>) {
    && OnlyBeats(s, script)
    && (forall k | Beats(script, k) :: exists i :: TokenAt(s, i) && TokenValue(s, i) == k)
  }

  lemma ShowsAppend(s: string, line: string, script: seq<Attempt>, script': seq<Attempt>)
    requires s != [] && s[|s| - 1] == '\n' && ShowsBeats(s, script)
    requires forall k | Beats(script, k) :: Beats(script', k)
    requires OnlyBeats(line, script')
    requires forall k | Beats(script', k) && !Beats(script, k) ::
               exists i :: TokenAt(line, i) && TokenValue(line, i) == k
    ensures ShowsBeats(s + line, script')
  {
    forall i | TokenAt(s + line, i) ensures BeatToken(s + line, script', i) {
      TokensSplitAtLineEnd(s, line, i);
    }
    forall k | Beats(script', k) ensures exists i :: TokenAt(s + line, i) && TokenValue(s + line, i) == k {
      if Beats(script, k) {
        var i :| TokenAt(s, i) && TokenValue(s, i) == k;
        TokensSplitAtLineEnd(s, line, i);
      } else {
        var i :| TokenAt(line, i) && TokenValue(line, i) == k;
        TokensSplitAtLineEnd(s, line, i + |s|);
      }
    }
  }

  /** Whole lines that show the beats of a script. */
  ghost predicate LinesShow(s: string, script: seq<Attempt>) {
    s != [] && s[|s| - 1] == '\n' && ShowsBeats(s, script)
  }

  lemma BeatShows(s: string, script: seq<Attempt>, a: Attempt, fails: nat)
    requires LinesShow(s, script)
    requires Success(a) && (|script| + 1) % 100 == 0
    ensures LinesShow(s + BeatLine(|script| + 1, fails), script + [a])
  {
    var line := BeatLine(|script| + 1, fails);
    forall i | i != 0 ensures !TokenAt(line, i) { OnlyStartOfBeat(|script| + 1, fails, i); }
    BeatReadsBack(|script| + 1, fails);
    ShowsAppend(s, line, script, script + [a]);
  }

  lemma NoBeatShows(s: string, script: seq<Attempt>, a: Attempt)
    requires LinesShow(s, script)
    requires !(Success(a) && (|script| + 1) % 100 == 0)
    ensures LinesShow(s, script + [a])
  {
    forall k: nat ensures Beats(script + [a], k) == Beats(script, k) {
      if 0 < k <= |script| {
        assert (script + [a])[k - 1] == script[k - 1];
      }
    }
  }

  lemma AfterOne(duration: int, script: seq<Attempt>, a: Attempt)
    ensures var c, d := After(duration, script), After(duration, script + [a]).out;
            if Success(a) && (|script| + 1) % 100 == 0 then d == c.out + BeatLine(|script| + 1, c.fails) else d == c.out
  {
    EveryAttemptCounted(duration, script);
    AfterMore(duration, script + [a], |script|);
    assert (script + [a])[..|script|] == script;
  }

  lemma StartShows(duration: int)
    ensures LinesShow(After(duration, []).out, [])
  {
    forall i ensures !TokenAt(StartLine(duration), i) { NoTokenInStartLine(duration, i); }
  }

  lemma {:induction false} AfterShowsBeats(duration: int, script: seq<Attempt>)
    ensures LinesShow(After(duration, script).out, script)
  {
    hide *;
    if script == [] {
      StartShows(duration);
    } else {
      var init, a := script[..|script| - 1], script[|script| - 1];
      var c := After(duration, init);
      AfterShowsBeats(duration, init);
      AfterOne(duration, init, a);
      assert init + [a] == script;
      if Success(a) && |script| % 100 == 0 {
        BeatShows(c.out, init, a, c.fails);
      } else {
        NoBeatShows(c.out, init, a);
      }
    }
  }

  lemma OutputShowsBeats(duration: int, script: seq<Attempt>)
    ensures ShowsBeats(Output(duration, script), script)
  {
    var c := After(duration, script);
    AfterShowsBeats(duration, script);
    forall i ensures !TokenAt(TerminalLine(c.iter, c.fails, duration), i) {
      NoTokenInTerminalLine(duration, c.iter, c.fails, i);
    }
    ShowsAppend(c.out, TerminalLine(c.iter, c.fails, duration), script, script);
  }

  /** The tokens of a prefix of such a text are beats, possibly still short of their last digits. */
  lemma BeatsInPrefix(all: string, script: seq<Attempt>, n: nat, i: int)
    requires OnlyBeats(all, script) && n <= |all| && TokenAt(all[..n], i)
    ensures TokenAt(all, i) && Beats(script, TokenValue(all, i))
    ensures TokenValue(all[..n], i) <= TokenValue(all, i)
    ensures TokenEnd(all[..n], i) - i <= |TOKEN| + |Text(TokenValue(all, i))|
  {
    TokenInPrefix(all, n, i);
  }

  lemma LargeScanNeedsBeat(all: string, script: seq<Attempt>, n: nat) returns (i: int)
    requires OnlyBeats(all, script) && n <= |all| && ScanMax(all[..n]) >= 380
    ensures TokenAt(all[..n], i) && TokenAt(all, i) && TokenValue(all, i) >= 400
  {
    i := ScanMaxWitness(all[..n]);
    BeatsInPrefix(all, script, n, i);
  }

  /** The reader's window is large enough for every beat. */
  lemma ReaderSeesBeats(all: string, script: seq<Attempt>, chunks: seq<string>)
    requires |script| < 0x8000_0000
    requires OnlyBeats(all, script) && Concat(chunks) <= all
    ensures Received(chunks).last == ScanMax(Concat(chunks))
  {
    var got := Concat(chunks);
    assert all[..|got|] == got;
    forall i | TokenAt(got, i) ensures TokenLength(got, i) <= WINDOW + 1 {
      BeatsInPrefix(all, script, |got|, i);
      TextOfInt(TokenValue(all, i));
    }
    assert chunks[..|chunks|] == chunks;
    WindowRefinesScan(chunks, |chunks|);
  }

  /**
   Producer and reader together, at any moment of any reception of the probe's output: the gate of
   380 is open only if a heartbeat of at least 400 has begun to arrive.
   */
  lemma GateNeedsBeat(duration: int, script: seq<Attempt>, chunks: seq<string>) returns (i: int)
    requires |script| < 0x8000_0000
    requires Concat(chunks) <= Output(duration, script)
    requires Received(chunks).last >= 380
    ensures TokenAt(Concat(chunks), i) && TokenAt(Output(duration, script), i)
    ensures TokenValue(Output(duration, script), i) >= 400
  {
    var all := Output(duration, script);
    OutputShowsBeats(duration, script);
    ReaderSeesBeats(all, script, chunks);
    assert all[..|Concat(chunks)|] == Concat(chunks);
    i := LargeScanNeedsBeat(all, script, |Concat(chunks)|);
  }

  lemma BeatArrived(all: string, script: seq<Attempt>, n: nat, i: int)
    requires OnlyBeats(all, script) && n <= |all| && TokenAt(all, i) && TokenEnd(all, i) <= n
    ensures TokenValue(all, i) % 100 == 0 && TokenValue(all, i) <= ScanMax(all[..n])
  {
    TokenInPrefix(all, n, i);
    assert TokenDigits(all[..n], i) == TokenDigits(all, i);
    ScanMaxBound(all[..n], i);
  }

  lemma ArrivedBeatOpensGate(all: string, script: seq<Attempt>, chunks: seq<string>, i: int)
    requires |script| < 0x8000_0000
    requires OnlyBeats(all, script) && Concat(chunks) <= all
    requires TokenAt(all, i) && TokenValue(all, i) >= 380 && TokenEnd(all, i) <= |Concat(chunks)|
    ensures Received(chunks).last >= TokenValue(all, i) >= 400
  {
    hide *;
    ReaderSeesBeats(all, script, chunks);
    assert all[..|Concat(chunks)|] == Concat(chunks);
    BeatArrived(all, script, |Concat(chunks)|, i);
  }

  /** Conversely the gate is open once a heartbeat past it has arrived completely. */
  lemma BeatOpensGate(duration: int, script: seq<Attempt>, chunks: seq<string>, i: int)
    requires |script| < 0x8000_0000
    requires Concat(chunks) <= Output(duration, script)
    requires TokenAt(Output(duration, script), i) && TokenValue(Output(duration, script), i) >= 380
    requires TokenEnd(Output(duration, script), i) <= |Concat(chunks)|
    ensures Received(chunks).last >= TokenValue(Output(duration, script), i) >= 400
  {
    OutputShowsBeats(duration, script);
    ArrivedBeatOpensGate(Output(duration, script), script, chunks, i);
  }
}
