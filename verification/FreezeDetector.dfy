/**
 The freeze detector: a loop that polls the reader every five seconds and decides between a real
 freeze, a probe that died below the gate, and running out of time. Every chunk the reader
 processes and every poll is one atomic event of a trace with a monotone clock.
 */
module FreezeDetector {
  import opened HeartbeatScan
  import opened CaptureReader

  const ITER_GATE: nat := 380
  const ITER_STALL: real := 120.0
  const ABANDON_STALL: real := 300.0
  const POLL_PERIOD: real := 5.0

  datatype Event = Chunk(at: real, data: string) | Poll(at: real)

  datatype Outcome = Watching | Freeze(at: real) | Abandon(at: real) | Timeout(at: real)

  /** What one poll at time `now` concludes. */
  function Decide(v: View, start: real, maxWait: real, now: real): Outcome {
    if now - start >= maxWait then Timeout(now)
    else if v.last >= ITER_GATE && now - v.at > ITER_STALL then Freeze(now)
    else if 0 < v.last < ITER_GATE && now - v.at > ABANDON_STALL then Abandon(now)
    else Watching
  }

  /** The reader's view after all events of a trace. */
  function ViewAfter(v0: View, events: seq<Event>): View {
    if events == [] then v0
    else
      var v := ViewAfter(v0, events[..|events| - 1]);
      match events[|events| - 1]
      case Chunk(at, data) => Fed(v, data, at)
      case Poll(_) => v
  }

  /** The verdict of the first poll that reaches one. */
  function Verdict(v0: View, events: seq<Event>, start: real, maxWait: real): Outcome {
    if events == [] then Watching
    else
      var init := events[..|events| - 1];
      var sofar := Verdict(v0, init, start, maxWait);
      if sofar != Watching || events[|events| - 1].Chunk? then sofar
      else Decide(ViewAfter(v0, init), start, maxWait, events[|events| - 1].at)
  }

  /** The capture: reader thread and polling loop over one shared `Reader`. */
  method Watch(reader: Reader, events: seq<Event>, start: real, maxWait: real) returns (outcome: Outcome)
    modifies reader
    ensures outcome == Verdict(old(reader.Now()), events, start, maxWait)
  {
    outcome := Watching;
    var k := 0;
    while k < |events| && outcome == Watching
      invariant k <= |events|
      invariant outcome == Verdict(old(reader.Now()), events[..k], start, maxWait)
      invariant outcome == Watching ==> reader.Now() == ViewAfter(old(reader.Now()), events[..k])
    {
      assert events[..k + 1][..k] == events[..k];
      match events[k] {
        case Chunk(at, data) => reader.Feed(data, at);
        case Poll(at) =>
          if at - start >= maxWait {
            outcome := Timeout(at);
          } else if reader.lastIter >= ITER_GATE && at - reader.lastIterAt > ITER_STALL {
            outcome := Freeze(at);
          } else if 0 < reader.lastIter < ITER_GATE && at - reader.lastIterAt > ABANDON_STALL {
            outcome := Abandon(at);
          }
      }
      k := k + 1;
    }
    VerdictSticks(old(reader.Now()), events, k, start, maxWait);
    assert events[..|events|] == events;
  }

  // ---- traces ----------------------------------------------------------------------------------

  /** Everything the reader has received. */
  function Bytes(events: seq<Event>): string {
    if events == [] then ""
    else Bytes(events[..|events| - 1]) +
         match events[|events| - 1] case Chunk(_, data) => data case Poll(_) => ""
  }

  /** The clock never runs backwards. */
  ghost predicate Monotone(events: seq<Event>) {
    forall i, j | 0 <= i < j < |events| :: events[i].at <= events[j].at
  }

  /** No heartbeat is longer than the reader's window and one byte. */
  ghost predicate ShortTokens(s: string) {
    forall i | TokenAt(s, i) :: TokenLength(s, i) <= WINDOW + 1
  }

  lemma {:induction false} VerdictSticks(v0: View, events: seq<Event>, k: nat, start: real, maxWait: real)
    requires k <= |events| && (k == |events| || Verdict(v0, events[..k], start, maxWait) != Watching)
    ensures Verdict(v0, events, start, maxWait) == Verdict(v0, events[..k], start, maxWait)
  {
    if k < |events| {
      var init := events[..|events| - 1];
      assert init[..k] == events[..k];
      VerdictSticks(v0, init, k, start, maxWait);
    } else {
      assert events[..k] == events;
    }
  }

  lemma {:induction false} ViewIsFaithful(t0: real, events: seq<Event>)
    ensures Faithful(Bytes(events), ViewAfter(View("", 0, t0), events))
  {
    if events != [] {
      var init := events[..|events| - 1];
      ViewIsFaithful(t0, init);
      match events[|events| - 1]
      case Chunk(at, data) => FedFaithful(Bytes(init), ViewAfter(View("", 0, t0), init), data, at);
      case Poll(_) => assert Bytes(events) == Bytes(init);
    }
  }

  /** The time stamp marks the last rise: later events leave the maximum alone. */
  lemma {:induction false} NoRiseSince(v0: View, events: seq<Event>, k: nat)
    requires k <= |events| && Monotone(events)
    requires forall e | e in events :: v0.at <= e.at
    ensures ViewAfter(v0, events[..k]).last <= ViewAfter(v0, events).last
    ensures k < |events| ==> ViewAfter(v0, events).at <= events[|events| - 1].at
    ensures (k == |events| || ViewAfter(v0, events).at < events[k].at) ==>
              ViewAfter(v0, events[..k]) == ViewAfter(v0, events).(buf := ViewAfter(v0, events[..k]).buf)
  {
    if k < |events| {
      var init := events[..|events| - 1];
      assert init[..k] == events[..k];
      NoRiseSince(v0, init, k);
      FloorBound(ViewAfter(v0, init), events[|events| - 1]);
      if k < |init| {
        assert init[|init| - 1].at <= events[|events| - 1].at;
      } else {
        StampBound(v0, init, events[|events| - 1].at);
      }
    } else {
      assert events[..k] == events;
    }
  }

  lemma FloorBound(v: View, e: Event)
    ensures e.Chunk? ==> v.last <= Fed(v, e.data, e.at).last
  {
    if e.Chunk? {
      FindAllBound(v.buf + e.data, v.last, 0);
    }
  }

  lemma {:induction false} StampBound(v0: View, events: seq<Event>, now: real)
    requires v0.at <= now && forall e | e in events :: e.at <= now
    ensures ViewAfter(v0, events).at <= now
  {
    if events != [] {
      StampBound(v0, events[..|events| - 1], now);
    }
  }

  /** A verdict other than `Watching` was reached by some poll. */
  lemma {:induction false} DecidingPoll(v0: View, events: seq<Event>, start: real, maxWait: real) returns (k: nat)
    requires Verdict(v0, events, start, maxWait) != Watching
    ensures k < |events| && events[k].Poll?
    ensures Verdict(v0, events[..k], start, maxWait) == Watching
    ensures Verdict(v0, events, start, maxWait) == Decide(ViewAfter(v0, events[..k]), start, maxWait, events[k].at)
  {
    var init := events[..|events| - 1];
    if Verdict(v0, init, start, maxWait) == Watching {
      k := |init|;
    } else {
      k := DecidingPoll(v0, init, start, maxWait);
      assert init[..k] == events[..k];
    }
  }

  // ---- what a verdict means ----------------------------------------------------------------------

  /** The stream maximum as known when event `j` happens. */
  function MaxBefore(events: seq<Event>, j: nat): nat
    requires j <= |events|
  {
    ScanMax(Bytes(events[..j]))
  }

  /** Event `j - 1` lifts the stream's maximum. */
  ghost predicate Rises(events: seq<Event>, j: nat) {
    0 < j <= |events| && MaxBefore(events, j - 1) < MaxBefore(events, j)
  }

  /** At event `k` the stream's maximum has not risen for some time: the last rise is longer ago. */
  ghost predicate QuietFor(events: seq<Event>, k: nat, stall: real)
    requires k < |events|
  {
    forall j | 0 < j <= k && Rises(events, j) :: events[k].at - events[j - 1].at > stall
  }

  lemma RiseStep(t0: real, events: seq<Event>, k: nat)
    requires 0 < k <= |events| && ShortTokens(Bytes(events))
    ensures MaxBefore(events, k - 1) <= MaxBefore(events, k)
    ensures ViewAfter(View("", 0, t0), events[..k]).at
            == if Rises(events, k) then events[k - 1].at else ViewAfter(View("", 0, t0), events[..k - 1]).at
  {
    hide ShortTokens, MaxBefore, Bytes;
    ViewIsMax(t0, events, k);
    ViewIsMax(t0, events, k - 1);
    assert events[..k][..k - 1] == events[..k - 1];
    FloorBound(ViewAfter(View("", 0, t0), events[..k - 1]), events[k - 1]);
  }

  /** Once there is a heartbeat the time stamp is that of the last rise. */
  lemma {:induction false} StampIsLastRise(t0: real, events: seq<Event>, k: nat, x: real)
    requires k <= |events| && Monotone(events) && ShortTokens(Bytes(events)) && MaxBefore(events, k) > 0
    ensures ViewAfter(View("", 0, t0), events[..k]).at < x
            <==> forall j | 0 < j <= k && Rises(events, j) :: events[j - 1].at < x
  {
    hide ShortTokens, ViewAfter;
    NoneBefore(events);
    hide MaxBefore;
    RiseStep(t0, events, k);
    if !Rises(events, k) {
      StampIsLastRise(t0, events, k - 1, x);
    }
  }

  lemma NoneBefore(events: seq<Event>)
    ensures MaxBefore(events, 0) == 0
  {
  }

  /**
   What a poll concludes while the detector watches, by the stream alone: each of the three verdicts if
   and only if its condition holds, and otherwise none.
   */
  lemma PollDecides(t0: real, events: seq<Event>, k: nat, start: real, maxWait: real)
    requires Monotone(events) && ShortTokens(Bytes(events)) && k < |events| && events[k].Poll?
    requires Verdict(View("", 0, t0), events[..k], start, maxWait) == Watching
    ensures var out, now, max := Verdict(View("", 0, t0), events[..k + 1], start, maxWait), events[k].at, MaxBefore(events, k);
            && (out == Timeout(now) <==> now - start >= maxWait)
            && (out == Freeze(now) <==> now - start < maxWait && max >= 380 && QuietFor(events, k, 120.0))
            && (out == Abandon(now) <==> now - start < maxWait && 0 < max < 380 && QuietFor(events, k, 300.0))
            && (out in {Watching, Timeout(now), Freeze(now), Abandon(now)})
  {
    hide Verdict, ViewAfter, MaxBefore, ShortTokens, Monotone, Rises;
    VerdictStep(View("", 0, t0), events, k + 1, start, maxWait);
    ViewIsMax(t0, events, k);
    if MaxBefore(events, k) > 0 {
      StampIsLastRise(t0, events, k, events[k].at - 120.0);
      StampIsLastRise(t0, events, k, events[k].at - 300.0);
    }
  }

  /** A run is only abandoned for a stall of over 300 s below the gate, before time is up. */
  lemma AbandonSound(t0: real, events: seq<Event>, start: real, maxWait: real) returns (k: nat)
    requires Monotone(events) && ShortTokens(Bytes(events))
    requires Verdict(View("", 0, t0), events, start, maxWait).Abandon?
    ensures k < |events| && events[k] == Poll(Verdict(View("", 0, t0), events, start, maxWait).at)
    ensures 0 < MaxBefore(events, k) < 380 && events[k].at - start < maxWait
    ensures forall j | 0 < j <= k && Rises(events, j) :: events[k].at - events[j - 1].at > 300.0
  {
    hide Verdict, MaxBefore, ShortTokens, Monotone, Rises;
    k := DecidedAt(View("", 0, t0), events, start, maxWait);
    PollDecides(t0, events, k, start, maxWait);
  }

  /** Time is only said to be up by a poll at or past the limit. */
  lemma TimeoutSound(v0: View, events: seq<Event>, start: real, maxWait: real) returns (k: nat)
    requires Verdict(v0, events, start, maxWait).Timeout?
    ensures k < |events| && events[k] == Poll(Verdict(v0, events, start, maxWait).at) && events[k].at - start >= maxWait
  {
    k := DecidingPoll(v0, events, start, maxWait);
  }

  lemma DecidedAt(v0: View, events: seq<Event>, start: real, maxWait: real) returns (k: nat)
    requires Verdict(v0, events, start, maxWait) != Watching
    ensures k < |events| && events[k] == Poll(Verdict(v0, events, start, maxWait).at)
    ensures Verdict(v0, events[..k], start, maxWait) == Watching
    ensures Verdict(v0, events[..k + 1], start, maxWait) == Verdict(v0, events, start, maxWait)
  {
    k := DecidingPoll(v0, events, start, maxWait);
    VerdictStep(v0, events, k + 1, start, maxWait);
  }

  /**
   A declared freeze is real: by then a heartbeat of at least the gate is in the stream, time is
   left, and since over 120 s before the poll no event has raised the stream's maximum.
   */
  lemma FreezeSound(t0: real, events: seq<Event>, start: real, maxWait: real) returns (k: nat)
    requires Monotone(events) && ShortTokens(Bytes(events))
    requires forall e | e in events :: t0 <= e.at
    requires Verdict(View("", 0, t0), events, start, maxWait).Freeze?
    ensures k < |events| && events[k] == Poll(Verdict(View("", 0, t0), events, start, maxWait).at)
    ensures MaxBefore(events, k) >= ITER_GATE && events[k].at - start < maxWait
    ensures forall j | 0 <= j <= k && events[j].at >= events[k].at - ITER_STALL ::
              MaxBefore(events, j) == MaxBefore(events, k)
  {
    var v0 := View("", 0, t0);
    k := DecidingPoll(v0, events, start, maxWait);
    var pre := events[..k];
    ViewIsMax(t0, events, k);
    forall j | 0 <= j <= k && events[j].at >= events[k].at - ITER_STALL
      ensures MaxBefore(events, j) == MaxBefore(events, k)
    {
      ViewIsMax(t0, events, j);
      assert pre[..j] == events[..j];
      NoRiseSince(v0, pre, j);
    }
  }

  lemma ViewIsMax(t0: real, events: seq<Event>, k: nat)
    requires k <= |events| && ShortTokens(Bytes(events))
    ensures ViewAfter(View("", 0, t0), events[..k]).last == MaxBefore(events, k)
  {
    var s, t := Bytes(events), Bytes(events[..k]);
    BytesPrefix(events, k);
    ViewIsFaithful(t0, events[..k]);
    if ScanMax(t) != 0 {
      var i := ScanMaxWitness(t);
      TokenInPrefix(s, |t|, i);
    }
  }

  lemma {:induction false} BytesPrefix(events: seq<Event>, k: nat)
    requires k <= |events|
    ensures |Bytes(events[..k])| <= |Bytes(events)| && Bytes(events[..k]) == Bytes(events)[..|Bytes(events[..k])|]
  {
    if k < |events| {
      var init := events[..|events| - 1];
      BytesPrefix(init, k);
      assert init[..k] == events[..k];
    } else {
      assert events[..k] == events;
    }
  }

  /**
   Serial silence is never mistaken for a freeze: while the stream's maximum stays below the gate,
   whatever the token lengths, the only verdicts are abandoning and running out of time, and a
   stream without heartbeats is never abandoned either.
   */
  lemma NoFreezeBelowGate(t0: real, events: seq<Event>, start: real, maxWait: real)
    requires ScanMax(Bytes(events)) < ITER_GATE
    ensures !Verdict(View("", 0, t0), events, start, maxWait).Freeze?
    ensures ScanMax(Bytes(events)) == 0 ==> !Verdict(View("", 0, t0), events, start, maxWait).Abandon?
  {
    if Verdict(View("", 0, t0), events, start, maxWait) != Watching {
      var k := DecidingPoll(View("", 0, t0), events, start, maxWait);
      ViewIsFaithful(t0, events[..k]);
      BytesPrefix(events, k);
      ScanMaxMonotone(Bytes(events), |Bytes(events[..k])|);
    }
  }

  /** Polls keep coming: from time `from` on, every period inside the trace contains one. */
  ghost predicate PolledFrom(events: seq<Event>, from: real, until: real) {
    forall x: real | from <= x && x + POLL_PERIOD <= until :: PollWithin(events, x)
  }

  ghost predicate PollWithin(events: seq<Event>, x: real) {
    exists k :: 0 <= k < |events| && events[k].Poll? && x < events[k].at <= x + POLL_PERIOD
  }

  /** Event `j - 1` lifts the stream's maximum, and nothing lifts it again. */
  ghost predicate StallsFrom(events: seq<Event>, j: nat) {
    && 0 < j <= |events|
    && MaxBefore(events, j - 1) < MaxBefore(events, j) == MaxBefore(events, |events|)
  }

  /** How long a maximum must stand before it is called a stall. */
  function StallOf(max: nat): real {
    if max >= ITER_GATE then ITER_STALL else ABANDON_STALL
  }

  /** A stall is declared: past the gate as a freeze, below it by abandoning. */
  predicate Declares(out: Outcome, max: nat, limit: real) {
    && (if max >= ITER_GATE then out.Freeze? else out.Abandon?)
    && limit < out.at <= limit + POLL_PERIOD
  }

  /**
   A persisting stall is declared within one poll period of the threshold, if the detector was
   still watching when it began and the time limit lies beyond that period.
   */
  lemma StallDeclared(t0: real, events: seq<Event>, j: nat, start: real, maxWait: real, until: real)
    requires Monotone(events) && ShortTokens(Bytes(events)) && StallsFrom(events, j) && MaxBefore(events, j) >= 380
    requires Verdict(View("", 0, t0), events[..j], start, maxWait) == Watching
    requires var limit := events[j - 1].at + 120.0;
             && limit + POLL_PERIOD <= until
             && limit + POLL_PERIOD < start + maxWait
             && PolledFrom(events, limit, until)
    ensures var limit := events[j - 1].at + 120.0;
            var out := Verdict(View("", 0, t0), events, start, maxWait);
            out.Freeze? && limit < out.at <= limit + POLL_PERIOD
  {
    hide Verdict, StallsFrom, ShortTokens, MaxBefore;
    StallEnds(t0, events, j, start, maxWait, until);
  }

  /** Below the gate it is abandoned, in the same way, after 300 s. */
  lemma AbandonDeclared(t0: real, events: seq<Event>, j: nat, start: real, maxWait: real, until: real)
    requires Monotone(events) && ShortTokens(Bytes(events)) && StallsFrom(events, j) && MaxBefore(events, j) < 380
    requires Verdict(View("", 0, t0), events[..j], start, maxWait) == Watching
    requires var limit := events[j - 1].at + 300.0;
             && limit + POLL_PERIOD <= until
             && limit + POLL_PERIOD < start + maxWait
             && PolledFrom(events, limit, until)
    ensures var limit := events[j - 1].at + 300.0;
            var out := Verdict(View("", 0, t0), events, start, maxWait);
            out.Abandon? && limit < out.at <= limit + POLL_PERIOD
  {
    hide Verdict, StallsFrom, ShortTokens, MaxBefore;
    StallEnds(t0, events, j, start, maxWait, until);
  }

  lemma StallEnds(t0: real, events: seq<Event>, j: nat, start: real, maxWait: real, until: real)
    requires Monotone(events) && ShortTokens(Bytes(events)) && StallsFrom(events, j)
    requires Verdict(View("", 0, t0), events[..j], start, maxWait) == Watching
    requires var limit := events[j - 1].at + StallOf(MaxBefore(events, j));
             limit + POLL_PERIOD <= until && limit + POLL_PERIOD < start + maxWait && PolledFrom(events, limit, until)
    ensures var limit := events[j - 1].at + StallOf(MaxBefore(events, j));
            Declares(Verdict(View("", 0, t0), events, start, maxWait), MaxBefore(events, j), limit)
  {
    hide Verdict, ShortTokens, MaxBefore, StallOf, Declares;
    var limit := events[j - 1].at + StallOf(MaxBefore(events, j));
    assert PollWithin(events, limit);
    var p :| 0 <= p < |events| && events[p].Poll? && limit < events[p].at <= limit + POLL_PERIOD;
    PollDeclares(t0, events, j, start, maxWait, p);
  }

  lemma PollDeclares(t0: real, events: seq<Event>, j: nat, start: real, maxWait: real, p: nat)
    requires Monotone(events) && ShortTokens(Bytes(events)) && StallsFrom(events, j)
    requires Verdict(View("", 0, t0), events[..j], start, maxWait) == Watching
    requires p < |events| && events[p].Poll?
    requires var limit := events[j - 1].at + StallOf(MaxBefore(events, j));
             limit + POLL_PERIOD < start + maxWait && limit < events[p].at <= limit + POLL_PERIOD
    ensures var limit := events[j - 1].at + StallOf(MaxBefore(events, j));
            Declares(Verdict(View("", 0, t0), events, start, maxWait), MaxBefore(events, j), limit)
  {
    hide Bytes, ShortTokens, ViewAfter, Verdict, MaxBefore;
    assert j <= p;
    StalledVerdict(t0, events, j, start, maxWait, p + 1);
    VerdictSticks(View("", 0, t0), events, p + 1, start, maxWait);
  }

  /** During a stall the reader keeps its maximum and the time at which it last rose. */
  lemma {:induction false} StalledView(t0: real, events: seq<Event>, j: nat, k: nat)
    requires ShortTokens(Bytes(events)) && StallsFrom(events, j) && j <= k <= |events|
    ensures ViewAfter(View("", 0, t0), events[..k]).last == MaxBefore(events, j)
    ensures ViewAfter(View("", 0, t0), events[..k]).at == events[j - 1].at
  {
    ViewIsMax(t0, events, k);
    ViewIsMax(t0, events, k - 1);
    assert events[..k][..k - 1] == events[..k - 1];
    if j < k {
      StalledView(t0, events, j, k - 1);
      assert events[..|events|] == events;
      BytesPrefix(events, k);
      BytesPrefix(events[..k], k - 1);
      ScanMaxMonotone(Bytes(events), |Bytes(events[..k])|);
      ScanMaxMonotone(Bytes(events[..k]), |Bytes(events[..k - 1])|);
    }
  }

  /** One more event: an earlier verdict stands, a chunk decides nothing, a poll decides on the view. */
  lemma VerdictStep(v0: View, events: seq<Event>, k: nat, start: real, maxWait: real)
    requires 0 < k <= |events|
    ensures Verdict(v0, events[..k], start, maxWait) ==
            if Verdict(v0, events[..k - 1], start, maxWait) != Watching || events[k - 1].Chunk?
            then Verdict(v0, events[..k - 1], start, maxWait)
            else Decide(ViewAfter(v0, events[..k - 1]), start, maxWait, events[k - 1].at)
  {
    assert events[..k][..k - 1] == events[..k - 1];
  }

  /** During a stall the detector still watches, or has declared it past the limit. */
  lemma {:induction false} StalledVerdict(t0: real, events: seq<Event>, j: nat, start: real, maxWait: real, k: nat)
    requires Monotone(events) && ShortTokens(Bytes(events)) && StallsFrom(events, j) && j <= k <= |events|
    requires Verdict(View("", 0, t0), events[..j], start, maxWait) == Watching
    requires var limit := events[j - 1].at + StallOf(MaxBefore(events, j));
             limit + POLL_PERIOD < start + maxWait && events[k - 1].at <= limit + POLL_PERIOD
    ensures var limit := events[j - 1].at + StallOf(MaxBefore(events, j));
            var out := Verdict(View("", 0, t0), events[..k], start, maxWait);
            || (out == Watching && !(j < k && events[k - 1].Poll? && events[k - 1].at > limit))
            || Declares(out, MaxBefore(events, j), limit)
  {
    hide Verdict, ViewAfter, MaxBefore, ShortTokens;
    if j < k {
      assert events[k - 2].at <= events[k - 1].at;
      StalledVerdict(t0, events, j, start, maxWait, k - 1);
      var v := ViewAfter(View("", 0, t0), events[..k - 1]);
      assert v.last == MaxBefore(events, j) > 0 && v.at == events[j - 1].at by {
        StalledView(t0, events, j, k - 1);
      }
      VerdictStep(View("", 0, t0), events, k, start, maxWait);
    }
  }

  /** Every run ends: a poll at or past the time limit leaves no run undecided. */
  lemma EveryRunEnds(v0: View, events: seq<Event>, start: real, maxWait: real, k: nat)
    requires k < |events| && events[k].Poll? && events[k].at - start >= maxWait
    ensures Verdict(v0, events, start, maxWait) != Watching
  {
    assert events[..k + 1][..k] == events[..k];
    VerdictSticks(v0, events, k + 1, start, maxWait);
  }
}
