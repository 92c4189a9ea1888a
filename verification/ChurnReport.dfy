/** What a reader of the churn probe's output learns from its last line and from its heartbeats. */
module ChurnReport {
  import opened Decimal
  import opened HeartbeatScan
  import opened ChurnProbe

  /** The parts of a line between single spaces. */
  function Fields(s: string): (fs: seq<string>)
    ensures |fs| > 0
  {
    if s == [] then [""]
    else
      var fs := Fields(s[1..]);
      if s[0] == ' ' then [""] + fs else [[s[0]] + fs[0]] + fs[1..]
  }

  lemma {:induction false} FieldsOf(a: string, rest: string)
    requires ' ' !in a
    ensures Fields(a + " " + rest) == [a] + Fields(rest)
    ensures Fields(a) == [a]
  {
    if a == [] {
      assert a + " " + rest == " " + rest;
      assert (" " + rest)[1..] == rest;
    } else {
      FieldsOf(a[1..], rest);
      assert (a + " " + rest)[1..] == a[1..] + " " + rest;
      assert [a[0]] + a[1..] == a;
    }
  }

  /** A field holds a number after its name. */
  ghost predicate Says(field: string, name: string, n: nat) {
    name <= field && AllDigits(field[|name|..]) && field != name && Value(field[|name|..]) == n
  }

  lemma TextSays(name: string, n: nat)
    ensures Says(name + Text(n), name, n)
  {
    assert (name + Text(n))[|name|..] == Text(n);
    ValueOfText(n);
  }

  lemma NoSpaceInText(n: nat)
    ensures ' ' !in Text(n)
  {
    assert AllDigits(Text(n));
  }

  /** Three fields: a word and two numbers. */
  lemma ThreeFields(word: string, iter: nat, fails: nat)
    requires ' ' !in word
    ensures var fs := Fields(word + " iter=" + Text(iter) + " fails=" + Text(fails));
            fs == [word, "iter=" + Text(iter), "fails=" + Text(fails)]
            && Says(fs[1], "iter=", iter) && Says(fs[2], "fails=", fails)
  {
    NoSpaceInText(iter);
    NoSpaceInText(fails);
    TextSays("iter=", iter);
    TextSays("fails=", fails);
    hide Says, Text, Fields;
    var i, f := "iter=" + Text(iter), "fails=" + Text(fails);
    FieldsOf(f, "");
    FieldsOf(i, f);
    FieldsOf(word, i + " " + f);
    assert word + " iter=" + Text(iter) + " fails=" + Text(fails) == word + " " + (i + " " + f);
  }

  /** A field holds a signed number after its name. */
  ghost predicate SaysSigned(field: string, name: string, n: int) {
    if n < 0 then Says(field, name + "-", -n) else Says(field, name, n)
  }

  lemma DurationSays(n: int)
    ensures SaysSigned("duration=" + SignedText(n), "duration=", n) && ' ' !in SignedText(n)
  {
    var m: nat := if n < 0 then -n else n;
    NoSpaceInText(m);
    TextSays("duration=", m);
    TextSays("duration=-", m);
    assert "duration=" + ("-" + Text(m)) == "duration=-" + Text(m);
    assert "duration=" + "-" == "duration=-";
  }

  lemma {:induction false} FieldsSnoc(a: string, b: string)
    requires ' ' !in b
    ensures Fields(a + " " + b) == Fields(a) + [b]
  {
    if a == [] {
      assert a + " " + b == " " + b && (" " + b)[1..] == b;
      FieldsOf(b, "");
    } else {
      FieldsSnoc(a[1..], b);
      assert (a + " " + b)[1..] == a[1..] + " " + b;
    }
  }

  lemma OutEndsLine(duration: int, script: seq<Attempt>)
    ensures var out := After(duration, script).out; out != [] && out[|out| - 1] == '\n'
  {
    AfterShowsBeats(duration, script);
  }

  lemma TerminalFields(iter: nat, fails: nat, duration: int) returns (line: string)
    ensures TerminalLine(iter, fails, duration) == line + "\n"
    ensures var fs := Fields(line);
            && |fs| == 4 && fs[0] == "OP150_CHURN_TERMINAL"
            && Says(fs[1], "iter=", iter) && Says(fs[2], "fails=", fails) && SaysSigned(fs[3], "duration=", duration)
  {
    ThreeFields("OP150_CHURN_TERMINAL", iter, fails);
    DurationSays(duration);
    TerminalText(iter, fails, duration);
    NoSpaceIn("duration=", SignedText(duration));
    hide *;
    var d := "duration=" + SignedText(duration);
    var first := "OP150_CHURN_TERMINAL" + " iter=" + Text(iter) + " fails=" + Text(fails);
    line := first + " " + d;
    FieldsSnoc(first, d);
  }

  /**
   The last line of every run's output gives the number of attempts, the number of those of which some call
   failed, and the duration.
   */
  lemma TerminalCounts(duration: int, script: seq<Attempt>) returns (head: string, line: string)
    ensures Output(duration, script) == head + line + "\n" && head != [] && head[|head| - 1] == '\n'
    ensures var fs := Fields(line);
            && |fs| == 4 && fs[0] == "OP150_CHURN_TERMINAL"
            && Says(fs[1], "iter=", |script|) && Says(fs[2], "fails=", Failures(script)) && SaysSigned(fs[3], "duration=", duration)
  {
    hide *;
    FailuresCounted(duration, script);
    OutEndsLine(duration, script);
    OutputIs(duration, script);
    line := TerminalFields(|script|, Failures(script), duration);
    head := After(duration, script).out;
    Joined(head, line);
  }

  lemma Joined(head: string, line: string)
    ensures head + (line + "\n") == head + line + "\n"
  {
  }

  lemma OutputIs(duration: int, script: seq<Attempt>)
    ensures Output(duration, script)
            == After(duration, script).out + TerminalLine(|script|, After(duration, script).fails, duration)
  {
    EveryAttemptCounted(duration, script);
  }

  lemma NoSpaceIn(a: string, b: string)
    requires ' ' !in a && ' ' !in b
    ensures ' ' !in a + b
  {
  }

  lemma TerminalText(iter: nat, fails: nat, duration: int)
    ensures TerminalLine(iter, fails, duration)
            == "OP150_CHURN_TERMINAL" + " iter=" + Text(iter) + " fails=" + Text(fails) + " " + ("duration=" + SignedText(duration)) + "\n"
  {
    hide Text, SignedText;
    var s := "OP150_CHURN_TERMINAL iter=" + Text(iter) + " fails=" + Text(fails);
    assert "OP150_CHURN_TERMINAL" + " iter=" == "OP150_CHURN_TERMINAL iter=";
    assert " " + "duration=" == " duration=";
    assert s + " " + ("duration=" + SignedText(duration)) == s + " duration=" + SignedText(duration);
  }

  lemma BeatText(iter: nat, fails: nat)
    ensures BeatLine(iter, fails) == "OP150_CHURN_HB" + " iter=" + Text(iter) + " fails=" + Text(fails) + "\n"
  {
    hide Text;
    assert "OP150_CHURN_HB" + " iter=" == TOKEN;
  }

  lemma {:induction false} OutGrows(duration: int, script: seq<Attempt>, k: nat)
    requires k <= |script|
    ensures After(duration, script[..k]).out <= After(duration, script).out
  {
    if k < |script| {
      var init := script[..|script| - 1];
      OutGrows(duration, init, k);
      assert init[..k] == script[..k];
      AfterOne(duration, init, script[|script| - 1]);
      assert init + [script[|script| - 1]] == script;
    } else {
      assert script[..k] == script;
    }
  }

  lemma BeatWritten(duration: int, script: seq<Attempt>, k: nat)
    requires Beats(script, k)
    ensures After(duration, script[..k]).out == After(duration, script[..k - 1]).out + BeatLine(k, Failures(script[..k]))
  {
    var init, a := script[..k - 1], script[k - 1];
    assert script[..k] == init + [a];
    AfterOne(duration, init, a);
    FailuresCounted(duration, init);
    assert (init + [a])[..k - 1] == init;
  }

  lemma BeatFields(iter: nat, fails: nat) returns (line: string)
    ensures BeatLine(iter, fails) == line + "\n"
    ensures var fs := Fields(line);
            |fs| == 3 && fs[0] == "OP150_CHURN_HB" && Says(fs[1], "iter=", iter) && Says(fs[2], "fails=", fails)
  {
    ThreeFields("OP150_CHURN_HB", iter, fails);
    BeatText(iter, fails);
    hide *;
    line := "OP150_CHURN_HB" + " iter=" + Text(iter) + " fails=" + Text(fails);
  }

  /** Every heartbeat stands on a line of its own that gives the attempts and the failures so far. */
  lemma BeatCounts(duration: int, script: seq<Attempt>, k: nat) returns (head: string, line: string)
    requires Beats(script, k)
    ensures head + line + "\n" <= Output(duration, script) && head != [] && head[|head| - 1] == '\n'
    ensures var fs := Fields(line);
            |fs| == 3 && fs[0] == "OP150_CHURN_HB" && Says(fs[1], "iter=", k) && Says(fs[2], "fails=", Failures(script[..k]))
  {
    hide Says, Fields, After, Failures, Output, TerminalLine, BeatLine;
    BeatWritten(duration, script, k);
    OutEndsLine(duration, script[..k - 1]);
    OutGrows(duration, script, k);
    OutputIs(duration, script);
    line := BeatFields(k, Failures(script[..k]));
    head := After(duration, script[..k - 1]).out;
    Joined(head, line);
  }
}
