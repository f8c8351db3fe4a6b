/** What the display operations make of the text the device printed before
    the `#` prompt: the filtered section listings, the interface listing,
    the unfiltered captures of again.py, and Task2.py's startup/running
    comparison. Each takes the scripted outcome(s) of its expect call(s). */
module Reports {
  import opened Transport
  import opened Text
  import opened Catalog

  /** What a filtered display prints: the header and the kept lines, the
      "No ... configuration found." message, the timeout message (the
      `except pexpect.exceptions.TIMEOUT` branch), or the generic
      `Error: {e}` message. */
  datatype Display = Listed(lines: seq<string>) | NothingFound | TimedOut | Failed(e: Exc)

  /** The exception a single-pattern `expect('#')` raised, as the two
      `except` clauses of the display methods report it. */
  function Caught(e: Exc): Display
  {
    if e == TimeoutError then TimedOut else Failed(e)
  }

  /** The lines of `session.before` that the section displays keep. */
  function Kept(o: Outcome): seq<string>
  {
    Filtered(SplitLines(BeforeOf(o)))
  }

  /** advertise_ospf / advertise_eigrp (Luke.py, task3.py, final.py): after
      `show running-config | section X`, the single-pattern wait for `#`
      consumed outcome `o`. */
  function SectionReport(o: Outcome): Display
  {
    var r := ReplyTo(1, false, o);
    if r.Raised? then Caught(r.e)
    else if Kept(o) == [] then NothingFound
    else Listed(Kept(o))
  }

  /** show_ip_interface_brief (Luke.py, truths.py, task3.py, final.py): the
      header is always printed, then the kept lines that are relevant. */
  function InterfaceReport(o: Outcome): Display
  {
    var r := ReplyTo(1, false, o);
    if r.Raised? then Caught(r.e)
    else Listed(InterfaceLines(Kept(o)))
  }

  /** A section display prints "No ... configuration found." iff every line
      the device printed before `#` is blank; a timeout (or a prompt other
      than `#`) gives the timeout message and the end of the stream the
      generic error. */
  lemma SectionReportOutcome(o: Outcome)
    ensures var d := SectionReport(o);
      (d == TimedOut <==> !Prompted(o) && !o.Eof?) &&
      (d == Failed(EofError) <==> o.Eof?) &&
      !(d.Failed? && d.e != EofError) &&
      (d.Listed? || d == NothingFound <==> Prompted(o)) &&
      (d == NothingFound <==> Prompted(o) && forall i :: 0 <= i < |SplitLines(o.before)| ==> Blank(SplitLines(o.before)[i]))
  {
    match o
    case Match(k, before) =>
      if k == 0 {
        var raw := SplitLines(before);
        assert Kept(o) == Filtered(raw);
        assert SectionReport(o) == (if Filtered(raw) == [] then NothingFound else Listed(Filtered(raw)));
        FilteredEmpty(raw);
      }
    case Timeout =>
    case Eof =>
  }

  /** What a section display lists: exactly the stripped non-blank lines the
      device printed before `#`, in the order printed, each already stripped. */
  lemma SectionReportLines(o: Outcome)
    ensures var d := SectionReport(o);
      var raw := SplitLines(BeforeOf(o));
      d.Listed? ==>
        d.lines == Filtered(raw) && d.lines != [] &&
        (forall x :: x in d.lines <==> x != "" && StripsTo(raw, x)) &&
        (forall k :: 0 <= k < |d.lines| ==> Strip(d.lines[k]) == d.lines[k])
  {
    var raw := SplitLines(BeforeOf(o));
    if SectionReport(o).Listed? {
      assert SectionReport(o).lines == Filtered(raw);
      FilteredMembers(raw);
      FilteredClean(raw);
    }
  }

  /** The interface listing prints exactly the stripped non-blank lines that
      mention "Interface", "up" or "down", in order, and never the
      "nothing found" message. */
  lemma InterfaceReportSpec(o: Outcome)
    ensures var d := InterfaceReport(o);
      var raw := SplitLines(BeforeOf(o));
      d != NothingFound &&
      (d.Listed? <==> Prompted(o)) &&
      (d == TimedOut <==> !Prompted(o) && !o.Eof?) &&
      (d == Failed(EofError) <==> o.Eof?) &&
      !(d.Failed? && d.e != EofError) &&
      (d.Listed? ==>
         (forall x :: x in d.lines <==>
            x != "" && Relevant(x) && StripsTo(raw, x)) &&
         d.lines == InterfaceLines(Filtered(raw)) &&
         |d.lines| <= |Filtered(raw)|)
  {
    var raw := SplitLines(BeforeOf(o));
    if Prompted(o) {
      assert InterfaceReport(o) == Listed(InterfaceLines(Filtered(raw)));
      InterfaceListed(raw);
    } else {
      assert InterfaceReport(o) == Caught(ErrorOf(o));
    }
  }

  /** The selected interface lines of a capture are the stripped non-blank
      lines that are relevant, and there are no more of them than kept lines. */
  lemma InterfaceListed(raw: seq<string>)
    ensures var l := InterfaceLines(Filtered(raw));
      (forall x :: x in l <==> x != "" && Relevant(x) && StripsTo(raw, x)) &&
      |l| <= |Filtered(raw)|
  {
    FilteredMembers(raw);
    InterfaceLinesSpec(Filtered(raw));
  }

  /** What again.py's display methods print: the raw text before `#`, or
      the error message of the single `except Exception` clause. */
  datatype Capture = Captured(text: string) | CaptureFailed(e: Exc)

  function RawReport(o: Outcome): Capture
  {
    var r := ReplyTo(1, false, o);
    if r.Raised? then CaptureFailed(r.e) else Captured(BeforeOf(o))
  }

  /** again.py prints the captured text whole: every line the device printed
      before `#` is there, blank lines and surrounding whitespace included. */
  lemma RawReportSpec(o: Outcome)
    ensures var c := RawReport(o);
      (c.Captured? <==> Prompted(o)) &&
      (c.CaptureFailed? ==> c.e == ErrorOf(o)) &&
      (c.Captured? ==> c.text == o.before &&
                       Concat(SplitLines(c.text)) == RemoveBreaks(o.before))
  {
    if Prompted(o) {
      SplitLinesLossless(o.before);
    }
  }

  /** Task2.py's get_running_config: the text before `#`, or "" when the wait
      timed out or the stream ended. */
  function RunningConfigText(o: Outcome): string
  {
    if Prompted(o) then o.before else ""
  }

  /** What compare_with_startup_config_ssh hands to `unified_diff`: the
      startup and the running configuration, line by line; or the exception
      of the startup-config wait, which its `except` clauses report. */
  datatype Comparison = Compared(startup: seq<string>, running: seq<string>) | CompareFailed(e: Exc)

  datatype CompareRun = CompareRun(trace: seq<Event>, used: nat, result: Comparison)

  function Compare(s: seq<Outcome>): CompareRun
  {
    var r0 := ReplyTo(1, false, At(s, 0));
    var t0 := [Sent(ShowStartupConfig), Awaited([PrivilegedPrompt], r0)];
    if r0.Raised? then CompareRun(t0, 1, CompareFailed(r0.e))
    else
      var r1 := ReplyTo(1, false, At(s, 1));
      CompareRun(t0 + [Sent(ShowRunningConfig), Awaited([PrivilegedPrompt], r1)], 2,
                 Compared(SplitLines(BeforeOf(At(s, 0))), SplitLines(RunningConfigText(At(s, 1)))))
  }

  /** The startup configuration is requested before the running one; the
      running one is requested only if the startup listing reached `#`; a
      failure to read the running configuration does not stop the
      comparison, which then compares against no lines at all. */
  lemma CompareSpec(s: seq<Outcome>)
    ensures var c := Compare(s);
      Sends(c.trace) == [ShowStartupConfig, ShowRunningConfig][..c.used] &&
      (c.result.Compared? <==> Prompted(At(s, 0))) &&
      (c.result.CompareFailed? ==> c.used == 1 && c.result.e == ErrorOf(At(s, 0))) &&
      (c.result.Compared? ==>
         c.used == 2 &&
         c.result.startup == SplitLines(At(s, 0).before) &&
         (Prompted(At(s, 1)) ==> c.result.running == SplitLines(At(s, 1).before)) &&
         (!Prompted(At(s, 1)) ==> c.result.running == []))
  {
    var r0 := ReplyTo(1, false, At(s, 0));
    var t0 := [Sent(ShowStartupConfig), Awaited([PrivilegedPrompt], r0)];
    SendsAppend([Sent(ShowStartupConfig)], [Awaited([PrivilegedPrompt], r0)]);
    assert [Sent(ShowStartupConfig)] + [Awaited([PrivilegedPrompt], r0)] == t0;
    SendsOfSent(ShowStartupConfig);
    SendsOfAwaited([PrivilegedPrompt], r0);
    if !r0.Raised? {
      var r1 := ReplyTo(1, false, At(s, 1));
      var t1 := [Sent(ShowRunningConfig), Awaited([PrivilegedPrompt], r1)];
      SendsAppend([Sent(ShowRunningConfig)], [Awaited([PrivilegedPrompt], r1)]);
      assert [Sent(ShowRunningConfig)] + [Awaited([PrivilegedPrompt], r1)] == t1;
      SendsOfSent(ShowRunningConfig);
      SendsOfAwaited([PrivilegedPrompt], r1);
      SendsAppend(t0, t1);
    }
  }
}
