/** The shape shared by every configuration operation of the scripts: a fixed,
    ordered list of commands, each written only after the prompt awaited
    after the previous one matched, inside one `try` block so that the first
    single-pattern expect that raises aborts everything after it. */
module Steps {
  import opened Transport

  /** Write `command`, then wait (single-pattern form) for `prompt`. */
  datatype Step = Step(command: string, prompt: Pattern)

  /** How a run of steps ended: every prompt seen, or the exception raised
      by the expect of step `step`, caught by the surrounding `except`. */
  datatype PlanStatus = Done | Aborted(step: nat, e: Exc)

  /** The conversation a run produces, the number of scripted outcomes it
      consumed, and how it ended. */
  datatype PlanRun = PlanRun(trace: seq<Event>, used: nat, status: PlanStatus)

  /** The commands of a plan, in order. */
  function Commands(plan: seq<Step>): seq<string>
  {
    seq(|plan|, i requires 0 <= i < |plan| => plan[i].command)
  }

  /** Write one step's command and wait for its prompt, with reply `r`. */
  function Exchange(s: Step, r: Reply): seq<Event>
  {
    [Sent(s.command), Awaited([s.prompt], r)]
  }

  /** The conversation of steps whose prompts all matched. */
  function Matched(steps: seq<Step>): seq<Event>
  {
    if steps == [] then [] else Exchange(steps[0], Index(0)) + Matched(steps[1..])
  }

  function Shift(s: PlanStatus): PlanStatus
  {
    if s.Aborted? then Aborted(s.step + 1, s.e) else s
  }

  /** Running `plan` against the device's scripted outcomes. */
  function RunPlan(plan: seq<Step>, script: seq<Outcome>): (r: PlanRun)
    ensures r.used == (if r.status.Done? then |plan| else r.status.step + 1)
    ensures r.status.Aborted? ==> r.status.step < |plan|
    decreases |plan|
  {
    if plan == [] then PlanRun([], 0, Done)
    else
      var reply := ReplyTo(1, false, At(script, 0));
      if reply.Raised? then PlanRun(Exchange(plan[0], reply), 1, Aborted(0, reply.e))
      else
        var tail := RunPlan(plan[1..], Drop(script, 1));
        PlanRun(Exchange(plan[0], reply) + tail.trace, 1 + tail.used, Shift(tail.status))
  }

  lemma {:induction false} MatchedSnoc(plan: seq<Step>, i: nat)
    requires i < |plan|
    ensures Matched(plan[..i + 1]) == Matched(plan[..i]) + Exchange(plan[i], Index(0))
  {
    if i == 0 {
      assert plan[..1][1..] == [];
    } else {
      assert plan[..i + 1][0] == plan[..i][0] == plan[0];
      assert plan[..i + 1][1..] == plan[1..][..i];
      assert plan[..i][1..] == plan[1..][..i - 1];
      MatchedSnoc(plan[1..], i - 1);
    }
  }

  /** Writing one more step's command and awaiting its prompt extends the
      conversation by that step's exchange. */
  lemma ExchangeAppend(t: seq<Event>, m: seq<Event>, s: Step, r: Reply)
    ensures t + m + [Sent(s.command)] + [Awaited([s.prompt], r)] == t + (m + Exchange(s, r))
  {
  }

  lemma PromptedSnoc(script: seq<Outcome>, k: nat)
    requires forall j :: 0 <= j < k ==> Prompted(At(script, j))
    requires Prompted(At(script, k))
    ensures forall j :: 0 <= j < k + 1 ==> Prompted(At(script, j))
  {
  }

  lemma PromptedDrop(script: seq<Outcome>, k: nat)
    requires k > 0 && forall j :: 0 <= j < k ==> Prompted(At(script, j))
    ensures forall j :: 0 <= j < k - 1 ==> Prompted(At(Drop(script, 1), j))
  {
    forall j | 0 <= j < k - 1 ensures Prompted(At(Drop(script, 1), j)) {
      assert Prompted(At(script, j + 1));
    }
  }

  /** The whole conversation of a run, given the first step whose prompt did
      not appear (or `|plan|` when they all did): every step before it was
      written and its prompt matched, that step was written and its expect
      raised, and nothing after it was written. */
  lemma {:induction false} RunPlanClosedForm(plan: seq<Step>, script: seq<Outcome>, k: nat)
    requires k <= |plan|
    requires forall j :: 0 <= j < k ==> Prompted(At(script, j))
    requires k < |plan| ==> !Prompted(At(script, k))
    ensures RunPlan(plan, script) ==
      if k == |plan| then PlanRun(Matched(plan), k, Done)
      else PlanRun(Matched(plan[..k]) + Exchange(plan[k], Raised(ErrorOf(At(script, k)))),
                   k + 1, Aborted(k, ErrorOf(At(script, k))))
  {
    if plan != [] && k > 0 {
      var rest := Drop(script, 1);
      PromptedDrop(script, k);
      RunPlanClosedForm(plan[1..], rest, k - 1);
      assert plan[..k][0] == plan[0];
      assert plan[..k][1..] == plan[1..][..k - 1];
      if k == |plan| {
        assert plan[..k] == plan;
      } else {
        assert plan[1..][k - 1] == plan[k];
      }
    } else if plan != [] {
      assert plan[..0] == [];
    }
  }

  /** A run writes exactly the commands of the steps it reached, in plan
      order; it completes iff every awaited prompt matched, and otherwise
      stops at the first step whose prompt did not appear, with the
      exception that step's expect raised. */
  lemma RunPlanWrites(plan: seq<Step>, script: seq<Outcome>)
    ensures Sends(RunPlan(plan, script).trace) == Commands(plan)[..RunPlan(plan, script).used]
    ensures RunPlan(plan, script).status.Done? <==>
              forall j :: 0 <= j < |plan| ==> Prompted(At(script, j))
    ensures RunPlan(plan, script).status.Aborted? ==>
              var k := RunPlan(plan, script).status.step;
              (forall j :: 0 <= j < k ==> Prompted(At(script, j))) &&
              !Prompted(At(script, k)) &&
              RunPlan(plan, script).status.e == ErrorOf(At(script, k))
  {
    RunPlanSends(plan, script);
    RunPlanStops(plan, script);
  }

  lemma CommandsCons(plan: seq<Step>)
    requires plan != []
    ensures Commands(plan) == [plan[0].command] + Commands(plan[1..])
  {
    assert Commands(plan)[1..] == Commands(plan[1..]);
  }

  lemma PrefixCons<T>(x: T, xs: seq<T>, u: nat)
    requires u <= |xs|
    ensures ([x] + xs)[..1 + u] == [x] + xs[..u]
  {
  }

  /** What a run writes: the commands of the steps it reached. */
  lemma {:induction false} RunPlanSends(plan: seq<Step>, script: seq<Outcome>)
    ensures Sends(RunPlan(plan, script).trace) == Commands(plan)[..RunPlan(plan, script).used]
    decreases |plan|
  {
    if plan != [] {
      var reply := ReplyTo(1, false, At(script, 0));
      var head := Exchange(plan[0], reply);
      assert Sends(head) == [plan[0].command] by {
        SendsAppend([Sent(plan[0].command)], [Awaited([plan[0].prompt], reply)]);
        SendsOfSent(plan[0].command);
        SendsOfAwaited([plan[0].prompt], reply);
      }
      if !reply.Raised? {
        var rest := Drop(script, 1);
        var tail := RunPlan(plan[1..], rest);
        RunPlanSends(plan[1..], rest);
        calc {
          Sends(RunPlan(plan, script).trace);
          Sends(head + tail.trace);
          { SendsAppend(head, tail.trace); }
          [plan[0].command] + Commands(plan[1..])[..tail.used];
          { PrefixCons(plan[0].command, Commands(plan[1..]), tail.used); }
          ([plan[0].command] + Commands(plan[1..]))[..1 + tail.used];
          { CommandsCons(plan); }
          Commands(plan)[..1 + tail.used];
        }
      } else {
        assert Commands(plan)[..1] == [plan[0].command];
      }
    }
  }

  /** Where a run stops: at the first step whose prompt did not appear, with
      that step's exception, or nowhere when every prompt appeared. */
  lemma {:induction false} RunPlanStops(plan: seq<Step>, script: seq<Outcome>)
    ensures RunPlan(plan, script).status.Done? <==>
              forall j :: 0 <= j < |plan| ==> Prompted(At(script, j))
    ensures RunPlan(plan, script).status.Aborted? ==>
              var k := RunPlan(plan, script).status.step;
              (forall j :: 0 <= j < k ==> Prompted(At(script, j))) &&
              !Prompted(At(script, k)) &&
              RunPlan(plan, script).status.e == ErrorOf(At(script, k))
    decreases |plan|
  {
    if plan != [] {
      var reply := ReplyTo(1, false, At(script, 0));
      if !reply.Raised? {
        var rest := Drop(script, 1);
        var tail := RunPlan(plan[1..], rest);
        RunPlanStops(plan[1..], rest);
        if tail.status.Done? {
          forall j | 0 <= j < |plan| ensures Prompted(At(script, j)) {
            if j > 0 { assert At(rest, j - 1) == At(script, j); }
          }
        } else {
          forall j | 0 <= j < tail.status.step + 1 ensures Prompted(At(script, j)) {
            if j > 0 { assert At(rest, j - 1) == At(script, j); }
          }
          assert At(rest, tail.status.step) == At(script, tail.status.step + 1);
        }
      }
    }
  }

  /** The conversation of matched steps alternates: the command of step j,
      then the wait for that step's prompt, answered with index 0. */
  lemma {:induction false} MatchedAt(steps: seq<Step>)
    ensures |Matched(steps)| == 2 * |steps|
    ensures forall j :: 0 <= j < |steps| ==>
              Matched(steps)[2 * j] == Sent(steps[j].command) &&
              Matched(steps)[2 * j + 1] == Awaited([steps[j].prompt], Index(0))
  {
    if steps != [] {
      MatchedAt(steps[1..]);
      var m := Matched(steps);
      var rest := Matched(steps[1..]);
      assert m == Exchange(steps[0], Index(0)) + rest;
      forall j | 0 <= j < |steps|
        ensures m[2 * j] == Sent(steps[j].command) && m[2 * j + 1] == Awaited([steps[j].prompt], Index(0))
      {
        if j > 0 {
          assert m[2 * j] == rest[2 * (j - 1)];
          assert m[2 * j + 1] == rest[2 * (j - 1) + 1];
          assert steps[j] == steps[1..][j - 1];
        }
      }
    }
  }

  /** Every step a run reaches is written and then waited for with its own
      prompt, in plan order: the reply is index 0 for every step but an
      aborting last one, whose reply is the exception. So no command is
      written unless the prompt of the step before it matched. */
  lemma RunPlanGated(plan: seq<Step>, script: seq<Outcome>)
    ensures var r := RunPlan(plan, script);
      |r.trace| == 2 * r.used &&
      forall j :: 0 <= j < r.used ==>
        r.trace[2 * j] == Sent(plan[j].command) &&
        r.trace[2 * j + 1] == Awaited([plan[j].prompt],
                                      if r.status.Aborted? && j == r.status.step then Raised(r.status.e) else Index(0))
  {
    var r := RunPlan(plan, script);
    RunPlanWrites(plan, script);
    if r.status.Done? {
      RunPlanClosedForm(plan, script, |plan|);
      MatchedAt(plan);
    } else {
      var k := r.status.step;
      RunPlanClosedForm(plan, script, k);
      MatchedAt(plan[..k]);
      var m := Matched(plan[..k]);
      assert r.trace == m + Exchange(plan[k], Raised(r.status.e));
      forall j | 0 <= j < r.used
        ensures r.trace[2 * j] == Sent(plan[j].command) &&
                r.trace[2 * j + 1] == Awaited([plan[j].prompt], if j == k then Raised(r.status.e) else Index(0))
      {
        if j < k {
          assert plan[..k][j] == plan[j];
          assert r.trace[2 * j] == m[2 * j];
          assert r.trace[2 * j + 1] == m[2 * j + 1];
        }
      }
    }
  }
}
