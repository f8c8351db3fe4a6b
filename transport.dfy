/** The console transport as the driver sees it through pexpect: lines are
    written with `sendline`, and `expect` waits for one of a list of prompts.
    Process spawning, regular-expression matching and wall-clock timeouts are
    not modelled: the device is a scripted oracle that says, for each expect
    call in turn, which pattern matched (and the text before it), or that the
    wait timed out, or that the stream ended. */
module Transport {

  /** The prompts the driver waits for, as opaque identifiers. The comment
      gives the pattern text the scripts pass to pexpect. */
  datatype Pattern =
    | PasswordPrompt                   // 'Password:'
    | UserPrompt                       // '>'
    | PrivilegedPrompt                 // '#'
    | ConfigPrompt                     // r'\(config\)#'
    | InterfacePrompt                  // r'\(config-if\)#'
    | RouterPrompt                     // r'\(config-router\)#'
    | HostConfigPrompt(hostname: string) // rf'{hostname}\(config\)#'

  /** What the device produces in answer to the next expect call: the
      pattern at `index` of the caller's list matched after the text
      `before`, or nothing matched within the wait, or the stream closed.
      An index past the end of the caller's list means that the device
      printed something none of the patterns match, so the wait times out. */
  datatype Outcome = Match(index: nat, before: string) | Timeout | Eof

  /** Exceptions that reach the scripts: pexpect's TIMEOUT and EOF, and the
      AttributeError of calling a method the class does not define. */
  datatype Exc = TimeoutError | EofError | AttributeError

  /** What an expect call gives back: the index of what matched, or the
      exception it raised. */
  datatype Reply = Index(i: nat) | Raised(e: Exc)

  /** One step of the conversation with the device. */
  datatype Event = Sent(line: string) | Awaited(patterns: seq<Pattern>, reply: Reply)

  /** The k-th scripted outcome; once the script is used up the stream has ended. */
  function At(script: seq<Outcome>, k: nat): Outcome
  {
    if k < |script| then script[k] else Eof
  }

  /** The script left after k outcomes were consumed. */
  function Drop(script: seq<Outcome>, k: nat): (rest: seq<Outcome>)
    ensures forall j: nat :: At(rest, j) == At(script, k + j)
  {
    if k <= |script| then script[k..] else []
  }

  lemma DropDrop(script: seq<Outcome>, i: nat, j: nat)
    ensures Drop(Drop(script, i), j) == Drop(script, i + j)
  {
  }

  /** The first pattern of the caller's list matched. */
  predicate Prompted(o: Outcome)
  {
    o.Match? && o.index == 0
  }

  /** `session.before` after the expect call that consumed `o`. */
  function BeforeOf(o: Outcome): string
  {
    if o.Match? then o.before else ""
  }

  /** The exception a single-pattern expect raises when `o` is not a match. */
  function ErrorOf(o: Outcome): Exc
  {
    if o.Eof? then EofError else TimeoutError
  }

  /** pexpect's `expect` over `count` patterns. In list form
      (`[p0, ..., TIMEOUT, EOF]`) a timeout returns index `count` and the end
      of the stream index `count + 1`; in single-pattern form both raise. */
  function ReplyTo(count: nat, catchesTimeoutEof: bool, o: Outcome): (r: Reply)
    requires count >= 1
    ensures r == Index(0) <==> Prompted(o)
    ensures r.Raised? <==> !catchesTimeoutEof && !(o.Match? && o.index < count)
    ensures r.Raised? ==> r.e == ErrorOf(o)
    ensures o.Match? && o.index < count ==> r == Index(o.index)
    ensures catchesTimeoutEof && o.Match? && o.index >= count ==> r == Index(count)
    ensures r.Index? ==> r.i < count + (if catchesTimeoutEof then 2 else 0)
    ensures catchesTimeoutEof && o.Timeout? ==> r == Index(count)
    ensures catchesTimeoutEof && o.Eof? ==> r == Index(count + 1)
  {
    match o
    case Match(i, _) =>
      if i < count then Index(i)
      else if catchesTimeoutEof then Index(count)
      else Raised(TimeoutError)
    case Timeout => if catchesTimeoutEof then Index(count) else Raised(TimeoutError)
    case Eof => if catchesTimeoutEof then Index(count + 1) else Raised(EofError)
  }

  /** The lines written to the device, in order. */
  function Sends(trace: seq<Event>): (lines: seq<string>)
    ensures |lines| <= |trace|
  {
    if trace == [] then []
    else (if trace[0].Sent? then [trace[0].line] else []) + Sends(trace[1..])
  }

  lemma {:induction false} SendsAppend(a: seq<Event>, b: seq<Event>)
    ensures Sends(a + b) == Sends(a) + Sends(b)
  {
    if a == [] {
      assert a + b == b;
    } else {
      var head := if a[0].Sent? then [a[0].line] else [];
      assert (a + b)[0] == a[0];
      assert (a + b)[1..] == a[1..] + b;
      SendsAppend(a[1..], b);
      calc {
        Sends(a + b);
        head + Sends(a[1..] + b);
        head + (Sends(a[1..]) + Sends(b));
        (head + Sends(a[1..])) + Sends(b);
        Sends(a) + Sends(b);
      }
    }
  }

  lemma SendsOfSent(line: string)
    ensures Sends([Sent(line)]) == [line]
  {
    assert [Sent(line)][1..] == [];
  }

  lemma SendsOfAwaited(patterns: seq<Pattern>, r: Reply)
    ensures Sends([Awaited(patterns, r)]) == []
  {
    assert [Awaited(patterns, r)][1..] == [];
  }

  /** pexpect.spawn: the session object the scripts keep in `self.session`. */
  class Spawn {
    var trace: seq<Event>
    var script: seq<Outcome>
    var before: string

    constructor (device: seq<Outcome>)
      ensures trace == [] && script == device && before == ""
    {
      trace := [];
      script := device;
      before := "";
    }

    method SendLine(line: string)
      modifies this
      ensures trace == old(trace) + [Sent(line)]
      ensures script == old(script) && before == old(before)
    {
      trace := trace + [Sent(line)];
    }

    method Expect(patterns: seq<Pattern>, catchesTimeoutEof: bool) returns (r: Reply)
      requires |patterns| >= 1
      modifies this
      ensures r == ReplyTo(|patterns|, catchesTimeoutEof, At(old(script), 0))
      ensures trace == old(trace) + [Awaited(patterns, r)]
      ensures script == Drop(old(script), 1)
      ensures before == BeforeOf(At(old(script), 0))
    {
      var o := At(script, 0);
      r := ReplyTo(|patterns|, catchesTimeoutEof, o);
      before := BeforeOf(o);
      trace := trace + [Awaited(patterns, r)];
      script := Drop(script, 1);
    }
  }
}
