/** The login chain of `ssh_session`: the password, `enable` with an
    optional enable secret, `configure terminal`, `hostname H`, `exit`, each
    step gated on the index the previous expect returned. Luke.py, again.py,
    truths.py, task3.py and final.py check the secret, configuration and
    hostname prompts with single-pattern expects (which raise instead of
    returning a failure index); Task2.py uses list-form expects throughout
    and ends with two `exit`s. */
module Login {
  import opened Transport

  datatype Credentials = Credentials(password: string, hostname: string, enablePassword: string)

  /** How `ssh_session` ends: one of its printed failures, an exception that
      leaves it, or success (the final `exit` written). */
  datatype LoginStatus =
    | SessionFailed    // 'Session failed to establish.'
    | AuthFailed       // 'Authentication failed.'
    | EnableFailed     // 'Enable mode failed.'
    | ConfigFailed     // 'Config mode failed.'
    | HostnameFailed   // 'Failed to set hostname.'
    | Escaped(e: Exc)  // an exception propagates out of ssh_session
    | Ready            // the menu is called next

  datatype LoginRun = LoginRun(trace: seq<Event>, used: nat, status: LoginStatus)

  /** Everything a successful login writes. */
  function LoginCommands(c: Credentials, listForm: bool): seq<string>
  {
    [c.password, "enable", c.enablePassword, "configure terminal", "hostname " + c.hostname, "exit"] +
    (if listForm then ["exit"] else [])
  }

  /** The reply of the expect after a gated step: list form when the script
      passes `[p, TIMEOUT, EOF]`, single-pattern form otherwise. */
  function Gate(listForm: bool, o: Outcome): Reply
  {
    ReplyTo(1, listForm, o)
  }

  /** The conversation of `ssh_session` against the device's outcomes `s`.
      The first three expects are list form in every file; `listForm` says
      whether the last three are too (Task2.py) or are single-pattern. */
  function Login(c: Credentials, listForm: bool, s: seq<Outcome>): (r: LoginRun)
    ensures 1 <= r.used <= 6
  {
    var r0 := ReplyTo(1, true, At(s, 0));
    var t0 := [Awaited([PasswordPrompt], r0)];
    if r0 != Index(0) then LoginRun(t0, 1, SessionFailed)
    else
      var r1 := ReplyTo(2, true, At(s, 1));
      var t1 := t0 + [Sent(c.password)] + [Awaited([UserPrompt, PrivilegedPrompt], r1)];
      if r1 != Index(0) then LoginRun(t1, 2, AuthFailed)
      else
        var r2 := ReplyTo(1, true, At(s, 2));
        var t2 := t1 + [Sent("enable")] + [Awaited([PasswordPrompt], r2)];
        if r2 != Index(0) then LoginRun(t2, 3, EnableFailed)
        else Elevated(c, listForm, s, t2)
  }

  /** The rest of the login once `enable` was answered by Password:, from
      the conversation `t2` so far: the enable secret, `configure terminal`
      and `hostname H`, then `exit` (twice in list form). */
  function Elevated(c: Credentials, listForm: bool, s: seq<Outcome>, t2: seq<Event>): (r: LoginRun)
    ensures 4 <= r.used <= 6
  {
    var r3 := Gate(listForm, At(s, 3));
    var t3 := t2 + [Sent(c.enablePassword)] + [Awaited([PrivilegedPrompt], r3)];
    if r3.Raised? then LoginRun(t3, 4, Escaped(r3.e))
    else if r3 != Index(0) then LoginRun(t3, 4, EnableFailed)
    else
      var r4 := Gate(listForm, At(s, 4));
      var t4 := t3 + [Sent("configure terminal")] + [Awaited([ConfigPrompt], r4)];
      if r4.Raised? then LoginRun(t4, 5, Escaped(r4.e))
      else if r4 != Index(0) then LoginRun(t4, 5, ConfigFailed)
      else
        var r5 := Gate(listForm, At(s, 5));
        var t5 := t4 + [Sent("hostname " + c.hostname)] + [Awaited([HostConfigPrompt(c.hostname)], r5)];
        if r5.Raised? then LoginRun(t5, 6, Escaped(r5.e))
        else if r5 != Index(0) then LoginRun(t5, 6, HostnameFailed)
        else LoginRun(t5 + [Sent("exit")] + (if listForm then [Sent("exit")] else []), 6, Ready)
  }

  /** again.py's `ssh_session` ends by calling `compare_configs_menu`, which
      its class does not define: success turns into an AttributeError. */
  function MenuMissing(st: LoginStatus): LoginStatus
  {
    if st == Ready then Escaped(AttributeError) else st
  }

  lemma SendsExchange(t: seq<Event>, line: string, p: seq<Pattern>, r: Reply)
    ensures Sends(t + [Sent(line)] + [Awaited(p, r)]) == Sends(t) + [line]
  {
    SendsAppend(t + [Sent(line)], [Awaited(p, r)]);
    SendsAppend(t, [Sent(line)]);
    SendsOfSent(line);
    SendsOfAwaited(p, r);
  }

  lemma SendsSent(t: seq<Event>, line: string)
    ensures Sends(t + [Sent(line)]) == Sends(t) + [line]
  {
    SendsAppend(t, [Sent(line)]);
    SendsOfSent(line);
  }

  /** What the login writes is always a prefix of the full command list, one
      line per expect after the first until it stops; the whole list is
      written iff the login succeeds. */
  lemma LoginWrites(c: Credentials, listForm: bool, s: seq<Outcome>)
    ensures var r := Login(c, listForm, s);
      Sends(r.trace) == LoginCommands(c, listForm)[..if r.status == Ready then |LoginCommands(c, listForm)| else r.used - 1]
  {
    var cmds := LoginCommands(c, listForm);
    var r0 := ReplyTo(1, true, At(s, 0));
    var t0 := [Awaited([PasswordPrompt], r0)];
    SendsOfAwaited([PasswordPrompt], r0);
    if r0 != Index(0) { return; }
    var r1 := ReplyTo(2, true, At(s, 1));
    var t1 := t0 + [Sent(c.password)] + [Awaited([UserPrompt, PrivilegedPrompt], r1)];
    SendsExchange(t0, c.password, [UserPrompt, PrivilegedPrompt], r1);
    assert Sends(t1) == cmds[..1];
    if r1 != Index(0) { return; }
    var r2 := ReplyTo(1, true, At(s, 2));
    var t2 := t1 + [Sent("enable")] + [Awaited([PasswordPrompt], r2)];
    SendsExchange(t1, "enable", [PasswordPrompt], r2);
    assert Sends(t2) == cmds[..2];
    if r2 != Index(0) { return; }
    assert Login(c, listForm, s) == Elevated(c, listForm, s, t2);
    ElevatedWrites(c, listForm, s, t2);
  }

  /** The part of LoginWrites after `enable` was answered by Password:. */
  lemma ElevatedWrites(c: Credentials, listForm: bool, s: seq<Outcome>, t2: seq<Event>)
    requires Sends(t2) == LoginCommands(c, listForm)[..2]
    ensures var r := Elevated(c, listForm, s, t2);
      Sends(r.trace) == LoginCommands(c, listForm)[..if r.status == Ready then |LoginCommands(c, listForm)| else r.used - 1]
  {
    var cmds := LoginCommands(c, listForm);
    var r3 := Gate(listForm, At(s, 3));
    var t3 := t2 + [Sent(c.enablePassword)] + [Awaited([PrivilegedPrompt], r3)];
    SendsExchange(t2, c.enablePassword, [PrivilegedPrompt], r3);
    assert Sends(t3) == cmds[..3];
    if r3 != Index(0) { return; }
    var r4 := Gate(listForm, At(s, 4));
    var t4 := t3 + [Sent("configure terminal")] + [Awaited([ConfigPrompt], r4)];
    SendsExchange(t3, "configure terminal", [ConfigPrompt], r4);
    assert Sends(t4) == cmds[..4];
    if r4 != Index(0) { return; }
    var r5 := Gate(listForm, At(s, 5));
    var t5 := t4 + [Sent("hostname " + c.hostname)] + [Awaited([HostConfigPrompt(c.hostname)], r5)];
    SendsExchange(t4, "hostname " + c.hostname, [HostConfigPrompt(c.hostname)], r5);
    assert Sends(t5) == cmds[..5];
    if r5 != Index(0) { return; }
    SendsSent(t5, "exit");
    if listForm {
      SendsSent(t5 + [Sent("exit")], "exit");
    } else {
      assert t5 + [Sent("exit")] + [] == t5 + [Sent("exit")];
    }
  }

  /** The early stops shared by every file: no Password: prompt, nothing is
      written; after the password only `>` continues (a `#` counts as
      failure); the enable secret is written iff `enable` is answered by
      Password:, and the login succeeds iff all six prompts appear. */
  lemma LoginGating(c: Credentials, listForm: bool, s: seq<Outcome>)
    ensures var r := Login(c, listForm, s);
      (!Prompted(At(s, 0)) ==> r.status == SessionFailed && Sends(r.trace) == []) &&
      (Prompted(At(s, 0)) && !Prompted(At(s, 1)) ==>
         r.status == AuthFailed && Sends(r.trace) == [c.password]) &&
      (Prompted(At(s, 0)) && Prompted(At(s, 1)) && !Prompted(At(s, 2)) ==>
         r.status == EnableFailed && Sends(r.trace) == [c.password, "enable"]) &&
      (|Sends(r.trace)| >= 3 <==> Prompted(At(s, 0)) && Prompted(At(s, 1)) && Prompted(At(s, 2))) &&
      (r.status == Ready <==> forall j :: 0 <= j < 6 ==> Prompted(At(s, j)))
  {
    LoginWrites(c, listForm, s);
  }

  /** In both forms the login stops at the first prompt that does not
      appear: every prompt before the last expect it ran was matched, and
      that last one was matched iff the login succeeds. */
  lemma LoginStopsAtFirstMissing(c: Credentials, listForm: bool, s: seq<Outcome>)
    ensures var r := Login(c, listForm, s);
      (forall j :: 0 <= j < r.used - 1 ==> Prompted(At(s, j))) &&
      (r.status != Ready <==> !Prompted(At(s, r.used - 1)))
  {
    if Prompted(At(s, 0)) && Prompted(At(s, 1)) && Prompted(At(s, 2)) {
      ElevatedStopsAtFirstMissing(c, listForm, s, Login(c, listForm, s));
    }
  }

  /** The part of LoginStopsAtFirstMissing after `enable` was answered by
      Password:. */
  lemma ElevatedStopsAtFirstMissing(c: Credentials, listForm: bool, s: seq<Outcome>, r: LoginRun)
    requires Prompted(At(s, 0)) && Prompted(At(s, 1)) && Prompted(At(s, 2))
    requires r == Login(c, listForm, s)
    ensures (forall j :: 0 <= j < r.used - 1 ==> Prompted(At(s, j))) &&
      (r.status != Ready <==> !Prompted(At(s, r.used - 1)))
  {
    var t2 := [Awaited([PasswordPrompt], Index(0))] + [Sent(c.password)] + [Awaited([UserPrompt, PrivilegedPrompt], Index(0))]
      + [Sent("enable")] + [Awaited([PasswordPrompt], Index(0))];
    assert r == Elevated(c, listForm, s, t2);
  }

  /** The single-pattern files (Luke.py, again.py, truths.py, task3.py,
      final.py): a missing `#` after the secret, `(config)#` or
      `H(config)#` leaves ssh_session as the TIMEOUT or EOF exception, so
      "Config mode failed." and "Failed to set hostname." are never
      reported, and "Enable mode failed." only for the reply to `enable`. */
  lemma LoginSinglePattern(c: Credentials, s: seq<Outcome>)
    ensures var r := Login(c, false, s);
      r.status != ConfigFailed && r.status != HostnameFailed &&
      (r.status == EnableFailed ==> r.used == 3) &&
      (r.status.Escaped? <==>
         (forall j :: 0 <= j < 3 ==> Prompted(At(s, j))) &&
         !(forall j :: 3 <= j < 6 ==> Prompted(At(s, j)))) &&
      (r.status.Escaped? ==>
         4 <= r.used && (forall j :: 0 <= j < r.used - 1 ==> Prompted(At(s, j))) &&
         !Prompted(At(s, r.used - 1)) && r.status.e == ErrorOf(At(s, r.used - 1))) &&
      (r.status == Ready ==>
         Sends(r.trace) == [c.password, "enable", c.enablePassword, "configure terminal",
                            "hostname " + c.hostname, "exit"] &&
         r.trace[|r.trace| - 1] == Sent("exit") &&
         r.trace[|r.trace| - 2] == Awaited([HostConfigPrompt(c.hostname)], Index(0)))
  {
    LoginWrites(c, false, s);
    LoginStopsAtFirstMissing(c, false, s);
  }

  /** Task2.py: every expect is list form, so every timeout or EOF is a
      reported failure and nothing escapes; the secret needs index 0 (`#`),
      the hostname step needs `H(config)#`, and success writes `exit` twice
      back to back with no expect between them. */
  lemma LoginListForm(c: Credentials, s: seq<Outcome>)
    ensures var r := Login(c, true, s);
      !r.status.Escaped? &&
      (r.status == EnableFailed <==>
         Prompted(At(s, 0)) && Prompted(At(s, 1)) && !(Prompted(At(s, 2)) && Prompted(At(s, 3)))) &&
      (r.status == ConfigFailed <==>
         (forall j :: 0 <= j < 4 ==> Prompted(At(s, j))) && !Prompted(At(s, 4))) &&
      (r.status == HostnameFailed <==>
         (forall j :: 0 <= j < 5 ==> Prompted(At(s, j))) && !Prompted(At(s, 5))) &&
      (r.status == Ready ==>
         Sends(r.trace) == [c.password, "enable", c.enablePassword, "configure terminal",
                            "hostname " + c.hostname, "exit", "exit"] &&
         r.trace[|r.trace| - 2..] == [Sent("exit"), Sent("exit")] &&
         r.trace[|r.trace| - 3] == Awaited([HostConfigPrompt(c.hostname)], Index(0)))
  {
    LoginWrites(c, true, s);
  }

  /** again.py never reaches its menu: a login that gets through all six
      prompts ends in AttributeError, every other outcome is unchanged. */
  lemma MenuMissingNeverReady(c: Credentials, s: seq<Outcome>)
    ensures var st := MenuMissing(Login(c, false, s).status);
      st != Ready &&
      (st == Escaped(AttributeError) <==> forall j :: 0 <= j < 6 ==> Prompted(At(s, j)))
  {
    LoginGating(c, false, s);
  }
}
