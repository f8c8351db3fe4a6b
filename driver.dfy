/** The class `SSHTONetworkSession` of the six scripts: the credentials it is
    built with, the pexpect session it opens in `ssh_session`, and the
    operations its menus call, each proved against the specification of
    the conversation it has with the device. */
module Driver {
  import opened Transport
  import opened Steps
  import opened Login
  import opened Catalog
  import opened Text
  import opened Reports

  datatype Option<T> = None | Some(value: T)

  class NetworkSession {
    const ipAddress: string
    const username: string
    const password: string
    const hostname: string
    const enablePassword: string
    var session: Spawn?

    /** `__init__`: the session is opened later, by `ssh_session`. */
    constructor (ipAddress: string, username: string, password: string, hostname: string, enablePassword: string)
      ensures this.ipAddress == ipAddress && this.username == username && this.password == password
      ensures this.hostname == hostname && this.enablePassword == enablePassword
      ensures session == null
    {
      this.ipAddress := ipAddress;
      this.username := username;
      this.password := password;
      this.hostname := hostname;
      this.enablePassword := enablePassword;
      session := null;
    }

    function Creds(): Credentials
    {
      Credentials(password, hostname, enablePassword)
    }

    /** The session's conversation after `plan` ran from trace `t0` and
        script `s0` and ended with `status`; `before` is what the last
        expect of the run left there. */
    ghost predicate Performed(plan: seq<Step>, status: PlanStatus, t0: seq<Event>, s0: seq<Outcome>)
      requires session != null
      reads this, session
    {
      var r := RunPlan(plan, s0);
      status == r.status && session.trace == t0 + r.trace && session.script == Drop(s0, r.used) &&
      (plan != [] ==> session.before == BeforeOf(At(s0, r.used - 1)))
    }

    /** The session's conversation after one `sendline(command)` followed by
        the single-pattern `expect('#')` that consumed the first outcome of
        `s0`. */
    ghost predicate Queried(command: string, t0: seq<Event>, s0: seq<Outcome>)
      requires session != null
      reads this, session
    {
      session.trace == t0 + [Sent(command), Awaited([PrivilegedPrompt], ReplyTo(1, false, At(s0, 0)))] &&
      session.script == Drop(s0, 1) &&
      session.before == BeforeOf(At(s0, 0))
    }

    // ---- ssh_session ----

    /** The login chain against the device `device`, with the last three
        expects in list form iff `listForm`. */
    method Authenticate(device: seq<Outcome>, listForm: bool) returns (status: LoginStatus)
      modifies this
      ensures session != null && fresh(session)
      ensures var r := Login.Login(Creds(), listForm, device);
        status == r.status && session.trace == r.trace && session.script == Drop(device, r.used) &&
        session.before == BeforeOf(At(device, r.used - 1))
    {
      var sp := new Spawn(device);
      session := sp;
      var result := sp.Expect([PasswordPrompt], true);
      assert sp.trace == [Awaited([PasswordPrompt], result)];
      if result != Index(0) {
        status := SessionFailed;
        return;
      }
      sp.SendLine(password);
      result := sp.Expect([UserPrompt, PrivilegedPrompt], true);
      assert At(Drop(device, 1), 0) == At(device, 1);
      if result != Index(0) {
        status := AuthFailed;
        return;
      }
      sp.SendLine("enable");
      result := sp.Expect([PasswordPrompt], true);
      assert sp.script == Drop(device, 3);
      if result != Index(0) {
        status := EnableFailed;
        return;
      }
      assert Login.Login(Creds(), listForm, device) == Elevated(Creds(), listForm, device, sp.trace);
      status := Elevate(device, listForm);
    }

    /** The part of ssh_session after `enable` was answered by Password:,
        on the session opened against `device` after its first three
        outcomes were consumed. */
    method Elevate(ghost device: seq<Outcome>, listForm: bool) returns (status: LoginStatus)
      requires session != null && session.script == Drop(device, 3)
      modifies session
      ensures var r := Elevated(Creds(), listForm, device, old(session.trace));
        status == r.status && session.trace == r.trace && session.script == Drop(device, r.used) &&
        session.before == BeforeOf(At(device, r.used - 1))
    {
      var sp := session;
      sp.SendLine(enablePassword);
      var result := sp.Expect([PrivilegedPrompt], listForm);
      assert sp.script == Drop(device, 4);
      if result.Raised? {
        status := Escaped(result.e);
        return;
      }
      if result != Index(0) {
        status := EnableFailed;
        return;
      }
      sp.SendLine("configure terminal");
      result := sp.Expect([ConfigPrompt], listForm);
      assert sp.script == Drop(device, 5);
      if result.Raised? {
        status := Escaped(result.e);
        return;
      }
      if result != Index(0) {
        status := ConfigFailed;
        return;
      }
      sp.SendLine("hostname " + hostname);
      result := sp.Expect([HostConfigPrompt(hostname)], listForm);
      assert sp.script == Drop(device, 6);
      if result.Raised? {
        status := Escaped(result.e);
        return;
      }
      if result != Index(0) {
        status := HostnameFailed;
        return;
      }
      sp.SendLine("exit");
      if listForm {
        sp.SendLine("exit");
      }
      status := Ready;
    }

    /** ssh_session of Luke.py, truths.py, task3.py and final.py. */
    method SshSession(device: seq<Outcome>) returns (status: LoginStatus)
      modifies this
      ensures session != null && fresh(session)
      ensures var r := Login.Login(Creds(), false, device);
        status == r.status && session.trace == r.trace && session.script == Drop(device, r.used) &&
        session.before == BeforeOf(At(device, r.used - 1))
    {
      status := Authenticate(device, false);
    }

    /** ssh_session of again.py, whose success path calls the undefined
        `compare_configs_menu`. */
    method SshSessionMenuMissing(device: seq<Outcome>) returns (status: LoginStatus)
      modifies this
      ensures session != null && fresh(session)
      ensures var r := Login.Login(Creds(), false, device);
        status == MenuMissing(r.status) && session.trace == r.trace && session.script == Drop(device, r.used) &&
        session.before == BeforeOf(At(device, r.used - 1))
    {
      status := Authenticate(device, false);
      status := MenuMissing(status);
    }

    /** ssh_session of Task2.py: list-form expects throughout, and on success
        the running configuration it saves is `session.before`, the text
        the device printed before the `H(config)#` prompt. */
    method SshSessionListForm(device: seq<Outcome>) returns (status: LoginStatus, runningConfig: Option<string>)
      modifies this
      ensures session != null && fresh(session)
      ensures var r := Login.Login(Creds(), true, device);
        status == r.status && session.trace == r.trace && session.script == Drop(device, r.used) &&
        session.before == BeforeOf(At(device, r.used - 1))
      ensures runningConfig.Some? <==> status == Ready
      ensures runningConfig.Some? ==> runningConfig.value == BeforeOf(At(device, 5))
    {
      status := Authenticate(device, true);
      if status == Ready {
        runningConfig := Some(session.before);
      } else {
        runningConfig := None;
      }
    }

    // ---- the configuration operations ----

    /** The body of every `try` block of the configuration operations: each
        command written, then its prompt awaited; the first expect that
        raises ends the block, and the `except` clause reports it. */
    method RunSteps(plan: seq<Step>) returns (status: PlanStatus)
      requires session != null
      modifies session
      ensures Performed(plan, status, old(session.trace), old(session.script))
    {
      ghost var t0, s0 := session.trace, session.script;
      var i := 0;
      while i < |plan|
        invariant i <= |plan|
        invariant session.trace == t0 + Matched(plan[..i])
        invariant session.script == Drop(s0, i)
        invariant forall j :: 0 <= j < i ==> Prompted(At(s0, j))
        invariant i > 0 ==> session.before == BeforeOf(At(s0, i - 1))
      {
        session.SendLine(plan[i].command);
        var result := session.Expect([plan[i].prompt], false);
        assert At(Drop(s0, i), 0) == At(s0, i);
        ExchangeAppend(t0, Matched(plan[..i]), plan[i], result);
        DropDrop(s0, i, 1);
        if result.Raised? {
          RunPlanClosedForm(plan, s0, i);
          status := Aborted(i, result.e);
          return;
        }
        assert Prompted(At(s0, i));
        PromptedSnoc(s0, i);
        MatchedSnoc(plan, i);
        assert session.trace == t0 + Matched(plan[..i + 1]);
        i := i + 1;
      }
      RunPlanClosedForm(plan, s0, |plan|);
      assert plan[..|plan|] == plan;
      status := Done;
    }

    /** creating_loopback of Luke.py, task3.py and final.py. */
    method CreatingLoopback(address: string, subnet: string) returns (status: PlanStatus)
      requires session != null
      modifies session
      ensures Performed(LoopbackPlan(address, subnet), status, old(session.trace), old(session.script))
    {
      status := RunSteps(LoopbackPlan(address, subnet));
    }

    /** creating_ospf of Luke.py, task3.py and final.py. */
    method CreatingOspf(processId: string, network: string, wildcard: string, area: string) returns (status: PlanStatus)
      requires session != null
      modifies session
      ensures Performed(OspfPlan(processId, network, wildcard, area), status, old(session.trace), old(session.script))
    {
      status := RunSteps(OspfPlan(processId, network, wildcard, area));
    }

    /** creating_eigrp of Luke.py and final.py. */
    method CreatingEigrp(asNumber: string, network: string, wildcard: string) returns (status: PlanStatus)
      requires session != null
      modifies session
      ensures Performed(EigrpPlan(asNumber, network, wildcard), status, old(session.trace), old(session.script))
    {
      status := RunSteps(EigrpPlan(asNumber, network, wildcard));
    }

    // ---- truths.py: the record handed to save_configuration on success ----

    method CreatingLoopbackRecorded(address: string, subnet: string) returns (status: PlanStatus, record: Option<Record>)
      requires session != null
      modifies session
      ensures Performed(LoopbackPlan(address, subnet), status, old(session.trace), old(session.script))
      ensures record == (if status.Done? then Some(LoopbackRecord(address, subnet)) else None)
    {
      status := RunSteps(LoopbackPlan(address, subnet));
      record := if status.Done? then Some(LoopbackRecord(address, subnet)) else None;
    }

    method CreatingOspfRecorded(processId: string, network: string, wildcard: string, area: string)
      returns (status: PlanStatus, record: Option<Record>)
      requires session != null
      modifies session
      ensures Performed(OspfPlan(processId, network, wildcard, area), status, old(session.trace), old(session.script))
      ensures record == (if status.Done? then Some(OspfRecord(processId, network, wildcard, area)) else None)
    {
      status := RunSteps(OspfPlan(processId, network, wildcard, area));
      record := if status.Done? then Some(OspfRecord(processId, network, wildcard, area)) else None;
    }

    method CreatingEigrpRecorded(asNumber: string, network: string, wildcard: string)
      returns (status: PlanStatus, record: Option<Record>)
      requires session != null
      modifies session
      ensures Performed(EigrpPlan(asNumber, network, wildcard), status, old(session.trace), old(session.script))
      ensures record == (if status.Done? then Some(EigrpRecord(asNumber, network, wildcard)) else None)
    {
      status := RunSteps(EigrpPlan(asNumber, network, wildcard));
      record := if status.Done? then Some(EigrpRecord(asNumber, network, wildcard)) else None;
    }

    /** advertise_ospf of truths.py: the OSPF plan with process id 1. */
    method AdvertiseOspfFixed(network: string, wildcard: string, area: string)
      returns (status: PlanStatus, record: Option<Record>)
      requires session != null
      modifies session
      ensures Performed(OspfPlan("1", network, wildcard, area), status, old(session.trace), old(session.script))
      ensures record == (if status.Done? then Some(OspfAdvertisementRecord(network, wildcard, area)) else None)
    {
      status := RunSteps(OspfPlan("1", network, wildcard, area));
      record := if status.Done? then Some(OspfAdvertisementRecord(network, wildcard, area)) else None;
    }

    /** advertise_eigrp of truths.py: the EIGRP plan with AS number 1. */
    method AdvertiseEigrpFixed(network: string, wildcard: string)
      returns (status: PlanStatus, record: Option<Record>)
      requires session != null
      modifies session
      ensures Performed(EigrpPlan("1", network, wildcard), status, old(session.trace), old(session.script))
      ensures record == (if status.Done? then Some(EigrpAdvertisementRecord(network, wildcard)) else None)
    {
      status := RunSteps(EigrpPlan("1", network, wildcard));
      record := if status.Done? then Some(EigrpAdvertisementRecord(network, wildcard)) else None;
    }

    // ---- again.py: walk back with two `exit`s ----

    /** save_config: `write memory`; its failure is reported here and not
        passed on. */
    method SaveConfig() returns (status: PlanStatus)
      requires session != null
      modifies session
      ensures Performed(SavePlan(), status, old(session.trace), old(session.script))
    {
      status := RunSteps(SavePlan());
    }

    /** creating_loopback of again.py: save_config runs iff the six steps
        before it all saw their prompts. */
    method CreatingLoopbackWalkBack(address: string, subnet: string) returns (status: PlanStatus, saved: Option<PlanStatus>)
      requires session != null
      modifies session
      ensures var r := RunPlan(LoopbackWalkBackPlan(address, subnet), old(session.script));
        status == r.status &&
        (saved.Some? <==> status.Done?) &&
        (saved.None? ==> session.trace == old(session.trace) + r.trace &&
                         session.script == Drop(old(session.script), r.used) &&
                         session.before == BeforeOf(At(old(session.script), r.used - 1))) &&
        (saved.Some? ==>
           var w := RunPlan(SavePlan(), Drop(old(session.script), r.used));
           saved.value == w.status &&
           session.trace == old(session.trace) + r.trace + w.trace &&
           session.script == Drop(old(session.script), r.used + w.used) &&
           session.before == BeforeOf(At(old(session.script), r.used + w.used - 1)))
    {
      ghost var t0, s0 := session.trace, session.script;
      ghost var p := LoopbackWalkBackPlan(address, subnet);
      ghost var r := RunPlan(p, s0);
      status := RunSteps(LoopbackWalkBackPlan(address, subnet));
      assert p != [];
      assert session.trace == t0 + r.trace && session.script == Drop(s0, r.used);
      assert session.before == BeforeOf(At(s0, r.used - 1));
      if status.Done? {
        ghost var s1 := session.script;
        ghost var w := RunPlan(SavePlan(), s1);
        SaveRun(s1);
        var s := SaveConfig();
        assert session.trace == t0 + r.trace + w.trace && session.script == Drop(s1, 1);
        assert session.before == BeforeOf(At(s1, 0));
        assert At(s1, 0) == At(s0, r.used);
        DropDrop(s0, r.used, 1);
        saved := Some(s);
      } else {
        saved := None;
      }
    }

    /** creating_ospf of again.py. */
    method CreatingOspfWalkBack(processId: string, network: string, wildcard: string, area: string) returns (status: PlanStatus)
      requires session != null
      modifies session
      ensures Performed(OspfWalkBackPlan(processId, network, wildcard, area), status, old(session.trace), old(session.script))
    {
      status := RunSteps(OspfWalkBackPlan(processId, network, wildcard, area));
    }

    /** creating_eigrp of again.py. */
    method CreatingEigrpWalkBack(asNumber: string, network: string, wildcard: string) returns (status: PlanStatus)
      requires session != null
      modifies session
      ensures Performed(EigrpWalkBackPlan(asNumber, network, wildcard), status, old(session.trace), old(session.script))
    {
      status := RunSteps(EigrpWalkBackPlan(asNumber, network, wildcard));
    }

    /** creating_rip of again.py: the version is read and then not used. */
    method CreatingRip(version: string, network: string) returns (status: PlanStatus)
      requires session != null
      modifies session
      ensures Performed(RipPlan(network), status, old(session.trace), old(session.script))
    {
      status := RunSteps(RipPlan(network));
    }

    // ---- the display operations ----

    /** advertise_ospf / advertise_eigrp of Luke.py, task3.py and final.py:
        one show command, then the filtered text before `#`. */
    method ShowSection(command: string) returns (d: Display)
      requires session != null
      modifies session
      ensures Queried(command, old(session.trace), old(session.script))
      ensures d == SectionReport(At(old(session.script), 0))
    {
      session.SendLine(command);
      var result := session.Expect([PrivilegedPrompt], false);
      if result.Raised? {
        d := Caught(result.e);
        return;
      }
      var rawOutput := session.before;
      var outputLines := SplitLines(rawOutput);
      var filteredLines := Filtered(outputLines);
      if filteredLines == [] {
        d := NothingFound;
      } else {
        d := Listed(filteredLines);
      }
    }

    method AdvertiseOspf() returns (d: Display)
      requires session != null
      modifies session
      ensures Queried(ShowOspfSection, old(session.trace), old(session.script))
      ensures d == SectionReport(At(old(session.script), 0))
    {
      d := ShowSection(ShowOspfSection);
    }

    method AdvertiseEigrp() returns (d: Display)
      requires session != null
      modifies session
      ensures Queried(ShowEigrpSection, old(session.trace), old(session.script))
      ensures d == SectionReport(At(old(session.script), 0))
    {
      d := ShowSection(ShowEigrpSection);
    }

    /** The first advertise_eigrp of task3.py, which lists the `network`
        lines of the whole running configuration. */
    method AdvertiseEigrpNetworks() returns (d: Display)
      requires session != null
      modifies session
      ensures Queried(ShowNetworkLines, old(session.trace), old(session.script))
      ensures d == SectionReport(At(old(session.script), 0))
    {
      d := ShowSection(ShowNetworkLines);
    }

    /** show_ip_interface_brief of Luke.py, truths.py, task3.py and final.py. */
    method ShowIpInterfaceBrief() returns (d: Display)
      requires session != null
      modifies session
      ensures Queried(ShowInterfaceBrief, old(session.trace), old(session.script))
      ensures d == InterfaceReport(At(old(session.script), 0))
    {
      session.SendLine(ShowInterfaceBrief);
      var result := session.Expect([PrivilegedPrompt], false);
      if result.Raised? {
        d := Caught(result.e);
        return;
      }
      var rawOutput := session.before;
      var filteredLines := Filtered(SplitLines(rawOutput));
      var printed := SelectInterfaceLines(filteredLines);
      d := Listed(printed);
    }

    /** again.py's display methods: one show command, then the text before
        `#` printed as it is. */
    method ShowRaw(command: string) returns (c: Capture)
      requires session != null
      modifies session
      ensures Queried(command, old(session.trace), old(session.script))
      ensures c == RawReport(At(old(session.script), 0))
    {
      session.SendLine(command);
      var result := session.Expect([PrivilegedPrompt], false);
      if result.Raised? {
        c := CaptureFailed(result.e);
        return;
      }
      c := Captured(session.before);
    }

    method AdvertiseRip() returns (c: Capture)
      requires session != null
      modifies session
      ensures Queried(ShowRouterRip, old(session.trace), old(session.script))
      ensures c == RawReport(At(old(session.script), 0))
    {
      c := ShowRaw(ShowRouterRip);
    }

    method AdvertiseEigrpRouter() returns (c: Capture)
      requires session != null
      modifies session
      ensures Queried(ShowRouterEigrp, old(session.trace), old(session.script))
      ensures c == RawReport(At(old(session.script), 0))
    {
      c := ShowRaw(ShowRouterEigrp);
    }

    method AdvertiseOspfRouter() returns (c: Capture)
      requires session != null
      modifies session
      ensures Queried(ShowRouterOspf, old(session.trace), old(session.script))
      ensures c == RawReport(At(old(session.script), 0))
    {
      c := ShowRaw(ShowRouterOspf);
    }

    method ShowIpInterfaceBriefRaw() returns (c: Capture)
      requires session != null
      modifies session
      ensures Queried(ShowInterfaceBrief, old(session.trace), old(session.script))
      ensures c == RawReport(At(old(session.script), 0))
    {
      c := ShowRaw(ShowInterfaceBrief);
    }

    // ---- Task2.py ----

    /** get_running_config: the running configuration, or "" when the wait
        for `#` timed out or the stream ended. */
    method GetRunningConfig() returns (text: string)
      requires session != null
      modifies session
      ensures Queried(ShowRunningConfig, old(session.trace), old(session.script))
      ensures text == RunningConfigText(At(old(session.script), 0))
    {
      session.SendLine(ShowRunningConfig);
      var result := session.Expect([PrivilegedPrompt], false);
      if result.Raised? {
        text := "";
        return;
      }
      text := session.before;
    }

    /** compare_with_startup_config_ssh, up to the call of `unified_diff`. */
    method CompareWithStartupConfig() returns (c: Comparison)
      requires session != null
      modifies session
      ensures var run := Compare(old(session.script));
        c == run.result && session.trace == old(session.trace) + run.trace &&
        session.script == Drop(old(session.script), run.used) &&
        session.before == BeforeOf(At(old(session.script), run.used - 1))
    {
      ghost var t0, s0 := session.trace, session.script;
      session.SendLine(ShowStartupConfig);
      var result := session.Expect([PrivilegedPrompt], false);
      if result.Raised? {
        c := CompareFailed(result.e);
        return;
      }
      var startupConfig := SplitLines(session.before);
      var runningConfig := GetRunningConfig();
      c := Compared(startupConfig, SplitLines(runningConfig));
      DropDrop(s0, 1, 1);
      assert At(Drop(s0, 1), 0) == At(s0, 1);
    }
  }
}
