# SSHTONetworkSession — a Dafny model of the router console driver

The repository's scripts (Luke.py, again.py, truths.py, task3.py, final.py,
Task2.py) each carry a copy of the class `SSHTONetworkSession`. The class
logs in to a router over SSH with pexpect and then configures it. It drives
the console by writing a line with `sendline` and waiting with `expect` for
one of the prompts `Password:`, `>`, `#`, `(config)#`, `(config-if)#`,
`(config-router)#` or `H(config)#`. It branches on which prompt matched,
or on whether the wait timed out or the stream ended.

This project models that driver:

- **transport.dfy** (`Transport`): pexpect, seen as a scripted device.
  - `Spawn` keeps the conversation so far, the device's remaining outcomes
    and `session.before`.
  - `Expect` consumes one outcome. It comes in both of pexpect's forms:
    - list form, `[p, TIMEOUT, EOF]`: returns an index;
    - single-pattern form: raises instead.
- **login.dfy** (`Login`): the login chain of `ssh_session`, as a
  specification of the whole conversation.
  - Password, `enable`, the enable secret, `configure terminal`,
    `hostname H`, `exit`.
  - Five of the copies use the single-pattern form for the last three waits.
  - Task2.py uses the list form everywhere and writes `exit` twice.
- **steps.dfy** (`Steps`) and **catalog.dfy** (`Catalog`): every
  configuration operation as a fixed plan of commands and prompts.
  - The plans: loopback, OSPF and EIGRP in both variants (`end`, or
    again.py's two `exit`s), again.py's RIP and `write memory`, and
    truths.py's advertisements with the fixed id 1.
  - A run against the device writes each command only after the previous
    prompt matched. The first single-pattern wait that raises aborts the
    rest.
  - The module also holds the records truths.py stores.
- **text.dfy** (`Text`): the post-processing of the captured text.
  - Python's `splitlines` and `strip`.
  - The comprehension that keeps the stripped non-blank lines.
  - The `Interface`/`up`/`down` selection of the interface listing.
- **reports.dfy** (`Reports`): what each display operation reports.
  - Filtered listings: "nothing found", the timeout message, or the error.
  - again.py's raw captures.
  - Task2.py's startup-versus-running comparison, up to the diff.
- **driver.dfy** (`Driver`): the class itself, as `NetworkSession`.
  - It has the credentials and the `session` field that `ssh_session`
    assigns.
  - Every method is proved against the specification functions above.

The quirks of the source are reproduced, not fixed:

- After the password, only `>` continues; a `#` counts as an
  authentication failure.
- A timeout in a single-pattern wait escapes `ssh_session` as an exception.
  So "Config mode failed." and "Failed to set hostname." are never printed
  by the five single-pattern copies.
- again.py's `ssh_session` ends by calling a menu method the class does not
  define.
- again.py's RIP version is read but never sent.
- truths.py always advertises with process and AS number 1.

## Model

| member | source | states |
|---|---|---|
| Transport.ReplyTo | Luke.py:22-54 | The reply is index 0 iff the first pattern matched. A single-pattern expect raises exactly when the first pattern did not match, with TIMEOUT or EOF as the outcome says. A match of pattern i < count returns index i. The list form answers a timeout, or an unmatched prompt, with index `count` and the end of the stream with `count + 1`. |
| Transport.Spawn.Expect | Luke.py:22 | An expect consumes exactly one outcome, records the awaited patterns and the reply, and sets `before` to the text before the match. |
| Transport.Spawn.SendLine | Luke.py:32 | `sendline` appends the line to the conversation and consumes nothing. |
| Transport.SendsAppend | Luke.py:32-72 | The lines written by two conversations in a row are those of the first followed by those of the second. |
| Login.Login | Luke.py:18-75 | The login consumes between one and six device outcomes. |
| Login.Elevated | Luke.py:45-72 | The part after `enable` consumes the fourth to at most the sixth outcome. |
| Login.LoginWrites | Luke.py:32-72 | What the login writes is always a prefix of [password, `enable`, secret, `configure terminal`, `hostname H`, `exit`] (+ `exit` in list form). It is the whole list iff the login succeeds; otherwise it is one line fewer than the outcomes consumed. |
| Login.LoginGating | Luke.py:22-50 | With no `Password:` prompt nothing is written. After the password, anything but `>` (a `#` included) is an authentication failure and only the password is written. Anything but `Password:` after `enable` is an enable failure with two lines written. At least three lines are written iff the first three prompts appear. The login succeeds iff all six prompts appear. |
| Login.LoginStopsAtFirstMissing | Luke.py:22-72 | In both forms, every prompt before the last wait the login ran was matched. That last prompt was matched iff the login succeeds. |
| Login.LoginSinglePattern | Luke.py:46-72 | With single-pattern waits, config and hostname failures are never reported. An enable failure only follows `enable` itself. The login escapes with an exception iff the first three prompts appear and one of the last three does not; the exception is that of the first missing prompt. Success writes exactly the six lines and ends with `exit` right after the `H(config)#` match. |
| Login.LoginListForm | Task2.py:19-67 | With list-form waits nothing escapes. Enable, config and hostname failures are reported exactly when their prompt is missing. Success writes seven lines and ends with two `exit`s back to back, with no wait between them. |
| Login.MenuMissingNeverReady | again.py:56-58 | again.py's login never reaches a menu. It ends in AttributeError iff all six prompts appear; every other outcome is unchanged. |
| Steps.RunPlan | Luke.py:80-106 | A run of a plan consumes one outcome per step reached. An abort names a step of the plan. |
| Steps.RunPlanClosedForm | Luke.py:80-106 | Given the first step whose prompt is missing, the conversation is fixed. Every earlier step is written and matched, that step is written and its wait raises, and nothing later is written. |
| Steps.RunPlanWrites | Luke.py:86-106 | A run writes exactly the commands of the steps it reached, in plan order. It completes iff every prompt matched. Otherwise it stops at the first missing prompt, with that wait's exception. |
| Steps.RunPlanGated | Luke.py:86-99 | Each reached step is written, then waited for with its own prompt. Every reply is index 0 except an aborting last step's, so no command is written before the previous prompt matched. |
| Steps.MatchedAt | Luke.py:86-99 | A fully matched conversation alternates: the command of step j, then its prompt answered with index 0. |
| Catalog.LoopbackRun | Luke.py:86-99 | creating_loopback writes a prefix of `configure terminal`, `interface loopback 0`, `ip address A S`, `end`, `write memory`. It completes iff all five prompts appear. |
| Catalog.OspfRun | Luke.py:120-137 | creating_ospf writes a prefix of `configure terminal`, `router ospf P`, `network N W area A`, `end`, `write memory`. It completes iff all five prompts appear. |
| Catalog.EigrpRun | Luke.py:188-205 | creating_eigrp writes a prefix of `configure terminal`, `router eigrp AS`, `network N W`, `end`, `write memory`. It completes iff all five prompts appear. |
| Catalog.LoopbackWalkBackRun | again.py:67-85 | again.py's creating_loopback writes a prefix of `configure terminal`, `interface loopback 0`, `ip address A S`, `no shutdown`, `exit`, `exit`. It completes iff all six prompts appear. |
| Catalog.OspfWalkBackRun | again.py:194-210 | again.py's creating_ospf writes a prefix of `configure terminal`, `router ospf P`, `network N W area A`, `exit`, `exit`, `write memory`, each gated. |
| Catalog.EigrpWalkBackRun | again.py:225-241 | again.py's creating_eigrp writes a prefix of `configure terminal`, `router eigrp AS`, `network N W`, `exit`, `exit`, `write memory`, each gated. |
| Catalog.SaveRun | again.py:100-110 | save_config consumes one outcome and writes only `write memory`. It completes iff `#` follows. |
| Catalog.RipRun | again.py:250-270 | creating_rip writes a prefix of `configure terminal`, `router rip`, `network N`, `exit`, `exit`, `write memory`. No line carries the version. |
| Text.FirstBreakSpec | Luke.py:159 | The first line boundary of a string: it is a boundary and no boundary comes before it. |
| Text.SplitLinesNoBreak | Luke.py:159 | No line `splitlines` returns contains a line boundary. |
| Text.SplitLinesLossless | Luke.py:159 | The lines put back together are the input without its line-boundary characters. |
| Text.SplitLinesOneLine | Luke.py:159 | Non-empty text with no line boundary is a single line. |
| Text.SplitLinesBreak | Luke.py:159 | A line ended by any one-character boundary (not `\r` before `\n`) is cut there. The boundary is dropped and the rest is split the same way. |
| Text.SplitLinesCrLf | Luke.py:159 | A line ended by `\r\n` is cut there, dropping both characters, and the rest is split the same way. |
| Text.SplitLinesEmpty | Luke.py:159 | `splitlines` returns no lines iff the text is empty. |
| Text.StripLeftSpec | Luke.py:160 | `lstrip` returns a suffix, removes only whitespace, and leaves no leading whitespace. |
| Text.StripRightSpec | Luke.py:160 | `rstrip` returns a prefix, removes only whitespace, and leaves no trailing whitespace. |
| Text.StripSpec | Luke.py:160 | `strip` returns a slice with only whitespace cut from either end, and its first and last characters are not whitespace. |
| Text.StripEmpty | Luke.py:160 | A line strips to nothing iff it is all whitespace. |
| Text.StripIdempotent | Luke.py:160 | Stripping twice is stripping once. |
| Text.FilteredAppend | Luke.py:160 | Filtering distributes over concatenation, so the kept lines keep their order. |
| Text.FilteredEmpty | Luke.py:160-164 | The filtered list is empty exactly when every line is blank. |
| Text.FilteredMembers | Luke.py:160 | The filtered list holds exactly the non-empty stripped lines, and is no longer than the input. |
| Text.FilteredOne | Luke.py:160 | One line filters to itself stripped, once, unless it is blank; then it filters to nothing. With `FilteredAppend` this fixes the result for every input. |
| Text.FilteredClean | Luke.py:160 | Every kept line is non-empty and already stripped. |
| Text.FilteredIdempotent | Luke.py:160 | Filtering an already filtered list changes nothing. |
| Text.ContainsSpec | Luke.py:257 | `sub in s` holds iff `sub` occurs at some position of `s`. |
| Text.InterfaceLinesAppend | Luke.py:255-258 | Selecting interface lines distributes over concatenation. |
| Text.InterfaceLinesSpec | Luke.py:255-258 | A line is listed iff it is one of the lines and mentions `Interface`, `up` or `down`; no line is added. |
| Text.SelectInterfaceLines | Luke.py:255-258 | The loop prints exactly the selected interface lines, in order. |
| Reports.SectionReportOutcome | Luke.py:153-177 | A section display prints "No ... configuration found." iff `#` matched and every line before it is blank. It prints the timeout message iff `#` did not match and the stream did not end. It reports the generic error iff the stream ended. |
| Reports.SectionReportLines | Luke.py:158-170 | A section display lists exactly the stripped non-blank lines printed before `#`, in the order printed, each already stripped. |
| Reports.InterfaceReportSpec | Luke.py:244-263 | The interface listing is printed iff `#` matched. It lists exactly the stripped non-blank lines that mention `Interface`, `up` or `down`, and never the "nothing found" message. A timeout gives the timeout message, and the end of the stream gives the generic error with the EOF exception. |
| Reports.RawReportSpec | again.py:277-288 | again.py captures text iff `#` matched, and the captured text is exactly `session.before`, unfiltered. Its lines put together lose only the line breaks. Otherwise it reports the wait's exception. |
| Reports.CompareSpec | Task2.py:126-160 | `show startup-config` is written before `show running-config`. The second is written only if the first reached `#`. A failed running-config read compares against no lines instead of stopping. |
| Driver.NetworkSession.constructor | Luke.py:7-15 | The credentials are kept, and no session is open yet. |
| Driver.NetworkSession.Authenticate | Luke.py:18-75 | ssh_session opens a fresh session. Its status, conversation and remaining outcomes are those of `Login.Login`, and `before` is the text before the last wait. |
| Driver.NetworkSession.Elevate | Luke.py:43-72 | The secret, configuration and hostname steps follow `Login.Elevated` from the conversation so far. |
| Driver.NetworkSession.SshSession | Luke.py:18-75 | ssh_session of Luke.py, truths.py, task3.py and final.py follows `Login.Login` with single-pattern waits. It leaves `before` holding the text of the last wait it ran. |
| Driver.NetworkSession.SshSessionMenuMissing | again.py:16-58 | again.py's ssh_session follows `Login.Login`, except that success becomes AttributeError. It leaves `before` holding the text of the last wait it ran. |
| Driver.NetworkSession.SshSessionListForm | Task2.py:17-83 | Task2.py's ssh_session follows the list-form `Login.Login`. It saves a running configuration iff it succeeds: the text before the `H(config)#` prompt. It leaves `before` holding the text of the last wait it ran. |
| Driver.NetworkSession.RunSteps | Luke.py:80-106 | The `try` block of every configuration operation follows `Steps.RunPlan` on the session's remaining outcomes. `before` is then the text before the prompt of the last step reached. |
| Driver.NetworkSession.CreatingLoopback | Luke.py:79-106 | creating_loopback runs the loopback plan. |
| Driver.NetworkSession.CreatingOspf | Luke.py:111-143 | creating_ospf runs the OSPF plan with the given process id. |
| Driver.NetworkSession.CreatingEigrp | Luke.py:180-211 | creating_eigrp runs the EIGRP plan with the given AS number. |
| Driver.NetworkSession.CreatingLoopbackRecorded | truths.py:89-105 | truths.py's creating_loopback runs the loopback plan. It produces the `Loopback` record iff the final `write memory` prompt was seen. |
| Driver.NetworkSession.CreatingOspfRecorded | truths.py:107-128 | truths.py's creating_ospf produces the `OSPF` record iff the OSPF plan completed. |
| Driver.NetworkSession.CreatingEigrpRecorded | truths.py:130-150 | truths.py's creating_eigrp produces the `EIGRP` record iff the EIGRP plan completed. |
| Driver.NetworkSession.AdvertiseOspfFixed | truths.py:168-188 | advertise_ospf runs the OSPF plan with process id 1 whatever the input, recording iff it completed. |
| Driver.NetworkSession.AdvertiseEigrpFixed | truths.py:190-209 | advertise_eigrp runs the EIGRP plan with AS number 1 whatever the input, recording iff it completed. |
| Driver.NetworkSession.SaveConfig | again.py:100-110 | save_config writes `write memory` and waits for `#`. Its failure is reported there and not passed on. |
| Driver.NetworkSession.CreatingLoopbackWalkBack | again.py:60-95 | save_config runs iff all six loopback steps saw their prompts. It then continues on the outcomes the loopback left. `before` is the text the last wait left. |
| Driver.NetworkSession.CreatingOspfWalkBack | again.py:185-214 | again.py's creating_ospf runs the walk-back OSPF plan. |
| Driver.NetworkSession.CreatingEigrpWalkBack | again.py:217-245 | again.py's creating_eigrp runs the walk-back EIGRP plan. |
| Driver.NetworkSession.CreatingRip | again.py:248-274 | creating_rip runs the RIP plan, and the version parameter does not affect it. |
| Driver.NetworkSession.ShowSection | Luke.py:148-177 | One show command and one wait for `#`. The result is `Reports.SectionReport` of the outcome. |
| Driver.NetworkSession.AdvertiseOspf | Luke.py:148-177 | advertise_ospf shows the OSPF section of the running configuration, filtered (`Catalog.ShowOspfSection`). |
| Driver.NetworkSession.AdvertiseEigrp | Luke.py:213-237 | advertise_eigrp shows the EIGRP section of the running configuration, filtered (`Catalog.ShowEigrpSection`). |
| Driver.NetworkSession.AdvertiseEigrpNetworks | task3.py:153-175 | task3.py's first advertise_eigrp (shadowed by the second definition, so unreachable) shows the `network` lines of the running configuration, filtered (`Catalog.ShowNetworkLines`). |
| Driver.NetworkSession.ShowIpInterfaceBrief | Luke.py:243-263 | show_ip_interface_brief gives `Reports.InterfaceReport` of the outcome, through the printing loop. |
| Driver.NetworkSession.ShowRaw | again.py:277-288 | One show command, then the text before `#` unfiltered, or the wait's exception. |
| Driver.NetworkSession.AdvertiseRip | again.py:277-288 | advertise_RIP captures the `router rip` lines of the running configuration (`Catalog.ShowRouterRip`). |
| Driver.NetworkSession.AdvertiseEigrpRouter | again.py:296-307 | advertise_EIGRP captures the `router eigrp` lines of the running configuration (`Catalog.ShowRouterEigrp`). |
| Driver.NetworkSession.AdvertiseOspfRouter | again.py:312-324 | advertise_OSPF captures the `router ospf` lines of the running configuration (`Catalog.ShowRouterOspf`). |
| Driver.NetworkSession.ShowIpInterfaceBriefRaw | again.py:114-125 | again.py's show_ip_interface_brief captures `show ip interface brief` unfiltered. |
| Driver.NetworkSession.GetRunningConfig | Task2.py:150-160 | get_running_config writes `show running-config`. It returns the text before `#`, or "" on a timeout or the end of the stream. |
| Driver.NetworkSession.CompareWithStartupConfig | Task2.py:126-148 | compare_with_startup_config_ssh follows `Reports.Compare`. It hands the two line lists to the diff, or reports the startup wait's exception. `before` is the text the last wait left. |

## Left out

- Process spawning and the `ssh user@host` command line (Luke.py:21) are not modelled. `Spawn` is built from the device's scripted outcomes instead.
- Regular-expression matching of the prompts is not modelled, including the unescaped hostname in `H(config)#`. Prompts are opaque identifiers, and the script says which one matched.
- The wall-clock timeouts (20, 10 and 30 seconds) are not modelled; a timeout is a scripted outcome.
- Transport.Spawn.Expect: after a timeout or the end of the stream, `before` is "" in the model. pexpect keeps the text received so far; no modelled operation reads it after a failed wait.
- Every `print` is left out: messages become statuses (`LoginStatus`, `PlanStatus`, `Display`, `Capture`). This includes the intermediate success messages again.py prints before its `exit`s.
- The `input()` prompts are left out; the values the user types are parameters.
- The menus (`menu`, `compare_configs_menu`, again.py's `menu`) are interactive loops over `input()` and are left out. So is loop.py, which is menu glue around a class it does not import.
- Task2.py's file write of the running configuration (Task2.py:77-80) and `compare_configs` (Task2.py:108-124) are file I/O and are left out.
- `difflib.unified_diff` (Task2.py:118, Task2.py:139) is a library call; the model stops at the two line lists handed to it.
- truths.py's sqlite storage (truths.py:11-31) is left out: the record is returned instead of inserted.
- truths.py's Flask app and threads (truths.py:229-237, truths.py:245-247, truths.py:275-276) are left out. Each operation runs to completion on its own.
- Driver.NetworkSession.RunSteps and every other non-login method require an open session. In Luke.py, truths.py, task3.py, final.py and Task2.py they are reached only from the menu, which ssh_session opens after it assigns `session`. The AttributeError of calling them on `None` is not modelled.
- again.py's operations cannot be reached. Its `ssh_session` ends in AttributeError before any menu opens (again.py:58). Nothing calls the class's `menu` (again.py:130), and the module-level `menu` (again.py:334-359) only builds the object and calls `ssh_session`. `CreatingLoopbackWalkBack`, `SaveConfig`, `CreatingOspfWalkBack`, `CreatingEigrpWalkBack`, `CreatingRip`, `ShowRaw`, `AdvertiseRip`, `AdvertiseEigrpRouter`, `AdvertiseOspfRouter` and `ShowIpInterfaceBriefRaw` model these methods as written, as if that menu were called.
- task3.py does not parse: line 178 is indented with three spaces. It is modelled as if that line were indented like the others. It defines `advertise_eigrp` twice. Once line 178 is re-indented, the second definition replaces the first in the class, so only `AdvertiseEigrp` can be called. `AdvertiseEigrpNetworks` models the first definition as written, though nothing can reach it.
- task3.py's menu calls `compare_configs`, `compare_with_startup_config_ssh` and `creating_eigrp`, which its class does not define. That is menu behaviour and is left out.
- Exceptions other than pexpect's TIMEOUT and EOF (encoding errors, a closed terminal) are not modelled. Nor are the `except Exception` branches that only they could reach.
