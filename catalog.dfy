/** The command templates of the configuration operations, as the scripts
    fill them in from the user's answers, with the prompt each command waits
    for, and the records truths.py stores after an operation completes. */
module Catalog {
  import opened Transport
  import opened Steps

  // ---- Luke.py, task3.py, final.py, truths.py: leave with `end` ----

  /** creating_loopback: enter global configuration, the loopback interface,
      set its address, return to privileged mode, save. */
  function LoopbackPlan(address: string, subnet: string): seq<Step>
  {
    [ Step("configure terminal", ConfigPrompt),
      Step("interface loopback 0", InterfacePrompt),
      Step("ip address " + address + " " + subnet, InterfacePrompt),
      Step("end", PrivilegedPrompt),
      Step("write memory", PrivilegedPrompt) ]
  }

  /** creating_ospf (and truths.py's advertise_ospf with process id "1"). */
  function OspfPlan(processId: string, network: string, wildcard: string, area: string): seq<Step>
  {
    [ Step("configure terminal", ConfigPrompt),
      Step("router ospf " + processId, RouterPrompt),
      Step("network " + network + " " + wildcard + " area " + area, RouterPrompt),
      Step("end", PrivilegedPrompt),
      Step("write memory", PrivilegedPrompt) ]
  }

  /** creating_eigrp (and truths.py's advertise_eigrp with AS number "1"). */
  function EigrpPlan(asNumber: string, network: string, wildcard: string): seq<Step>
  {
    [ Step("configure terminal", ConfigPrompt),
      Step("router eigrp " + asNumber, RouterPrompt),
      Step("network " + network + " " + wildcard, RouterPrompt),
      Step("end", PrivilegedPrompt),
      Step("write memory", PrivilegedPrompt) ]
  }

  // ---- again.py: walk back with two `exit`s ----

  /** creating_loopback of again.py, up to (not including) save_config. */
  function LoopbackWalkBackPlan(address: string, subnet: string): seq<Step>
  {
    [ Step("configure terminal", ConfigPrompt),
      Step("interface loopback 0", InterfacePrompt),
      Step("ip address " + address + " " + subnet, InterfacePrompt),
      Step("no shutdown", InterfacePrompt),
      Step("exit", ConfigPrompt),
      Step("exit", PrivilegedPrompt) ]
  }

  /** save_config of again.py. */
  function SavePlan(): seq<Step>
  {
    [Step("write memory", PrivilegedPrompt)]
  }

  /** creating_ospf of again.py. */
  function OspfWalkBackPlan(processId: string, network: string, wildcard: string, area: string): seq<Step>
  {
    [ Step("configure terminal", ConfigPrompt),
      Step("router ospf " + processId, RouterPrompt),
      Step("network " + network + " " + wildcard + " area " + area, RouterPrompt),
      Step("exit", ConfigPrompt),
      Step("exit", PrivilegedPrompt),
      Step("write memory", PrivilegedPrompt) ]
  }

  /** creating_eigrp of again.py. */
  function EigrpWalkBackPlan(asNumber: string, network: string, wildcard: string): seq<Step>
  {
    [ Step("configure terminal", ConfigPrompt),
      Step("router eigrp " + asNumber, RouterPrompt),
      Step("network " + network + " " + wildcard, RouterPrompt),
      Step("exit", ConfigPrompt),
      Step("exit", PrivilegedPrompt),
      Step("write memory", PrivilegedPrompt) ]
  }

  /** creating_rip of again.py: the version the user gives is never sent. */
  function RipPlan(network: string): seq<Step>
  {
    [ Step("configure terminal", ConfigPrompt),
      Step("router rip", RouterPrompt),
      Step("network " + network, RouterPrompt),
      Step("exit", ConfigPrompt),
      Step("exit", PrivilegedPrompt),
      Step("write memory", PrivilegedPrompt) ]
  }

  // ---- the display commands ----

  const ShowOspfSection := "show running-config | section ospf"
  const ShowEigrpSection := "show running-config | section eigrp"
  const ShowNetworkLines := "show running-config | include network"
  const ShowInterfaceBrief := "show ip interface brief"
  const ShowRouterOspf := "show running-config | include router ospf"
  const ShowRouterEigrp := "show running-config | include router eigrp"
  const ShowRouterRip := "show running-config | include router rip"
  const ShowStartupConfig := "show startup-config"
  const ShowRunningConfig := "show running-config"

  // ---- truths.py: the rows handed to save_configuration ----

  datatype Record = Record(kind: string, details: string)

  function LoopbackRecord(address: string, subnet: string): Record
  {
    Record("Loopback", "IP: " + address + ", Subnet: " + subnet)
  }

  function OspfRecord(processId: string, network: string, wildcard: string, area: string): Record
  {
    Record("OSPF", "Process ID: " + processId + ", Network: " + network + " " + wildcard + ", Area: " + area)
  }

  function EigrpRecord(asNumber: string, network: string, wildcard: string): Record
  {
    Record("EIGRP", "AS: " + asNumber + ", Network: " + network + " " + wildcard)
  }

  function OspfAdvertisementRecord(network: string, wildcard: string, area: string): Record
  {
    Record("OSPF Advertisement", "Network: " + network + ", Wildcard: " + wildcard + ", Area: " + area)
  }

  function EigrpAdvertisementRecord(network: string, wildcard: string): Record
  {
    Record("EIGRP Advertisement", "Network: " + network + ", Wildcard: " + wildcard)
  }

  // ---- what each operation writes ----

  /** creating_loopback (`end` variant) writes its five commands in order,
      each only after the previous prompt matched; it completes iff all
      five prompts appear, and otherwise writes just the commands up to the
      one whose prompt failed. */
  lemma LoopbackRun(address: string, subnet: string, script: seq<Outcome>)
    ensures var r := RunPlan(LoopbackPlan(address, subnet), script);
      (r.status.Done? <==> forall j :: 0 <= j < 5 ==> Prompted(At(script, j))) &&
      Sends(r.trace) == ["configure terminal", "interface loopback 0",
                         "ip address " + address + " " + subnet, "end", "write memory"][..r.used]
  {
    var p := LoopbackPlan(address, subnet);
    RunPlanWrites(p, script);
    assert Commands(p) == ["configure terminal", "interface loopback 0",
                           "ip address " + address + " " + subnet, "end", "write memory"];
  }

  /** creating_ospf (`end` variant): `router ospf P`, then
      `network N W area A`, gated and aborted as for the loopback. */
  lemma OspfRun(processId: string, network: string, wildcard: string, area: string, script: seq<Outcome>)
    ensures var r := RunPlan(OspfPlan(processId, network, wildcard, area), script);
      (r.status.Done? <==> forall j :: 0 <= j < 5 ==> Prompted(At(script, j))) &&
      Sends(r.trace) == ["configure terminal", "router ospf " + processId,
                         "network " + network + " " + wildcard + " area " + area,
                         "end", "write memory"][..r.used]
  {
    var p := OspfPlan(processId, network, wildcard, area);
    RunPlanWrites(p, script);
    assert Commands(p) == ["configure terminal", "router ospf " + processId,
                           "network " + network + " " + wildcard + " area " + area,
                           "end", "write memory"];
  }

  /** creating_eigrp (`end` variant): `router eigrp AS`, then `network N W`. */
  lemma EigrpRun(asNumber: string, network: string, wildcard: string, script: seq<Outcome>)
    ensures var r := RunPlan(EigrpPlan(asNumber, network, wildcard), script);
      (r.status.Done? <==> forall j :: 0 <= j < 5 ==> Prompted(At(script, j))) &&
      Sends(r.trace) == ["configure terminal", "router eigrp " + asNumber,
                         "network " + network + " " + wildcard, "end", "write memory"][..r.used]
  {
    var p := EigrpPlan(asNumber, network, wildcard);
    RunPlanWrites(p, script);
    assert Commands(p) == ["configure terminal", "router eigrp " + asNumber,
                           "network " + network + " " + wildcard, "end", "write memory"];
  }

  /** again.py's creating_loopback: six commands, the last two the `exit`s
      that walk back to privileged mode, each checked against its prompt. */
  lemma LoopbackWalkBackRun(address: string, subnet: string, script: seq<Outcome>)
    ensures var r := RunPlan(LoopbackWalkBackPlan(address, subnet), script);
      (r.status.Done? <==> forall j :: 0 <= j < 6 ==> Prompted(At(script, j))) &&
      Sends(r.trace) == ["configure terminal", "interface loopback 0",
                         "ip address " + address + " " + subnet, "no shutdown",
                         "exit", "exit"][..r.used]
  {
    var p := LoopbackWalkBackPlan(address, subnet);
    RunPlanWrites(p, script);
    assert Commands(p) == ["configure terminal", "interface loopback 0",
                           "ip address " + address + " " + subnet, "no shutdown",
                           "exit", "exit"];
  }

  /** save_config: one outcome is consumed; `write memory` is written and
      the save completes iff `#` follows it. */
  lemma SaveRun(script: seq<Outcome>)
    ensures var r := RunPlan(SavePlan(), script);
      r.used == 1 &&
      (r.status.Done? <==> Prompted(At(script, 0))) &&
      Sends(r.trace) == ["write memory"]
  {
    RunPlanWrites(SavePlan(), script);
  }

  /** again.py's creating_ospf: the two `exit`s, then `write memory`. */
  lemma OspfWalkBackRun(processId: string, network: string, wildcard: string, area: string, script: seq<Outcome>)
    ensures var r := RunPlan(OspfWalkBackPlan(processId, network, wildcard, area), script);
      (r.status.Done? <==> forall j :: 0 <= j < 6 ==> Prompted(At(script, j))) &&
      Sends(r.trace) == ["configure terminal", "router ospf " + processId,
                         "network " + network + " " + wildcard + " area " + area,
                         "exit", "exit", "write memory"][..r.used]
  {
    var p := OspfWalkBackPlan(processId, network, wildcard, area);
    RunPlanWrites(p, script);
    assert Commands(p) == ["configure terminal", "router ospf " + processId,
                           "network " + network + " " + wildcard + " area " + area,
                           "exit", "exit", "write memory"];
  }

  /** again.py's creating_eigrp. */
  lemma EigrpWalkBackRun(asNumber: string, network: string, wildcard: string, script: seq<Outcome>)
    ensures var r := RunPlan(EigrpWalkBackPlan(asNumber, network, wildcard), script);
      (r.status.Done? <==> forall j :: 0 <= j < 6 ==> Prompted(At(script, j))) &&
      Sends(r.trace) == ["configure terminal", "router eigrp " + asNumber,
                         "network " + network + " " + wildcard,
                         "exit", "exit", "write memory"][..r.used]
  {
    var p := EigrpWalkBackPlan(asNumber, network, wildcard);
    RunPlanWrites(p, script);
    assert Commands(p) == ["configure terminal", "router eigrp " + asNumber,
                           "network " + network + " " + wildcard,
                           "exit", "exit", "write memory"];
  }

  /** again.py's creating_rip: `router rip` and `network N`, and no line
      carrying the RIP version. */
  lemma RipRun(network: string, script: seq<Outcome>)
    ensures var r := RunPlan(RipPlan(network), script);
      (r.status.Done? <==> forall j :: 0 <= j < 6 ==> Prompted(At(script, j))) &&
      Sends(r.trace) == ["configure terminal", "router rip", "network " + network,
                         "exit", "exit", "write memory"][..r.used]
  {
    var p := RipPlan(network);
    RunPlanWrites(p, script);
    assert Commands(p) == ["configure terminal", "router rip", "network " + network,
                           "exit", "exit", "write memory"];
  }
}
