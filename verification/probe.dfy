/** The startup reachability probe in `make_app`: a `for ... else` over the configured
    hosts. Whether each `HEAD /` probe got a response is an input. */
module Probe {
  import opened Outcomes
  import opened Logs
  import PyText

  /** The hosts probed, in order, and the records logged. */
  datatype ProbeReport = ProbeReport(probed: seq<string>, log: seq<LogEntry>)

  /** The first position holding a success. */
  function FirstSuccess(results: seq<bool>): (k: Option<nat>)
    ensures k.Some? ==> k.value < |results| && results[k.value]
    ensures k.Some? ==> forall j :: 0 <= j < k.value ==> !results[j]
    ensures k.None? <==> forall j :: 0 <= j < |results| ==> !results[j]
  {
    if |results| == 0 then None
    else if results[0] then Some(0)
    else match FirstSuccess(results[1..])
      case None => None
      case Some(k) => Some(k + 1)
  }

  function Connected(host: string): LogEntry {
    LogEntry(Info, "connected to " + host, None)
  }

  function Unreachable(hosts: seq<string>): LogEntry {
    LogEntry(Warning, "unable to connect to " + PyText.Join(hosts, ", "), None)
  }

  /** Probes `hosts` in order, where `reachable[i]` says whether the probe of `hosts[i]`
      got a response. Stops at the first response and logs it; when no host answers,
      including when none is configured, logs one warning listing them all. */
  method ProbeHosts(hosts: seq<string>, reachable: seq<bool>) returns (report: ProbeReport)
    requires |reachable| == |hosts|
    ensures |report.log| == 1
    ensures FirstSuccess(reachable).Some? ==>
      var k := FirstSuccess(reachable).value;
      report.probed == hosts[..k + 1] && report.log == [Connected(hosts[k])]
    ensures FirstSuccess(reachable).None? ==>
      report.probed == hosts && report.log == [Unreachable(hosts)]
  {
    var probed: seq<string> := [];
    var log: seq<LogEntry> := [];
    var i := 0;
    var connected := false;
    while i < |hosts| && !connected
      invariant 0 <= i <= |hosts|
      invariant probed == hosts[..i]
      invariant connected ==> 0 < i && FirstSuccess(reachable) == Some(i - 1) && log == [Connected(hosts[i - 1])]
      invariant !connected ==> log == [] && forall j :: 0 <= j < i ==> !reachable[j]
      decreases |hosts| - i
    {
      probed := probed + [hosts[i]];
      if reachable[i] {
        log := log + [Connected(hosts[i])];
        connected := true;
      }
      i := i + 1;
    }
    if !connected {
      log := log + [Unreachable(hosts)];
    }
    report := ProbeReport(probed, log);
  }

  /** The warning names every configured host, in order, separated by ", ". */
  lemma WarningNamesEveryHost(hosts: seq<string>, i: nat)
    requires i < |hosts|
    ensures PyText.OccursAt(Unreachable(hosts).message, hosts[i],
                            |"unable to connect to "| + PyText.Offset(hosts, ", ", i))
  {
    PyText.JoinListsEach(hosts, ", ", i);
    PyText.OccursAtPrepend("unable to connect to ", PyText.Join(hosts, ", "), hosts[i],
                           PyText.Offset(hosts, ", ", i));
  }
}
