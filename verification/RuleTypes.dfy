/** Rules, their validation, and when two destinations are the same. */
module RuleTypes {
  import opened Basics
  import opened Clock

  datatype ProtoPort = ProtoPort(protocol: string, port: nat)

  // None is a nil list, which differs from an empty one.
  type ProtoPorts = Option<seq<ProtoPort>>

  datatype TsuruAppRule = TsuruAppRule(appName: string, poolName: string)
  datatype TsuruJobRule = TsuruJobRule(jobName: string)
  datatype KubernetesServiceRule = KubernetesServiceRule(namespace: string, serviceName: string, clusterName: string)
  datatype ExternalDNSRule = ExternalDNSRule(name: string, ports: ProtoPorts, syncWholeNetwork: bool)
  datatype ExternalIPRule = ExternalIPRule(ip: string, ports: ProtoPorts, syncWholeNetwork: bool)
  datatype RpaasInstanceRule = RpaasInstanceRule(serviceName: string, instance: string)

  datatype RuleType = RuleType(
    tsuruApp: Option<TsuruAppRule>, tsuruJob: Option<TsuruJobRule>,
    kubernetesService: Option<KubernetesServiceRule>,
    externalDNS: Option<ExternalDNSRule>, externalIP: Option<ExternalIPRule>,
    rpaasInstance: Option<RpaasInstanceRule>)

  const NO_TYPE := RuleType(None, None, None, None, None, None)

  datatype Rule = Rule(
    ruleID: string, ruleName: string, source: RuleType, destination: RuleType,
    removed: bool, metadata: map<string, string>, created: Time, creator: string)

  datatype Invalid =
    | EmptyApp | BothAppAndPool | BadAppName | EmptyJob | BadJobName
    | EmptyRpaas | BadRpaasService | BadRpaasInstance
    | EmptyDNS | BadDNS | InternalDNS
    | EmptyIP | BadIP | IPv6 | LargeNetwork
    | KubernetesOff | NotExactlyOne | PortZero | BadProtocol(protocol: string)

  /** What a network parser says of an address: the length of its mask and of the address. */
  datatype Mask = Mask(ones: nat, bits: nat)

  /** The library functions that validation calls. */
  datatype Checks = Checks(
    dns1035Label: string -> bool, dns1123Subdomain: string -> bool, parseCIDR: string -> Option<Mask>)

  // ---------------------------------------------------------------- strings

  function ToUpperChar(c: char): char {
    if 'a' <= c <= 'z' then c - 'a' + 'A' else c
  }

  function ToLowerChar(c: char): char {
    if 'A' <= c <= 'Z' then c - 'A' + 'a' else c
  }

  function ToUpper(s: string): string {
    seq(|s|, i requires 0 <= i < |s| => ToUpperChar(s[i]))
  }

  function ToLower(s: string): string {
    seq(|s|, i requires 0 <= i < |s| => ToLowerChar(s[i]))
  }

  predicate NameChar(c: char) {
    'a' <= c <= 'z' || '0' <= c <= '9' || c == '-'
  }

  /** A lower-case letter followed by at most 39 letters, digits or dashes. */
  predicate ValidTsuruName(name: string) {
    && 1 <= |name| <= 40
    && 'a' <= name[0] <= 'z'
    && forall i :: 1 <= i < |name| ==> NameChar(name[i])
  }

  predicate HasSuffix(s: string, suffix: string) {
    |suffix| <= |s| && s[|s| - |suffix|..] == suffix
  }

  // ---------------------------------------------------------------- validation

  predicate ValidPort(p: ProtoPort) {
    p.port != 0 && ToUpper(p.protocol) in {"TCP", "UDP"}
  }

  predicate ValidPorts(ports: seq<ProtoPort>) {
    forall i :: 0 <= i < |ports| ==> ValidPort(ports[i])
  }

  function PortList(p: ProtoPorts): seq<ProtoPort> {
    if p.None? then [] else p.value
  }

  /** The protocols, in whatever case they are written. */
  lemma ProtocolsFold(p: string)
    ensures ToUpper(p) == "TCP" <==> |p| == 3 && p[0] in {'t', 'T'} && p[1] in {'c', 'C'} && p[2] in {'p', 'P'}
    ensures ToUpper(p) == "UDP" <==> |p| == 3 && p[0] in {'u', 'U'} && p[1] in {'d', 'D'} && p[2] in {'p', 'P'}
    ensures ToLower(p) == "tcp" <==> ToUpper(p) == "TCP"
    ensures ToLower(p) == "udp" <==> ToUpper(p) == "UDP"
  {
    assert |ToUpper(p)| == |p| == |ToLower(p)|;
    if |p| == 3 {
      assert ToUpper(p) == [ToUpperChar(p[0]), ToUpperChar(p[1]), ToUpperChar(p[2])];
      assert ToLower(p) == [ToLowerChar(p[0]), ToLowerChar(p[1]), ToLowerChar(p[2])];
    }
  }

  method ValidatePorts(ports: seq<ProtoPort>) returns (err: Option<Invalid>)
    ensures err.None? <==> ValidPorts(ports)
    // The same in full.
    ensures err.None? <==> forall i :: 0 <= i < |ports| ==> ports[i].port != 0 && ToUpper(ports[i].protocol) in {"TCP", "UDP"}
    ensures err == Some(PortZero) ==> exists i :: 0 <= i < |ports| && ports[i].port == 0
    ensures err.Some? && err != Some(PortZero) ==>
              exists i :: 0 <= i < |ports| && err == Some(BadProtocol(ports[i].protocol)) && ToUpper(ports[i].protocol) !in {"TCP", "UDP"}
  {
    var i := 0;
    while i < |ports|
      invariant 0 <= i <= |ports|
      invariant forall k :: 0 <= k < i ==> ValidPort(ports[k])
    {
      if ports[i].port == 0 {
        return Some(PortZero);
      }
      if ToUpper(ports[i].protocol) !in {"TCP", "UDP"} {
        return Some(BadProtocol(ports[i].protocol));
      }
      i := i + 1;
    }
    return None;
  }

  predicate ValidApp(a: TsuruAppRule) {
    && (a.appName == "" <==> a.poolName != "")
    && (a.appName != "" ==> ValidTsuruName(a.appName))
  }

  predicate ValidJob(j: TsuruJobRule) {
    ValidTsuruName(j.jobName)
  }

  predicate ValidRpaas(checks: Checks, r: RpaasInstanceRule) {
    && r.serviceName != "" && r.instance != ""
    && checks.dns1035Label(r.serviceName) && checks.dns1035Label(r.instance)
  }

  /** A leading dot stands for every name below. */
  function WithoutLeadingDot(name: string): string {
    if name != "" && name[0] == '.' then name[1..] else name
  }

  predicate ValidDNS(checks: Checks, d: ExternalDNSRule) {
    && d.name != ""
    && checks.dns1123Subdomain(WithoutLeadingDot(d.name))
    && !HasSuffix(d.name, "cluster.local")
    && ValidPorts(PortList(d.ports))
  }

  function WithMask(ip: string): string {
    if '/' in ip then ip else if ':' in ip then ip + "/128" else if '.' in ip then ip + "/32" else ip
  }

  predicate ValidIP(checks: Checks, d: ExternalIPRule) {
    && d.ip != ""
    && var mask := checks.parseCIDR(WithMask(d.ip));
    && mask.Some? && mask.value.bits != 128
    && (mask.value.bits == 32 && PortList(d.ports) == [] ==> mask.value.ones >= 22)
    && ValidPorts(PortList(d.ports))
  }

  /** Exactly one kind is set, it is not a Kubernetes service, and it is well formed. */
  predicate ValidType(checks: Checks, r: RuleType) {
    || (r == NO_TYPE.(tsuruApp := r.tsuruApp) && r.tsuruApp.Some? && ValidApp(r.tsuruApp.value))
    || (r == NO_TYPE.(tsuruJob := r.tsuruJob) && r.tsuruJob.Some? && ValidJob(r.tsuruJob.value))
    || (r == NO_TYPE.(rpaasInstance := r.rpaasInstance) && r.rpaasInstance.Some? && ValidRpaas(checks, r.rpaasInstance.value))
    || (r == NO_TYPE.(externalDNS := r.externalDNS) && r.externalDNS.Some? && ValidDNS(checks, r.externalDNS.value))
    || (r == NO_TYPE.(externalIP := r.externalIP) && r.externalIP.Some? && ValidIP(checks, r.externalIP.value))
  }

  /** The check in the order of the code, counting the kinds that are set. */
  method Validate(checks: Checks, r: RuleType) returns (err: Option<Invalid>)
    ensures err.None? <==> ValidType(checks, r)
    // Each error names a fault.
    ensures err == Some(EmptyApp) ==> r.tsuruApp.Some? && r.tsuruApp.value.appName == "" == r.tsuruApp.value.poolName
    ensures err == Some(BothAppAndPool) ==> r.tsuruApp.Some? && r.tsuruApp.value.appName != "" && r.tsuruApp.value.poolName != ""
    ensures err == Some(BadAppName) ==> r.tsuruApp.Some? && !ValidTsuruName(r.tsuruApp.value.appName)
    ensures err == Some(EmptyJob) ==> r.tsuruJob.Some? && r.tsuruJob.value.jobName == ""
    ensures err == Some(BadJobName) ==> r.tsuruJob.Some? && !ValidTsuruName(r.tsuruJob.value.jobName)
    ensures err == Some(EmptyRpaas) ==>
              r.rpaasInstance.Some? && (r.rpaasInstance.value.serviceName == "" || r.rpaasInstance.value.instance == "")
    ensures err == Some(BadRpaasService) ==> r.rpaasInstance.Some? && !checks.dns1035Label(r.rpaasInstance.value.serviceName)
    ensures err == Some(BadRpaasInstance) ==> r.rpaasInstance.Some? && !checks.dns1035Label(r.rpaasInstance.value.instance)
    ensures err == Some(EmptyDNS) ==> r.externalDNS.Some? && r.externalDNS.value.name == ""
    ensures err == Some(BadDNS) ==> r.externalDNS.Some? && !checks.dns1123Subdomain(WithoutLeadingDot(r.externalDNS.value.name))
    ensures err == Some(InternalDNS) ==> r.externalDNS.Some? && HasSuffix(r.externalDNS.value.name, "cluster.local")
    ensures err == Some(EmptyIP) ==> r.externalIP.Some? && r.externalIP.value.ip == ""
    ensures err in {Some(BadIP), Some(IPv6), Some(LargeNetwork)} ==> r.externalIP.Some? && r.externalIP.value.ip != ""
    ensures err == Some(KubernetesOff) ==> r.kubernetesService.Some?
    ensures err.Some? && (err == Some(NotExactlyOne) || err == Some(PortZero) || err.value.BadProtocol?) ==> r.kubernetesService.None?
  {
    var countSet := 0;
    if r.tsuruApp.Some? {
      var a := r.tsuruApp.value;
      if a.appName == "" && a.poolName == "" { return Some(EmptyApp); }
      if a.appName != "" && a.poolName != "" { return Some(BothAppAndPool); }
      if a.appName != "" && !ValidTsuruName(a.appName) { return Some(BadAppName); }
      countSet := countSet + 1;
    }
    if r.tsuruJob.Some? {
      if r.tsuruJob.value.jobName == "" { return Some(EmptyJob); }
      if !ValidTsuruName(r.tsuruJob.value.jobName) { return Some(BadJobName); }
      countSet := countSet + 1;
    }
    if r.rpaasInstance.Some? {
      var p := r.rpaasInstance.value;
      if p.serviceName == "" || p.instance == "" { return Some(EmptyRpaas); }
      if !checks.dns1035Label(p.serviceName) { return Some(BadRpaasService); }
      if !checks.dns1035Label(p.instance) { return Some(BadRpaasInstance); }
      countSet := countSet + 1;
    }
    var ports: seq<ProtoPort> := [];
    if r.externalDNS.Some? {
      var d := r.externalDNS.value;
      if d.name == "" { return Some(EmptyDNS); }
      ports := PortList(d.ports);
      if !checks.dns1123Subdomain(WithoutLeadingDot(d.name)) { return Some(BadDNS); }
      if HasSuffix(d.name, "cluster.local") { return Some(InternalDNS); }
      countSet := countSet + 1;
    }
    if r.externalIP.Some? {
      var d := r.externalIP.value;
      ports := PortList(d.ports);
      if d.ip == "" { return Some(EmptyIP); }
      var mask := checks.parseCIDR(WithMask(d.ip));
      if mask.None? { return Some(BadIP); }
      if mask.value.bits == 128 { return Some(IPv6); }
      if mask.value.ones < 22 && mask.value.bits == 32 && |PortList(d.ports)| == 0 { return Some(LargeNetwork); }
      countSet := countSet + 1;
    }
    if r.kubernetesService.Some? { return Some(KubernetesOff); }
    if countSet != 1 { return Some(NotExactlyOne); }
    err := ValidatePorts(ports);
  }

  /** The names of applications and jobs: a lower-case letter, and up to 39 lower-case
      letters, digits and dashes. */
  lemma NameInFull(name: string)
    ensures ValidTsuruName(name) <==>
              && 1 <= |name| <= 40 && 'a' <= name[0] <= 'z'
              && forall i :: 1 <= i < |name| ==> 'a' <= name[i] <= 'z' || '0' <= name[i] <= '9' || name[i] == '-'
  {
  }

  /** What is valid sets one kind and no other, and no Kubernetes service. */
  lemma OneKindIsSet(checks: Checks, r: RuleType)
    requires ValidType(checks, r)
    ensures r.kubernetesService == None
    ensures (if r.tsuruApp.Some? then 1 else 0) + (if r.tsuruJob.Some? then 1 else 0) + (if r.rpaasInstance.Some? then 1 else 0)
            + (if r.externalDNS.Some? then 1 else 0) + (if r.externalIP.Some? then 1 else 0) == 1
  {
  }

  /** When each kind, set alone, is valid, in full. */
  lemma KindsInFull(checks: Checks, a: TsuruAppRule, j: TsuruJobRule, p: RpaasInstanceRule)
    ensures ValidType(checks, NO_TYPE.(tsuruApp := Some(a))) <==>
              (a.appName == "" && a.poolName != "") || (a.appName != "" && a.poolName == "" && ValidTsuruName(a.appName))
    ensures ValidType(checks, NO_TYPE.(tsuruJob := Some(j))) <==> ValidTsuruName(j.jobName)
    ensures ValidType(checks, NO_TYPE.(rpaasInstance := Some(p))) <==>
              p.serviceName != "" && p.instance != "" && checks.dns1035Label(p.serviceName) && checks.dns1035Label(p.instance)
  {
  }

  lemma DNSInFull(checks: Checks, d: ExternalDNSRule)
    ensures ValidType(checks, NO_TYPE.(externalDNS := Some(d))) <==>
              && d.name != ""
              && checks.dns1123Subdomain(if d.name[0] == '.' then d.name[1..] else d.name)
              && !(|d.name| >= 13 && d.name[|d.name| - 13..] == "cluster.local")
              && (d.ports.Some? ==> forall i :: 0 <= i < |d.ports.value| ==>
                    d.ports.value[i].port != 0 && ToUpper(d.ports.value[i].protocol) in {"TCP", "UDP"})
  {
    assert ValidPorts(PortList(d.ports)) <==> (d.ports.Some? ==> ValidPorts(d.ports.value));
    if d.ports.Some? {
      assert forall i :: 0 <= i < |d.ports.value| ==>
        (ValidPort(d.ports.value[i]) <==> d.ports.value[i].port != 0 && ToUpper(d.ports.value[i].protocol) in {"TCP", "UDP"});
    }
  }

  lemma IPInFull(checks: Checks, d: ExternalIPRule)
    ensures var mask := checks.parseCIDR(
              if '/' in d.ip then d.ip else if ':' in d.ip then d.ip + "/128" else if '.' in d.ip then d.ip + "/32" else d.ip);
            ValidType(checks, NO_TYPE.(externalIP := Some(d))) <==>
              && d.ip != "" && mask.Some? && mask.value.bits != 128
              && !(mask.value.bits == 32 && mask.value.ones < 22 && (d.ports == None || d.ports == Some([])))
              && (d.ports.Some? ==> forall i :: 0 <= i < |d.ports.value| ==>
                    d.ports.value[i].port != 0 && ToUpper(d.ports.value[i].protocol) in {"TCP", "UDP"})
  {
    assert ValidPorts(PortList(d.ports)) <==> (d.ports.Some? ==> ValidPorts(d.ports.value));
    if d.ports.Some? {
      assert forall i :: 0 <= i < |d.ports.value| ==>
        (ValidPort(d.ports.value[i]) <==> d.ports.value[i].port != 0 && ToUpper(d.ports.value[i].protocol) in {"TCP", "UDP"});
    }
  }

  // ---------------------------------------------------------------- ports

  /** The numbers listed for one protocol, named in lower case. */
  function PortsOf(ports: seq<ProtoPort>, proto: string): set<nat> {
    set i | 0 <= i < |ports| && ToLower(ports[i].protocol) == proto :: ports[i].port
  }

  predicate PortsEqual(p: seq<ProtoPort>, q: seq<ProtoPort>) {
    && |p| == |q|
    && PortsOf(p, "tcp") == PortsOf(q, "tcp")
    && PortsOf(p, "udp") == PortsOf(q, "udp")
  }

  /** Collects the numbers of both protocols of one list. */
  method CollectPorts(ports: seq<ProtoPort>) returns (tcp: set<nat>, udp: set<nat>)
    ensures tcp == PortsOf(ports, "tcp") && udp == PortsOf(ports, "udp")
  {
    tcp, udp := {}, {};
    var i := 0;
    while i < |ports|
      invariant 0 <= i <= |ports|
      invariant tcp == PortsOf(ports[..i], "tcp") && udp == PortsOf(ports[..i], "udp")
    {
      PortsOfPush(ports[..i], ports[i], "tcp");
      PortsOfPush(ports[..i], ports[i], "udp");
      assert ports[..i + 1] == ports[..i] + [ports[i]];
      if ToLower(ports[i].protocol) == "tcp" {
        tcp := tcp + {ports[i].port};
      }
      if ToLower(ports[i].protocol) == "udp" {
        udp := udp + {ports[i].port};
      }
      i := i + 1;
    }
    assert ports[..i] == ports;
  }

  lemma PortsOfPush(ports: seq<ProtoPort>, p: ProtoPort, proto: string)
    ensures PortsOf(ports + [p], proto) == PortsOf(ports, proto) + (if ToLower(p.protocol) == proto then {p.port} else {})
  {
    var all := ports + [p];
    assert all[|ports|] == p;
    forall n | n in PortsOf(ports, proto) ensures n in PortsOf(all, proto) {
      var i :| 0 <= i < |ports| && ToLower(ports[i].protocol) == proto && ports[i].port == n;
      assert all[i] == ports[i];
    }
  }

  method ProtoPortsEquals(p: ProtoPorts, other: ProtoPorts) returns (equal: bool)
    ensures equal == PortsEqual(PortList(p), PortList(other))
    // The same in full.
    ensures equal <==>
              var ps, qs := if p.Some? then p.value else [], if other.Some? then other.value else [];
              && |ps| == |qs|
              && (set i | 0 <= i < |ps| && ToLower(ps[i].protocol) == "tcp" :: ps[i].port)
                 == (set i | 0 <= i < |qs| && ToLower(qs[i].protocol) == "tcp" :: qs[i].port)
              && (set i | 0 <= i < |ps| && ToLower(ps[i].protocol) == "udp" :: ps[i].port)
                 == (set i | 0 <= i < |qs| && ToLower(qs[i].protocol) == "udp" :: qs[i].port)
  {
    if |PortList(p)| != |PortList(other)| {
      return false;
    }
    var originTCP, originUDP := CollectPorts(PortList(p));
    var otherTCP, otherUDP := CollectPorts(PortList(other));
    if originTCP != otherTCP {
      return false;
    }
    return originUDP == otherUDP;
  }

  /** The (protocol, number) pairs of a list, the protocol in lower case. */
  function PortPairs(ports: seq<ProtoPort>): set<(string, nat)> {
    set i | 0 <= i < |ports| :: (ToLower(ports[i].protocol), ports[i].port)
  }

  lemma ValidPairs(ports: seq<ProtoPort>)
    requires ValidPorts(ports)
    ensures forall x :: x in PortPairs(ports) <==>
              (x.0 == "tcp" && x.1 in PortsOf(ports, "tcp")) || (x.0 == "udp" && x.1 in PortsOf(ports, "udp"))
  {
    forall i | 0 <= i < |ports| ensures ToLower(ports[i].protocol) in {"tcp", "udp"} {
      assert ValidPort(ports[i]);
      ProtocolsFold(ports[i].protocol);
    }
  }

  /** For validated ports, equality is exactly: equally many entries and the same
      set of pairs. It is therefore an equivalence. */
  lemma PortsEqualIsSamePairs(p: seq<ProtoPort>, q: seq<ProtoPort>)
    requires ValidPorts(p) && ValidPorts(q)
    ensures PortsEqual(p, q) <==> |p| == |q| && PortPairs(p) == PortPairs(q)
  {
    ValidPairs(p);
    ValidPairs(q);
    if PortPairs(p) == PortPairs(q) {
      forall n ensures n in PortsOf(p, "tcp") <==> n in PortsOf(q, "tcp") {
        assert n in PortsOf(p, "tcp") <==> ("tcp", n) in PortPairs(p);
        assert n in PortsOf(q, "tcp") <==> ("tcp", n) in PortPairs(q);
      }
      forall n ensures n in PortsOf(p, "udp") <==> n in PortsOf(q, "udp") {
        assert n in PortsOf(p, "udp") <==> ("udp", n) in PortPairs(p);
        assert n in PortsOf(q, "udp") <==> ("udp", n) in PortPairs(q);
      }
    }
  }

  lemma SameElementsSamePorts(p: seq<ProtoPort>, q: seq<ProtoPort>, proto: string)
    requires forall x :: x in p ==> x in q
    ensures PortsOf(p, proto) <= PortsOf(q, proto)
  {
    forall n | n in PortsOf(p, proto) ensures n in PortsOf(q, proto) {
      var i :| 0 <= i < |p| && ToLower(p[i].protocol) == proto && p[i].port == n;
      assert p[i] in q;
      var j :| 0 <= j < |q| && q[j] == p[i];
    }
  }

  /** The order of the entries does not matter. */
  lemma PortsEqualUpToOrder(p: seq<ProtoPort>, q: seq<ProtoPort>)
    requires multiset(p) == multiset(q)
    ensures PortsEqual(p, q)
  {
    assert |p| == |multiset(p)| == |multiset(q)| == |q|;
    forall x ensures x in p <==> x in q {
      assert x in p <==> x in multiset(p);
      assert x in q <==> x in multiset(q);
    }
    SameElementsSamePorts(p, q, "tcp");
    SameElementsSamePorts(q, p, "tcp");
    SameElementsSamePorts(p, q, "udp");
    SameElementsSamePorts(q, p, "udp");
  }

  // ---------------------------------------------------------------- destinations

  predicate DNSEquals(t: ExternalDNSRule, other: Option<ExternalDNSRule>) {
    && other.Some?
    && t.name == other.value.name
    && t.syncWholeNetwork == other.value.syncWholeNetwork
    && (t.ports.Some? ==> PortsEqual(t.ports.value, PortList(other.value.ports)))
  }

  predicate IPEquals(t: ExternalIPRule, other: Option<ExternalIPRule>) {
    && other.Some?
    && t.ip == other.value.ip
    && t.syncWholeNetwork == other.value.syncWholeNetwork
    && (t.ports.Some? ==> PortsEqual(t.ports.value, PortList(other.value.ports)))
  }

  /** The comparison of the code: only the kinds set in r count, a job is never
      compared, and one missing argument makes it true. */
  predicate Equals(r: Option<RuleType>, other: Option<RuleType>) {
    r.Some? && other.Some? ==>
      && (r.value.tsuruApp.Some? ==> r.value.tsuruApp == other.value.tsuruApp)
      && (r.value.kubernetesService.Some? ==> r.value.kubernetesService == other.value.kubernetesService)
      && (r.value.externalDNS.Some? ==> DNSEquals(r.value.externalDNS.value, other.value.externalDNS))
      && (r.value.externalIP.Some? ==> IPEquals(r.value.externalIP.value, other.value.externalIP))
      && (r.value.rpaasInstance.Some? ==> r.value.rpaasInstance == other.value.rpaasInstance)
  }

  /** What a validated destination denotes: the kind and its data, ports as a set of pairs. */
  datatype Destination =
    | ToApp(app: TsuruAppRule)
    | ToJob(job: TsuruJobRule)
    | ToRpaas(rpaas: RpaasInstanceRule)
    | ToDNS(name: string, whole: bool, count: nat, pairs: set<(string, nat)>)
    | ToIP(ip: string, whole: bool, count: nat, pairs: set<(string, nat)>)
    | Nowhere

  function Denotes(r: RuleType): Destination {
    if r.tsuruApp.Some? then ToApp(r.tsuruApp.value)
    else if r.tsuruJob.Some? then ToJob(r.tsuruJob.value)
    else if r.rpaasInstance.Some? then ToRpaas(r.rpaasInstance.value)
    else if r.externalDNS.Some? then
      var d := r.externalDNS.value;
      ToDNS(d.name, d.syncWholeNetwork, |PortList(d.ports)|, PortPairs(PortList(d.ports)))
    else if r.externalIP.Some? then
      var d := r.externalIP.value;
      ToIP(d.ip, d.syncWholeNetwork, |PortList(d.ports)|, PortPairs(PortList(d.ports)))
    else Nowhere
  }

  /** A rule read back from the store has no nil port lists. */
  predicate PortsDecoded(r: RuleType) {
    && (r.externalDNS.Some? ==> r.externalDNS.value.ports.Some?)
    && (r.externalIP.Some? ==> r.externalIP.value.ports.Some?)
  }

  function Decoded(r: RuleType): RuleType {
    r.(externalDNS := match r.externalDNS case None => None case Some(d) => Some(d.(ports := Some(PortList(d.ports)))),
       externalIP := match r.externalIP case None => None case Some(d) => Some(d.(ports := Some(PortList(d.ports)))))
  }

  /** Reading back changes nothing but nil port lists, which come back empty. */
  lemma DecodedInFull(r: RuleType)
    ensures Decoded(r) == r.(externalDNS := Decoded(r).externalDNS, externalIP := Decoded(r).externalIP)
    ensures r.externalDNS.None? ==> Decoded(r).externalDNS == None
    ensures r.externalIP.None? ==> Decoded(r).externalIP == None
    ensures r.externalDNS.Some? ==>
              var d := r.externalDNS.value;
              Decoded(r).externalDNS == Some(if d.ports == None then d.(ports := Some([])) else d)
    ensures r.externalIP.Some? ==>
              var d := r.externalIP.value;
              Decoded(r).externalIP == Some(if d.ports == None then d.(ports := Some([])) else d)
  {
  }

  lemma DecodedDenotesTheSame(checks: Checks, r: RuleType)
    ensures PortsDecoded(Decoded(r)) && Denotes(Decoded(r)) == Denotes(r)
    ensures ValidType(checks, r) ==> ValidType(checks, Decoded(r))
  {
  }

  /** The exact meaning of the comparison for validated destinations whose
      receiver was read from the store: it finds the same destination, except
      that a job receiver equals every destination. */
  lemma EqualsMeansSameDestination(checks: Checks, r: RuleType, other: RuleType)
    requires ValidType(checks, r) && ValidType(checks, other) && PortsDecoded(r)
    ensures Equals(Some(r), Some(other)) <==> r.tsuruJob.Some? || Denotes(r) == Denotes(other)
  {
    if r.externalDNS.Some? && other.externalDNS.Some? {
      PortsEqualIsSamePairs(r.externalDNS.value.ports.value, PortList(other.externalDNS.value.ports));
    }
    if r.externalIP.Some? && other.externalIP.Some? {
      PortsEqualIsSamePairs(r.externalIP.value.ports.value, PortList(other.externalIP.value.ports));
    }
  }

  /** Every entry of one list is in the other, with its protocol in any case. */
  predicate PortsWithin(p: seq<ProtoPort>, q: seq<ProtoPort>) {
    forall x :: x in p ==> exists y :: y in q && y.port == x.port && ToLower(y.protocol) == ToLower(x.protocol)
  }

  lemma PairsWithin(p: seq<ProtoPort>, q: seq<ProtoPort>)
    ensures PortPairs(p) <= PortPairs(q) <==>
              forall x :: x in p ==> exists y :: y in q && y.port == x.port && ToLower(y.protocol) == ToLower(x.protocol)
  {
    if PortPairs(p) <= PortPairs(q) {
      forall x | x in p ensures exists y :: y in q && y.port == x.port && ToLower(y.protocol) == ToLower(x.protocol) {
        assert (ToLower(x.protocol), x.port) in PortPairs(p);
        var j :| 0 <= j < |q| && (ToLower(q[j].protocol), q[j].port) == (ToLower(x.protocol), x.port);
        assert q[j] in q;
      }
    }
    if PortsWithin(p, q) {
      forall pair | pair in PortPairs(p) ensures pair in PortPairs(q) {
        var i :| 0 <= i < |p| && (ToLower(p[i].protocol), p[i].port) == pair;
        assert p[i] in p;
        var y :| y in q && y.port == p[i].port && ToLower(y.protocol) == ToLower(p[i].protocol);
        var j :| 0 <= j < |q| && q[j] == y;
      }
    }
  }

  /** The comparison in full, for validated destinations whose receiver was read
      from the store, kind by kind. */
  lemma EqualsInFull(checks: Checks, r: RuleType, other: RuleType)
    requires ValidType(checks, r) && ValidType(checks, other) && PortsDecoded(r)
    ensures r.tsuruApp.Some? ==> (Equals(Some(r), Some(other)) <==> r.tsuruApp == other.tsuruApp)
    ensures r.tsuruJob.Some? ==> Equals(Some(r), Some(other))
    ensures r.rpaasInstance.Some? ==> (Equals(Some(r), Some(other)) <==> r.rpaasInstance == other.rpaasInstance)
    ensures r.externalDNS.Some? ==>
              var d, e := r.externalDNS.value, other.externalDNS;
              Equals(Some(r), Some(other)) <==>
                && e.Some? && d.name == e.value.name && d.syncWholeNetwork == e.value.syncWholeNetwork
                && |d.ports.value| == |PortList(e.value.ports)|
                && PortsWithin(d.ports.value, PortList(e.value.ports)) && PortsWithin(PortList(e.value.ports), d.ports.value)
    ensures r.externalIP.Some? ==>
              var d, e := r.externalIP.value, other.externalIP;
              Equals(Some(r), Some(other)) <==>
                && e.Some? && d.ip == e.value.ip && d.syncWholeNetwork == e.value.syncWholeNetwork
                && |d.ports.value| == |PortList(e.value.ports)|
                && PortsWithin(d.ports.value, PortList(e.value.ports)) && PortsWithin(PortList(e.value.ports), d.ports.value)
    ensures Equals(None, Some(r)) && Equals(Some(r), None)
  {
    if r.externalDNS.Some? && other.externalDNS.Some? {
      PortsInFull(r.externalDNS.value.ports.value, PortList(other.externalDNS.value.ports));
    }
    if r.externalIP.Some? && other.externalIP.Some? {
      PortsInFull(r.externalIP.value.ports.value, PortList(other.externalIP.value.ports));
    }
  }

  lemma PortsInFull(p: seq<ProtoPort>, q: seq<ProtoPort>)
    requires ValidPorts(p) && ValidPorts(q)
    ensures PortsEqual(p, q) <==> |p| == |q| && PortsWithin(p, q) && PortsWithin(q, p)
  {
    PortsEqualIsSamePairs(p, q);
    PairsWithin(p, q);
    PairsWithin(q, p);
    assert PortPairs(p) == PortPairs(q) <==> PortPairs(p) <= PortPairs(q) && PortPairs(q) <= PortPairs(p);
  }

  /** It is symmetric exactly when jobs are on both sides or on neither. */
  lemma EqualsIsSymmetricIff(checks: Checks, r: RuleType, other: RuleType)
    requires ValidType(checks, r) && ValidType(checks, other) && PortsDecoded(r) && PortsDecoded(other)
    ensures (Equals(Some(r), Some(other)) <==> Equals(Some(other), Some(r)))
       <==> (r.tsuruJob.Some? <==> other.tsuruJob.Some?)
  {
    EqualsMeansSameDestination(checks, r, other);
    EqualsMeansSameDestination(checks, other, r);
  }

  /** Away from jobs, and on rules read from the store, it is an equivalence. */
  lemma EqualsIsAnEquivalence(checks: Checks, a: RuleType, b: RuleType, c: RuleType)
    requires ValidType(checks, a) && ValidType(checks, b) && ValidType(checks, c)
    requires PortsDecoded(a) && PortsDecoded(b) && PortsDecoded(c)
    requires a.tsuruJob.None? && b.tsuruJob.None? && c.tsuruJob.None?
    ensures Equals(Some(a), Some(a))
    ensures Equals(Some(a), Some(b)) ==> Equals(Some(b), Some(a))
    ensures Equals(Some(a), Some(b)) && Equals(Some(b), Some(c)) ==> Equals(Some(a), Some(c))
  {
    EqualsMeansSameDestination(checks, a, a);
    EqualsMeansSameDestination(checks, a, b);
    EqualsMeansSameDestination(checks, b, a);
    EqualsMeansSameDestination(checks, b, c);
    EqualsMeansSameDestination(checks, a, c);
  }

  /** The ports that a destination is restricted to; only names and addresses have any. */
  function PortsOfType(r: RuleType): seq<ProtoPort> {
    if r.externalDNS.Some? then PortList(r.externalDNS.value.ports)
    else if r.externalIP.Some? then PortList(r.externalIP.value.ports)
    else []
  }

  /** A destination without ports is open to all of them, and, away from jobs,
      never equals one that is restricted to some. */
  lemma OpenNeverEqualsRestricted(checks: Checks, r: RuleType, other: RuleType)
    requires ValidType(checks, r) && ValidType(checks, other) && PortsDecoded(r) && r.tsuruJob.None?
    requires PortsOfType(r) == [] <==> PortsOfType(other) != []
    ensures !Equals(Some(r), Some(other))
  {
    EqualsMeansSameDestination(checks, r, other);
  }

  /** A receiver with nil ports matches any ports of the other side. */
  lemma NilPortsMatchAnything(t: ExternalDNSRule, other: ExternalDNSRule)
    requires t.ports.None?
    ensures DNSEquals(t, Some(other)) <==> t.name == other.name && t.syncWholeNetwork == other.syncWholeNetwork
  {
  }
}
