/** Finding rules by an example. */
module RuleFilter {
  import opened Basics
  import opened RuleTypes

  /** An empty string of the filter matches any string. */
  predicate NameMatch(value: string, filter: string) {
    filter != "" ==> filter == value
  }

  predicate PortsMatch(value: ProtoPorts, filter: ProtoPorts) {
    filter.Some? ==> filter == value
  }

  /** The kinds that the filter sets must be set in the rule and agree with it, but
      for an rpaas instance, a whole-network flag and a cluster name: nothing looks
      at these. */
  predicate RuleTypeMatch(r: RuleType, filter: RuleType) {
    && (filter.externalDNS.Some? ==>
          && r.externalDNS.Some?
          && NameMatch(r.externalDNS.value.name, filter.externalDNS.value.name)
          && PortsMatch(r.externalDNS.value.ports, filter.externalDNS.value.ports))
    && (filter.externalIP.Some? ==>
          && r.externalIP.Some?
          && NameMatch(r.externalIP.value.ip, filter.externalIP.value.ip)
          && PortsMatch(r.externalIP.value.ports, filter.externalIP.value.ports))
    && (filter.tsuruApp.Some? ==>
          && r.tsuruApp.Some?
          && NameMatch(r.tsuruApp.value.appName, filter.tsuruApp.value.appName)
          && NameMatch(r.tsuruApp.value.poolName, filter.tsuruApp.value.poolName))
    && (filter.tsuruJob.Some? ==>
          && r.tsuruJob.Some?
          && NameMatch(r.tsuruJob.value.jobName, filter.tsuruJob.value.jobName))
    && (filter.kubernetesService.Some? ==>
          && r.kubernetesService.Some?
          && NameMatch(r.kubernetesService.value.serviceName, filter.kubernetesService.value.serviceName)
          && NameMatch(r.kubernetesService.value.namespace, filter.kubernetesService.value.namespace))
  }

  predicate RuleMatch(r: Rule, filter: Rule) {
    RuleTypeMatch(r.source, filter.source) && RuleTypeMatch(r.destination, filter.destination)
  }

  predicate Includes(m: map<string, string>, part: map<string, string>) {
    forall k :: k in part ==> k in m && m[k] == part[k]
  }

  /** What the query on the collection asks for. */
  predicate Selected(r: Rule, filter: Rule) {
    Includes(r.metadata, filter.metadata) && NameMatch(r.creator, filter.creator)
  }

  predicate Found(r: Rule, filter: Rule) {
    Selected(r, filter) && RuleMatch(r, filter)
  }

  function Filter(rules: seq<Rule>, keep: Rule -> bool): seq<Rule> {
    if rules == [] then []
    else Filter(rules[..|rules| - 1], keep) + (if keep(rules[|rules| - 1]) then [rules[|rules| - 1]] else [])
  }

  /** One thing that a rule type may say and a filter may ask for. */
  datatype Fact =
    | HasDNS | DNSName(name: string) | DNSPorts(ports: seq<ProtoPort>) | WholeDNS
    | HasIP | Address(ip: string) | IPPorts(ports: seq<ProtoPort>) | WholeIP
    | HasApp | AppName(name: string) | PoolName(name: string)
    | HasJob | JobName(name: string)
    | HasService | ServiceName(name: string) | Namespace(name: string) | ClusterName(name: string)
    | HasRpaas | RpaasService(name: string) | RpaasInstance(name: string)

  /** A name that is empty, a flag that is off and a port list that is nil say nothing. */
  predicate Tells(r: RuleType, fact: Fact) {
    match fact
    case HasDNS => r.externalDNS.Some?
    case DNSName(n) => r.externalDNS.Some? && n != "" && r.externalDNS.value.name == n
    case DNSPorts(p) => r.externalDNS.Some? && r.externalDNS.value.ports == Some(p)
    case WholeDNS => r.externalDNS.Some? && r.externalDNS.value.syncWholeNetwork
    case HasIP => r.externalIP.Some?
    case Address(a) => r.externalIP.Some? && a != "" && r.externalIP.value.ip == a
    case IPPorts(p) => r.externalIP.Some? && r.externalIP.value.ports == Some(p)
    case WholeIP => r.externalIP.Some? && r.externalIP.value.syncWholeNetwork
    case HasApp => r.tsuruApp.Some?
    case AppName(n) => r.tsuruApp.Some? && n != "" && r.tsuruApp.value.appName == n
    case PoolName(n) => r.tsuruApp.Some? && n != "" && r.tsuruApp.value.poolName == n
    case HasJob => r.tsuruJob.Some?
    case JobName(n) => r.tsuruJob.Some? && n != "" && r.tsuruJob.value.jobName == n
    case HasService => r.kubernetesService.Some?
    case ServiceName(n) => r.kubernetesService.Some? && n != "" && r.kubernetesService.value.serviceName == n
    case Namespace(n) => r.kubernetesService.Some? && n != "" && r.kubernetesService.value.namespace == n
    case ClusterName(n) => r.kubernetesService.Some? && n != "" && r.kubernetesService.value.clusterName == n
    case HasRpaas => r.rpaasInstance.Some?
    case RpaasService(n) => r.rpaasInstance.Some? && n != "" && r.rpaasInstance.value.serviceName == n
    case RpaasInstance(n) => r.rpaasInstance.Some? && n != "" && r.rpaasInstance.value.instance == n
  }

  ghost predicate TellsAll(r: RuleType, filter: RuleType) {
    forall fact :: Tells(filter, fact) ==> Tells(r, fact)
  }

  /** The filter asks for something that the comparison never looks at. */
  predicate AsksInVain(filter: RuleType) {
    || filter.rpaasInstance.Some?
    || (filter.externalDNS.Some? && filter.externalDNS.value.syncWholeNetwork)
    || (filter.externalIP.Some? && filter.externalIP.value.syncWholeNetwork)
    || (filter.kubernetesService.Some? && filter.kubernetesService.value.clusterName != "")
  }

  /** The filter without what the comparison does not look at. */
  function Heeded(filter: RuleType): RuleType {
    filter.(
      rpaasInstance := None,
      externalDNS := match filter.externalDNS case None => None case Some(d) => Some(d.(syncWholeNetwork := false)),
      externalIP := match filter.externalIP case None => None case Some(d) => Some(d.(syncWholeNetwork := false)),
      kubernetesService := match filter.kubernetesService case None => None case Some(k) => Some(k.(clusterName := "")))
  }

  /** A rule that says all that the filter says matches it. The converse holds for
      every filter that asks for nothing in vain. */
  lemma MatchIsInclusion(r: RuleType, filter: RuleType)
    ensures TellsAll(r, filter) ==> RuleTypeMatch(r, filter)
    ensures !AsksInVain(filter) && RuleTypeMatch(r, filter) ==> TellsAll(r, filter)
  {
    if TellsAll(r, filter) {
      DNSAndIPMatch(r, filter);
      OthersMatch(r, filter);
    }
  }

  /** Matching means saying all that the filter says, for every rule, exactly when
      the filter asks for nothing in vain. */
  lemma MatchIsInclusionIff(filter: RuleType)
    ensures (forall r :: RuleTypeMatch(r, filter) <==> TellsAll(r, filter)) <==> !AsksInVain(filter)
  {
    if AsksInVain(filter) {
      var r := Heeded(filter);
      assert RuleTypeMatch(r, filter);
      VainFactIsNotHeeded(filter);
      assert !TellsAll(r, filter);
    } else {
      forall r ensures RuleTypeMatch(r, filter) <==> TellsAll(r, filter) {
        MatchIsInclusion(r, filter);
      }
    }
  }

  lemma VainFactIsNotHeeded(filter: RuleType)
    requires AsksInVain(filter)
    ensures exists fact :: Tells(filter, fact) && !Tells(Heeded(filter), fact)
  {
    if filter.rpaasInstance.Some? {
      assert Tells(filter, HasRpaas) && !Tells(Heeded(filter), HasRpaas);
    } else if filter.externalDNS.Some? && filter.externalDNS.value.syncWholeNetwork {
      assert Tells(filter, WholeDNS) && !Tells(Heeded(filter), WholeDNS);
    } else if filter.externalIP.Some? && filter.externalIP.value.syncWholeNetwork {
      assert Tells(filter, WholeIP) && !Tells(Heeded(filter), WholeIP);
    } else {
      var cluster := ClusterName(filter.kubernetesService.value.clusterName);
      assert Tells(filter, cluster) && !Tells(Heeded(filter), cluster);
    }
  }

  /** What the comparison decides for any filter: the rule says all of the part it heeds. */
  lemma MatchHeeds(r: RuleType, filter: RuleType)
    ensures RuleTypeMatch(r, filter) <==> TellsAll(r, Heeded(filter))
  {
    MatchIsInclusion(r, Heeded(filter));
    assert RuleTypeMatch(r, filter) <==> RuleTypeMatch(r, Heeded(filter));
  }

  /** A filter that names only an rpaas instance as its destination finds every rule. */
  lemma RpaasFilterFindsEverything(r: Rule, service: string, instance: string)
    ensures var destination := NO_TYPE.(rpaasInstance := Some(RpaasInstanceRule(service, instance)));
            && Found(r, Rule("", "", NO_TYPE, destination, false, map[], 0, ""))
            && (r.destination.rpaasInstance == None ==> !TellsAll(r.destination, destination))
  {
    var destination := NO_TYPE.(rpaasInstance := Some(RpaasInstanceRule(service, instance)));
    assert Tells(destination, HasRpaas);
  }

  lemma DNSAndIPMatch(r: RuleType, filter: RuleType)
    requires TellsAll(r, filter)
    ensures RuleTypeMatch(r, NO_TYPE.(externalDNS := filter.externalDNS, externalIP := filter.externalIP))
  {
    if filter.externalDNS.Some? {
      var f := filter.externalDNS.value;
      assert Tells(filter, HasDNS);
      assert f.name != "" ==> Tells(filter, DNSName(f.name));
      assert f.ports.Some? ==> Tells(filter, DNSPorts(f.ports.value));
    }
    if filter.externalIP.Some? {
      var f := filter.externalIP.value;
      assert Tells(filter, HasIP);
      assert f.ip != "" ==> Tells(filter, Address(f.ip));
      assert f.ports.Some? ==> Tells(filter, IPPorts(f.ports.value));
    }
  }

  lemma OthersMatch(r: RuleType, filter: RuleType)
    requires TellsAll(r, filter)
    ensures RuleTypeMatch(r, filter.(externalDNS := None, externalIP := None))
  {
    if filter.tsuruApp.Some? {
      var f := filter.tsuruApp.value;
      assert Tells(filter, HasApp);
      assert f.appName != "" ==> Tells(filter, AppName(f.appName));
      assert f.poolName != "" ==> Tells(filter, PoolName(f.poolName));
    }
    if filter.tsuruJob.Some? {
      var f := filter.tsuruJob.value;
      assert Tells(filter, HasJob);
      assert f.jobName != "" ==> Tells(filter, JobName(f.jobName));
    }
    if filter.kubernetesService.Some? {
      var f := filter.kubernetesService.value;
      assert Tells(filter, HasService);
      assert f.serviceName != "" ==> Tells(filter, ServiceName(f.serviceName));
      assert f.namespace != "" ==> Tells(filter, Namespace(f.namespace));
    }
  }

  /** What a filter asks of a rule type that sets one kind only, in full. */
  lemma OneKindInFull(r: RuleType, d: ExternalDNSRule, i: ExternalIPRule, a: TsuruAppRule, j: TsuruJobRule, k: KubernetesServiceRule)
    ensures RuleTypeMatch(r, NO_TYPE)
    ensures RuleTypeMatch(r, NO_TYPE.(externalDNS := Some(d))) <==>
              && r.externalDNS.Some? && (d.name == "" || d.name == r.externalDNS.value.name)
              && (d.ports == None || d.ports == r.externalDNS.value.ports)
    ensures RuleTypeMatch(r, NO_TYPE.(externalIP := Some(i))) <==>
              && r.externalIP.Some? && (i.ip == "" || i.ip == r.externalIP.value.ip)
              && (i.ports == None || i.ports == r.externalIP.value.ports)
    ensures RuleTypeMatch(r, NO_TYPE.(tsuruApp := Some(a))) <==>
              && r.tsuruApp.Some? && (a.appName == "" || a.appName == r.tsuruApp.value.appName)
              && (a.poolName == "" || a.poolName == r.tsuruApp.value.poolName)
    ensures RuleTypeMatch(r, NO_TYPE.(tsuruJob := Some(j))) <==>
              r.tsuruJob.Some? && (j.jobName == "" || j.jobName == r.tsuruJob.value.jobName)
    ensures RuleTypeMatch(r, NO_TYPE.(kubernetesService := Some(k))) <==>
              && r.kubernetesService.Some? && (k.serviceName == "" || k.serviceName == r.kubernetesService.value.serviceName)
              && (k.namespace == "" || k.namespace == r.kubernetesService.value.namespace)
  {
  }

  /** A filter asks for all of its kinds, each on its own. */
  lemma MatchIsOfEachKind(r: RuleType, f: RuleType)
    ensures RuleTypeMatch(r, f) <==>
              && RuleTypeMatch(r, NO_TYPE.(externalDNS := f.externalDNS)) && RuleTypeMatch(r, NO_TYPE.(externalIP := f.externalIP))
              && RuleTypeMatch(r, NO_TYPE.(tsuruApp := f.tsuruApp)) && RuleTypeMatch(r, NO_TYPE.(tsuruJob := f.tsuruJob))
              && RuleTypeMatch(r, NO_TYPE.(kubernetesService := f.kubernetesService))
  {
  }

  /** What a rule must be for a filter to find it: its source and its destination
      say all that the filter heeds of them, its metadata has all of the filter's,
      and the creator is the filter's if that names one. */
  lemma FoundInFull(r: Rule, f: Rule)
    ensures Found(r, f) <==>
              && TellsAll(r.source, Heeded(f.source)) && TellsAll(r.destination, Heeded(f.destination))
              && (forall k :: k in f.metadata ==> k in r.metadata && r.metadata[k] == f.metadata[k])
              && (f.creator == "" || f.creator == r.creator)
  {
    MatchHeeds(r.source, f.source);
    MatchHeeds(r.destination, f.destination);
  }

  lemma {:induction false} FilterInOrder(rules: seq<Rule>, keep: Rule -> bool) returns (at: seq<nat>)
    ensures KeptInOrder(rules, keep, Filter(rules, keep), at)
  {
    if rules == [] {
      at := [];
    } else {
      var n := |rules| - 1;
      at := FilterInOrder(rules[..n], keep);
      KeptPush(rules[..n], keep, Filter(rules[..n], keep), at, rules[n]);
      assert rules == rules[..n] + [rules[n]];
      if keep(rules[n]) {
        at := at + [n];
      } else {
        assert Filter(rules, keep) == Filter(rules[..n], keep);
      }
    }
  }

  /** The rules of the collection, in the order of their ids, that the filter finds;
      at are their positions. */
  method FindByRule(all: seq<Rule>, filter: Rule) returns (ret: seq<Rule>, ghost at: seq<nat>)
    ensures ret == Filter(all, r => Found(r, filter))
    // The same in full.
    ensures |at| == |ret| && forall m, n :: 0 <= m < n < |at| ==> at[m] < at[n]
    ensures forall m :: 0 <= m < |at| ==> at[m] < |all| && ret[m] == all[at[m]]
    ensures forall i: nat :: i < |all| ==>
              (i in at <==>
                 && TellsAll(all[i].source, Heeded(filter.source)) && TellsAll(all[i].destination, Heeded(filter.destination))
                 && (forall k :: k in filter.metadata ==> k in all[i].metadata && all[i].metadata[k] == filter.metadata[k])
                 && (filter.creator == "" || filter.creator == all[i].creator))
  {
    ret := [];
    var i := 0;
    while i < |all|
      invariant 0 <= i <= |all|
      invariant ret == Filter(all[..i], r => Found(r, filter))
    {
      assert all[..i + 1][..i] == all[..i];
      if Selected(all[i], filter) && RuleMatch(all[i], filter) {
        ret := ret + [all[i]];
      }
      i := i + 1;
    }
    assert all[..i] == all;
    at := FilterInOrder(all, r => Found(r, filter));
    forall k | 0 <= k < |all| {
      FoundInFull(all[k], filter);
    }
  }

  lemma MatchIsReflexive(r: Rule)
    ensures Found(r, r)
  {
  }

  lemma TypeMatchIsTransitive(r: RuleType, f: RuleType, g: RuleType)
    requires RuleTypeMatch(r, f) && RuleTypeMatch(f, g)
    ensures RuleTypeMatch(r, g)
  {
    MatchHeeds(r, f);
    MatchHeeds(f, g);
    MatchHeeds(r, g);
  }

  /** Whatever a filter finds is found by every filter that finds that filter. */
  lemma FoundIsTransitive(r: Rule, f: Rule, g: Rule)
    requires Found(r, f) && Found(f, g)
    ensures Found(r, g)
  {
    TypeMatchIsTransitive(r.source, f.source, g.source);
    TypeMatchIsTransitive(r.destination, f.destination, g.destination);
  }

  /** One filter refines another, on every collection, exactly when the coarser
      one finds it: a filter is itself a rule, and the most general it finds. */
  lemma RefinesIffFound(fine: Rule, coarse: Rule)
    ensures Found(fine, coarse) <==> forall r :: Found(r, fine) ==> Found(r, coarse)
  {
    if Found(fine, coarse) {
      forall r | Found(r, fine) ensures Found(r, coarse) {
        FoundIsTransitive(r, fine, coarse);
      }
    } else {
      MatchIsReflexive(fine);
    }
  }

  lemma {:induction false} FilterTwice(rules: seq<Rule>, p: Rule -> bool, q: Rule -> bool)
    requires forall r :: r in rules && q(r) ==> p(r)
    ensures Filter(Filter(rules, p), q) == Filter(rules, q)
  {
    if rules != [] {
      var n := |rules| - 1;
      FilterTwice(rules[..n], p, q);
      if p(rules[n]) {
        assert Filter(rules, p)[..|Filter(rules, p)| - 1] == Filter(rules[..n], p);
      } else {
        assert Filter(rules, p) == Filter(rules[..n], p);
      }
    }
  }

  /** Refining a filter keeps the order and drops rules only: the finer result is
      what the finer filter finds in the coarser result. */
  lemma RefinedFilterFindsASubsequence(all: seq<Rule>, fine: Rule, coarse: Rule)
    requires Found(fine, coarse)
    ensures Filter(all, r => Found(r, fine)) == Filter(Filter(all, r => Found(r, coarse)), r => Found(r, fine))
  {
    forall r | r in all && Found(r, fine) ensures Found(r, coarse) {
      FoundIsTransitive(r, fine, coarse);
    }
    FilterTwice(all, r => Found(r, coarse), r => Found(r, fine));
  }
}
