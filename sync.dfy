/**
 * `BunnySync`, the orchestrator: it selects the configured domains, hands each one's
 * DNS records to the DNS manager and each of its pull zones to the pull-zone manager,
 * then syncs the zone's edge rules, and adds up a summary. The provider is a `World`
 * of snapshots; the model records which manager operation was invoked with what
 * (`Invocation`) and which remote calls the managers issued (`RemoteCall`).
 */
module Sync {
  import opened Wrappers
  import opened Text
  import opened Dicts
  import DnsManager
  import PullZones
  import EdgeRules

  /** One entry of the `domains` dictionary of the configuration; `None` is an absent key. */
  datatype DomainConfig = DomainConfig(
    dnsRecords: Option<seq<DnsManager.RecordConfig>>,
    pullZones: Option<Dict<string, PullZones.ZoneConfig>>)

  /** `domain_config.get("dns_records", [])`. */
  function RecordsOf(dc: DomainConfig): seq<DnsManager.RecordConfig> {
    dc.dnsRecords.GetOr([])
  }

  /** `domain_config.get("pull_zones", {})`. */
  function ZonesOf(dc: DomainConfig): Dict<string, PullZones.ZoneConfig> {
    dc.pullZones.GetOr([])
  }

  /** `pz_config.get("edge_rules", [])`. */
  function RulesOf(cfg: PullZones.ZoneConfig): seq<EdgeRules.RuleConfig> {
    cfg.edgeRules.GetOr([])
  }

  // ---------------------------------------------------------------------------
  // Selecting domains

  /** The entries whose domain equals `filter` ignoring case, stored as `filtered[domain] = config` stores them. */
  function Selected(domains: Dict<string, DomainConfig>, filter: string): Dict<string, DomainConfig>
    decreases |domains|
  {
    if domains == [] then []
    else
      var init := domains[..|domains| - 1];
      var last := domains[|domains| - 1];
      if Lower(last.0) == Lower(filter) then Put(Selected(init, filter), last.0, last.1)
      else Selected(init, filter)
  }

  /** What `_filter_domains` returns: everything without a filter. */
  function Filtered(domains: Dict<string, DomainConfig>, filter: Option<string>): Dict<string, DomainConfig> {
    if filter.None? then domains else Selected(domains, filter.value)
  }

  /** `_filter_domains`. */
  method FilterDomains(domains: Dict<string, DomainConfig>, filter: Option<string>)
    returns (filtered: Dict<string, DomainConfig>)
    ensures filtered == Filtered(domains, filter)
  {
    if filter.None? {
      return domains;
    }
    filtered := [];
    var i := 0;
    while i < |domains|
      invariant 0 <= i <= |domains|
      invariant filtered == Selected(domains[..i], filter.value)
    {
      assert domains[..i + 1][..i] == domains[..i];
      if Lower(domains[i].0) == Lower(filter.value) {
        filtered := Put(filtered, domains[i].0, domains[i].1);
      }
      i := i + 1;
    }
    assert domains[..i] == domains;
  }

  /** The selected domains are exactly the configured ones that equal the filter ignoring case. */
  lemma {:induction false} SelectedKeys(domains: Dict<string, DomainConfig>, filter: string)
    ensures Keys(Selected(domains, filter)) == set k | k in Keys(domains) && Lower(k) == Lower(filter)
    decreases |domains|
  {
    if domains != [] {
      var init := domains[..|domains| - 1];
      var last := domains[|domains| - 1];
      SelectedKeys(init, filter);
      assert init + [last] == domains;
      KeysSnoc(init, last);
      if Lower(last.0) == Lower(filter) {
        PutKeys(Selected(init, filter), last.0, last.1);
      }
    }
  }

  /** A selected domain keeps its configuration, and no other domain is found. */
  lemma {:induction false} SelectedLookup(domains: Dict<string, DomainConfig>, filter: string, k: string)
    requires DistinctKeys(domains)
    ensures Lookup(Selected(domains, filter), k) == if Lower(k) == Lower(filter) then Lookup(domains, k) else None
    decreases |domains|
  {
    if domains != [] {
      var init := domains[..|domains| - 1];
      var last := domains[|domains| - 1];
      SelectedLookup(init, filter, k);
      assert init + [last] == domains;
      LookupSnoc(init, last, k);
      if k == last.0 {
        LookupSome(init, k);
      }
      if Lower(last.0) == Lower(filter) {
        PutLookup(Selected(init, filter), last.0, last.1);
      }
    }
  }

  // ---------------------------------------------------------------------------
  // The provider, the invocations and the remote calls

  /**
   * What the provider answers: per domain, the DNS zone listing and the reply to a
   * zone creation; per DNS zone id, the by-id zone fetch; per pull zone name, the pull-zone manager's replies and the listing
   * `get_zone_by_name` sees after the zone was synced; per zone id, the rule listing.
   */
  datatype World = World(
    dnsListing: string -> seq<DnsManager.ZoneWire>,
    dnsFetch: Option<int> -> DnsManager.ZoneWire,
    dnsCreateReply: string -> DnsManager.ZoneWire,
    canon: DnsManager.Canonicaliser,
    zoneReplies: string -> PullZones.Replies,
    listingAfter: string -> Option<seq<PullZones.PullZoneWire>>,
    ruleListing: Option<int> -> Option<seq<EdgeRules.RuleWire>>)

  /** The zone `get_zone_by_name` finds after the zone was synced. */
  function ZoneFound(world: World, name: string): Option<PullZones.PullZone> {
    PullZones.GetZoneByName(PullZones.ListZones(world.listingAfter(name)), name)
  }

  /** A manager operation the orchestrator invokes, with the arguments it passes. */
  datatype Invocation =
    | DnsSync(domain: string, records: seq<DnsManager.RecordConfig>, dryRun: bool, deleteExtra: bool)
    | PullZoneSync(domain: string, zone: string, config: PullZones.ZoneConfig, dryRun: bool)
    | ZoneLookup(zone: string)
    | RulesSync(zone: string, zoneId: Option<int>, rules: seq<EdgeRules.RuleConfig>, dryRun: bool)

  /** A remote call issued by one of the managers. */
  datatype RemoteCall = Dns(dns: DnsManager.DnsCall) | Pz(pz: PullZones.PzCall) | Rule(rule: EdgeRules.RuleCall)

  function DnsCalls(cs: seq<DnsManager.DnsCall>): (rs: seq<RemoteCall>)
    ensures |rs| == |cs| && forall i :: 0 <= i < |cs| ==> rs[i] == Dns(cs[i])
  {
    seq(|cs|, i requires 0 <= i < |cs| => Dns(cs[i]))
  }

  function PzCalls(cs: seq<PullZones.PzCall>): (rs: seq<RemoteCall>)
    ensures |rs| == |cs| && forall i :: 0 <= i < |cs| ==> rs[i] == Pz(cs[i])
  {
    seq(|cs|, i requires 0 <= i < |cs| => Pz(cs[i]))
  }

  function RuleCalls(cs: seq<EdgeRules.RuleCall>): (rs: seq<RemoteCall>)
    ensures |rs| == |cs| && forall i :: 0 <= i < |cs| ==> rs[i] == Rule(cs[i])
  {
    seq(|cs|, i requires 0 <= i < |cs| => Rule(cs[i]))
  }

  // ---------------------------------------------------------------------------
  // What each entry point invokes

  /** `sync` does everything; `sync_dns_only` and `sync_pullzones_only` one manager each, the latter without edge rules. */
  datatype Mode = Full | DnsOnly | PullZonesOnly

  /** The DNS manager is invoked for a domain only when it has DNS records. */
  function DnsStep(domain: string, dc: DomainConfig, dryRun: bool, deleteExtra: bool): seq<Invocation> {
    if RecordsOf(dc) != [] then [DnsSync(domain, RecordsOf(dc), dryRun, deleteExtra)] else []
  }

  /** Edge rules are synced only when configured, and only for a zone the lookup finds. */
  function RulesSteps(name: string, cfg: PullZones.ZoneConfig, dryRun: bool, world: World): seq<Invocation> {
    if RulesOf(cfg) == [] then []
    else
      [ZoneLookup(name)]
      + match ZoneFound(world, name)
        case None => []
        case Some(z) => [RulesSync(name, z.id, RulesOf(cfg), dryRun)]
  }

  function ZoneStep(domain: string, name: string, cfg: PullZones.ZoneConfig, dryRun: bool, world: World,
                    withRules: bool): seq<Invocation>
  {
    [PullZoneSync(domain, name, cfg, dryRun)] + (if withRules then RulesSteps(name, cfg, dryRun, world) else [])
  }

  function ZonesSteps(domain: string, zones: Dict<string, PullZones.ZoneConfig>, dryRun: bool, world: World,
                      withRules: bool): seq<Invocation>
    decreases |zones|
  {
    if zones == [] then []
    else
      var last := zones[|zones| - 1];
      ZonesSteps(domain, zones[..|zones| - 1], dryRun, world, withRules)
      + ZoneStep(domain, last.0, last.1, dryRun, world, withRules)
  }

  function DomainSteps(mode: Mode, domain: string, dc: DomainConfig, dryRun: bool, deleteExtra: bool,
                       world: World): seq<Invocation>
  {
    (if mode != PullZonesOnly then DnsStep(domain, dc, dryRun, deleteExtra) else [])
    + (if mode != DnsOnly then ZonesSteps(domain, ZonesOf(dc), dryRun, world, mode == Full) else [])
  }

  /** Every invocation of a run over `domains` that raises nothing, in order. */
  function Steps(mode: Mode, domains: Dict<string, DomainConfig>, dryRun: bool, deleteExtra: bool,
                 world: World): seq<Invocation>
    decreases |domains|
  {
    if domains == [] then []
    else
      var last := domains[|domains| - 1];
      Steps(mode, domains[..|domains| - 1], dryRun, deleteExtra, world)
      + DomainSteps(mode, last.0, last.1, dryRun, deleteExtra, world)
  }

  // ---------------------------------------------------------------------------
  // Results and the summary

  /** A pull zone's result: its report, the domain it was configured under, and its edge rule report. */
  datatype PzResult = PzResult(domain: string, report: PullZones.ZoneReport, edgeRules: Option<EdgeRules.RulesReport>)

  /** The nine counters of `results["summary"]`. */
  datatype Summary = Summary(
    dnsCreated: nat, dnsUpdated: nat, dnsDeleted: nat, zonesCreated: nat, zonesUpdated: nat,
    hostnamesAdded: nat, hostnamesRemoved: nat, rulesCreated: nat, rulesDeleted: nat)

  function Sum<T>(xs: seq<T>, f: T -> nat): nat
    decreases |xs|
  {
    if xs == [] then 0 else Sum(xs[..|xs| - 1], f) + f(xs[|xs| - 1])
  }

  lemma SumSnoc<T>(xs: seq<T>, x: T, f: T -> nat)
    ensures Sum(xs + [x], f) == Sum(xs, f) + f(x)
  {
    assert (xs + [x])[..|xs|] == xs;
  }

  function DnsCreated(r: DnsManager.DnsReport): nat { |r.created| }
  function DnsUpdated(r: DnsManager.DnsReport): nat { |r.updated| }
  function DnsDeleted(r: DnsManager.DnsReport): nat { |r.deleted| }
  function ZoneCreated(p: PzResult): nat { if p.report.created then 1 else 0 }
  function ZoneUpdated(p: PzResult): nat { if p.report.updated then 1 else 0 }
  function HostnamesAdded(p: PzResult): nat { |p.report.added| }
  function HostnamesRemoved(p: PzResult): nat { |p.report.removed| }
  function RulesCreated(p: PzResult): nat { if p.edgeRules.Some? then |p.edgeRules.value.created| else 0 }
  function RulesDeleted(p: PzResult): nat { if p.edgeRules.Some? then |p.edgeRules.value.deleted| else 0 }

  /** The summary as totals over the collected results. */
  function Tally(dns: seq<DnsManager.DnsReport>, pzs: seq<PzResult>): Summary {
    Summary(
      Sum(dns, DnsCreated), Sum(dns, DnsUpdated), Sum(dns, DnsDeleted),
      Sum(pzs, ZoneCreated), Sum(pzs, ZoneUpdated), Sum(pzs, HostnamesAdded), Sum(pzs, HostnamesRemoved),
      Sum(pzs, RulesCreated), Sum(pzs, RulesDeleted))
  }

  /** The counters after a DNS report, as `sync` increments them. */
  function CountDns(s: Summary, r: DnsManager.DnsReport): Summary {
    s.(dnsCreated := s.dnsCreated + |r.created|, dnsUpdated := s.dnsUpdated + |r.updated|,
       dnsDeleted := s.dnsDeleted + |r.deleted|)
  }

  /** The counters after a pull zone result, as `sync` increments them. */
  function CountZone(s: Summary, p: PzResult): Summary {
    s.(zonesCreated := s.zonesCreated + (if p.report.created then 1 else 0),
       zonesUpdated := s.zonesUpdated + (if p.report.updated then 1 else 0),
       hostnamesAdded := s.hostnamesAdded + |p.report.added|,
       hostnamesRemoved := s.hostnamesRemoved + |p.report.removed|,
       rulesCreated := s.rulesCreated + (if p.edgeRules.Some? then |p.edgeRules.value.created| else 0),
       rulesDeleted := s.rulesDeleted + (if p.edgeRules.Some? then |p.edgeRules.value.deleted| else 0))
  }

  lemma TallyDns(dns: seq<DnsManager.DnsReport>, pzs: seq<PzResult>, r: DnsManager.DnsReport)
    ensures Tally(dns + [r], pzs) == CountDns(Tally(dns, pzs), r)
  {
    SumSnoc(dns, r, DnsCreated);
    SumSnoc(dns, r, DnsUpdated);
    SumSnoc(dns, r, DnsDeleted);
  }

  lemma TallyZone(dns: seq<DnsManager.DnsReport>, pzs: seq<PzResult>, p: PzResult)
    ensures Tally(dns, pzs + [p]) == CountZone(Tally(dns, pzs), p)
  {
    SumSnoc(pzs, p, ZoneCreated);
    SumSnoc(pzs, p, ZoneUpdated);
    SumSnoc(pzs, p, HostnamesAdded);
    SumSnoc(pzs, p, HostnamesRemoved);
    SumSnoc(pzs, p, RulesCreated);
    SumSnoc(pzs, p, RulesDeleted);
  }

  const NoCounts := Summary(0, 0, 0, 0, 0, 0, 0, 0, 0)

  /** The counters after incrementing them for every DNS report and then every pull zone result. */
  function Counters(dns: seq<DnsManager.DnsReport>, pzs: seq<PzResult>): Summary
    decreases |dns| + |pzs|
  {
    if pzs != [] then CountZone(Counters(dns, pzs[..|pzs| - 1]), pzs[|pzs| - 1])
    else if dns != [] then CountDns(Counters(dns[..|dns| - 1], []), dns[|dns| - 1])
    else NoCounts
  }

  lemma {:induction false} CountersDns(dns: seq<DnsManager.DnsReport>, pzs: seq<PzResult>, r: DnsManager.DnsReport)
    ensures Counters(dns + [r], pzs) == CountDns(Counters(dns, pzs), r)
    decreases |pzs|
  {
    if pzs == [] {
      assert (dns + [r])[..|dns|] == dns;
    } else {
      CountersDns(dns, pzs[..|pzs| - 1], r);
    }
  }

  lemma CountersZone(dns: seq<DnsManager.DnsReport>, pzs: seq<PzResult>, x: PzResult)
    ensures Counters(dns, pzs + [x]) == CountZone(Counters(dns, pzs), x)
  {
    assert (pzs + [x])[..|pzs|] == pzs;
  }

  /** Incrementing the counters per result, in any interleaving, gives the totals over the results. */
  lemma {:induction false} CountersAreTotals(dns: seq<DnsManager.DnsReport>, pzs: seq<PzResult>)
    ensures Counters(dns, pzs) == Tally(dns, pzs)
    decreases |dns| + |pzs|
  {
    if pzs != [] {
      var init := pzs[..|pzs| - 1];
      CountersAreTotals(dns, init);
      assert init + [pzs[|pzs| - 1]] == pzs;
      TallyZone(dns, init, pzs[|pzs| - 1]);
    } else if dns != [] {
      var init := dns[..|dns| - 1];
      CountersAreTotals(init, []);
      assert init + [dns[|dns| - 1]] == dns;
      TallyDns(init, [], dns[|dns| - 1]);
    }
  }

  /** The domains of a list of DNS reports. */
  function ReportDomains(rs: seq<DnsManager.DnsReport>): seq<string>
    decreases |rs|
  {
    if rs == [] then [] else ReportDomains(rs[..|rs| - 1]) + [rs[|rs| - 1].zone]
  }

  /** The (domain, zone) pairs of a list of pull zone results. */
  function ResultZones(pzs: seq<PzResult>): seq<(string, string)>
    decreases |pzs|
  {
    if pzs == [] then [] else ResultZones(pzs[..|pzs| - 1]) + [(pzs[|pzs| - 1].domain, pzs[|pzs| - 1].report.zone)]
  }

  /** The domains of the DNS syncs of a log, in order. */
  function SyncedDomains(log: seq<Invocation>): seq<string>
    decreases |log|
  {
    if log == [] then []
    else (if log[0].DnsSync? then [log[0].domain] else []) + SyncedDomains(log[1..])
  }

  /** The (domain, zone) pairs of the pull zone syncs of a log, in order. */
  function SyncedZones(log: seq<Invocation>): seq<(string, string)>
    decreases |log|
  {
    if log == [] then []
    else (if log[0].PullZoneSync? then [(log[0].domain, log[0].zone)] else []) + SyncedZones(log[1..])
  }

  lemma {:induction false} SyncedAppend(a: seq<Invocation>, b: seq<Invocation>)
    ensures SyncedDomains(a + b) == SyncedDomains(a) + SyncedDomains(b)
    ensures SyncedZones(a + b) == SyncedZones(a) + SyncedZones(b)
    decreases |a|
  {
    if a != [] {
      assert (a + b)[0] == a[0];
      assert (a + b)[1..] == a[1..] + b;
      SyncedAppend(a[1..], b);
    } else {
      assert a + b == b;
    }
  }

  /**
   * A run in progress: the results so far, the counters, the invocations, what each
   * of them returned, and the remote calls.
   */
  datatype Progress = Progress(
    dnsZones: seq<DnsManager.DnsReport>, pullZones: seq<PzResult>, summary: Summary,
    log: seq<Invocation>, outs: seq<Outcome>, calls: seq<RemoteCall>)

  /**
   * The counters are the totals of the results, and the results line up with the
   * invocations: the k-th DNS report is the k-th DNS sync's domain, the k-th pull zone
   * result the k-th pull zone sync's domain and zone.
   */
  predicate Consistent(p: Progress) {
    && p.summary == Counters(p.dnsZones, p.pullZones)
    && ReportDomains(p.dnsZones) == SyncedDomains(p.log)
    && ResultZones(p.pullZones) == SyncedZones(p.log)
  }

  /** Recording a DNS report together with its invocation keeps a run consistent. */
  lemma DnsRecorded(p0: Progress, r: DnsManager.DnsReport, step: seq<Invocation>, outs: seq<Outcome>,
                    calls: seq<RemoteCall>)
    requires Consistent(p0)
    requires SyncedDomains(step) == [r.zone] && SyncedZones(step) == []
    ensures Consistent(Progress(p0.dnsZones + [r], p0.pullZones, CountDns(p0.summary, r), p0.log + step, outs, calls))
  {
    CountersDns(p0.dnsZones, p0.pullZones, r);
    assert (p0.dnsZones + [r])[..|p0.dnsZones|] == p0.dnsZones;
    SyncedAppend(p0.log, step);
  }

  /** Recording a pull zone result together with its invocations keeps a run consistent. */
  lemma ZoneRecorded(p0: Progress, x: PzResult, step: seq<Invocation>, outs: seq<Outcome>,
                     calls: seq<RemoteCall>)
    requires Consistent(p0)
    requires SyncedDomains(step) == [] && SyncedZones(step) == [(x.domain, x.report.zone)]
    ensures Consistent(Progress(p0.dnsZones, p0.pullZones + [x], CountZone(p0.summary, x), p0.log + step, outs, calls))
  {
    CountersZone(p0.dnsZones, p0.pullZones, x);
    assert (p0.pullZones + [x])[..|p0.pullZones|] == p0.pullZones;
    SyncedAppend(p0.log, step);
  }

  lemma ZoneStepSynced(domain: string, name: string, cfg: PullZones.ZoneConfig, dryRun: bool, world: World,
                       withRules: bool)
    ensures var step := ZoneStep(domain, name, cfg, dryRun, world, withRules);
      SyncedDomains(step) == [] && SyncedZones(step) == [(domain, name)]
  {
    var rules := if withRules then RulesSteps(name, cfg, dryRun, world) else [];
    SyncedAppend([PullZoneSync(domain, name, cfg, dryRun)], rules);
    if rules != [] {
      SyncedAppend([rules[0]], rules[1..]);
      assert [rules[0]] + rules[1..] == rules;
    }
  }

  const Start := Progress([], [], NoCounts, [], [], [])

  // ---------------------------------------------------------------------------
  // What each invocation returned, against the managers' specifications

  /** The DNS manager's outcome for a DNS sync. */
  function DnsOutcome(world: World, domain: string, records: seq<DnsManager.RecordConfig>, dryRun: bool,
                      deleteExtra: bool): (Result<DnsManager.DnsReport, DnsManager.DnsError>, seq<DnsManager.DnsCall>)
  {
    DnsManager.Reconciled(domain, records, dryRun, deleteExtra, world.dnsListing(domain), world.dnsFetch,
                          world.dnsCreateReply(domain), world.canon)
  }

  /** The pull-zone manager's outcome for a pull zone sync that walked its hostnames in `order`. */
  function PzOutcome(world: World, name: string, cfg: PullZones.ZoneConfig, dryRun: bool, order: seq<string>)
    : PullZones.ZoneSync
  {
    PullZones.Planned(name, cfg, dryRun, world.zoneReplies(name), order)
  }

  /** The edge rules manager's outcome for an edge rule sync. */
  function RuleOutcome(world: World, zoneId: Option<int>, rules: seq<EdgeRules.RuleConfig>, dryRun: bool)
    : (EdgeRules.RulesReport, seq<EdgeRules.RuleCall>)
  {
    EdgeRules.RulesOutcome(zoneId, rules, dryRun, world.ruleListing(zoneId))
  }

  /** What one invocation returned to the orchestrator, with the remote calls it issued. */
  datatype Outcome =
    | DnsOut(result: Result<DnsManager.DnsReport, DnsManager.DnsError>, calls: seq<RemoteCall>)
    | PzOut(domain: string, order: seq<string>, report: PullZones.ZoneReport, calls: seq<RemoteCall>)
    | LookupOut
    | RulesOut(rules: EdgeRules.RulesReport, calls: seq<RemoteCall>)

  function DnsOutOf(world: World, domain: string, records: seq<DnsManager.RecordConfig>, dryRun: bool,
                    deleteExtra: bool): Outcome
  {
    var o := DnsOutcome(world, domain, records, dryRun, deleteExtra);
    DnsOut(o.0, DnsCalls(o.1))
  }

  function PzOutOf(world: World, domain: string, name: string, cfg: PullZones.ZoneConfig, dryRun: bool,
                   order: seq<string>): Outcome
  {
    var sync := PzOutcome(world, name, cfg, dryRun, order);
    PzOut(domain, order, sync.report, PzCalls(sync.calls))
  }

  function RulesOutOf(world: World, zoneId: Option<int>, rules: seq<EdgeRules.RuleConfig>, dryRun: bool): Outcome {
    var o := RuleOutcome(world, zoneId, rules, dryRun);
    RulesOut(o.0, RuleCalls(o.1))
  }

  /**
   * `out` is what the manager's specification gives for `inv`: the DNS manager's
   * outcome, the pull-zone manager's for some enumeration of the desired hostnames,
   * nothing for a lookup, and the edge rules manager's outcome.
   */
  predicate Fits(world: World, inv: Invocation, out: Outcome) {
    match inv
    case DnsSync(domain, records, dryRun, deleteExtra) => out == DnsOutOf(world, domain, records, dryRun, deleteExtra)
    case PullZoneSync(domain, name, cfg, dryRun) =>
      && out.PzOut?
      && PullZones.IsOrderOf(out.order, PullZones.DesiredHostnames(cfg))
      && out == PzOutOf(world, domain, name, cfg, dryRun, out.order)
    case ZoneLookup(_) => out == LookupOut
    case RulesSync(_, zoneId, rules, dryRun) => out == RulesOutOf(world, zoneId, rules, dryRun)
  }

  /** Each invocation of a log with what it returned. */
  predicate Explained(world: World, log: seq<Invocation>, outs: seq<Outcome>) {
    |outs| == |log| && forall k :: 0 <= k < |log| ==> Fits(world, log[k], outs[k])
  }

  /**
   * The run below is proved for any relation `fit` between invocations and outcomes
   * that admits each manager's outcome (`DnsFits`, `ZoneFits`, `RuleFits`); `Fits` is one.
   */
  type Fit = (Invocation, Outcome) -> bool

  function FitsOf(world: World): Fit {
    (inv: Invocation, out: Outcome) => Fits(world, inv, out)
  }

  ghost predicate DnsFits(world: World, fit: Fit) {
    forall domain, records, dryRun, deleteExtra ::
      fit(DnsSync(domain, records, dryRun, deleteExtra), DnsOutOf(world, domain, records, dryRun, deleteExtra))
  }

  ghost predicate ZoneFits(world: World, fit: Fit) {
    forall domain, name, cfg, dryRun, order | PullZones.IsOrderOf(order, PullZones.DesiredHostnames(cfg)) ::
      fit(PullZoneSync(domain, name, cfg, dryRun), PzOutOf(world, domain, name, cfg, dryRun, order))
  }

  ghost predicate RuleFits(world: World, fit: Fit) {
    && (forall name :: fit(ZoneLookup(name), LookupOut))
    && forall name, zoneId, rules, dryRun ::
         fit(RulesSync(name, zoneId, rules, dryRun), RulesOutOf(world, zoneId, rules, dryRun))
  }

  /** `fit` admits the outcome of every manager. */
  ghost predicate Admits(world: World, fit: Fit) {
    DnsFits(world, fit) && ZoneFits(world, fit) && RuleFits(world, fit)
  }

  lemma FitsAdmitsDns(world: World)
    ensures DnsFits(world, FitsOf(world))
  {
    forall domain, records, dryRun, deleteExtra
      ensures FitsOf(world)(DnsSync(domain, records, dryRun, deleteExtra),
                            DnsOutOf(world, domain, records, dryRun, deleteExtra))
    {
      assert Fits(world, DnsSync(domain, records, dryRun, deleteExtra), DnsOutOf(world, domain, records, dryRun, deleteExtra));
    }
  }

  lemma FitsAdmitsZones(world: World)
    ensures ZoneFits(world, FitsOf(world))
  {
    forall domain, name, cfg, dryRun, order | PullZones.IsOrderOf(order, PullZones.DesiredHostnames(cfg))
      ensures FitsOf(world)(PullZoneSync(domain, name, cfg, dryRun), PzOutOf(world, domain, name, cfg, dryRun, order))
    {
      assert Fits(world, PullZoneSync(domain, name, cfg, dryRun), PzOutOf(world, domain, name, cfg, dryRun, order));
    }
  }

  lemma FitsAdmitsRules(world: World)
    ensures RuleFits(world, FitsOf(world))
  {
    forall name
      ensures FitsOf(world)(ZoneLookup(name), LookupOut)
    {
      assert Fits(world, ZoneLookup(name), LookupOut);
    }
    forall name, zoneId, rules, dryRun
      ensures FitsOf(world)(RulesSync(name, zoneId, rules, dryRun), RulesOutOf(world, zoneId, rules, dryRun))
    {
      assert Fits(world, RulesSync(name, zoneId, rules, dryRun), RulesOutOf(world, zoneId, rules, dryRun));
    }
  }

  /** `Fits` admits the outcome of every manager. */
  lemma FitsAdmitsOutcomes(world: World)
    ensures Admits(world, FitsOf(world))
  {
    FitsAdmitsDns(world);
    FitsAdmitsZones(world);
    FitsAdmitsRules(world);
  }

  /** `fit` holds of each invocation and the outcome recorded for it. */
  predicate Explains(fit: Fit, log: seq<Invocation>, outs: seq<Outcome>) {
    |outs| == |log| && forall k :: 0 <= k < |log| ==> fit(log[k], outs[k])
  }

  lemma ExplainedByFits(world: World, log: seq<Invocation>, outs: seq<Outcome>)
    requires Explains(FitsOf(world), log, outs)
    ensures Explained(world, log, outs)
  {
    forall k | 0 <= k < |log|
      ensures Fits(world, log[k], outs[k])
    {
      assert FitsOf(world)(log[k], outs[k]);
    }
  }

  /** The results and remote calls a sequence of outcomes adds up to. */
  datatype Collected = Collected(dnsZones: seq<DnsManager.DnsReport>, pullZones: seq<PzResult>, calls: seq<RemoteCall>)

  /** `pz_result["edge_rules"] = rules_result` on the latest pull zone result. */
  function WithRules(pzs: seq<PzResult>, report: EdgeRules.RulesReport): seq<PzResult> {
    if pzs == [] then [] else pzs[..|pzs| - 1] + [pzs[|pzs| - 1].(edgeRules := Some(report))]
  }

  /**
   * One more outcome: a DNS report is collected unless the sync raised, a pull zone
   * report becomes a result without edge rules, an edge rule report goes to the latest
   * pull zone result, and the calls are appended.
   */
  function Add(c: Collected, out: Outcome): Collected {
    match out
    case DnsOut(result, calls) =>
      Collected(c.dnsZones + (if result.Success? then [result.value] else []), c.pullZones, c.calls + calls)
    case PzOut(domain, _, report, calls) =>
      Collected(c.dnsZones, c.pullZones + [PzResult(domain, report, None)], c.calls + calls)
    case LookupOut => c
    case RulesOut(rules, calls) => Collected(c.dnsZones, WithRules(c.pullZones, rules), c.calls + calls)
  }

  function Collect(outs: seq<Outcome>): Collected
    decreases |outs|
  {
    if outs == [] then Collected([], [], []) else Add(Collect(outs[..|outs| - 1]), outs[|outs| - 1])
  }

  /** The results and calls of a run are what its invocations returned, collected in order. */
  predicate Accounted(fit: Fit, p: Progress) {
    Explains(fit, p.log, p.outs) && Collect(p.outs) == Collected(p.dnsZones, p.pullZones, p.calls)
  }

  /** A run that records one more invocation with a fitting outcome stays accounted for. */
  lemma Accounted1(fit: Fit, p0: Progress, inv: Invocation, out: Outcome, p: Progress)
    requires Accounted(fit, p0) && fit(inv, out)
    requires p.log == p0.log + [inv] && p.outs == p0.outs + [out]
    requires Add(Collected(p0.dnsZones, p0.pullZones, p0.calls), out) == Collected(p.dnsZones, p.pullZones, p.calls)
    ensures Accounted(fit, p)
  {
    assert p.outs[..|p.outs| - 1] == p0.outs;
    forall k | 0 <= k < |p.log|
      ensures fit(p.log[k], p.outs[k])
    {
      if k < |p0.log| {
        assert p.log[k] == p0.log[k] && p.outs[k] == p0.outs[k];
      }
    }
  }

  // ---------------------------------------------------------------------------
  // The run

  /** The DNS manager's `sync_zone` for one domain, with its calls as remote calls. */
  method DnsZoneSync(domain: string, records: seq<DnsManager.RecordConfig>, dryRun: bool, deleteExtra: bool,
                     world: World)
    returns (r: Result<DnsManager.DnsReport, DnsManager.DnsError>, calls: seq<RemoteCall>)
    ensures var o := DnsOutcome(world, domain, records, dryRun, deleteExtra); r == o.0 && calls == DnsCalls(o.1)
    ensures r.Success? ==> r.value.zone == domain
    ensures dryRun ==> r.Success? && calls == []
  {
    var dnsCalls;
    r, dnsCalls := DnsManager.SyncZone(domain, records, dryRun, deleteExtra, world.dnsListing(domain),
                                       world.dnsFetch, world.dnsCreateReply(domain), world.canon);
    calls := DnsCalls(dnsCalls);
  }

  /** A DNS sync whose outcome a relation admitting the DNS manager's outcomes admits. */
  method InvokeDns(domain: string, records: seq<DnsManager.RecordConfig>, dryRun: bool, deleteExtra: bool,
                   world: World, ghost fit: Fit)
    returns (r: Result<DnsManager.DnsReport, DnsManager.DnsError>, calls: seq<RemoteCall>)
    requires DnsFits(world, fit)
    ensures fit(DnsSync(domain, records, dryRun, deleteExtra), DnsOut(r, calls))
    ensures r.Success? ==> r.value.zone == domain
    ensures dryRun ==> r.Success? && calls == []
  {
    r, calls := DnsZoneSync(domain, records, dryRun, deleteExtra, world);
    assert DnsOut(r, calls) == DnsOutOf(world, domain, records, dryRun, deleteExtra);
  }

  /** The DNS part of one domain; `failure` is the error `sync_zone` raises. */
  method SyncDns(domain: string, dc: DomainConfig, dryRun: bool, deleteExtra: bool, world: World, ghost fit: Fit,
                 p0: Progress)
    returns (failure: Option<DnsManager.DnsError>, p: Progress)
    requires DnsFits(world, fit)
    requires Consistent(p0) && Accounted(fit, p0)
    ensures p.log == p0.log + DnsStep(domain, dc, dryRun, deleteExtra)
    ensures Accounted(fit, p)
    ensures failure.Some? ==> RecordsOf(dc) != []
    ensures failure.None? ==> Consistent(p) && p.pullZones == p0.pullZones
    ensures dryRun ==> failure.None? && p.calls == p0.calls
  {
    var records := RecordsOf(dc);
    if records == [] {
      return None, p0;
    }
    var r, calls := InvokeDns(domain, records, dryRun, deleteExtra, world, fit);
    var inv := DnsSync(domain, records, dryRun, deleteExtra);
    if r.Failure? {
      p := p0.(log := p0.log + [inv], outs := p0.outs + [DnsOut(r, calls)], calls := p0.calls + calls);
      Accounted1(fit, p0, inv, DnsOut(r, calls), p);
      return Some(r.error), p;
    }
    var report := r.value;
    p := Progress(p0.dnsZones + [report], p0.pullZones, CountDns(p0.summary, report), p0.log + [inv],
                  p0.outs + [DnsOut(r, calls)], p0.calls + calls);
    DnsRecorded(p0, report, [inv], p.outs, p.calls);
    Accounted1(fit, p0, inv, DnsOut(r, calls), p);
    failure := None;
  }

  /** The pull-zone manager's `sync_zone` for one zone, with its calls as remote calls and the hostname order it walked. */
  method PullZoneSyncOf(name: string, cfg: PullZones.ZoneConfig, dryRun: bool, world: World)
    returns (report: PullZones.ZoneReport, calls: seq<RemoteCall>, order: seq<string>)
    ensures PullZones.IsOrderOf(order, PullZones.DesiredHostnames(cfg))
    ensures var sync := PzOutcome(world, name, cfg, dryRun, order); report == sync.report && calls == PzCalls(sync.calls)
    ensures report.zone == name
    ensures dryRun ==> calls == []
  {
    var replies := world.zoneReplies(name);
    var sync;
    sync, order := PullZones.SyncZone(name, cfg, dryRun, replies);
    if dryRun {
      PullZones.DryRunCallsNothing(name, cfg, replies, order);
    }
    report, calls := sync.report, PzCalls(sync.calls);
  }

  /** A pull zone sync whose outcome a relation admitting the pull-zone manager's outcomes admits. */
  method InvokePullZone(domain: string, name: string, cfg: PullZones.ZoneConfig, dryRun: bool, world: World,
                        ghost fit: Fit)
    returns (report: PullZones.ZoneReport, calls: seq<RemoteCall>, order: seq<string>)
    requires ZoneFits(world, fit)
    ensures fit(PullZoneSync(domain, name, cfg, dryRun), PzOut(domain, order, report, calls))
    ensures report.zone == name
    ensures dryRun ==> calls == []
  {
    report, calls, order := PullZoneSyncOf(name, cfg, dryRun, world);
    assert PzOut(domain, order, report, calls) == PzOutOf(world, domain, name, cfg, dryRun, order);
  }

  /** Edge rules of a synced zone: when it has some, looked up by name, then synced when the zone is found. */
  method RulesSyncOf(name: string, cfg: PullZones.ZoneConfig, dryRun: bool, world: World)
    returns (report: Option<EdgeRules.RulesReport>, step: seq<Invocation>, calls: seq<RemoteCall>)
    ensures step == RulesSteps(name, cfg, dryRun, world)
    ensures report.Some? <==> RulesOf(cfg) != [] && ZoneFound(world, name).Some?
    ensures report.Some? ==>
      RulesOut(report.value, calls) == RulesOutOf(world, ZoneFound(world, name).value.id, RulesOf(cfg), dryRun)
    ensures report.None? ==> calls == []
    ensures dryRun ==> calls == []
  {
    report, step, calls := None, [], [];
    var rules := RulesOf(cfg);
    if rules == [] {
      return;
    }
    step := [ZoneLookup(name)];
    var zone := PullZones.GetZoneByName(PullZones.ListZones(world.listingAfter(name)), name);
    if zone.Some? {
      step := step + [RulesSync(name, zone.value.id, rules, dryRun)];
      var r, rcalls := EdgeRules.SyncRules(zone.value.id, rules, dryRun, world.ruleListing(zone.value.id));
      report, calls := Some(r), RuleCalls(rcalls);
    }
  }

  /** What the edge rule invocations of a zone return: nothing, a lookup, or a lookup and a rule sync. */
  function RulesOutcomes(rulesStep: seq<Invocation>, edge: Option<EdgeRules.RulesReport>, rulesCalls: seq<RemoteCall>)
    : seq<Outcome>
  {
    if rulesStep == [] then [] else [LookupOut] + (if edge.Some? then [RulesOut(edge.value, rulesCalls)] else [])
  }

  /**
   * The edge rule invocations of a zone when `withRules`, whose outcomes a relation
   * admitting the edge rules manager's admits.
   */
  method InvokeRules(name: string, cfg: PullZones.ZoneConfig, dryRun: bool, withRules: bool, world: World,
                     ghost fit: Fit)
    returns (report: Option<EdgeRules.RulesReport>, step: seq<Invocation>, calls: seq<RemoteCall>)
    requires RuleFits(world, fit)
    ensures step == if withRules then RulesSteps(name, cfg, dryRun, world) else []
    ensures Explains(fit, step, RulesOutcomes(step, report, calls))
    ensures step == [] || step[0] == ZoneLookup(name)
    ensures |step| <= 1 ==> report.None? && calls == []
    ensures dryRun ==> calls == []
  {
    report, step, calls := None, [], [];
    if !withRules {
      return;
    }
    report, step, calls := RulesSyncOf(name, cfg, dryRun, world);
    if step != [] {
      assert fit(ZoneLookup(name), LookupOut);
      if report.Some? {
        var id := ZoneFound(world, name).value.id;
        assert fit(RulesSync(name, id, RulesOf(cfg), dryRun), RulesOutOf(world, id, RulesOf(cfg), dryRun));
      }
    }
  }

  /** One pull zone, then its edge rules when `withRules`; the counters grow by its result. */
  method SyncPullZone(domain: string, name: string, cfg: PullZones.ZoneConfig, dryRun: bool, world: World,
                      withRules: bool, ghost fit: Fit, p0: Progress)
    returns (p: Progress, step: seq<Invocation>)
    requires ZoneFits(world, fit) && RuleFits(world, fit)
    requires Consistent(p0) && Accounted(fit, p0)
    ensures step == ZoneStep(domain, name, cfg, dryRun, world, withRules)
    ensures p.log == p0.log + step
    ensures Consistent(p) && Accounted(fit, p) && p.dnsZones == p0.dnsZones
    ensures dryRun ==> p.calls == p0.calls
  {
    var order;
    var report, calls;
    report, calls, order := InvokePullZone(domain, name, cfg, dryRun, world, fit);
    var out := PzOut(domain, order, report, calls);
    var edge, rulesStep, rulesCalls := InvokeRules(name, cfg, dryRun, withRules, world, fit);
    step := [PullZoneSync(domain, name, cfg, dryRun)] + rulesStep;
    var result := PzResult(domain, report, edge);
    ZoneStepSynced(domain, name, cfg, dryRun, world, withRules);
    p := Progress(p0.dnsZones, p0.pullZones + [result], CountZone(p0.summary, result), p0.log + step,
                  p0.outs + ([out] + RulesOutcomes(rulesStep, edge, rulesCalls)), p0.calls + (calls + rulesCalls));
    ZoneRecorded(p0, result, step, p.outs, p.calls);
    ZoneAccounted(fit, p0, PullZoneSync(domain, name, cfg, dryRun), out, name, edge, rulesStep, rulesCalls, p);
  }

  /** A pull zone sync and its edge rule invocations, all admitted by the relation, keep a run accounted for. */
  lemma ZoneAccounted(fit: Fit, p0: Progress, inv: Invocation, out: Outcome, name: string,
                      edge: Option<EdgeRules.RulesReport>, rulesStep: seq<Invocation>, rulesCalls: seq<RemoteCall>,
                      p: Progress)
    requires Accounted(fit, p0) && fit(inv, out) && out.PzOut?
    requires Explains(fit, rulesStep, RulesOutcomes(rulesStep, edge, rulesCalls))
    requires rulesStep == [] || rulesStep[0] == ZoneLookup(name)
    requires |rulesStep| <= 1 ==> edge.None? && rulesCalls == []
    requires p.dnsZones == p0.dnsZones && p.pullZones == p0.pullZones + [PzResult(out.domain, out.report, edge)]
    requires p.log == p0.log + ([inv] + rulesStep)
    requires p.outs == p0.outs + ([out] + RulesOutcomes(rulesStep, edge, rulesCalls))
    requires p.calls == p0.calls + (out.calls + rulesCalls)
    ensures Accounted(fit, p)
  {
    var p1 := Progress(p0.dnsZones, p0.pullZones + [PzResult(out.domain, out.report, None)], p0.summary,
                       p0.log + [inv], p0.outs + [out], p0.calls + out.calls);
    Accounted1(fit, p0, inv, out, p1);
    assert p1.pullZones[..|p1.pullZones| - 1] == p0.pullZones;
    RulesAccounted(fit, p1, name, edge, rulesStep, rulesCalls, p);
  }

  /** A zone lookup that the relation admits keeps a run accounted for. */
  lemma LookupAccounted(fit: Fit, p0: Progress, name: string, p: Progress)
    requires Accounted(fit, p0) && fit(ZoneLookup(name), LookupOut)
    requires p == p0.(log := p0.log + [ZoneLookup(name)], outs := p0.outs + [LookupOut])
    ensures Accounted(fit, p)
  {
    Accounted1(fit, p0, ZoneLookup(name), LookupOut, p);
  }

  /** An edge rule sync that the relation admits sets the rule report of the latest pull zone result. */
  lemma RuleSyncAccounted(fit: Fit, p0: Progress, inv: Invocation, report: EdgeRules.RulesReport,
                          calls: seq<RemoteCall>, p: Progress)
    requires Accounted(fit, p0) && fit(inv, RulesOut(report, calls))
    requires p.log == p0.log + [inv] && p.outs == p0.outs + [RulesOut(report, calls)]
    requires p.dnsZones == p0.dnsZones && p.pullZones == WithRules(p0.pullZones, report)
    requires p.calls == p0.calls + calls
    ensures Accounted(fit, p)
  {
    Accounted1(fit, p0, inv, RulesOut(report, calls), p);
  }

  /** The edge rule invocations after a pull zone sync set its result's rule report and add their calls. */
  lemma RulesAccounted(fit: Fit, p1: Progress, name: string, edge: Option<EdgeRules.RulesReport>,
                       rulesStep: seq<Invocation>, rulesCalls: seq<RemoteCall>, p: Progress)
    requires Accounted(fit, p1)
    requires p1.pullZones != [] && p1.pullZones[|p1.pullZones| - 1].edgeRules.None?
    requires Explains(fit, rulesStep, RulesOutcomes(rulesStep, edge, rulesCalls))
    requires rulesStep == [] || rulesStep[0] == ZoneLookup(name)
    requires |rulesStep| <= 1 ==> edge.None? && rulesCalls == []
    requires p.dnsZones == p1.dnsZones
    requires var n := |p1.pullZones| - 1; p.pullZones == p1.pullZones[..n] + [p1.pullZones[n].(edgeRules := edge)]
    requires p.log == p1.log + rulesStep && p.outs == p1.outs + RulesOutcomes(rulesStep, edge, rulesCalls)
    requires p.calls == p1.calls + rulesCalls
    ensures Accounted(fit, p)
  {
    var n := |p1.pullZones| - 1;
    if rulesStep == [] {
      assert p.log == p1.log && p.outs == p1.outs && p.calls == p1.calls;
      assert p1.pullZones[n].(edgeRules := edge) == p1.pullZones[n];
      assert p.pullZones == p1.pullZones;
      return;
    }
    var lookup := p1.(log := p1.log + [ZoneLookup(name)], outs := p1.outs + [LookupOut]);
    assert fit(rulesStep[0], LookupOut);
    LookupAccounted(fit, p1, name, lookup);
    if edge.None? {
      assert p.log == lookup.log && p.outs == lookup.outs && p.calls == lookup.calls;
      assert p1.pullZones[n].(edgeRules := edge) == p1.pullZones[n];
      assert p.pullZones == p1.pullZones;
    } else {
      var inv := rulesStep[1];
      assert rulesStep == [ZoneLookup(name), inv];
      assert fit(inv, RulesOut(edge.value, rulesCalls));
      assert p.log == lookup.log + [inv] && p.outs == lookup.outs + [RulesOut(edge.value, rulesCalls)];
      RuleSyncAccounted(fit, lookup, inv, edge.value, rulesCalls, p);
    }
  }

  lemma Assoc<T>(a: seq<T>, b: seq<T>, c: seq<T>)
    ensures (a + b) + c == a + (b + c)
  {
  }

  /** The concatenation of a sequence of invocation lists. */
  function Flatten(ss: seq<seq<Invocation>>): seq<Invocation>
    decreases |ss|
  {
    if ss == [] then [] else Flatten(ss[..|ss| - 1]) + ss[|ss| - 1]
  }

  /** What each zone of a domain invokes, zone by zone. */
  function ZoneStepLists(domain: string, zones: Dict<string, PullZones.ZoneConfig>, dryRun: bool, world: World,
                         withRules: bool): seq<seq<Invocation>>
  {
    seq(|zones|, k requires 0 <= k < |zones| => ZoneStep(domain, zones[k].0, zones[k].1, dryRun, world, withRules))
  }

  /** The zone-by-zone invocations of the first `n` zones, one after the other, are what those zones invoke. */
  lemma {:induction false} FlattenZones(domain: string, zones: Dict<string, PullZones.ZoneConfig>, dryRun: bool,
                                        world: World, withRules: bool, n: nat)
    requires n <= |zones|
    ensures Flatten(ZoneStepLists(domain, zones, dryRun, world, withRules)[..n])
         == ZonesSteps(domain, zones[..n], dryRun, world, withRules)
    decreases n
  {
    if n > 0 {
      var all := ZoneStepLists(domain, zones, dryRun, world, withRules);
      FlattenZones(domain, zones, dryRun, world, withRules, n - 1);
      assert all[..n][..n - 1] == all[..n - 1];
      assert zones[..n][..n - 1] == zones[..n - 1];
    }
  }

  /** The pull zones of one domain, in configuration order. */
  method SyncPullZones(domain: string, zones: Dict<string, PullZones.ZoneConfig>, dryRun: bool, world: World,
                       withRules: bool, ghost fit: Fit, p0: Progress)
    returns (p: Progress)
    requires ZoneFits(world, fit) && RuleFits(world, fit)
    requires Consistent(p0) && Accounted(fit, p0)
    ensures Consistent(p) && Accounted(fit, p)
    ensures p.log == p0.log + ZonesSteps(domain, zones, dryRun, world, withRules)
    ensures p.dnsZones == p0.dnsZones
    ensures dryRun ==> p.calls == p0.calls
  {
    p := p0;
    var i := 0;
    while i < |zones|
      invariant 0 <= i <= |zones|
      invariant p.log == p0.log + ZonesSteps(domain, zones[..i], dryRun, world, withRules)
      invariant Consistent(p) && Accounted(fit, p) && p.dnsZones == p0.dnsZones
      invariant dryRun ==> p.calls == p0.calls
    {
      var step;
      p, step := SyncPullZone(domain, zones[i].0, zones[i].1, dryRun, world, withRules, fit, p);
      assert zones[..i + 1][..i] == zones[..i];
      Assoc(p0.log, ZonesSteps(domain, zones[..i], dryRun, world, withRules), step);
      i := i + 1;
    }
    assert zones[..i] == zones;
  }

  /** One domain: its DNS records unless only pull zones are synced, then its pull zones unless only DNS is. */
  method SyncDomain(mode: Mode, domain: string, dc: DomainConfig, dryRun: bool, deleteExtra: bool, world: World,
                    ghost fit: Fit, p0: Progress)
    returns (failure: Option<DnsManager.DnsError>, p: Progress)
    requires Admits(world, fit)
    requires Consistent(p0) && Accounted(fit, p0)
    ensures Accounted(fit, p)
    ensures failure.None? ==> Consistent(p) && p.log == p0.log + DomainSteps(mode, domain, dc, dryRun, deleteExtra, world)
    ensures failure.Some? ==> mode != PullZonesOnly && RecordsOf(dc) != []
                              && p.log == p0.log + DnsStep(domain, dc, dryRun, deleteExtra)
    ensures dryRun ==> failure.None? && p.calls == p0.calls
  {
    p := p0;
    failure := None;
    if mode != PullZonesOnly {
      failure, p := SyncDns(domain, dc, dryRun, deleteExtra, world, fit, p);
      if failure.Some? {
        return;
      }
    }
    if mode != DnsOnly {
      var p1 := p;
      p := SyncPullZones(domain, ZonesOf(dc), dryRun, world, mode == Full, fit, p1);
      Assoc(p0.log, p1.log[|p0.log|..], ZonesSteps(domain, ZonesOf(dc), dryRun, world, mode == Full));
      assert p1.log == p0.log + p1.log[|p0.log|..];
    }
  }

  /** The log of a run that stopped at the DNS sync of the `i`-th domain, which raised. */
  predicate StoppedAtDns(mode: Mode, selected: Dict<string, DomainConfig>, dryRun: bool, deleteExtra: bool,
                         world: World, log: seq<Invocation>)
  {
    exists i :: 0 <= i < |selected| && RecordsOf(selected[i].1) != []
      && log == Steps(mode, selected[..i], dryRun, deleteExtra, world) + DnsStep(selected[i].0, selected[i].1, dryRun, deleteExtra)
  }

  /** A run that has synced the first `i` selected domains without raising. */
  predicate RanFirst(mode: Mode, selected: Dict<string, DomainConfig>, dryRun: bool, deleteExtra: bool, world: World,
                     fit: Fit, i: nat, p: Progress)
  {
    && i <= |selected|
    && Consistent(p)
    && Accounted(fit, p)
    && p.log == Steps(mode, selected[..i], dryRun, deleteExtra, world)
    && (dryRun ==> p.calls == [])
  }

  /** The `i`-th selected domain of a run. */
  method RunStep(mode: Mode, selected: Dict<string, DomainConfig>, dryRun: bool, deleteExtra: bool, world: World,
                 ghost fit: Fit, i: nat, p0: Progress)
    returns (failure: Option<DnsManager.DnsError>, p: Progress)
    requires Admits(world, fit)
    requires i < |selected| && RanFirst(mode, selected, dryRun, deleteExtra, world, fit, i, p0)
    ensures failure.None? ==> RanFirst(mode, selected, dryRun, deleteExtra, world, fit, i + 1, p)
    ensures failure.Some? ==> mode != PullZonesOnly && StoppedAtDns(mode, selected, dryRun, deleteExtra, world, p.log)
    ensures failure.Some? ==> Accounted(fit, p)
    ensures dryRun ==> failure.None?
  {
    assert selected[..i + 1][..i] == selected[..i];
    failure, p := SyncDomain(mode, selected[i].0, selected[i].1, dryRun, deleteExtra, world, fit, p0);
    if failure.Some? {
      assert 0 <= i < |selected| && RecordsOf(selected[i].1) != []
        && p.log == Steps(mode, selected[..i], dryRun, deleteExtra, world) + DnsStep(selected[i].0, selected[i].1, dryRun, deleteExtra);
    }
  }

  /**
   * The loop shared by the three entry points. It stops at the first DNS sync that
   * raises: `failure` is then that error and the log ends with that invocation.
   */
  method Run(mode: Mode, selected: Dict<string, DomainConfig>, dryRun: bool, deleteExtra: bool, world: World,
             ghost fit: Fit)
    returns (failure: Option<DnsManager.DnsError>, p: Progress)
    requires Admits(world, fit)
    ensures Accounted(fit, p)
    ensures failure.None? ==> Consistent(p) && p.log == Steps(mode, selected, dryRun, deleteExtra, world)
    ensures failure.Some? ==> mode != PullZonesOnly && StoppedAtDns(mode, selected, dryRun, deleteExtra, world, p.log)
    ensures dryRun ==> failure.None? && p.calls == []
  {
    p := Start;
    failure := None;
    var i := 0;
    while i < |selected|
      invariant failure.None? && RanFirst(mode, selected, dryRun, deleteExtra, world, fit, i, p)
    {
      failure, p := RunStep(mode, selected, dryRun, deleteExtra, world, fit, i, p);
      if failure.Some? {
        return;
      }
      i := i + 1;
    }
    assert selected[..i] == selected;
  }

  /** `results` of `sync`. */
  datatype SyncResults = SyncResults(
    dryRun: bool, domainFilter: Option<string>, dnsZones: seq<DnsManager.DnsReport>, pullZones: seq<PzResult>,
    summary: Summary)

  /** The two errors a sync raises: an unknown domain filter, and the DNS manager's error. */
  datatype SyncError = DomainNotFound(domain: string) | DnsFailed(error: DnsManager.DnsError)

  /** `domain and not domains_config`: a non-empty filter that selects nothing. */
  predicate UnknownDomain(domains: Dict<string, DomainConfig>, filter: Option<string>) {
    Truthy(filter) && Filtered(domains, filter) == []
  }

  /**
   * `BunnySync.sync`: every selected domain's DNS records, then its pull zones, each
   * followed by its edge rules. `outs` is what each invocation returned; the results
   * are those outcomes collected, the summary is their totals, and the remote calls
   * are the outcomes' calls in order; a dry run issues no remote call.
   */
  method Sync(domains: Dict<string, DomainConfig>, dryRun: bool, deleteExtra: bool, filter: Option<string>,
              world: World)
    returns (r: Result<SyncResults, SyncError>, log: seq<Invocation>, outs: seq<Outcome>, calls: seq<RemoteCall>)
    ensures UnknownDomain(domains, filter) ==> r == Failure(DomainNotFound(filter.value)) && log == [] && calls == []
    ensures Explained(world, log, outs) && Collect(outs).calls == calls
    ensures r.Success? ==> Collect(outs) == Collected(r.value.dnsZones, r.value.pullZones, calls)
    ensures r.Success? ==>
      && log == Steps(Full, Filtered(domains, filter), dryRun, deleteExtra, world)
      && r.value.dryRun == dryRun && r.value.domainFilter == filter
      && r.value.summary == Tally(r.value.dnsZones, r.value.pullZones)
      && ReportDomains(r.value.dnsZones) == SyncedDomains(log)
      && ResultZones(r.value.pullZones) == SyncedZones(log)
    ensures r.Failure? && !UnknownDomain(domains, filter) ==>
      var selected := Filtered(domains, filter);
      r.error.DnsFailed? && StoppedAtDns(Full, selected, dryRun, deleteExtra, world, log)
    ensures dryRun ==> r.Success? || UnknownDomain(domains, filter)
    ensures dryRun ==> calls == []
  {
    var selected := FilterDomains(domains, filter);
    if Truthy(filter) && selected == [] {
      return Failure(DomainNotFound(filter.value)), [], [], [];
    }
    FitsAdmitsOutcomes(world);
    var failure, p := Run(Full, selected, dryRun, deleteExtra, world, FitsOf(world));
    ExplainedByFits(world, p.log, p.outs);
    log, outs, calls := p.log, p.outs, p.calls;
    if failure.Some? {
      return Failure(DnsFailed(failure.value)), log, outs, calls;
    }
    CountersAreTotals(p.dnsZones, p.pullZones);
    r := Success(SyncResults(dryRun, filter, p.dnsZones, p.pullZones, p.summary));
  }

  /** `results` of `sync_dns_only`. */
  datatype DnsResults = DnsResults(dryRun: bool, domainFilter: Option<string>, dnsZones: seq<DnsManager.DnsReport>)

  /** `BunnySync.sync_dns_only`: the DNS records of every selected domain and nothing else. */
  method SyncDnsOnly(domains: Dict<string, DomainConfig>, dryRun: bool, deleteExtra: bool, filter: Option<string>,
                     world: World)
    returns (r: Result<DnsResults, SyncError>, log: seq<Invocation>, outs: seq<Outcome>, calls: seq<RemoteCall>)
    ensures UnknownDomain(domains, filter) ==> r == Failure(DomainNotFound(filter.value)) && log == [] && calls == []
    ensures Explained(world, log, outs) && Collect(outs).calls == calls
    ensures r.Success? ==> Collect(outs).dnsZones == r.value.dnsZones
    ensures r.Success? ==>
      && log == Steps(DnsOnly, Filtered(domains, filter), dryRun, deleteExtra, world)
      && r.value.dryRun == dryRun && r.value.domainFilter == filter
      && ReportDomains(r.value.dnsZones) == SyncedDomains(log)
    ensures r.Failure? && !UnknownDomain(domains, filter) ==>
      var selected := Filtered(domains, filter);
      r.error.DnsFailed? && StoppedAtDns(DnsOnly, selected, dryRun, deleteExtra, world, log)
    ensures dryRun ==> r.Success? || UnknownDomain(domains, filter)
    ensures dryRun ==> calls == []
  {
    var selected := FilterDomains(domains, filter);
    if Truthy(filter) && selected == [] {
      return Failure(DomainNotFound(filter.value)), [], [], [];
    }
    FitsAdmitsOutcomes(world);
    var failure, p := Run(DnsOnly, selected, dryRun, deleteExtra, world, FitsOf(world));
    ExplainedByFits(world, p.log, p.outs);
    log, outs, calls := p.log, p.outs, p.calls;
    if failure.Some? {
      return Failure(DnsFailed(failure.value)), log, outs, calls;
    }
    r := Success(DnsResults(dryRun, filter, p.dnsZones));
  }

  /** `results` of `sync_pullzones_only`. */
  datatype ZoneResults = ZoneResults(dryRun: bool, domainFilter: Option<string>, pullZones: seq<PzResult>)

  /** `BunnySync.sync_pullzones_only`: the pull zones of every selected domain, without edge rules. */
  method SyncPullZonesOnly(domains: Dict<string, DomainConfig>, dryRun: bool, filter: Option<string>, world: World)
    returns (r: Result<ZoneResults, SyncError>, log: seq<Invocation>, outs: seq<Outcome>, calls: seq<RemoteCall>)
    ensures UnknownDomain(domains, filter) ==> r == Failure(DomainNotFound(filter.value)) && log == [] && calls == []
    ensures Explained(world, log, outs) && Collect(outs).calls == calls
    ensures r.Success? ==> Collect(outs).pullZones == r.value.pullZones
    ensures !UnknownDomain(domains, filter) ==>
      && r.Success?
      && log == Steps(PullZonesOnly, Filtered(domains, filter), dryRun, false, world)
      && r.value.dryRun == dryRun && r.value.domainFilter == filter
      && ResultZones(r.value.pullZones) == SyncedZones(log)
    ensures dryRun ==> calls == []
  {
    var selected := FilterDomains(domains, filter);
    if Truthy(filter) && selected == [] {
      return Failure(DomainNotFound(filter.value)), [], [], [];
    }
    FitsAdmitsOutcomes(world);
    var failure, p := Run(PullZonesOnly, selected, dryRun, false, world, FitsOf(world));
    ExplainedByFits(world, p.log, p.outs);
    log, outs, calls := p.log, p.outs, p.calls;
    if failure.Some? {
      assert false;
    }
    r := Success(ZoneResults(dryRun, filter, p.pullZones));
  }
}
