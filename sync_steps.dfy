/**
 * What the three sync entry points invoke, read off the invocation logs that `Sync`
 * specifies: which DNS and pull zone syncs run with which arguments, which managers
 * each mode leaves alone, and where edge rule syncs sit.
 */
module SyncSteps {
  import opened Wrappers
  import opened Dicts
  import opened Sync
  import DnsManager
  import PullZones
  import EdgeRules

  // ---------------------------------------------------------------------------
  // Membership

  lemma ZoneStepMember(domain: string, name: string, cfg: PullZones.ZoneConfig, dryRun: bool, world: World,
                       withRules: bool, x: Invocation)
    ensures x in ZoneStep(domain, name, cfg, dryRun, world, withRules) <==>
      || x == PullZoneSync(domain, name, cfg, dryRun)
      || (withRules && RulesOf(cfg) != [] && x == ZoneLookup(name))
      || (withRules && RulesOf(cfg) != [] && ZoneFound(world, name).Some?
          && x == RulesSync(name, ZoneFound(world, name).value.id, RulesOf(cfg), dryRun))
  {
  }

  lemma {:induction false} FlattenMember(ss: seq<seq<Invocation>>, x: Invocation)
    ensures x in Flatten(ss) <==> exists k :: 0 <= k < |ss| && x in ss[k]
    decreases |ss|
  {
    if ss != [] {
      var init := ss[..|ss| - 1];
      FlattenMember(init, x);
      assert forall k :: 0 <= k < |init| ==> init[k] == ss[k];
    }
  }

  /** The invocations for a domain's zones are those for one of its zones. */
  lemma ZonesStepsMember(domain: string, zones: Dict<string, PullZones.ZoneConfig>, dryRun: bool,
                         world: World, withRules: bool, x: Invocation)
    ensures x in ZonesSteps(domain, zones, dryRun, world, withRules) <==>
      exists k :: 0 <= k < |zones| && x in ZoneStep(domain, zones[k].0, zones[k].1, dryRun, world, withRules)
  {
    var all := ZoneStepLists(domain, zones, dryRun, world, withRules);
    FlattenZones(domain, zones, dryRun, world, withRules, |zones|);
    assert all[..|zones|] == all;
    assert zones[..|zones|] == zones;
    FlattenMember(all, x);
    if x in Flatten(all) {
      var k :| 0 <= k < |all| && x in all[k];
      assert all[k] == ZoneStep(domain, zones[k].0, zones[k].1, dryRun, world, withRules);
    } else {
      forall k | 0 <= k < |zones|
        ensures x !in ZoneStep(domain, zones[k].0, zones[k].1, dryRun, world, withRules)
      {
        assert all[k] == ZoneStep(domain, zones[k].0, zones[k].1, dryRun, world, withRules);
      }
    }
  }

  /** What each domain of a run invokes, domain by domain. */
  function DomainStepLists(mode: Mode, domains: Dict<string, DomainConfig>, dryRun: bool, deleteExtra: bool,
                           world: World): seq<seq<Invocation>>
  {
    seq(|domains|, i requires 0 <= i < |domains| => DomainSteps(mode, domains[i].0, domains[i].1, dryRun, deleteExtra, world))
  }

  lemma FlattenPrefix(ss: seq<seq<Invocation>>, n: nat)
    requires 0 < n <= |ss|
    ensures Flatten(ss[..n]) == Flatten(ss[..n - 1]) + ss[n - 1]
  {
    assert ss[..n][..n - 1] == ss[..n - 1];
  }

  lemma StepsPrefix(mode: Mode, domains: Dict<string, DomainConfig>, dryRun: bool, deleteExtra: bool,
                    world: World, n: nat)
    requires 0 < n <= |domains|
    ensures Steps(mode, domains[..n], dryRun, deleteExtra, world)
         == Steps(mode, domains[..n - 1], dryRun, deleteExtra, world)
            + DomainSteps(mode, domains[n - 1].0, domains[n - 1].1, dryRun, deleteExtra, world)
  {
    var prefix := domains[..n];
    assert prefix[..n - 1] == domains[..n - 1];
    assert prefix[n - 1] == domains[n - 1];
  }

  lemma {:induction false} FlattenDomains(mode: Mode, domains: Dict<string, DomainConfig>, dryRun: bool,
                                          deleteExtra: bool, world: World, n: nat)
    requires n <= |domains|
    ensures Flatten(DomainStepLists(mode, domains, dryRun, deleteExtra, world)[..n])
         == Steps(mode, domains[..n], dryRun, deleteExtra, world)
    decreases n
  {
    if n > 0 {
      var all := DomainStepLists(mode, domains, dryRun, deleteExtra, world);
      FlattenDomains(mode, domains, dryRun, deleteExtra, world, n - 1);
      FlattenPrefix(all, n);
      StepsPrefix(mode, domains, dryRun, deleteExtra, world, n);
    }
  }

  /** The invocations of a run are those for one of its domains. */
  lemma StepsMember(mode: Mode, domains: Dict<string, DomainConfig>, dryRun: bool,
                    deleteExtra: bool, world: World, x: Invocation)
    ensures x in Steps(mode, domains, dryRun, deleteExtra, world) <==>
      exists i :: 0 <= i < |domains| && x in DomainSteps(mode, domains[i].0, domains[i].1, dryRun, deleteExtra, world)
  {
    var all := DomainStepLists(mode, domains, dryRun, deleteExtra, world);
    FlattenDomains(mode, domains, dryRun, deleteExtra, world, |domains|);
    assert all[..|domains|] == all;
    assert domains[..|domains|] == domains;
    FlattenMember(all, x);
    if x in Flatten(all) {
      var k :| 0 <= k < |all| && x in all[k];
      assert all[k] == DomainSteps(mode, domains[k].0, domains[k].1, dryRun, deleteExtra, world);
    } else {
      forall i | 0 <= i < |domains|
        ensures x !in DomainSteps(mode, domains[i].0, domains[i].1, dryRun, deleteExtra, world)
      {
        assert all[i] == DomainSteps(mode, domains[i].0, domains[i].1, dryRun, deleteExtra, world);
      }
    }
  }

  /** A zone's invocations are never DNS syncs, and are rule lookups or syncs only with `withRules`. */
  lemma ZonesStepsKinds(domain: string, zones: Dict<string, PullZones.ZoneConfig>, dryRun: bool, world: World,
                        withRules: bool, x: Invocation)
    requires x in ZonesSteps(domain, zones, dryRun, world, withRules)
    ensures x.PullZoneSync? || (withRules && (x.ZoneLookup? || x.RulesSync?))
  {
    ZonesStepsMember(domain, zones, dryRun, world, withRules, x);
    var k :| 0 <= k < |zones| && x in ZoneStep(domain, zones[k].0, zones[k].1, dryRun, world, withRules);
    ZoneStepMember(domain, zones[k].0, zones[k].1, dryRun, world, withRules, x);
  }

  // ---------------------------------------------------------------------------
  // Which syncs run

  /**
   * The DNS manager syncs a domain exactly when the mode syncs DNS and the domain has
   * `dns_records`; it gets those records and the `dry_run` and `delete_extra` flags
   * unchanged.
   */
  lemma DnsSyncsOf(mode: Mode, domains: Dict<string, DomainConfig>, dryRun: bool, deleteExtra: bool, world: World,
                   d: string, records: seq<DnsManager.RecordConfig>, dr: bool, de: bool)
    ensures DnsSync(d, records, dr, de) in Steps(mode, domains, dryRun, deleteExtra, world) <==>
      && mode != PullZonesOnly && records != [] && dr == dryRun && de == deleteExtra
      && exists i :: 0 <= i < |domains| && domains[i].0 == d && RecordsOf(domains[i].1) == records
  {
    var x := DnsSync(d, records, dr, de);
    StepsMember(mode, domains, dryRun, deleteExtra, world, x);
    forall i | 0 <= i < |domains|
      ensures x in DomainSteps(mode, domains[i].0, domains[i].1, dryRun, deleteExtra, world) <==>
        mode != PullZonesOnly && records != [] && dr == dryRun && de == deleteExtra
        && domains[i].0 == d && RecordsOf(domains[i].1) == records
    {
      var zonesPart := if mode != DnsOnly then ZonesSteps(domains[i].0, ZonesOf(domains[i].1), dryRun, world, mode == Full) else [];
      if x in zonesPart {
        ZonesStepsKinds(domains[i].0, ZonesOf(domains[i].1), dryRun, world, mode == Full, x);
      }
    }
  }

  lemma DomainPullZoneSyncs(mode: Mode, domain: string, dc: DomainConfig, dryRun: bool, deleteExtra: bool,
                            world: World, d: string, name: string, cfg: PullZones.ZoneConfig, dr: bool)
    ensures PullZoneSync(d, name, cfg, dr) in DomainSteps(mode, domain, dc, dryRun, deleteExtra, world) <==>
      && mode != DnsOnly && dr == dryRun && domain == d
      && exists k :: 0 <= k < |ZonesOf(dc)| && ZonesOf(dc)[k] == (name, cfg)
  {
    var x := PullZoneSync(d, name, cfg, dr);
    var zones := ZonesOf(dc);
    if mode != DnsOnly {
      ZonesStepsMember(domain, zones, dryRun, world, mode == Full, x);
      forall k | 0 <= k < |zones|
        ensures x in ZoneStep(domain, zones[k].0, zones[k].1, dryRun, world, mode == Full) <==>
          dr == dryRun && domain == d && zones[k] == (name, cfg)
      {
        ZoneStepMember(domain, zones[k].0, zones[k].1, dryRun, world, mode == Full, x);
      }
    }
  }

  /**
   * The pull-zone manager syncs a zone exactly when the mode syncs pull zones and the
   * zone is configured under the domain; it gets the zone's configuration and `dry_run`.
   */
  lemma PullZoneSyncsOf(mode: Mode, domains: Dict<string, DomainConfig>, dryRun: bool, deleteExtra: bool,
                        world: World, d: string, name: string, cfg: PullZones.ZoneConfig, dr: bool)
    ensures PullZoneSync(d, name, cfg, dr) in Steps(mode, domains, dryRun, deleteExtra, world) <==>
      && mode != DnsOnly && dr == dryRun
      && exists i, k :: 0 <= i < |domains| && domains[i].0 == d && 0 <= k < |ZonesOf(domains[i].1)|
                        && ZonesOf(domains[i].1)[k] == (name, cfg)
  {
    StepsMember(mode, domains, dryRun, deleteExtra, world, PullZoneSync(d, name, cfg, dr));
    forall i | 0 <= i < |domains| {
      DomainPullZoneSyncs(mode, domains[i].0, domains[i].1, dryRun, deleteExtra, world, d, name, cfg, dr);
    }
  }

  lemma DomainRulesSyncs(mode: Mode, domain: string, dc: DomainConfig, dryRun: bool, deleteExtra: bool,
                         world: World, name: string, zoneId: Option<int>, rules: seq<EdgeRules.RuleConfig>, dr: bool)
    ensures RulesSync(name, zoneId, rules, dr) in DomainSteps(mode, domain, dc, dryRun, deleteExtra, world) <==>
      && mode == Full && rules != [] && dr == dryRun
      && ZoneFound(world, name).Some? && ZoneFound(world, name).value.id == zoneId
      && exists k :: 0 <= k < |ZonesOf(dc)| && ZonesOf(dc)[k].0 == name && RulesOf(ZonesOf(dc)[k].1) == rules
  {
    var x := RulesSync(name, zoneId, rules, dr);
    var zones := ZonesOf(dc);
    if mode != DnsOnly {
      ZonesStepsMember(domain, zones, dryRun, world, mode == Full, x);
      forall k | 0 <= k < |zones|
        ensures x in ZoneStep(domain, zones[k].0, zones[k].1, dryRun, world, mode == Full) <==>
          && mode == Full && rules != [] && dr == dryRun
          && ZoneFound(world, name).Some? && ZoneFound(world, name).value.id == zoneId
          && zones[k].0 == name && RulesOf(zones[k].1) == rules
      {
        ZoneStepMember(domain, zones[k].0, zones[k].1, dryRun, world, mode == Full, x);
      }
    }
  }

  /**
   * Edge rules are synced only by `sync`, for a configured pull zone with non-empty
   * `edge_rules` that `get_zone_by_name` finds, with that zone's id, those rules and
   * `dry_run`.
   */
  lemma RulesSyncsOf(mode: Mode, domains: Dict<string, DomainConfig>, dryRun: bool, deleteExtra: bool,
                     world: World, name: string, zoneId: Option<int>, rules: seq<EdgeRules.RuleConfig>, dr: bool)
    ensures RulesSync(name, zoneId, rules, dr) in Steps(mode, domains, dryRun, deleteExtra, world) <==>
      && mode == Full && rules != [] && dr == dryRun
      && ZoneFound(world, name).Some? && ZoneFound(world, name).value.id == zoneId
      && exists i, k :: 0 <= i < |domains| && 0 <= k < |ZonesOf(domains[i].1)|
                        && ZonesOf(domains[i].1)[k].0 == name && RulesOf(ZonesOf(domains[i].1)[k].1) == rules
  {
    StepsMember(mode, domains, dryRun, deleteExtra, world, RulesSync(name, zoneId, rules, dr));
    forall i | 0 <= i < |domains| {
      DomainRulesSyncs(mode, domains[i].0, domains[i].1, dryRun, deleteExtra, world, name, zoneId, rules, dr);
    }
  }

  /** `sync_dns_only` invokes nothing but the DNS manager. */
  lemma DnsOnlySyncsDns(domains: Dict<string, DomainConfig>, dryRun: bool, deleteExtra: bool, world: World)
    ensures forall x :: x in Steps(DnsOnly, domains, dryRun, deleteExtra, world) ==> x.DnsSync?
  {
    forall x | x in Steps(DnsOnly, domains, dryRun, deleteExtra, world) ensures x.DnsSync? {
      StepsMember(DnsOnly, domains, dryRun, deleteExtra, world, x);
    }
  }

  /** `sync_pullzones_only` invokes nothing but the pull-zone manager's zone sync. */
  lemma PullZonesOnlySyncsZones(domains: Dict<string, DomainConfig>, dryRun: bool, deleteExtra: bool, world: World)
    ensures forall x :: x in Steps(PullZonesOnly, domains, dryRun, deleteExtra, world) ==> x.PullZoneSync?
  {
    forall x | x in Steps(PullZonesOnly, domains, dryRun, deleteExtra, world) ensures x.PullZoneSync? {
      StepsMember(PullZonesOnly, domains, dryRun, deleteExtra, world, x);
      var i :| 0 <= i < |domains| && x in DomainSteps(PullZonesOnly, domains[i].0, domains[i].1, dryRun, deleteExtra, world);
      ZonesStepsKinds(domains[i].0, ZonesOf(domains[i].1), dryRun, world, false, x);
    }
  }

  // ---------------------------------------------------------------------------
  // Where edge rule syncs sit

  /**
   * The edge rule sync at `k` comes right after the lookup of its zone, which comes
   * right after that zone's pull-zone sync, whose configuration has those rules; the
   * zone id is the one the lookup found.
   */
  predicate RulesSyncPlaced(world: World, log: seq<Invocation>, k: int)
    requires 0 <= k < |log| && log[k].RulesSync?
  {
    var r := log[k];
    && k >= 2
    && log[k - 1] == ZoneLookup(r.zone)
    && log[k - 2].PullZoneSync? && log[k - 2].zone == r.zone && log[k - 2].dryRun == r.dryRun
    && r.rules != [] && RulesOf(log[k - 2].config) == r.rules
    && ZoneFound(world, r.zone).Some? && ZoneFound(world, r.zone).value.id == r.zoneId
  }

  predicate RulesPlaced(world: World, log: seq<Invocation>) {
    forall k :: 0 <= k < |log| && log[k].RulesSync? ==> RulesSyncPlaced(world, log, k)
  }

  lemma RulesPlacedAppend(world: World, a: seq<Invocation>, b: seq<Invocation>)
    requires RulesPlaced(world, a) && RulesPlaced(world, b)
    ensures RulesPlaced(world, a + b)
  {
    var ab := a + b;
    forall k | 0 <= k < |ab| && ab[k].RulesSync? ensures RulesSyncPlaced(world, ab, k) {
      if k < |a| {
        assert ab[k] == a[k];
        assert RulesSyncPlaced(world, a, k);
        assert ab[k - 1] == a[k - 1] && ab[k - 2] == a[k - 2];
      } else {
        var j := k - |a|;
        assert ab[k] == b[j];
        assert RulesSyncPlaced(world, b, j);
        assert ab[k - 1] == b[j - 1] && ab[k - 2] == b[j - 2];
      }
    }
  }

  lemma ZoneStepRulesPlaced(domain: string, name: string, cfg: PullZones.ZoneConfig, dryRun: bool, world: World,
                            withRules: bool)
    ensures RulesPlaced(world, ZoneStep(domain, name, cfg, dryRun, world, withRules))
  {
    var step := ZoneStep(domain, name, cfg, dryRun, world, withRules);
    forall k | 0 <= k < |step| && step[k].RulesSync? ensures RulesSyncPlaced(world, step, k) {
      assert k == 2;
    }
  }

  lemma {:induction false} ZonesStepsRulesPlaced(domain: string, zones: Dict<string, PullZones.ZoneConfig>,
                                                 dryRun: bool, world: World, withRules: bool)
    ensures RulesPlaced(world, ZonesSteps(domain, zones, dryRun, world, withRules))
    decreases |zones|
  {
    if zones != [] {
      var last := zones[|zones| - 1];
      ZonesStepsRulesPlaced(domain, zones[..|zones| - 1], dryRun, world, withRules);
      ZoneStepRulesPlaced(domain, last.0, last.1, dryRun, world, withRules);
      RulesPlacedAppend(world, ZonesSteps(domain, zones[..|zones| - 1], dryRun, world, withRules),
                        ZoneStep(domain, last.0, last.1, dryRun, world, withRules));
    }
  }

  lemma DomainStepsRulesPlaced(mode: Mode, domain: string, dc: DomainConfig, dryRun: bool, deleteExtra: bool,
                               world: World)
    ensures RulesPlaced(world, DomainSteps(mode, domain, dc, dryRun, deleteExtra, world))
  {
    var dns := if mode != PullZonesOnly then DnsStep(domain, dc, dryRun, deleteExtra) else [];
    ZonesStepsRulesPlaced(domain, ZonesOf(dc), dryRun, world, mode == Full);
    assert RulesPlaced(world, dns);
    RulesPlacedAppend(world, dns, if mode != DnsOnly then ZonesSteps(domain, ZonesOf(dc), dryRun, world, mode == Full) else []);
  }

  /** In every run, each edge rule sync follows its zone's lookup, which follows that zone's pull-zone sync. */
  lemma {:induction false} StepsRulesPlaced(mode: Mode, domains: Dict<string, DomainConfig>, dryRun: bool,
                                            deleteExtra: bool, world: World)
    ensures RulesPlaced(world, Steps(mode, domains, dryRun, deleteExtra, world))
    decreases |domains|
  {
    if domains != [] {
      var last := domains[|domains| - 1];
      StepsRulesPlaced(mode, domains[..|domains| - 1], dryRun, deleteExtra, world);
      DomainStepsRulesPlaced(mode, last.0, last.1, dryRun, deleteExtra, world);
      RulesPlacedAppend(world, Steps(mode, domains[..|domains| - 1], dryRun, deleteExtra, world),
                        DomainSteps(mode, last.0, last.1, dryRun, deleteExtra, world));
    }
  }
}
