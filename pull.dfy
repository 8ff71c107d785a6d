/**
 * The pull direction of `BunnySync`: the current state of the account read back as a
 * configuration, for one domain or for every domain. The exports the managers offer
 * (`export_zone`, `export_all_zones`, `get_zones_for_domain`, `list_zones`,
 * `to_config_dict`, `export_rules`) are not part of this model: an `Account` carries
 * what they return.
 */
module Pull {
  import opened Wrappers
  import opened Text
  import opened Dicts
  import opened Scan
  import DnsManager
  import PullZones
  import EdgeRules
  import Sync

  /** What the exports return, as snapshots of one account. */
  datatype Account = Account(
    exportZone: string -> Option<seq<DnsManager.RecordConfig>>,
    exportAllZones: Dict<string, seq<DnsManager.RecordConfig>>,
    dnsDomains: seq<string>,
    zonesForDomain: string -> seq<PullZones.PullZone>,
    allZones: seq<PullZones.PullZone>,
    toConfig: PullZones.PullZone -> PullZones.ZoneConfig,
    exportRules: Option<int> -> seq<EdgeRules.RuleConfig>)

  type Domains = Dict<string, Sync.DomainConfig>

  /** `{}`: a domain entry with neither key. */
  const Empty := Sync.DomainConfig(None, None)

  /** `pz.to_config_dict()` with `edge_rules` set to the zone's exported rules. */
  function ZoneConfigOf(acct: Account, pz: PullZones.PullZone): PullZones.ZoneConfig {
    acct.toConfig(pz).(edgeRules := Some(acct.exportRules(pz.id)))
  }

  // ---------------------------------------------------------------------------
  // One domain

  /** `pull_zones[pz.name] = pz_config` for every zone of the list, in order. */
  function ZoneDict(acct: Account, pzs: seq<PullZones.PullZone>): Dict<string, PullZones.ZoneConfig>
    decreases |pzs|
  {
    if pzs == [] then []
    else
      var last := pzs[|pzs| - 1];
      Put(ZoneDict(acct, pzs[..|pzs| - 1]), last.name, ZoneConfigOf(acct, last))
  }

  /** The zone dictionary holds one key per zone name. */
  lemma {:induction false} ZoneDictKeys(acct: Account, pzs: seq<PullZones.PullZone>)
    ensures Keys(ZoneDict(acct, pzs)) == set pz | pz in pzs :: pz.name
    decreases |pzs|
  {
    if pzs != [] {
      var init := pzs[..|pzs| - 1];
      var last := pzs[|pzs| - 1];
      ZoneDictKeys(acct, init);
      PutKeys(ZoneDict(acct, init), last.name, ZoneConfigOf(acct, last));
      assert pzs == init + [last];
      assert (set pz | pz in pzs :: pz.name) == (set pz | pz in init :: pz.name) + {last.name};
    }
  }

  /** Under each name the dictionary holds the configuration of the last zone with that name. */
  lemma {:induction false} ZoneDictLookup(acct: Account, pzs: seq<PullZones.PullZone>, j: nat)
    requires j < |pzs|
    requires forall k :: j < k < |pzs| ==> pzs[k].name != pzs[j].name
    ensures Lookup(ZoneDict(acct, pzs), pzs[j].name) == Some(ZoneConfigOf(acct, pzs[j]))
    decreases |pzs|
  {
    var init := pzs[..|pzs| - 1];
    var last := pzs[|pzs| - 1];
    PutLookup(ZoneDict(acct, init), last.name, ZoneConfigOf(acct, last));
    if j < |pzs| - 1 {
      ZoneDictLookup(acct, init, j);
    }
  }

  /** The dictionary `_pull_domain` builds for a list of zones. */
  method PullZoneDict(acct: Account, pzs: seq<PullZones.PullZone>) returns (zones: Dict<string, PullZones.ZoneConfig>)
    ensures zones == ZoneDict(acct, pzs)
  {
    zones := [];
    var i := 0;
    while i < |pzs|
      invariant 0 <= i <= |pzs|
      invariant zones == ZoneDict(acct, pzs[..i])
    {
      assert pzs[..i + 1][..i] == pzs[..i];
      var pz := pzs[i];
      var cfg := acct.toConfig(pz);
      cfg := cfg.(edgeRules := Some(acct.exportRules(pz.id)));
      zones := Put(zones, pz.name, cfg);
      i := i + 1;
    }
    assert pzs[..i] == pzs;
  }

  /** What `_pull_domain` returns: `None` for a domain the account does not have. */
  function DomainPulled(domain: string, dnsOnly: bool, pzOnly: bool, acct: Account): Option<Domains> {
    var zoneFound := pzOnly || acct.exportZone(domain).Some?;
    var records := if pzOnly then None else Some(acct.exportZone(domain).GetOr([]));
    var zones := if dnsOnly then None else Some(ZoneDict(acct, acct.zonesForDomain(domain)));
    if !zoneFound && (zones.None? || zones.value == []) then None
    else Some([(domain, Sync.DomainConfig(records, zones))])
  }

  /**
   * A domain is missing exactly when its DNS zone was exported, came back `None`, and
   * no pull zone belongs to it (or pull zones were not asked for).
   */
  lemma DomainPulledNone(domain: string, dnsOnly: bool, pzOnly: bool, acct: Account)
    ensures DomainPulled(domain, dnsOnly, pzOnly, acct).None?
        <==> !pzOnly && acct.exportZone(domain).None? && (dnsOnly || acct.zonesForDomain(domain) == [])
  {
    var pzs := acct.zonesForDomain(domain);
    ZoneDictKeys(acct, pzs);
    if pzs != [] {
      assert pzs[0].name in Keys(ZoneDict(acct, pzs));
    }
  }

  /** A domain that is found is the one entry of the result, with the keys the flags ask for. */
  lemma DomainPulledShape(domain: string, dnsOnly: bool, pzOnly: bool, acct: Account)
    requires DomainPulled(domain, dnsOnly, pzOnly, acct).Some?
    ensures var r := DomainPulled(domain, dnsOnly, pzOnly, acct).value;
      && Keys(r) == {domain}
      && (r[0].1.dnsRecords.Some? <==> !pzOnly)
      && (r[0].1.pullZones.Some? <==> !dnsOnly)
      && (!pzOnly ==> r[0].1.dnsRecords.value == acct.exportZone(domain).GetOr([]))
      && (!dnsOnly ==> Keys(r[0].1.pullZones.value) == set pz | pz in acct.zonesForDomain(domain) :: pz.name)
  {
    var r := DomainPulled(domain, dnsOnly, pzOnly, acct).value;
    assert r[0].0 == domain;
    ZoneDictKeys(acct, acct.zonesForDomain(domain));
  }

  /** `_pull_domain`. */
  method PullDomain(domain: string, dnsOnly: bool, pzOnly: bool, acct: Account) returns (r: Option<Domains>)
    ensures r == DomainPulled(domain, dnsOnly, pzOnly, acct)
  {
    var records: Option<seq<DnsManager.RecordConfig>> := None;
    var zones: Option<Dict<string, PullZones.ZoneConfig>> := None;
    var zoneFound := true;
    if !pzOnly {
      var exported := acct.exportZone(domain);
      var recs := [];
      if exported.None? {
        zoneFound := false;
      } else {
        recs := exported.value;
      }
      records := Some(recs);
    }
    if !dnsOnly {
      var pzs := PullZoneDict(acct, acct.zonesForDomain(domain));
      zones := Some(pzs);
    }
    if !zoneFound && (zones.None? || zones.value == []) {
      return None;
    }
    r := Some([(domain, Sync.DomainConfig(records, zones))]);
  }

  // ---------------------------------------------------------------------------
  // Matching a pull zone to a domain

  /** A hostname belongs to a domain when it is the domain or ends with "." and the domain, ignoring case. */
  predicate BelongsTo(hostname: string, domain: string) {
    Lower(hostname) == Lower(domain) || EndsWith(Lower(hostname), "." + Lower(domain))
  }

  function DomainTest(hostname: string): string -> bool {
    d => BelongsTo(hostname, d)
  }

  /** The first domain of the list the hostname belongs to. */
  function FirstDomain(hostname: string, domains: seq<string>): Option<string> {
    match First(DomainTest(hostname), domains)
    case None => None
    case Some(k) => Some(domains[k])
  }

  /** The first domain found is one the hostname belongs to, and no earlier domain is; none is found exactly when it belongs to none. */
  lemma FirstDomainSpec(hostname: string, domains: seq<string>)
    ensures FirstDomain(hostname, domains).None? <==> forall k :: 0 <= k < |domains| ==> !BelongsTo(hostname, domains[k])
    ensures FirstDomain(hostname, domains).Some? ==>
      exists k :: 0 <= k < |domains| && domains[k] == FirstDomain(hostname, domains).value
        && BelongsTo(hostname, domains[k]) && forall k' :: 0 <= k' < k ==> !BelongsTo(hostname, domains[k'])
  {
    FirstSpec(DomainTest(hostname), domains);
  }

  /**
   * The outer loop over the hostnames from the current one on, with `matched` the
   * value the variable holds so far: system hostnames are skipped, a match replaces
   * it, and the loop stops once it holds a non-empty domain.
   */
  function MatchFrom(hostnames: seq<PullZones.Hostname>, domains: seq<string>, matched: Option<string>): Option<string>
    decreases |hostnames|
  {
    if hostnames == [] then matched
    else if hostnames[0].isSystem then MatchFrom(hostnames[1..], domains, matched)
    else
      var found := FirstDomain(hostnames[0].value, domains);
      var now := if found.Some? then found else matched;
      if Truthy(now) then now else MatchFrom(hostnames[1..], domains, now)
  }

  /** The domain a pull zone with these hostnames is matched to, if any. */
  function Matched(hostnames: seq<PullZones.Hostname>, domains: seq<string>): Option<string> {
    MatchFrom(hostnames, domains, None)
  }

  /** A zone matches when one of its non-system hostnames belongs to a non-empty domain. */
  predicate HasMatch(hostnames: seq<PullZones.Hostname>, domains: seq<string>, j: int) {
    0 <= j < |hostnames| && !hostnames[j].isSystem && Truthy(FirstDomain(hostnames[j].value, domains))
  }

  /** What holds of the hostnames after the first one holds of them all, when the first has no match. */
  lemma LiftMatch(hostnames: seq<PullZones.Hostname>, domains: seq<string>, r: Option<string>)
    requires hostnames != [] && !HasMatch(hostnames, domains, 0)
    requires var rest := hostnames[1..];
      && (Truthy(r) <==> exists j :: HasMatch(rest, domains, j))
      && (Truthy(r) ==> exists j :: HasMatch(rest, domains, j) && r == FirstDomain(rest[j].value, domains)
                                    && forall i :: 0 <= i < j ==> !HasMatch(rest, domains, i))
    ensures Truthy(r) <==> exists j :: HasMatch(hostnames, domains, j)
    ensures Truthy(r) ==> exists j :: HasMatch(hostnames, domains, j) && r == FirstDomain(hostnames[j].value, domains)
                                      && forall i :: 0 <= i < j ==> !HasMatch(hostnames, domains, i)
  {
    var rest := hostnames[1..];
    forall j | 0 <= j < |rest| ensures HasMatch(rest, domains, j) == HasMatch(hostnames, domains, j + 1) {
      assert rest[j] == hostnames[j + 1];
    }
    if Truthy(r) {
      var j :| HasMatch(rest, domains, j) && r == FirstDomain(rest[j].value, domains)
               && forall i :: 0 <= i < j ==> !HasMatch(rest, domains, i);
      assert HasMatch(hostnames, domains, j + 1);
      forall i | 0 <= i < j + 1 ensures !HasMatch(hostnames, domains, i) {
        if i > 0 {
          assert !HasMatch(rest, domains, i - 1);
        }
      }
    } else {
      forall j | HasMatch(hostnames, domains, j) ensures false {
        assert HasMatch(rest, domains, j - 1);
      }
    }
  }

  lemma {:induction false} MatchFromSpec(hostnames: seq<PullZones.Hostname>, domains: seq<string>, matched: Option<string>)
    requires !Truthy(matched)
    ensures Truthy(MatchFrom(hostnames, domains, matched)) <==> exists j :: HasMatch(hostnames, domains, j)
    ensures Truthy(MatchFrom(hostnames, domains, matched)) ==>
      exists j :: HasMatch(hostnames, domains, j)
        && MatchFrom(hostnames, domains, matched) == FirstDomain(hostnames[j].value, domains)
        && forall i :: 0 <= i < j ==> !HasMatch(hostnames, domains, i)
    decreases |hostnames|
  {
    if hostnames != [] {
      var found := FirstDomain(hostnames[0].value, domains);
      var now := if found.Some? then found else matched;
      if !hostnames[0].isSystem && Truthy(now) {
        assert HasMatch(hostnames, domains, 0);
      } else {
        var next := if hostnames[0].isSystem then matched else now;
        assert MatchFrom(hostnames, domains, matched) == MatchFrom(hostnames[1..], domains, next);
        MatchFromSpec(hostnames[1..], domains, next);
        LiftMatch(hostnames, domains, MatchFrom(hostnames[1..], domains, next));
      }
    }
  }

  /**
   * A pull zone is matched to a non-empty domain exactly when one of its non-system
   * hostnames belongs to one; it is then the first domain of the list that the first
   * such hostname belongs to.
   */
  lemma MatchedSpec(hostnames: seq<PullZones.Hostname>, domains: seq<string>)
    ensures Truthy(Matched(hostnames, domains)) <==> exists j :: HasMatch(hostnames, domains, j)
    ensures Truthy(Matched(hostnames, domains)) ==>
      exists j :: HasMatch(hostnames, domains, j)
        && Matched(hostnames, domains) == FirstDomain(hostnames[j].value, domains)
        && forall i :: 0 <= i < j ==> !HasMatch(hostnames, domains, i)
  {
    MatchFromSpec(hostnames, domains, None);
  }

  /** The matching loop of `_pull_all_domains` for one pull zone, with its two `break`s. */
  method MatchDomain(hostnames: seq<PullZones.Hostname>, domains: seq<string>) returns (matched: Option<string>)
    ensures matched == Matched(hostnames, domains)
  {
    matched := None;
    var i := 0;
    while i < |hostnames|
      invariant 0 <= i <= |hostnames|
      invariant MatchFrom(hostnames[i..], domains, matched) == Matched(hostnames, domains)
    {
      var h := hostnames[i];
      assert hostnames[i..][1..] == hostnames[i + 1..];
      if h.isSystem {
        i := i + 1;
        continue;
      }
      ghost var before := matched;
      var k := 0;
      while k < |domains|
        invariant 0 <= k <= |domains|
        invariant forall k' :: 0 <= k' < k ==> !BelongsTo(h.value, domains[k'])
        invariant matched == before
      {
        if BelongsTo(h.value, domains[k]) {
          matched := Some(domains[k]);
          break;
        }
        k := k + 1;
      }
      if k < |domains| {
        FirstIsUnique(DomainTest(h.value), domains, k);
      } else {
        FirstSpec(DomainTest(h.value), domains);
      }
      if Truthy(matched) {
        return;
      }
      i := i + 1;
    }
  }

  // ---------------------------------------------------------------------------
  // Every domain

  /** `domains.setdefault(d, {})["dns_records"] = records` for every exported zone, in order. */
  function DnsEntries(all: Dict<string, seq<DnsManager.RecordConfig>>): Domains
    decreases |all|
  {
    if all == [] then []
    else
      var last := all[|all| - 1];
      var ds := DnsEntries(all[..|all| - 1]);
      Put(ds, last.0, Get(ds, last.0, Empty).(dnsRecords := Some(last.1)))
  }

  /** `domains[d].setdefault("pull_zones", {})[name] = cfg`, after `domains.setdefault(d, {})`. */
  function AddZone(ds: Domains, d: string, name: string, cfg: PullZones.ZoneConfig): Domains {
    var dc := Get(ds, d, Empty);
    Put(ds, d, dc.(pullZones := Some(Put(Sync.ZonesOf(dc), name, cfg))))
  }

  /** The zones of the list placed under their matched domains, in order; unmatched ones are dropped. */
  function Placed(ds: Domains, acct: Account, domains: seq<string>, pzs: seq<PullZones.PullZone>): Domains
    decreases |pzs|
  {
    if pzs == [] then ds
    else
      var last := pzs[|pzs| - 1];
      var before := Placed(ds, acct, domains, pzs[..|pzs| - 1]);
      var m := Matched(last.hostnames, domains);
      if Truthy(m) then AddZone(before, m.value, last.name, ZoneConfigOf(acct, last)) else before
  }

  /** `domains[d].setdefault("pull_zones", {})` for every domain. */
  function WithPullZones(ds: Domains): (r: Domains)
    ensures |r| == |ds|
    ensures forall i :: 0 <= i < |ds| ==>
      r[i] == (ds[i].0, ds[i].1.(pullZones := Some(Sync.ZonesOf(ds[i].1))))
  {
    seq(|ds|, i requires 0 <= i < |ds| => (ds[i].0, ds[i].1.(pullZones := Some(Sync.ZonesOf(ds[i].1)))))
  }

  /** `list(domains.keys())`. */
  function KeyList(ds: Domains): (ks: seq<string>)
    ensures |ks| == |ds| && forall i :: 0 <= i < |ds| ==> ks[i] == ds[i].0
  {
    seq(|ds|, i requires 0 <= i < |ds| => ds[i].0)
  }

  /** The domains pull zones are matched against: those collected so far, or else the account's DNS zones. */
  function Candidates(ds: Domains, acct: Account): seq<string> {
    if ds != [] then KeyList(ds) else acct.dnsDomains
  }

  /** What `_pull_all_domains` returns under `"domains"`. */
  function AllDomains(dnsOnly: bool, pzOnly: bool, acct: Account): Domains {
    var ds := if pzOnly then [] else DnsEntries(acct.exportAllZones);
    if dnsOnly then ds else WithPullZones(Placed(ds, acct, Candidates(ds, acct), acct.allZones))
  }

  /** `_pull_all_domains`. */
  method PullAllDomains(dnsOnly: bool, pzOnly: bool, acct: Account) returns (domains: Domains)
    ensures domains == AllDomains(dnsOnly, pzOnly, acct)
  {
    domains := [];
    if !pzOnly {
      var all := acct.exportAllZones;
      var i := 0;
      while i < |all|
        invariant 0 <= i <= |all|
        invariant domains == DnsEntries(all[..i])
      {
        assert all[..i + 1][..i] == all[..i];
        var (d, records) := all[i];
        var dc := Get(domains, d, Empty);
        domains := Put(domains, d, dc.(dnsRecords := Some(records)));
        i := i + 1;
      }
      assert all[..i] == all;
    }
    if !dnsOnly {
      var allZones := acct.allZones;
      var candidates := if domains != [] then KeyList(domains) else acct.dnsDomains;
      ghost var start := domains;
      var j := 0;
      while j < |allZones|
        invariant 0 <= j <= |allZones|
        invariant domains == Placed(start, acct, candidates, allZones[..j])
      {
        assert allZones[..j + 1][..j] == allZones[..j];
        var pz := allZones[j];
        var cfg := acct.toConfig(pz);
        cfg := cfg.(edgeRules := Some(acct.exportRules(pz.id)));
        var matched := MatchDomain(pz.hostnames, candidates);
        if Truthy(matched) {
          var d := matched.value;
          var dc := Get(domains, d, Empty);
          domains := Put(domains, d, dc.(pullZones := Some(Put(dc.pullZones.GetOr([]), pz.name, cfg))));
        }
        j := j + 1;
      }
      assert allZones[..j] == allZones;
      ghost var placed := domains;
      var k := 0;
      while k < |domains|
        invariant 0 <= k <= |domains| == |placed|
        invariant domains[..k] == WithPullZones(placed)[..k]
        invariant domains[k..] == placed[k..]
      {
        assert domains[k] == placed[k];
        domains := domains[k := (domains[k].0, domains[k].1.(pullZones := Some(domains[k].1.pullZones.GetOr([]))))];
        k := k + 1;
      }
      assert domains == domains[..k];
    }
  }

  // ---------------------------------------------------------------------------
  // What a full pull holds

  /** The configuration of the last zone of the list that is named `name` and matched to `d`. */
  function LastPlaced(acct: Account, domains: seq<string>, pzs: seq<PullZones.PullZone>, d: string, name: string)
    : Option<PullZones.ZoneConfig>
    decreases |pzs|
  {
    if pzs == [] then None
    else
      var last := pzs[|pzs| - 1];
      if last.name == name && Matched(last.hostnames, domains) == Some(d) && d != ""
      then Some(ZoneConfigOf(acct, last))
      else LastPlaced(acct, domains, pzs[..|pzs| - 1], d, name)
  }

  /**
   * Placing zones keeps every domain's DNS records, and under a domain and a name
   * leaves the last zone so named that was matched to the domain; where none was,
   * the entry is as before.
   */
  lemma {:induction false} PlacedLookup(ds: Domains, acct: Account, domains: seq<string>,
                                        pzs: seq<PullZones.PullZone>, d: string, name: string)
    ensures Get(Placed(ds, acct, domains, pzs), d, Empty).dnsRecords == Get(ds, d, Empty).dnsRecords
    ensures Lookup(Sync.ZonesOf(Get(Placed(ds, acct, domains, pzs), d, Empty)), name)
         == match LastPlaced(acct, domains, pzs, d, name)
            case Some(cfg) => Some(cfg)
            case None => Lookup(Sync.ZonesOf(Get(ds, d, Empty)), name)
    decreases |pzs|
  {
    if pzs != [] {
      var last := pzs[|pzs| - 1];
      var init := pzs[..|pzs| - 1];
      var before := Placed(ds, acct, domains, init);
      PlacedLookup(ds, acct, domains, init, d, name);
      var m := Matched(last.hostnames, domains);
      if Truthy(m) {
        var dc := Get(before, m.value, Empty);
        var zones := Put(Sync.ZonesOf(dc), last.name, ZoneConfigOf(acct, last));
        PutLookup(before, m.value, dc.(pullZones := Some(zones)));
        PutLookup(Sync.ZonesOf(dc), last.name, ZoneConfigOf(acct, last));
      }
    }
  }

  /** Exporting every DNS zone gives each domain the records of its zone, and no pull zones yet. */
  lemma {:induction false} DnsEntriesLookup(all: Dict<string, seq<DnsManager.RecordConfig>>, d: string)
    requires DistinctKeys(all)
    ensures Get(DnsEntries(all), d, Empty) == Sync.DomainConfig(Lookup(all, d), None)
    decreases |all|
  {
    if all != [] {
      var init := all[..|all| - 1];
      var last := all[|all| - 1];
      var ds := DnsEntries(init);
      assert DistinctKeys(init);
      DnsEntriesLookup(init, d);
      DnsEntriesLookup(init, last.0);
      PutLookup(ds, last.0, Get(ds, last.0, Empty).(dnsRecords := Some(last.1)));
      assert all == init + [last];
      LookupSnoc(init, last, d);
      if last.0 == d {
        LookupSome(init, d);
      }
    }
  }

  /** Adding `pull_zones` keys keeps every entry otherwise as it was. */
  lemma {:induction false} WithPullZonesLookup(ds: Domains, d: string)
    ensures Lookup(WithPullZones(ds), d) ==
      match Lookup(ds, d)
      case None => None
      case Some(dc) => Some(dc.(pullZones := Some(Sync.ZonesOf(dc))))
    decreases |ds|
  {
    if ds != [] {
      WithPullZonesLookup(ds[1..], d);
      assert WithPullZones(ds)[1..] == WithPullZones(ds[1..]);
    }
  }

  /** Adding `pull_zones` keys leaves each domain's records and pull zones as they read before. */
  lemma WithPullZonesGet(ds: Domains, d: string)
    ensures Get(WithPullZones(ds), d, Empty).dnsRecords == Get(ds, d, Empty).dnsRecords
    ensures Sync.ZonesOf(Get(WithPullZones(ds), d, Empty)) == Sync.ZonesOf(Get(ds, d, Empty))
    ensures Lookup(ds, d).Some? ==> Get(WithPullZones(ds), d, Empty).pullZones.Some?
  {
    WithPullZonesLookup(ds, d);
  }

  /**
   * What a full pull holds for a domain: the records its DNS zone exported (unless
   * only pull zones were pulled), and under each name the last pull zone so named that
   * was matched to it (unless only DNS was pulled).
   */
  lemma AllDomainsLookup(dnsOnly: bool, pzOnly: bool, acct: Account, d: string, name: string)
    requires DistinctKeys(acct.exportAllZones)
    ensures Get(AllDomains(dnsOnly, pzOnly, acct), d, Empty).dnsRecords
         == if pzOnly then None else Lookup(acct.exportAllZones, d)
    ensures !dnsOnly ==>
      var ds := if pzOnly then [] else DnsEntries(acct.exportAllZones);
      Lookup(Sync.ZonesOf(Get(AllDomains(dnsOnly, pzOnly, acct), d, Empty)), name)
        == LastPlaced(acct, Candidates(ds, acct), acct.allZones, d, name)
  {
    var ds := if pzOnly then [] else DnsEntries(acct.exportAllZones);
    if !pzOnly {
      DnsEntriesLookup(acct.exportAllZones, d);
    }
    if !dnsOnly {
      var placed := Placed(ds, acct, Candidates(ds, acct), acct.allZones);
      WithPullZonesGet(placed, d);
      PlacedLookup(ds, acct, Candidates(ds, acct), acct.allZones, d, name);
    }
  }

  /** After a full pull a domain has a `pull_zones` key exactly when not only DNS was pulled. */
  lemma AllDomainsHavePullZones(dnsOnly: bool, pzOnly: bool, acct: Account, d: string)
    requires DistinctKeys(acct.exportAllZones)
    requires d in Keys(AllDomains(dnsOnly, pzOnly, acct))
    ensures Get(AllDomains(dnsOnly, pzOnly, acct), d, Empty).pullZones.Some? <==> !dnsOnly
  {
    var ds := if pzOnly then [] else DnsEntries(acct.exportAllZones);
    if dnsOnly {
      if !pzOnly {
        DnsEntriesLookup(acct.exportAllZones, d);
      }
    } else {
      var placed := Placed(ds, acct, Candidates(ds, acct), acct.allZones);
      LookupKeys(WithPullZones(placed), d);
      WithPullZonesLookup(placed, d);
    }
  }

  // ---------------------------------------------------------------------------
  // The pull entry point

  /** The `ValueError` raised when neither a domain nor `pull_all` is given. */
  datatype PullError = NeedsDomainOrAll

  /**
   * `pull`: every domain when `pull_all` is set, otherwise the one domain when a
   * non-empty one is given, otherwise an error; `None` only when that one domain
   * exists nowhere on the account.
   */
  method Pull(domain: Option<string>, pullAll: bool, dnsOnly: bool, pzOnly: bool, acct: Account)
    returns (r: Result<Option<Domains>, PullError>)
    ensures r.Failure? <==> !pullAll && !Truthy(domain)
    ensures r.Failure? ==> r.error == NeedsDomainOrAll
    ensures pullAll ==> r == Success(Some(AllDomains(dnsOnly, pzOnly, acct)))
    ensures !pullAll && Truthy(domain) ==> r == Success(DomainPulled(domain.value, dnsOnly, pzOnly, acct))
  {
    if pullAll {
      var domains := PullAllDomains(dnsOnly, pzOnly, acct);
      r := Success(Some(domains));
    } else if Truthy(domain) {
      var one := PullDomain(domain.value, dnsOnly, pzOnly, acct);
      r := Success(one);
    } else {
      r := Failure(NeedsDomainOrAll);
    }
  }
}
