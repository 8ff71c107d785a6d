/**
 * Pull zones and their custom hostnames, as bunny_dns/pullzone_manager.py handles
 * them: the zone and hostname records with their JSON forms, the lookup by name, and
 * the reconciler that creates or updates a zone and then adds, certifies, secures and
 * removes hostnames.
 *
 * The remote side is the zone listing and the provider's replies to the creation and
 * update calls, as wire data; whether a best-effort certificate or force-SSL call
 * succeeds is an outcome supplied per hostname. The reconciler returns its report and
 * the mutating calls it issued, in order.
 */
module PullZones {
  import opened Wrappers
  import opened Text
  import opened Dicts
  import opened Scan
  import EdgeRules

  /** `PULLZONE_TYPES`. */
  const PullZoneTypes: Dict<string, int> := [("standard", 0), ("volume", 1)]

  /** The code of a configured type name, "standard" when absent; unknown names read as 0. */
  function ZoneTypeCode(name: Option<string>): int {
    Get(PullZoneTypes, name.GetOr("standard"), 0)
  }

  /** Only "volume" reads as 1; an absent or any other name reads as 0. */
  lemma ZoneTypeCodeSpec(name: Option<string>)
    ensures ZoneTypeCode(name) == if name == Some("volume") then 1 else 0
  {
    LookupSome(PullZoneTypes, name.GetOr("standard"));
  }

  /** `Hostname`. */
  datatype Hostname = Hostname(value: string, id: Option<int>, forceSsl: bool, hasCertificate: bool, isSystem: bool)

  /** A hostname as JSON; `None` is a key that is absent. */
  datatype HostnameWire = HostnameWire(
    id: Option<int>, value: Option<string>, forceSsl: Option<bool>, hasCertificate: Option<bool>,
    isSystemHostname: Option<bool>)

  /** `Hostname.from_api_response`: absent flags read as false, an absent value as "". */
  function HostnameFromApiResponse(w: HostnameWire): Hostname {
    Hostname(w.value.GetOr(""), w.id, w.forceSsl.GetOr(false), w.hasCertificate.GetOr(false),
             w.isSystemHostname.GetOr(false))
  }

  function HostnamesFromApiResponse(ws: seq<HostnameWire>): (hs: seq<Hostname>)
    ensures |hs| == |ws| && forall i :: 0 <= i < |ws| ==> hs[i] == HostnameFromApiResponse(ws[i])
  {
    seq(|ws|, i requires 0 <= i < |ws| => HostnameFromApiResponse(ws[i]))
  }

  /** The five pricing regions a zone serves. */
  datatype Regions = Regions(us: bool, eu: bool, asia: bool, sa: bool, af: bool)

  /** `PullZone`, without its raw `edge_rules` list. */
  datatype PullZone = PullZone(
    name: string, id: Option<int>, originUrl: Option<string>, originHostHeader: Option<string>,
    zoneType: int, enabled: bool, hostnames: seq<Hostname>, regions: Regions)

  /** A pull zone as JSON. */
  datatype PullZoneWire = PullZoneWire(
    id: Option<int>, name: Option<string>, originUrl: Option<string>, originHostHeader: Option<string>,
    zoneType: Option<int>, enabled: Option<bool>, hostnames: Option<seq<HostnameWire>>,
    geoZoneUs: Option<bool>, geoZoneEu: Option<bool>, geoZoneAsia: Option<bool>, geoZoneSa: Option<bool>,
    geoZoneAf: Option<bool>)

  /** `PullZone.from_api_response`: absent regions and `Enabled` read as true, an absent type as 0. */
  function ZoneFromApiResponse(w: PullZoneWire): PullZone {
    PullZone(
      w.name.GetOr(""), w.id, w.originUrl, w.originHostHeader, w.zoneType.GetOr(0), w.enabled.GetOr(true),
      HostnamesFromApiResponse(w.hostnames.GetOr([])),
      Regions(w.geoZoneUs.GetOr(true), w.geoZoneEu.GetOr(true), w.geoZoneAsia.GetOr(true),
              w.geoZoneSa.GetOr(true), w.geoZoneAf.GetOr(true)))
  }

  /** `PullZone.to_api_payload`: name, type and regions; origin URL and host header only when non-empty. */
  function ZoneToApiPayload(z: PullZone): PullZoneWire {
    PullZoneWire(
      None, Some(z.name), if Truthy(z.originUrl) then z.originUrl else None,
      if Truthy(z.originHostHeader) then z.originHostHeader else None,
      Some(z.zoneType), None, None,
      Some(z.regions.us), Some(z.regions.eu), Some(z.regions.asia), Some(z.regions.sa), Some(z.regions.af))
  }

  /**
   * Decoding an encoded zone gives it back without id and hostnames and as enabled,
   * when its origin URL and host header are absent or non-empty.
   */
  lemma ZoneRoundTrip(z: PullZone)
    requires z.originUrl != Some("") && z.originHostHeader != Some("")
    ensures ZoneFromApiResponse(ZoneToApiPayload(z)) == z.(id := None, enabled := true, hostnames := [])
  {
    assert HostnamesFromApiResponse([]) == [];
  }

  /** `list_zones`: the decoded listing, none when the reply is not a list. */
  function ListZones(listing: Option<seq<PullZoneWire>>): (zs: seq<PullZone>)
    ensures var ws := listing.GetOr([]);
      |zs| == |ws| && forall i :: 0 <= i < |ws| ==> zs[i] == ZoneFromApiResponse(ws[i])
  {
    var ws := listing.GetOr([]);
    seq(|ws|, i requires 0 <= i < |ws| => ZoneFromApiResponse(ws[i]))
  }

  function NameTest(name: string): PullZone -> bool {
    (z: PullZone) => Lower(z.name) == Lower(name)
  }

  /** `get_zone_by_name`: the first listed zone whose name equals `name` ignoring case. */
  function GetZoneByName(zones: seq<PullZone>, name: string): Option<PullZone> {
    match First(NameTest(name), zones)
    case None => None
    case Some(i) => Some(zones[i])
  }

  /** A zone is found exactly when some zone has the name ignoring case, and it is the first such. */
  lemma GetZoneByNameSpec(zones: seq<PullZone>, name: string)
    ensures GetZoneByName(zones, name).Some? <==> exists i :: 0 <= i < |zones| && Lower(zones[i].name) == Lower(name)
    ensures GetZoneByName(zones, name).Some? ==>
      exists i :: 0 <= i < |zones| && zones[i] == GetZoneByName(zones, name).value
                  && Lower(zones[i].name) == Lower(name)
                  && forall j :: 0 <= j < i ==> Lower(zones[j].name) != Lower(name)
  {
    FirstSpec(NameTest(name), zones);
  }

  /** `["EU", "US", "ASIA", "SA", "AF"]`, the regions enabled when the configuration names none. */
  const DefaultRegions: seq<string> := ["EU", "US", "ASIA", "SA", "AF"]

  function UpperAll(rs: seq<string>): seq<string>
    decreases |rs|
  {
    if rs == [] then [] else [Upper(rs[0])] + UpperAll(rs[1..])
  }

  lemma {:induction false} UpperAllIn(rs: seq<string>, code: string)
    ensures code in UpperAll(rs) <==> exists i :: 0 <= i < |rs| && Upper(rs[i]) == code
    decreases |rs|
  {
    if rs != [] {
      UpperAllIn(rs[1..], code);
      assert forall i :: 1 <= i < |rs| ==> rs[i] == rs[1..][i - 1];
    }
  }

  /** The region flags of a configuration: a region is on when it is named, ignoring case. */
  function RegionFlags(regions: Option<seq<string>>): Regions {
    var ups := UpperAll(regions.GetOr(DefaultRegions));
    Regions("US" in ups, "EU" in ups, "ASIA" in ups, "SA" in ups, "AF" in ups)
  }

  /** Without a list all five regions are on. */
  lemma DefaultRegionFlags()
    ensures RegionFlags(None) == Regions(true, true, true, true, true)
  {
    var d := DefaultRegions;
    UpperNoSmall(d[0]);
    UpperNoSmall(d[1]);
    UpperNoSmall(d[2]);
    UpperNoSmall(d[3]);
    UpperNoSmall(d[4]);
    UpperAllIn(d, "EU");
    UpperAllIn(d, "US");
    UpperAllIn(d, "ASIA");
    UpperAllIn(d, "SA");
    UpperAllIn(d, "AF");
  }

  /** Each flag is whether its code is named, ignoring case. */
  lemma RegionFlagsSpec(regions: seq<string>)
    ensures var f := RegionFlags(Some(regions));
      && (f.us <==> exists i :: 0 <= i < |regions| && Upper(regions[i]) == "US")
      && (f.eu <==> exists i :: 0 <= i < |regions| && Upper(regions[i]) == "EU")
      && (f.asia <==> exists i :: 0 <= i < |regions| && Upper(regions[i]) == "ASIA")
      && (f.sa <==> exists i :: 0 <= i < |regions| && Upper(regions[i]) == "SA")
      && (f.af <==> exists i :: 0 <= i < |regions| && Upper(regions[i]) == "AF")
  {
    UpperAllIn(regions, "US");
    UpperAllIn(regions, "EU");
    UpperAllIn(regions, "ASIA");
    UpperAllIn(regions, "SA");
    UpperAllIn(regions, "AF");
  }

  /** A pull zone as the configuration describes it. */
  datatype ZoneConfig = ZoneConfig(
    originUrl: Option<string>, originHostHeader: Option<string>, zoneType: Option<string>,
    hostnames: Option<seq<string>>, forceSsl: Option<bool>, enabledRegions: Option<seq<string>>,
    edgeRules: Option<seq<EdgeRules.RuleConfig>>)

  /** `set(config.get("hostnames", []))`. */
  function DesiredHostnames(cfg: ZoneConfig): set<string> {
    set h | h in cfg.hostnames.GetOr([])
  }

  /** The zone sent to the create and update calls. */
  function DesiredZone(name: string, cfg: ZoneConfig): PullZone {
    PullZone(name, None, cfg.originUrl, cfg.originHostHeader, ZoneTypeCode(cfg.zoneType), true, [],
             RegionFlags(cfg.enabledRegions))
  }

  /** The five pricing regions, by their configuration codes. */
  datatype Region = US | EU | ASIA | SA | AF

  /** One region flag that changes, as the "Updating regions" note lists it. */
  datatype RegionChange = RegionChange(region: Region, was: bool, now: bool)

  /** The entries of the `changes` list, without their exact wording. */
  datatype Note =
    | CreatingZone(zone: string)
    | UpdatingOriginUrl(oldUrl: Option<string>, newUrl: string)
    | UpdatingOriginHostHeader(oldHeader: Option<string>, newHeader: string)
    | UpdatingZoneType(oldType: int, newType: int)
    | UpdatingRegions(changes: seq<RegionChange>)
    | AddingHostname(hostname: string)
    | CertificateWarning(hostname: string)
    | ForceSslSet(hostname: string, force: bool)
    | ForceSslWarning(hostname: string)
    | LoadingCertificate(hostname: string)
    | ForceSslChanging(hostname: string, force: bool)
    | RemovingHostname(hostname: string)

  /** The change of one region flag, if it differs. */
  function FlagChange(region: Region, was: bool, now: bool): seq<RegionChange> {
    if was != now then [RegionChange(region, was, now)] else []
  }

  /** The region flags that differ, in the order US, EU, ASIA, SA, AF. */
  function RegionChanges(current: Regions, wanted: Regions): seq<RegionChange> {
    FlagChange(US, current.us, wanted.us) + FlagChange(EU, current.eu, wanted.eu)
    + FlagChange(ASIA, current.asia, wanted.asia) + FlagChange(SA, current.sa, wanted.sa)
    + FlagChange(AF, current.af, wanted.af)
  }

  /** No region entry is listed exactly when the flags agree. */
  lemma RegionChangesEmpty(current: Regions, wanted: Regions)
    ensures RegionChanges(current, wanted) == [] <==> current == wanted
  {
  }

  /** The origin URL note: only a given URL that differs is applied. */
  function OriginUrlNote(zone: PullZone, cfg: ZoneConfig): seq<Note> {
    if Truthy(cfg.originUrl) && zone.originUrl != cfg.originUrl then [UpdatingOriginUrl(zone.originUrl, cfg.originUrl.value)]
    else []
  }

  /** The host header note: only a given header that differs is applied. */
  function HostHeaderNote(zone: PullZone, cfg: ZoneConfig): seq<Note> {
    if Truthy(cfg.originHostHeader) && zone.originHostHeader != cfg.originHostHeader
    then [UpdatingOriginHostHeader(zone.originHostHeader, cfg.originHostHeader.value)]
    else []
  }

  function ZoneTypeNote(zone: PullZone, cfg: ZoneConfig): seq<Note> {
    var t := ZoneTypeCode(cfg.zoneType);
    if zone.zoneType != t then [UpdatingZoneType(zone.zoneType, t)] else []
  }

  function RegionsNote(zone: PullZone, cfg: ZoneConfig): seq<Note> {
    var rc := RegionChanges(zone.regions, RegionFlags(cfg.enabledRegions));
    if rc != [] then [UpdatingRegions(rc)] else []
  }

  /** The update notes for an existing zone, in the order the checks run. */
  function UpdateNotes(zone: PullZone, cfg: ZoneConfig): seq<Note> {
    OriginUrlNote(zone, cfg) + HostHeaderNote(zone, cfg) + ZoneTypeNote(zone, cfg) + RegionsNote(zone, cfg)
  }

  /** The `needs_update` of `sync_zone`: some check produced a note. */
  predicate NeedsZoneUpdate(zone: PullZone, cfg: ZoneConfig) {
    UpdateNotes(zone, cfg) != []
  }

  /**
   * An existing zone is updated exactly when a given origin URL or host header
   * differs, the type differs, or a region flag differs.
   */
  lemma NeedsZoneUpdateIff(zone: PullZone, cfg: ZoneConfig)
    ensures NeedsZoneUpdate(zone, cfg) <==>
      || (Truthy(cfg.originUrl) && zone.originUrl != cfg.originUrl)
      || (Truthy(cfg.originHostHeader) && zone.originHostHeader != cfg.originHostHeader)
      || zone.zoneType != ZoneTypeCode(cfg.zoneType)
      || zone.regions != RegionFlags(cfg.enabledRegions)
  {
    RegionChangesEmpty(zone.regions, RegionFlags(cfg.enabledRegions));
  }

  /** One region check of `sync_zone`: an entry is appended when the flag differs. */
  method CheckRegion(changes: seq<RegionChange>, region: Region, was: bool, now: bool)
    returns (r: seq<RegionChange>)
    ensures r == changes + FlagChange(region, was, now)
  {
    r := changes;
    if was != now {
      r := r + [RegionChange(region, was, now)];
    }
  }

  /** The region checks of `sync_zone`, in the order US, EU, ASIA, SA, AF. */
  method CheckRegions(current: Regions, wanted: Regions) returns (changes: seq<RegionChange>)
    ensures changes == RegionChanges(current, wanted)
  {
    changes := CheckRegion([], US, current.us, wanted.us);
    assert changes == FlagChange(US, current.us, wanted.us);
    changes := CheckRegion(changes, EU, current.eu, wanted.eu);
    changes := CheckRegion(changes, ASIA, current.asia, wanted.asia);
    changes := CheckRegion(changes, SA, current.sa, wanted.sa);
    changes := CheckRegion(changes, AF, current.af, wanted.af);
  }

  /** The checks of `sync_zone` for an existing zone, appending a note for each difference. */
  method CheckForUpdate(zone: PullZone, cfg: ZoneConfig) returns (needsUpdate: bool, notes: seq<Note>)
    ensures notes == UpdateNotes(zone, cfg)
    ensures needsUpdate == NeedsZoneUpdate(zone, cfg)
  {
    var zoneType := ZoneTypeCode(cfg.zoneType);
    var wanted := RegionFlags(cfg.enabledRegions);
    needsUpdate, notes := false, [];
    if Truthy(cfg.originUrl) && zone.originUrl != cfg.originUrl {
      needsUpdate := true;
      notes := notes + [UpdatingOriginUrl(zone.originUrl, cfg.originUrl.value)];
    }
    assert notes == OriginUrlNote(zone, cfg);
    if Truthy(cfg.originHostHeader) && zone.originHostHeader != cfg.originHostHeader {
      needsUpdate := true;
      notes := notes + [UpdatingOriginHostHeader(zone.originHostHeader, cfg.originHostHeader.value)];
    }
    assert notes == OriginUrlNote(zone, cfg) + HostHeaderNote(zone, cfg);
    if zone.zoneType != zoneType {
      needsUpdate := true;
      notes := notes + [UpdatingZoneType(zone.zoneType, zoneType)];
    }
    assert notes == OriginUrlNote(zone, cfg) + HostHeaderNote(zone, cfg) + ZoneTypeNote(zone, cfg);
    var regionChanges := CheckRegions(zone.regions, wanted);
    if regionChanges != [] {
      needsUpdate := true;
      notes := notes + [UpdatingRegions(regionChanges)];
    }
  }

  /**
   * `{h.value.lower(): h for h in zone.hostnames if not h.is_system_hostname}`: keys in
   * order of first appearance, each holding the last hostname listed under it.
   */
  function CurrentHostnames(hs: seq<Hostname>): Dict<string, Hostname>
    decreases |hs|
  {
    if hs == [] then []
    else
      var d := CurrentHostnames(hs[..|hs| - 1]);
      var h := hs[|hs| - 1];
      if h.isSystem then d else Put(d, Lower(h.value), h)
  }

  /** The keys are the lower-cased values of the non-system hostnames. */
  lemma {:induction false} CurrentHostnamesKeys(hs: seq<Hostname>)
    ensures Keys(CurrentHostnames(hs)) == set h | h in hs && !h.isSystem :: Lower(h.value)
    decreases |hs|
  {
    if hs != [] {
      var init, h := hs[..|hs| - 1], hs[|hs| - 1];
      CurrentHostnamesKeys(init);
      if !h.isSystem {
        PutKeys(CurrentHostnames(init), Lower(h.value), h);
      }
      assert hs == init + [h];
      assert (set x | x in hs && !x.isSystem :: Lower(x.value))
          == (set x | x in init && !x.isSystem :: Lower(x.value)) + (if h.isSystem then {} else {Lower(h.value)});
    }
  }

  /** Every entry holds a listed non-system hostname under its lower-cased value. */
  lemma {:induction false} CurrentHostnamesEntries(hs: seq<Hostname>)
    ensures forall e :: e in CurrentHostnames(hs) ==> e.1 in hs && !e.1.isSystem && e.0 == Lower(e.1.value)
    decreases |hs|
  {
    if hs != [] {
      var init, h := hs[..|hs| - 1], hs[|hs| - 1];
      CurrentHostnamesEntries(init);
      if !h.isSystem {
        PutEntries(CurrentHostnames(init), Lower(h.value), h);
      }
      assert forall x :: x in init ==> x in hs;
    }
  }

  /** A key holds the last non-system hostname listed under it. */
  lemma {:induction false} LastListedWins(hs: seq<Hostname>, j: nat)
    requires j < |hs| && !hs[j].isSystem
    requires forall i :: j < i < |hs| ==> hs[i].isSystem || Lower(hs[i].value) != Lower(hs[j].value)
    ensures Lookup(CurrentHostnames(hs), Lower(hs[j].value)) == Some(hs[j])
    decreases |hs|
  {
    var init, h := hs[..|hs| - 1], hs[|hs| - 1];
    if j == |hs| - 1 {
      PutLookup(CurrentHostnames(init), Lower(h.value), h);
    } else {
      LastListedWins(init, j);
      if !h.isSystem {
        PutLookup(CurrentHostnames(init), Lower(h.value), h);
      }
    }
  }

  /** The mutating calls the reconciler issues, in order. */
  datatype PzCall =
    | CreatePullZone(payload: PullZoneWire)
    | UpdatePullZone(zoneId: Option<int>, payload: PullZoneWire)
    | AddHostname(zoneId: Option<int>, hostname: string)
    | LoadCertificate(hostname: string)
    | SetForceSsl(zoneId: Option<int>, hostname: string, force: bool)
    | RemoveHostname(zoneId: Option<int>, hostname: string)

  /**
   * What handling hostnames appends to the result lists `hostnames_added`,
   * `hostnames_removed`, `certificates_loaded` and `changes`, and to the calls.
   */
  datatype Effects = Effects(added: seq<string>, removed: seq<string>, certs: seq<string>, notes: seq<Note>, calls: seq<PzCall>)

  const NoEffects := Effects([], [], [], [], [])

  /** The effects of `a` followed by those of `b`. */
  function Then(a: Effects, b: Effects): Effects {
    Effects(a.added + b.added, a.removed + b.removed, a.certs + b.certs, a.notes + b.notes, a.calls + b.calls)
  }

  lemma ThenAssoc(a: Effects, b: Effects, c: Effects)
    ensures Then(Then(a, b), c) == Then(a, Then(b, c))
  {
    assert (a.added + b.added) + c.added == a.added + (b.added + c.added);
    assert (a.removed + b.removed) + c.removed == a.removed + (b.removed + c.removed);
    assert (a.certs + b.certs) + c.certs == a.certs + (b.certs + c.certs);
    assert (a.notes + b.notes) + c.notes == a.notes + (b.notes + c.notes);
    assert (a.calls + b.calls) + c.calls == a.calls + (b.calls + c.calls);
  }

  lemma ThenNoEffects(a: Effects)
    ensures Then(NoEffects, a) == a && Then(a, NoEffects) == a
  {
    assert [] + a.added == a.added && a.added + [] == a.added;
    assert [] + a.removed == a.removed && a.removed + [] == a.removed;
    assert [] + a.certs == a.certs && a.certs + [] == a.certs;
    assert [] + a.notes == a.notes && a.notes + [] == a.notes;
    assert [] + a.calls == a.calls && a.calls + [] == a.calls;
  }

  /** The effects of a loop that runs `step` on each element of `xs` in turn. */
  function Each<T>(xs: seq<T>, step: T -> Effects): Effects
    decreases |xs|
  {
    if xs == [] then NoEffects else Then(Each(xs[..|xs| - 1], step), step(xs[|xs| - 1]))
  }

  lemma EachStep<T>(xs: seq<T>, step: T -> Effects, i: nat)
    requires i < |xs|
    ensures Each(xs[..i + 1], step) == Then(Each(xs[..i], step), step(xs[i]))
  {
    var pre := xs[..i + 1];
    assert pre[..i] == xs[..i];
  }

  /** A hostname is listed as added exactly when some step adds it. */
  lemma {:induction false} EachAdded<T>(xs: seq<T>, step: T -> Effects, h: string)
    ensures h in Each(xs, step).added <==> exists i :: 0 <= i < |xs| && h in step(xs[i]).added
    decreases |xs|
  {
    if xs != [] {
      var init := xs[..|xs| - 1];
      EachAdded(init, step, h);
      assert forall i :: 0 <= i < |init| ==> init[i] == xs[i];
    }
  }

  /** A hostname is listed as removed exactly when some step removes it. */
  lemma {:induction false} EachRemoved<T>(xs: seq<T>, step: T -> Effects, h: string)
    ensures h in Each(xs, step).removed <==> exists i :: 0 <= i < |xs| && h in step(xs[i]).removed
    decreases |xs|
  {
    if xs != [] {
      var init := xs[..|xs| - 1];
      EachRemoved(init, step, h);
      assert forall i :: 0 <= i < |init| ==> init[i] == xs[i];
    }
  }

  /** A hostname is listed as certified exactly when some step certifies it. */
  lemma {:induction false} EachCerts<T>(xs: seq<T>, step: T -> Effects, h: string)
    ensures h in Each(xs, step).certs <==> exists i :: 0 <= i < |xs| && h in step(xs[i]).certs
    decreases |xs|
  {
    if xs != [] {
      var init := xs[..|xs| - 1];
      EachCerts(init, step, h);
      assert forall i :: 0 <= i < |init| ==> init[i] == xs[i];
    }
  }

  /** A call is issued exactly when some step issues it. */
  lemma {:induction false} EachCalls<T>(xs: seq<T>, step: T -> Effects, c: PzCall)
    ensures c in Each(xs, step).calls <==> exists i :: 0 <= i < |xs| && c in step(xs[i]).calls
    decreases |xs|
  {
    if xs != [] {
      var init := xs[..|xs| - 1];
      EachCalls(init, step, c);
      assert forall i :: 0 <= i < |init| ==> init[i] == xs[i];
    }
  }

  /** A result list or the calls stay empty over a loop whose every step leaves them empty. */
  lemma {:induction false} EachEmptyFields<T>(xs: seq<T>, step: T -> Effects)
    ensures (forall i :: 0 <= i < |xs| ==> step(xs[i]).added == []) ==> Each(xs, step).added == []
    ensures (forall i :: 0 <= i < |xs| ==> step(xs[i]).removed == []) ==> Each(xs, step).removed == []
    ensures (forall i :: 0 <= i < |xs| ==> step(xs[i]).certs == []) ==> Each(xs, step).certs == []
    ensures (forall i :: 0 <= i < |xs| ==> step(xs[i]).notes == []) ==> Each(xs, step).notes == []
    ensures (forall i :: 0 <= i < |xs| ==> step(xs[i]).calls == []) ==> Each(xs, step).calls == []
    decreases |xs|
  {
    if xs != [] {
      var init := xs[..|xs| - 1];
      assert forall i :: 0 <= i < |init| ==> init[i] == xs[i];
      EachEmptyFields(init, step);
    }
  }

  /** Two loops whose steps add and remove the same hostnames add and remove the same lists. */
  lemma {:induction false} EachSameListing<T>(xs: seq<T>, s1: T -> Effects, s2: T -> Effects)
    requires forall i :: 0 <= i < |xs| ==> s1(xs[i]).added == s2(xs[i]).added && s1(xs[i]).removed == s2(xs[i]).removed
    ensures Each(xs, s1).added == Each(xs, s2).added && Each(xs, s1).removed == Each(xs, s2).removed
    decreases |xs|
  {
    if xs != [] {
      var init := xs[..|xs| - 1];
      assert forall i :: 0 <= i < |init| ==> init[i] == xs[i];
      EachSameListing(init, s1, s2);
    }
  }

  predicate Distinct(xs: seq<string>) {
    forall i, j :: 0 <= i < j < |xs| ==> xs[i] != xs[j]
  }

  /** A loop over distinct hostnames whose steps add at most their own hostname adds each at most once. */
  lemma {:induction false} EachAddedDistinct(xs: seq<string>, step: string -> Effects)
    requires Distinct(xs)
    requires forall i :: 0 <= i < |xs| ==> step(xs[i]).added == [] || step(xs[i]).added == [xs[i]]
    ensures Distinct(Each(xs, step).added)
    ensures forall h :: h in Each(xs, step).added ==> h in xs
    decreases |xs|
  {
    if xs != [] {
      var init, last := xs[..|xs| - 1], xs[|xs| - 1];
      assert forall i :: 0 <= i < |init| ==> init[i] == xs[i];
      EachAddedDistinct(init, step);
      assert last !in init;
    }
  }

  /** What the hostname loops consult: the zone, its current hostnames, the run mode and the call outcomes. */
  datatype Ctx = Ctx(
    zoneId: Option<int>, current: Dict<string, Hostname>, forceSsl: Option<bool>, dryRun: bool,
    loadsCertificate: string -> bool, setsForceSsl: string -> bool)

  /** The body of the loop that adds missing hostnames. */
  function AddOne(ctx: Ctx, h: string): Effects {
    if Lookup(ctx.current, Lower(h)).Some? then NoEffects
    else if ctx.dryRun then Effects([h], [], [], [AddingHostname(h)], [])
    else
      var loaded := ctx.loadsCertificate(h);
      var sslNote := match ctx.forceSsl
        case None => []
        case Some(f) => [if ctx.setsForceSsl(h) then ForceSslSet(h, f) else ForceSslWarning(h)];
      var sslCall := match ctx.forceSsl
        case None => []
        case Some(f) => [SetForceSsl(ctx.zoneId, h, f)];
      Effects([h], [], if loaded then [h] else [],
              [AddingHostname(h)] + (if loaded then [] else [CertificateWarning(h)]) + sslNote,
              [AddHostname(ctx.zoneId, h), LoadCertificate(h)] + sslCall)
  }

  /** The body of the loop that retries certificates for current hostnames without one. */
  function RetryOne(ctx: Ctx, h: string): Effects {
    match Lookup(ctx.current, Lower(h))
    case None => NoEffects
    case Some(obj) =>
      if obj.hasCertificate then NoEffects
      else if ctx.dryRun then Effects([], [], [], [LoadingCertificate(h)], [])
      else if ctx.loadsCertificate(h) then Effects([], [], [h], [LoadingCertificate(h)], [LoadCertificate(h)])
      else Effects([], [], [], [LoadingCertificate(h), CertificateWarning(h)], [LoadCertificate(h)])
  }

  /** The body of the loop that corrects Force SSL on current hostnames. */
  function SslOne(ctx: Ctx, force: bool, h: string): Effects {
    match Lookup(ctx.current, Lower(h))
    case None => NoEffects
    case Some(obj) =>
      if obj.forceSsl == force then NoEffects
      else if ctx.dryRun then Effects([], [], [], [ForceSslChanging(h, force)], [])
      else Effects([], [], [], [ForceSslChanging(h, force)] + (if ctx.setsForceSsl(h) then [] else [ForceSslWarning(h)]),
                   [SetForceSsl(ctx.zoneId, h, force)])
  }

  /** The body of the loop that removes current hostnames nobody wants. */
  function RemoveOne(ctx: Ctx, wantedLower: set<string>, entry: (string, Hostname)): Effects {
    if entry.0 in wantedLower then NoEffects
    else
      var value := entry.1.value;
      Effects([], [value], [], [RemovingHostname(value)], if ctx.dryRun then [] else [RemoveHostname(ctx.zoneId, value)])
  }

  function AddStep(ctx: Ctx): string -> Effects {
    h => AddOne(ctx, h)
  }

  function RetryStep(ctx: Ctx): string -> Effects {
    h => RetryOne(ctx, h)
  }

  function SslStep(ctx: Ctx, force: bool): string -> Effects {
    h => SslOne(ctx, force, h)
  }

  function RemoveStep(ctx: Ctx, wantedLower: set<string>): ((string, Hostname)) -> Effects {
    entry => RemoveOne(ctx, wantedLower, entry)
  }

  /** The Force SSL loop, which runs only when the configuration sets `force_ssl`. */
  function SslPhase(ctx: Ctx, order: seq<string>): Effects {
    match ctx.forceSsl
    case None => NoEffects
    case Some(f) => Each(order, SslStep(ctx, f))
  }

  /** The four hostname loops of `sync_zone`, in order; the first three walk the desired set in `order`. */
  function HostnameEffects(ctx: Ctx, order: seq<string>, wantedLower: set<string>): Effects {
    Then(Then(Then(Each(order, AddStep(ctx)), Each(order, RetryStep(ctx))), SslPhase(ctx, order)),
         Each(ctx.current, RemoveStep(ctx, wantedLower)))
  }

  /** The body of the missing-hostname loop, appending to the result lists and the calls. */
  method AddIfMissing(ctx: Ctx, h: string, e0: Effects) returns (e: Effects)
    ensures e == Then(e0, AddOne(ctx, h))
  {
    e := e0;
    if Lookup(ctx.current, Lower(h)).None? {
      e := e.(added := e.added + [h], notes := e.notes + [AddingHostname(h)]);
      if !ctx.dryRun {
        e := e.(calls := e.calls + [AddHostname(ctx.zoneId, h), LoadCertificate(h)]);
        if ctx.loadsCertificate(h) {
          e := e.(certs := e.certs + [h]);
        } else {
          e := e.(notes := e.notes + [CertificateWarning(h)]);
        }
        if ctx.forceSsl.Some? {
          e := e.(calls := e.calls + [SetForceSsl(ctx.zoneId, h, ctx.forceSsl.value)]);
          if ctx.setsForceSsl(h) {
            e := e.(notes := e.notes + [ForceSslSet(h, ctx.forceSsl.value)]);
          } else {
            e := e.(notes := e.notes + [ForceSslWarning(h)]);
          }
        }
      }
    }
  }

  /** The body of the certificate-retry loop. */
  method RetryIfUncertified(ctx: Ctx, h: string, e0: Effects) returns (e: Effects)
    ensures e == Then(e0, RetryOne(ctx, h))
  {
    e := e0;
    var found := Lookup(ctx.current, Lower(h));
    if found.Some? && !found.value.hasCertificate {
      e := e.(notes := e.notes + [LoadingCertificate(h)]);
      if !ctx.dryRun {
        e := e.(calls := e.calls + [LoadCertificate(h)]);
        if ctx.loadsCertificate(h) {
          e := e.(certs := e.certs + [h]);
        } else {
          e := e.(notes := e.notes + [CertificateWarning(h)]);
        }
      }
    }
    if found.None? || found.value.hasCertificate {
      ThenNoEffects(e0);
    }
  }

  /** The body of the Force SSL loop. */
  method CorrectIfDifferent(ctx: Ctx, force: bool, h: string, e0: Effects) returns (e: Effects)
    ensures e == Then(e0, SslOne(ctx, force, h))
  {
    e := e0;
    var found := Lookup(ctx.current, Lower(h));
    if found.Some? && found.value.forceSsl != force {
      e := e.(notes := e.notes + [ForceSslChanging(h, force)]);
      if !ctx.dryRun {
        e := e.(calls := e.calls + [SetForceSsl(ctx.zoneId, h, force)]);
        if !ctx.setsForceSsl(h) {
          e := e.(notes := e.notes + [ForceSslWarning(h)]);
        }
      }
    }
    if found.None? || found.value.forceSsl == force {
      ThenNoEffects(e0);
    }
  }

  /** The body of the removal loop. */
  method RemoveIfUnwanted(ctx: Ctx, wantedLower: set<string>, entry: (string, Hostname), e0: Effects)
    returns (e: Effects)
    ensures e == Then(e0, RemoveOne(ctx, wantedLower, entry))
  {
    e := e0;
    if entry.0 !in wantedLower {
      var value := entry.1.value;
      e := e.(removed := e.removed + [value], notes := e.notes + [RemovingHostname(value)]);
      if !ctx.dryRun {
        e := e.(calls := e.calls + [RemoveHostname(ctx.zoneId, value)]);
      }
    } else {
      ThenNoEffects(e0);
    }
  }

  /** The loop of `sync_zone` that adds each desired hostname missing from the zone. */
  method AddMissing(ctx: Ctx, order: seq<string>, e0: Effects) returns (e: Effects)
    ensures e == Then(e0, Each(order, AddStep(ctx)))
  {
    e := e0;
    ThenNoEffects(e0);
    var i := 0;
    while i < |order|
      invariant 0 <= i <= |order|
      invariant e == Then(e0, Each(order[..i], AddStep(ctx)))
    {
      EachStep(order, AddStep(ctx), i);
      ThenAssoc(e0, Each(order[..i], AddStep(ctx)), AddOne(ctx, order[i]));
      e := AddIfMissing(ctx, order[i], e);
      i := i + 1;
    }
    assert order[..i] == order;
  }

  /** The loop of `sync_zone` that retries certificates for desired hostnames the zone has without one. */
  method RetryCertificates(ctx: Ctx, order: seq<string>, e0: Effects) returns (e: Effects)
    ensures e == Then(e0, Each(order, RetryStep(ctx)))
  {
    e := e0;
    ThenNoEffects(e0);
    var i := 0;
    while i < |order|
      invariant 0 <= i <= |order|
      invariant e == Then(e0, Each(order[..i], RetryStep(ctx)))
    {
      EachStep(order, RetryStep(ctx), i);
      ThenAssoc(e0, Each(order[..i], RetryStep(ctx)), RetryOne(ctx, order[i]));
      e := RetryIfUncertified(ctx, order[i], e);
      i := i + 1;
    }
    assert order[..i] == order;
  }

  /** The loop of `sync_zone` that sets Force SSL on desired hostnames the zone has with the other setting. */
  method CorrectForceSsl(ctx: Ctx, force: bool, order: seq<string>, e0: Effects) returns (e: Effects)
    ensures e == Then(e0, Each(order, SslStep(ctx, force)))
  {
    e := e0;
    ThenNoEffects(e0);
    var i := 0;
    while i < |order|
      invariant 0 <= i <= |order|
      invariant e == Then(e0, Each(order[..i], SslStep(ctx, force)))
    {
      EachStep(order, SslStep(ctx, force), i);
      ThenAssoc(e0, Each(order[..i], SslStep(ctx, force)), SslOne(ctx, force, order[i]));
      e := CorrectIfDifferent(ctx, force, order[i], e);
      i := i + 1;
    }
    assert order[..i] == order;
  }

  /** The loop of `sync_zone` over the current hostnames, removing each whose key nobody wants. */
  method RemoveExtra(ctx: Ctx, wantedLower: set<string>, e0: Effects) returns (e: Effects)
    ensures e == Then(e0, Each(ctx.current, RemoveStep(ctx, wantedLower)))
  {
    var entries := ctx.current;
    e := e0;
    ThenNoEffects(e0);
    var i := 0;
    while i < |entries|
      invariant 0 <= i <= |entries|
      invariant e == Then(e0, Each(entries[..i], RemoveStep(ctx, wantedLower)))
    {
      EachStep(entries, RemoveStep(ctx, wantedLower), i);
      ThenAssoc(e0, Each(entries[..i], RemoveStep(ctx, wantedLower)), RemoveOne(ctx, wantedLower, entries[i]));
      e := RemoveIfUnwanted(ctx, wantedLower, entries[i], e);
      i := i + 1;
    }
    assert entries[..i] == entries;
  }

  /** `order` lists the elements of `s`, each once: one iteration order of a Python set. */
  predicate IsOrderOf(order: seq<string>, s: set<string>) {
    Distinct(order) && (forall h :: h in order ==> h in s) && (forall h :: h in s ==> h in order)
  }

  /**
   * Python iterates a set it does not change in one fixed but unspecified order; this
   * picks such an order, which every loop over the desired hostnames then walks.
   */
  method Enumerate(s: set<string>) returns (order: seq<string>)
    ensures IsOrderOf(order, s)
  {
    order := [];
    var rest := s;
    while rest != {}
      invariant Distinct(order)
      invariant forall h :: h in order <==> h in s && h !in rest
      invariant rest <= s
      decreases rest
    {
      var h :| h in rest;
      order := order + [h];
      rest := rest - {h};
    }
  }

  /** The notes of a dry run on a zone that does not exist yet: every desired hostname is reported added. */
  function AddingNotes(order: seq<string>): (notes: seq<Note>)
    ensures |notes| == |order| && forall i :: 0 <= i < |order| ==> notes[i] == AddingHostname(order[i])
  {
    seq(|order|, i requires 0 <= i < |order| => AddingHostname(order[i]))
  }

  /** The loop of `sync_zone` for a zone a dry run would create. */
  method PlanAdditions(order: seq<string>) returns (added: seq<string>, notes: seq<Note>)
    ensures added == order && notes == AddingNotes(order)
  {
    added, notes := [], [];
    var i := 0;
    while i < |order|
      invariant 0 <= i <= |order|
      invariant added == order[..i] && notes == AddingNotes(order[..i])
    {
      added := added + [order[i]];
      notes := notes + [AddingHostname(order[i])];
      i := i + 1;
      assert added == order[..i];
    }
  }

  /** The result dictionary of `sync_zone`. */
  datatype ZoneReport = ZoneReport(
    zone: string, created: bool, updated: bool, added: seq<string>, removed: seq<string>, certs: seq<string>,
    changes: seq<Note>)

  /** A report and the calls issued to reach it. */
  datatype ZoneSync = ZoneSync(report: ZoneReport, calls: seq<PzCall>)

  /**
   * What the provider answers: the zone listing, the replies to the create and update
   * calls, and whether loading a certificate and setting Force SSL succeed per hostname.
   */
  datatype Replies = Replies(
    listing: Option<seq<PullZoneWire>>, createReply: PullZoneWire, updateReply: PullZoneWire,
    loadsCertificate: string -> bool, setsForceSsl: string -> bool)

  /** The zone of that name in the listing. */
  function Listed(name: string, replies: Replies): Option<PullZone> {
    GetZoneByName(ListZones(replies.listing), name)
  }

  /** The notes about the zone itself, before any hostname is handled. */
  function ZoneNotes(name: string, cfg: ZoneConfig, listed: Option<PullZone>): seq<Note> {
    match listed
    case None => [CreatingZone(name)]
    case Some(z) => UpdateNotes(z, cfg)
  }

  /** The create or update call of a live run. */
  function ZoneCalls(name: string, cfg: ZoneConfig, listed: Option<PullZone>): seq<PzCall> {
    var payload := ZoneToApiPayload(DesiredZone(name, cfg));
    match listed
    case None => [CreatePullZone(payload)]
    case Some(z) => if NeedsZoneUpdate(z, cfg) then [UpdatePullZone(z.id, payload)] else []
  }

  /**
   * The zone whose hostnames are reconciled: the created or updated zone as the
   * provider returns it in a live run, the listed zone otherwise, and none in a dry
   * run for a zone that does not exist.
   */
  function ZoneAfter(name: string, cfg: ZoneConfig, dryRun: bool, replies: Replies): Option<PullZone> {
    match Listed(name, replies)
    case None => if dryRun then None else Some(ZoneFromApiResponse(replies.createReply))
    case Some(z) => if NeedsZoneUpdate(z, cfg) && !dryRun then Some(ZoneFromApiResponse(replies.updateReply)) else Some(z)
  }

  /** The lower-cased desired hostnames. */
  function WantedLower(cfg: ZoneConfig): set<string> {
    set h | h in DesiredHostnames(cfg) :: Lower(h)
  }

  function ContextOf(zone: PullZone, cfg: ZoneConfig, dryRun: bool, replies: Replies): Ctx {
    Ctx(zone.id, CurrentHostnames(zone.hostnames), cfg.forceSsl, dryRun, replies.loadsCertificate, replies.setsForceSsl)
  }

  /** What `sync_zone` reports and calls when the desired hostnames are iterated in `order`. */
  function Planned(name: string, cfg: ZoneConfig, dryRun: bool, replies: Replies, order: seq<string>): ZoneSync {
    var listed := Listed(name, replies);
    var head := ZoneNotes(name, cfg, listed);
    var zoneCalls := if dryRun then [] else ZoneCalls(name, cfg, listed);
    var created := listed.None?;
    var updated := listed.Some? && NeedsZoneUpdate(listed.value, cfg);
    match ZoneAfter(name, cfg, dryRun, replies)
    case None => ZoneSync(ZoneReport(name, created, updated, order, [], [], head + AddingNotes(order)), zoneCalls)
    case Some(zone) =>
      var e := HostnameEffects(ContextOf(zone, cfg, dryRun, replies), order, WantedLower(cfg));
      ZoneSync(ZoneReport(name, created, updated, e.added, e.removed, e.certs, head + e.notes), zoneCalls + e.calls)
  }

  /** The first half of `sync_zone`: create the zone or update what differs. */
  method SyncZoneRecord(name: string, cfg: ZoneConfig, dryRun: bool, replies: Replies)
    returns (created: bool, updated: bool, changes: seq<Note>, calls: seq<PzCall>, zone: Option<PullZone>)
    ensures var listed := Listed(name, replies);
      && created == listed.None?
      && updated == (listed.Some? && NeedsZoneUpdate(listed.value, cfg))
      && changes == ZoneNotes(name, cfg, listed)
      && calls == (if dryRun then [] else ZoneCalls(name, cfg, listed))
      && zone == ZoneAfter(name, cfg, dryRun, replies)
  {
    var listed := GetZoneByName(ListZones(replies.listing), name);
    created, updated := false, false;
    changes, calls := [], [];
    zone := listed;
    if listed.None? {
      created := true;
      changes := changes + [CreatingZone(name)];
      if !dryRun {
        calls := calls + [CreatePullZone(ZoneToApiPayload(DesiredZone(name, cfg)))];
        zone := Some(ZoneFromApiResponse(replies.createReply));
      }
    } else {
      var needsUpdate, notes := CheckForUpdate(listed.value, cfg);
      changes := changes + notes;
      if needsUpdate {
        updated := true;
        if !dryRun {
          calls := calls + [UpdatePullZone(listed.value.id, ZoneToApiPayload(DesiredZone(name, cfg)))];
          zone := Some(ZoneFromApiResponse(replies.updateReply));
        }
      }
    }
  }

  /** The second half of `sync_zone`: the four hostname loops. */
  method SyncHostnames(ctx: Ctx, order: seq<string>, wantedLower: set<string>) returns (e: Effects)
    ensures e == HostnameEffects(ctx, order, wantedLower)
  {
    e := AddMissing(ctx, order, NoEffects);
    ThenNoEffects(Each(order, AddStep(ctx)));
    e := RetryCertificates(ctx, order, e);
    if ctx.forceSsl.Some? {
      e := CorrectForceSsl(ctx, ctx.forceSsl.value, order, e);
    } else {
      ThenNoEffects(e);
    }
    e := RemoveExtra(ctx, wantedLower, e);
  }

  /**
   * `PullZoneManager.sync_zone`: create the zone or update what differs, then add the
   * missing hostnames, retry certificates, correct Force SSL and remove extra
   * hostnames. `order` is the iteration order of the desired hostname set.
   */
  method SyncZone(name: string, cfg: ZoneConfig, dryRun: bool, replies: Replies)
    returns (sync: ZoneSync, order: seq<string>)
    ensures IsOrderOf(order, DesiredHostnames(cfg))
    ensures sync.report.zone == name
    ensures sync == Planned(name, cfg, dryRun, replies, order)
  {
    var desired := DesiredHostnames(cfg);
    order := Enumerate(desired);
    var created, updated, changes, calls, zone := SyncZoneRecord(name, cfg, dryRun, replies);
    if zone.None? {
      var added, adding := PlanAdditions(order);
      sync := ZoneSync(ZoneReport(name, created, updated, added, [], [], changes + adding), calls);
      return;
    }
    var ctx := ContextOf(zone.value, cfg, dryRun, replies);
    var wantedLower := set h | h in desired :: Lower(h);
    var e := SyncHostnames(ctx, order, wantedLower);
    sync := ZoneSync(ZoneReport(name, created, updated, e.added, e.removed, e.certs, changes + e.notes), calls + e.calls);
  }

  /** The first loop removes nothing; in a dry run it calls nothing and loads no certificate. */
  lemma AddPhaseFields(ctx: Ctx, order: seq<string>)
    ensures var e := Each(order, AddStep(ctx));
      e.removed == [] && (ctx.dryRun ==> e.calls == [] && e.certs == [])
  {
    forall i | 0 <= i < |order|
      ensures var d := AddStep(ctx)(order[i]); d.removed == [] && (ctx.dryRun ==> d.calls == [] && d.certs == [])
    {
    }
    EachEmptyFields(order, AddStep(ctx));
  }

  /** The certificate loop adds and removes nothing; in a dry run it calls nothing and loads nothing. */
  lemma RetryPhaseFields(ctx: Ctx, order: seq<string>)
    ensures var e := Each(order, RetryStep(ctx));
      e.added == [] && e.removed == [] && (ctx.dryRun ==> e.calls == [] && e.certs == [])
  {
    forall i | 0 <= i < |order|
      ensures var d := RetryStep(ctx)(order[i]);
        d.added == [] && d.removed == [] && (ctx.dryRun ==> d.calls == [] && d.certs == [])
    {
    }
    EachEmptyFields(order, RetryStep(ctx));
  }

  /** The Force SSL loop adds, removes and loads nothing; in a dry run it calls nothing. */
  lemma SslPhaseFields(ctx: Ctx, order: seq<string>)
    ensures var e := SslPhase(ctx, order);
      e.added == [] && e.removed == [] && e.certs == [] && (ctx.dryRun ==> e.calls == [])
  {
    if ctx.forceSsl.Some? {
      var f := ctx.forceSsl.value;
      forall i | 0 <= i < |order|
        ensures var d := SslStep(ctx, f)(order[i]);
          d.added == [] && d.removed == [] && d.certs == [] && (ctx.dryRun ==> d.calls == [])
      {
      }
      EachEmptyFields(order, SslStep(ctx, f));
    }
  }

  /** The removal loop adds and loads nothing; in a dry run it calls nothing. */
  lemma RemovePhaseFields(ctx: Ctx, wantedLower: set<string>)
    ensures var e := Each(ctx.current, RemoveStep(ctx, wantedLower));
      e.added == [] && e.certs == [] && (ctx.dryRun ==> e.calls == [])
  {
    var entries := ctx.current;
    forall i | 0 <= i < |entries|
      ensures var d := RemoveStep(ctx, wantedLower)(entries[i]);
        d.added == [] && d.certs == [] && (ctx.dryRun ==> d.calls == [])
    {
    }
    EachEmptyFields(entries, RemoveStep(ctx, wantedLower));
  }

  /** The hostname loops of a dry run call nothing and load no certificate. */
  lemma HostnameEffectsDry(ctx: Ctx, order: seq<string>, wantedLower: set<string>)
    requires ctx.dryRun
    ensures HostnameEffects(ctx, order, wantedLower).calls == []
    ensures HostnameEffects(ctx, order, wantedLower).certs == []
  {
    AddPhaseFields(ctx, order);
    RetryPhaseFields(ctx, order);
    SslPhaseFields(ctx, order);
    RemovePhaseFields(ctx, wantedLower);
  }

  /** A dry run issues no call and loads no certificate. */
  lemma DryRunCallsNothing(name: string, cfg: ZoneConfig, replies: Replies, order: seq<string>)
    ensures Planned(name, cfg, true, replies, order).calls == []
    ensures Planned(name, cfg, true, replies, order).report.certs == []
  {
    match ZoneAfter(name, cfg, true, replies)
    case None =>
    case Some(zone) =>
      HostnameEffectsDry(ContextOf(zone, cfg, true, replies), order, WantedLower(cfg));
  }

  /** The first loop adds each hostname of `order` missing from the zone, once. */
  lemma AddPhaseAdded(ctx: Ctx, order: seq<string>)
    requires Distinct(order)
    ensures var adds := Each(order, AddStep(ctx));
      && Distinct(adds.added)
      && forall h :: h in adds.added <==> h in order && Lookup(ctx.current, Lower(h)).None?
  {
    EachAddedDistinct(order, AddStep(ctx));
    forall h ensures h in Each(order, AddStep(ctx)).added <==> h in order && Lookup(ctx.current, Lower(h)).None? {
      EachAdded(order, AddStep(ctx), h);
    }
  }

  /** Only the first loop adds. */
  lemma HostnameEffectsAdded(ctx: Ctx, order: seq<string>, wantedLower: set<string>)
    requires Distinct(order)
    ensures var e := HostnameEffects(ctx, order, wantedLower);
      && Distinct(e.added)
      && forall h :: h in e.added <==> h in order && Lookup(ctx.current, Lower(h)).None?
  {
    RetryPhaseFields(ctx, order);
    SslPhaseFields(ctx, order);
    RemovePhaseFields(ctx, wantedLower);
    AddPhaseAdded(ctx, order);
    var adds := Each(order, AddStep(ctx));
    assert adds.added + [] + [] + [] == adds.added;
  }

  /**
   * The hostnames reported added are the desired ones whose lower-cased form is not the
   * lower-cased value of a non-system hostname of the zone, each once; for a zone a dry
   * run would create, all of them.
   */
  lemma AddedAreMissing(name: string, cfg: ZoneConfig, dryRun: bool, replies: Replies, order: seq<string>)
    requires IsOrderOf(order, DesiredHostnames(cfg))
    ensures var r := Planned(name, cfg, dryRun, replies, order).report;
      && Distinct(r.added)
      && forall h :: h in r.added <==>
        && h in DesiredHostnames(cfg)
        && match ZoneAfter(name, cfg, dryRun, replies)
           case None => true
           case Some(zone) => Lower(h) !in set x | x in zone.hostnames && !x.isSystem :: Lower(x.value)
  {
    match ZoneAfter(name, cfg, dryRun, replies)
    case None =>
    case Some(zone) =>
      var ctx := ContextOf(zone, cfg, dryRun, replies);
      HostnameEffectsAdded(ctx, order, WantedLower(cfg));
      CurrentHostnamesKeys(zone.hostnames);
      forall h {
        LookupKeys(ctx.current, Lower(h));
      }
  }

  /** The removal loop removes the value of each current entry whose key nobody wants. */
  lemma RemovePhaseRemoved(ctx: Ctx, wantedLower: set<string>, x: string)
    ensures x in Each(ctx.current, RemoveStep(ctx, wantedLower)).removed <==>
      exists i :: 0 <= i < |ctx.current| && ctx.current[i].0 !in wantedLower && ctx.current[i].1.value == x
  {
    EachRemoved(ctx.current, RemoveStep(ctx, wantedLower), x);
  }

  /** What the removal loop removes is a non-system listed hostname whose lower-cased value nobody wants. */
  lemma RemovalsAreListed(hs: seq<Hostname>, ctx: Ctx, wl: set<string>)
    requires ctx.current == CurrentHostnames(hs)
    ensures forall x :: x in Each(ctx.current, RemoveStep(ctx, wl)).removed ==>
      exists h :: h in hs && !h.isSystem && h.value == x && Lower(x) !in wl
  {
    var cur := ctx.current;
    CurrentHostnamesEntries(hs);
    forall x | x in Each(cur, RemoveStep(ctx, wl)).removed
      ensures exists h :: h in hs && !h.isSystem && h.value == x && Lower(x) !in wl
    {
      RemovePhaseRemoved(ctx, wl, x);
      var i :| 0 <= i < |cur| && cur[i].0 !in wl && cur[i].1.value == x;
      assert cur[i] in cur;
    }
  }

  /** Every non-system listed hostname nobody wants has a removal under its lower-cased value. */
  lemma UnwantedAreRemoved(hs: seq<Hostname>, ctx: Ctx, wl: set<string>)
    requires ctx.current == CurrentHostnames(hs)
    ensures forall h :: h in hs && !h.isSystem && Lower(h.value) !in wl ==>
      exists x :: x in Each(ctx.current, RemoveStep(ctx, wl)).removed && Lower(x) == Lower(h.value)
  {
    var cur := ctx.current;
    CurrentHostnamesEntries(hs);
    CurrentHostnamesKeys(hs);
    forall h | h in hs && !h.isSystem && Lower(h.value) !in wl
      ensures exists x :: x in Each(cur, RemoveStep(ctx, wl)).removed && Lower(x) == Lower(h.value)
    {
      assert Lower(h.value) in Keys(cur);
      var i :| 0 <= i < |cur| && cur[i].0 == Lower(h.value);
      assert cur[i] in cur;
      RemovePhaseRemoved(ctx, wl, cur[i].1.value);
    }
  }

  /**
   * Every hostname reported removed is a non-system hostname of the zone whose
   * lower-cased value nobody wants, and every such value has one removal under it.
   */
  lemma RemovedAreExtra(name: string, cfg: ZoneConfig, dryRun: bool, replies: Replies, order: seq<string>)
    requires ZoneAfter(name, cfg, dryRun, replies).Some?
    ensures var zone := ZoneAfter(name, cfg, dryRun, replies).value;
      var r := Planned(name, cfg, dryRun, replies, order).report;
      && (forall x :: x in r.removed ==>
            exists h :: h in zone.hostnames && !h.isSystem && h.value == x && Lower(x) !in WantedLower(cfg))
      && (forall h :: h in zone.hostnames && !h.isSystem && Lower(h.value) !in WantedLower(cfg) ==>
            exists x :: x in r.removed && Lower(x) == Lower(h.value))
  {
    var zone := ZoneAfter(name, cfg, dryRun, replies).value;
    var ctx := ContextOf(zone, cfg, dryRun, replies);
    var wl := WantedLower(cfg);
    AddPhaseFields(ctx, order);
    RetryPhaseFields(ctx, order);
    SslPhaseFields(ctx, order);
    var removes := Each(ctx.current, RemoveStep(ctx, wl));
    assert HostnameEffects(ctx, order, wl).removed == [] + [] + [] + removes.removed;
    RemovalsAreListed(zone.hostnames, ctx, wl);
    UnwantedAreRemoved(zone.hostnames, ctx, wl);
  }

  /** The current hostname under the lower-cased form of `h` lacks a certificate, or there is none. */
  predicate Uncertified(ctx: Ctx, h: string) {
    match Lookup(ctx.current, Lower(h))
    case None => true
    case Some(obj) => !obj.hasCertificate
  }

  /** The certificates the first two loops load, when the call succeeds. */
  lemma CertPhasesLoaded(ctx: Ctx, order: seq<string>, x: string)
    requires !ctx.dryRun
    ensures x in Each(order, AddStep(ctx)).certs + Each(order, RetryStep(ctx)).certs <==>
      x in order && ctx.loadsCertificate(x) && Uncertified(ctx, x)
  {
    EachCerts(order, AddStep(ctx), x);
    EachCerts(order, RetryStep(ctx), x);
  }

  /**
   * In a live run the certificates reported loaded are the desired hostnames, without
   * a certified current hostname under the same lower-cased name, whose load succeeds.
   */
  lemma CertificatesLoaded(name: string, cfg: ZoneConfig, replies: Replies, order: seq<string>)
    requires IsOrderOf(order, DesiredHostnames(cfg))
    requires ZoneAfter(name, cfg, false, replies).Some?
    ensures var ctx := ContextOf(ZoneAfter(name, cfg, false, replies).value, cfg, false, replies);
      forall x :: x in Planned(name, cfg, false, replies, order).report.certs <==>
        x in DesiredHostnames(cfg) && replies.loadsCertificate(x) && Uncertified(ctx, x)
  {
    var zone := ZoneAfter(name, cfg, false, replies).value;
    var ctx := ContextOf(zone, cfg, false, replies);
    var wl := WantedLower(cfg);
    SslPhaseFields(ctx, order);
    RemovePhaseFields(ctx, wl);
    var twoPhases := Each(order, AddStep(ctx)).certs + Each(order, RetryStep(ctx)).certs;
    assert HostnameEffects(ctx, order, wl).certs == twoPhases + [] + [];
    forall x {
      CertPhasesLoaded(ctx, order, x);
    }
  }

  /**
   * The hostname calls a loop may issue: adding a desired hostname the zone lacks,
   * loading a certificate for a desired hostname without one, setting the configured
   * Force SSL on a desired hostname that lacks or differs from it, and removing the
   * value of a current entry nobody wants; all on the zone being reconciled.
   */
  predicate Justified(ctx: Ctx, order: seq<string>, wantedLower: set<string>, c: PzCall) {
    match c
    case CreatePullZone(_) => false
    case UpdatePullZone(_, _) => false
    case AddHostname(z, h) => z == ctx.zoneId && h in order && Lookup(ctx.current, Lower(h)).None?
    case LoadCertificate(h) => h in order && Uncertified(ctx, h)
    case SetForceSsl(z, h, f) =>
      && z == ctx.zoneId && h in order && ctx.forceSsl == Some(f)
      && (match Lookup(ctx.current, Lower(h))
          case None => true
          case Some(obj) => obj.forceSsl != f)
    case RemoveHostname(z, h) =>
      z == ctx.zoneId && exists i :: 0 <= i < |ctx.current| && ctx.current[i].0 !in wantedLower && ctx.current[i].1.value == h
  }

  /** The calls of one pass of the first loop are justified for a hostname of the order. */
  lemma AddOneJustified(ctx: Ctx, order: seq<string>, wantedLower: set<string>, h: string, c: PzCall)
    requires h in order && c in AddOne(ctx, h).calls
    ensures Justified(ctx, order, wantedLower, c)
  {
    var sslCall := match ctx.forceSsl
      case None => []
      case Some(f) => [SetForceSsl(ctx.zoneId, h, f)];
    assert Lookup(ctx.current, Lower(h)).None? && !ctx.dryRun;
    assert AddOne(ctx, h).calls == [AddHostname(ctx.zoneId, h), LoadCertificate(h)] + sslCall;
  }

  lemma AddPhaseJustified(ctx: Ctx, order: seq<string>, wantedLower: set<string>)
    ensures forall c :: c in Each(order, AddStep(ctx)).calls ==> Justified(ctx, order, wantedLower, c)
  {
    forall c | c in Each(order, AddStep(ctx)).calls ensures Justified(ctx, order, wantedLower, c) {
      EachCalls(order, AddStep(ctx), c);
      var i :| 0 <= i < |order| && c in AddStep(ctx)(order[i]).calls;
      AddOneJustified(ctx, order, wantedLower, order[i], c);
    }
  }

  lemma RetryPhaseJustified(ctx: Ctx, order: seq<string>, wantedLower: set<string>)
    ensures forall c :: c in Each(order, RetryStep(ctx)).calls ==> Justified(ctx, order, wantedLower, c)
  {
    forall c | c in Each(order, RetryStep(ctx)).calls ensures Justified(ctx, order, wantedLower, c) {
      EachCalls(order, RetryStep(ctx), c);
    }
  }

  lemma SslPhaseJustified(ctx: Ctx, order: seq<string>, wantedLower: set<string>)
    ensures forall c :: c in SslPhase(ctx, order).calls ==> Justified(ctx, order, wantedLower, c)
  {
    if ctx.forceSsl.Some? {
      var f := ctx.forceSsl.value;
      forall c | c in Each(order, SslStep(ctx, f)).calls ensures Justified(ctx, order, wantedLower, c) {
        EachCalls(order, SslStep(ctx, f), c);
      }
    }
  }

  lemma RemovePhaseJustified(ctx: Ctx, order: seq<string>, wantedLower: set<string>)
    ensures forall c :: c in Each(ctx.current, RemoveStep(ctx, wantedLower)).calls ==> Justified(ctx, order, wantedLower, c)
  {
    forall c | c in Each(ctx.current, RemoveStep(ctx, wantedLower)).calls ensures Justified(ctx, order, wantedLower, c) {
      EachCalls(ctx.current, RemoveStep(ctx, wantedLower), c);
    }
  }

  /** Every hostname call is one the configuration and the zone's state call for. */
  lemma HostnameCallsJustified(ctx: Ctx, order: seq<string>, wantedLower: set<string>)
    ensures forall c :: c in HostnameEffects(ctx, order, wantedLower).calls ==> Justified(ctx, order, wantedLower, c)
  {
    AddPhaseJustified(ctx, order, wantedLower);
    RetryPhaseJustified(ctx, order, wantedLower);
    SslPhaseJustified(ctx, order, wantedLower);
    RemovePhaseJustified(ctx, order, wantedLower);
  }

  /**
   * A run creates the zone only when the listing lacks it and updates it only when its
   * settings differ, both in a live run; every other call is a justified hostname call
   * on the zone being reconciled. In particular Force SSL is set only to the
   * configured value, and never when the configuration leaves it out.
   */
  lemma CallsJustified(name: string, cfg: ZoneConfig, dryRun: bool, replies: Replies, order: seq<string>)
    requires IsOrderOf(order, DesiredHostnames(cfg))
    ensures var listed := Listed(name, replies);
      forall c :: c in Planned(name, cfg, dryRun, replies, order).calls ==>
        && !dryRun
        && (c.CreatePullZone? ==> listed.None? && c.payload == ZoneToApiPayload(DesiredZone(name, cfg)))
        && (c.UpdatePullZone? ==> listed.Some? && NeedsZoneUpdate(listed.value, cfg) && c.zoneId == listed.value.id)
        && (!c.CreatePullZone? && !c.UpdatePullZone? ==>
              Justified(ContextOf(ZoneAfter(name, cfg, dryRun, replies).value, cfg, dryRun, replies), order, WantedLower(cfg), c))
        && (c.SetForceSsl? ==> cfg.forceSsl == Some(c.force))
  {
    if dryRun {
      DryRunCallsNothing(name, cfg, replies, order);
    } else {
      var listed := Listed(name, replies);
      var ctx := ContextOf(ZoneAfter(name, cfg, false, replies).value, cfg, false, replies);
      var e := HostnameEffects(ctx, order, WantedLower(cfg));
      assert Planned(name, cfg, false, replies, order).calls == ZoneCalls(name, cfg, listed) + e.calls;
      ZoneAndHostnameCallsJustified(name, cfg, listed, ctx, order, WantedLower(cfg));
    }
  }

  /** The zone step's calls followed by the hostname calls, for a context with the configured Force SSL. */
  lemma ZoneAndHostnameCallsJustified(name: string, cfg: ZoneConfig, listed: Option<PullZone>, ctx: Ctx,
                                      order: seq<string>, wantedLower: set<string>)
    requires ctx.forceSsl == cfg.forceSsl
    ensures forall c :: c in ZoneCalls(name, cfg, listed) + HostnameEffects(ctx, order, wantedLower).calls ==>
      && (c.CreatePullZone? ==> listed.None? && c.payload == ZoneToApiPayload(DesiredZone(name, cfg)))
      && (c.UpdatePullZone? ==> listed.Some? && NeedsZoneUpdate(listed.value, cfg) && c.zoneId == listed.value.id)
      && (!c.CreatePullZone? && !c.UpdatePullZone? ==> Justified(ctx, order, wantedLower, c))
      && (c.SetForceSsl? ==> cfg.forceSsl == Some(c.force))
  {
    HostnameCallsJustified(ctx, order, wantedLower);
    ZoneCallsAre(name, cfg, listed);
  }

  /** The zone step calls for a creation of an unlisted zone, or an update of a listed one that differs. */
  lemma ZoneCallsAre(name: string, cfg: ZoneConfig, listed: Option<PullZone>)
    ensures forall c :: c in ZoneCalls(name, cfg, listed) ==>
      || (c.CreatePullZone? && listed.None? && c.payload == ZoneToApiPayload(DesiredZone(name, cfg)))
      || (c.UpdatePullZone? && listed.Some? && NeedsZoneUpdate(listed.value, cfg) && c.zoneId == listed.value.id
          && c.payload == ZoneToApiPayload(DesiredZone(name, cfg)))
  {
  }

  /** A note is appended exactly when some step appends it. */
  lemma {:induction false} EachNotes<T>(xs: seq<T>, step: T -> Effects, n: Note)
    ensures n in Each(xs, step).notes <==> exists i :: 0 <= i < |xs| && n in step(xs[i]).notes
    decreases |xs|
  {
    if xs != [] {
      var init := xs[..|xs| - 1];
      EachNotes(init, step, n);
      assert forall i :: 0 <= i < |init| ==> init[i] == xs[i];
    }
  }

  /** The current entry under the lower-cased `h` exists and has no certificate. */
  predicate ListedUncertified(ctx: Ctx, h: string) {
    match Lookup(ctx.current, Lower(h))
    case None => false
    case Some(obj) => !obj.hasCertificate
  }

  /** The current entry under the lower-cased `h` exists and its Force SSL is not `f`. */
  predicate ListedDiffers(ctx: Ctx, h: string, f: bool) {
    match Lookup(ctx.current, Lower(h))
    case None => false
    case Some(obj) => obj.forceSsl != f
  }

  /** Force SSL is configured as `f` and `h` lacks it: it is missing, or listed with the other flag. */
  predicate SslWanted(ctx: Ctx, h: string, f: bool) {
    ctx.forceSsl == Some(f) && (Lookup(ctx.current, Lower(h)).None? || ListedDiffers(ctx, h, f))
  }

  /** One pass of the first loop, seen from hostname `h`: only a live pass over a missing `h` touches it. */
  lemma AddOneItems(ctx: Ctx, x: string, h: string, f: bool)
    ensures var e := AddStep(ctx)(x);
      var missing := !ctx.dryRun && x == h && Lookup(ctx.current, Lower(h)).None?;
      && LoadingCertificate(h) !in e.notes
      && ForceSslChanging(h, f) !in e.notes
      && (CertificateWarning(h) in e.notes <==> missing && !ctx.loadsCertificate(h))
      && (ForceSslWarning(h) in e.notes <==> missing && ctx.forceSsl.Some? && !ctx.setsForceSsl(h))
      && (AddHostname(ctx.zoneId, h) in e.calls <==> missing)
      && (LoadCertificate(h) in e.calls <==> missing)
      && (SetForceSsl(ctx.zoneId, h, f) in e.calls <==> missing && ctx.forceSsl == Some(f))
      && RemoveHostname(ctx.zoneId, h) !in e.calls
  {
    if Lookup(ctx.current, Lower(x)).None? && !ctx.dryRun {
      var loaded := ctx.loadsCertificate(x);
      var sslNote := match ctx.forceSsl
        case None => []
        case Some(g) => [if ctx.setsForceSsl(x) then ForceSslSet(x, g) else ForceSslWarning(x)];
      var sslCall := match ctx.forceSsl
        case None => []
        case Some(g) => [SetForceSsl(ctx.zoneId, x, g)];
      assert AddOne(ctx, x).notes == [AddingHostname(x)] + (if loaded then [] else [CertificateWarning(x)]) + sslNote;
      assert AddOne(ctx, x).calls == [AddHostname(ctx.zoneId, x), LoadCertificate(x)] + sslCall;
    }
  }

  /**
   * The first loop, for one hostname: in a live run a missing hostname is added, its
   * certificate loaded and, when configured, its Force SSL set, with a warning for each
   * of the last two that fails; the loop writes no certificate-loading or Force SSL
   * change note and removes nothing.
   */
  lemma AddPhaseItems(ctx: Ctx, order: seq<string>, h: string, f: bool)
    ensures var e := Each(order, AddStep(ctx));
      var missing := !ctx.dryRun && h in order && Lookup(ctx.current, Lower(h)).None?;
      && LoadingCertificate(h) !in e.notes
      && ForceSslChanging(h, f) !in e.notes
      && (CertificateWarning(h) in e.notes <==> missing && !ctx.loadsCertificate(h))
      && (ForceSslWarning(h) in e.notes <==> missing && ctx.forceSsl.Some? && !ctx.setsForceSsl(h))
      && (AddHostname(ctx.zoneId, h) in e.calls <==> missing)
      && (LoadCertificate(h) in e.calls <==> missing)
      && (SetForceSsl(ctx.zoneId, h, f) in e.calls <==> missing && ctx.forceSsl == Some(f))
      && RemoveHostname(ctx.zoneId, h) !in e.calls
  {
    var step := AddStep(ctx);
    forall i | 0 <= i < |order| {
      AddOneItems(ctx, order[i], h, f);
    }
    if h in order {
      var i :| 0 <= i < |order| && order[i] == h;
    }
    EachNotes(order, step, LoadingCertificate(h));
    EachNotes(order, step, ForceSslChanging(h, f));
    EachNotes(order, step, CertificateWarning(h));
    EachNotes(order, step, ForceSslWarning(h));
    EachCalls(order, step, AddHostname(ctx.zoneId, h));
    EachCalls(order, step, LoadCertificate(h));
    EachCalls(order, step, SetForceSsl(ctx.zoneId, h, f));
    EachCalls(order, step, RemoveHostname(ctx.zoneId, h));
  }

  /** One pass of the second loop, seen from hostname `h`: only a pass over a listed `h` without a certificate touches it. */
  lemma RetryOneItems(ctx: Ctx, x: string, h: string, f: bool)
    ensures var e := RetryStep(ctx)(x);
      var listed := x == h && ListedUncertified(ctx, h);
      && (LoadingCertificate(h) in e.notes <==> listed)
      && ForceSslChanging(h, f) !in e.notes
      && (CertificateWarning(h) in e.notes <==> listed && !ctx.dryRun && !ctx.loadsCertificate(h))
      && ForceSslWarning(h) !in e.notes
      && AddHostname(ctx.zoneId, h) !in e.calls
      && (LoadCertificate(h) in e.calls <==> listed && !ctx.dryRun)
      && SetForceSsl(ctx.zoneId, h, f) !in e.calls
      && RemoveHostname(ctx.zoneId, h) !in e.calls
  {
  }

  /**
   * The second loop, for one hostname: a listed hostname without a certificate gets the
   * loading note and, in a live run, the load call, with a warning when it fails; the loop
   * touches nothing else of `h`.
   */
  lemma RetryPhaseItems(ctx: Ctx, order: seq<string>, h: string, f: bool)
    ensures var e := Each(order, RetryStep(ctx));
      var listed := h in order && ListedUncertified(ctx, h);
      && (LoadingCertificate(h) in e.notes <==> listed)
      && ForceSslChanging(h, f) !in e.notes
      && (CertificateWarning(h) in e.notes <==> listed && !ctx.dryRun && !ctx.loadsCertificate(h))
      && ForceSslWarning(h) !in e.notes
      && AddHostname(ctx.zoneId, h) !in e.calls
      && (LoadCertificate(h) in e.calls <==> listed && !ctx.dryRun)
      && SetForceSsl(ctx.zoneId, h, f) !in e.calls
      && RemoveHostname(ctx.zoneId, h) !in e.calls
  {
    var step := RetryStep(ctx);
    forall i | 0 <= i < |order| {
      RetryOneItems(ctx, order[i], h, f);
    }
    if h in order {
      var i :| 0 <= i < |order| && order[i] == h;
    }
    EachNotes(order, step, LoadingCertificate(h));
    EachNotes(order, step, ForceSslChanging(h, f));
    EachNotes(order, step, CertificateWarning(h));
    EachNotes(order, step, ForceSslWarning(h));
    EachCalls(order, step, AddHostname(ctx.zoneId, h));
    EachCalls(order, step, LoadCertificate(h));
    EachCalls(order, step, SetForceSsl(ctx.zoneId, h, f));
    EachCalls(order, step, RemoveHostname(ctx.zoneId, h));
  }

  /** One pass of the third loop, seen from hostname `h`: only a pass over a listed `h` whose flag differs from `force` touches it. */
  lemma SslOneItems(ctx: Ctx, force: bool, x: string, h: string, f: bool)
    ensures var e := SslStep(ctx, force)(x);
      var differs := x == h && ListedDiffers(ctx, h, force);
      && LoadingCertificate(h) !in e.notes
      && (ForceSslChanging(h, f) in e.notes <==> differs && f == force)
      && CertificateWarning(h) !in e.notes
      && (ForceSslWarning(h) in e.notes <==> differs && !ctx.dryRun && !ctx.setsForceSsl(h))
      && AddHostname(ctx.zoneId, h) !in e.calls
      && LoadCertificate(h) !in e.calls
      && (SetForceSsl(ctx.zoneId, h, f) in e.calls <==> differs && f == force && !ctx.dryRun)
      && RemoveHostname(ctx.zoneId, h) !in e.calls
  {
  }

  /**
   * The third loop, for one hostname: a listed hostname whose Force SSL differs from the
   * configured value gets the change note and, in a live run, the call, with a warning
   * when it fails; the loop touches nothing else of `h`.
   */
  lemma SslPhaseItems(ctx: Ctx, order: seq<string>, h: string, f: bool)
    ensures var e := SslPhase(ctx, order);
      && LoadingCertificate(h) !in e.notes
      && (ForceSslChanging(h, f) in e.notes <==> h in order && ctx.forceSsl == Some(f) && ListedDiffers(ctx, h, f))
      && CertificateWarning(h) !in e.notes
      && (ForceSslWarning(h) in e.notes <==>
            && h in order && ctx.forceSsl.Some? && ListedDiffers(ctx, h, ctx.forceSsl.value)
            && !ctx.dryRun && !ctx.setsForceSsl(h))
      && AddHostname(ctx.zoneId, h) !in e.calls
      && LoadCertificate(h) !in e.calls
      && (SetForceSsl(ctx.zoneId, h, f) in e.calls <==>
            h in order && ctx.forceSsl == Some(f) && ListedDiffers(ctx, h, f) && !ctx.dryRun)
      && RemoveHostname(ctx.zoneId, h) !in e.calls
  {
    if ctx.forceSsl.Some? {
      var force := ctx.forceSsl.value;
      var step := SslStep(ctx, force);
      forall i | 0 <= i < |order| {
        SslOneItems(ctx, force, order[i], h, f);
      }
      if h in order {
        var i :| 0 <= i < |order| && order[i] == h;
      }
      EachNotes(order, step, LoadingCertificate(h));
      EachNotes(order, step, ForceSslChanging(h, f));
      EachNotes(order, step, CertificateWarning(h));
      EachNotes(order, step, ForceSslWarning(h));
      EachCalls(order, step, AddHostname(ctx.zoneId, h));
      EachCalls(order, step, LoadCertificate(h));
      EachCalls(order, step, SetForceSsl(ctx.zoneId, h, f));
      EachCalls(order, step, RemoveHostname(ctx.zoneId, h));
    }
  }

  /**
   * The last loop, for one value: it writes neither certificate nor Force SSL notes, and a
   * live run removes the value exactly when a current entry nobody wants holds it.
   */
  lemma RemovePhaseItems(ctx: Ctx, wantedLower: set<string>, h: string, f: bool)
    ensures var e := Each(ctx.current, RemoveStep(ctx, wantedLower));
      && LoadingCertificate(h) !in e.notes
      && ForceSslChanging(h, f) !in e.notes
      && CertificateWarning(h) !in e.notes
      && ForceSslWarning(h) !in e.notes
      && AddHostname(ctx.zoneId, h) !in e.calls
      && LoadCertificate(h) !in e.calls
      && SetForceSsl(ctx.zoneId, h, f) !in e.calls
      && (RemoveHostname(ctx.zoneId, h) in e.calls <==>
            !ctx.dryRun && exists i :: 0 <= i < |ctx.current| && ctx.current[i].0 !in wantedLower && ctx.current[i].1.value == h)
  {
    var step := RemoveStep(ctx, wantedLower);
    EachNotes(ctx.current, step, LoadingCertificate(h));
    EachNotes(ctx.current, step, ForceSslChanging(h, f));
    EachNotes(ctx.current, step, CertificateWarning(h));
    EachNotes(ctx.current, step, ForceSslWarning(h));
    EachCalls(ctx.current, step, AddHostname(ctx.zoneId, h));
    EachCalls(ctx.current, step, LoadCertificate(h));
    EachCalls(ctx.current, step, SetForceSsl(ctx.zoneId, h, f));
    EachCalls(ctx.current, step, RemoveHostname(ctx.zoneId, h));
  }

  /**
   * The four hostname loops together, for one hostname `h` of the order: the loading note
   * for a listed `h` without a certificate, the change note for a listed `h` whose Force
   * SSL differs, and in a live run a warning for each certificate load or Force SSL call
   * on `h` that fails, beside the calls that add, certify, set Force SSL on and remove it.
   */
  lemma HostnameItems(ctx: Ctx, order: seq<string>, wantedLower: set<string>, h: string, f: bool)
    ensures var e := HostnameEffects(ctx, order, wantedLower);
      var live := !ctx.dryRun && h in order;
      && (LoadingCertificate(h) in e.notes <==> h in order && ListedUncertified(ctx, h))
      && (ForceSslChanging(h, f) in e.notes <==> h in order && ctx.forceSsl == Some(f) && ListedDiffers(ctx, h, f))
      && (CertificateWarning(h) in e.notes <==> live && Uncertified(ctx, h) && !ctx.loadsCertificate(h))
      && (ForceSslWarning(h) in e.notes <==>
            live && ctx.forceSsl.Some? && SslWanted(ctx, h, ctx.forceSsl.value) && !ctx.setsForceSsl(h))
      && (AddHostname(ctx.zoneId, h) in e.calls <==> live && Lookup(ctx.current, Lower(h)).None?)
      && (LoadCertificate(h) in e.calls <==> live && Uncertified(ctx, h))
      && (SetForceSsl(ctx.zoneId, h, f) in e.calls <==> live && SslWanted(ctx, h, f))
      && (RemoveHostname(ctx.zoneId, h) in e.calls <==>
            !ctx.dryRun && exists i :: 0 <= i < |ctx.current| && ctx.current[i].0 !in wantedLower && ctx.current[i].1.value == h)
  {
    var adds := Each(order, AddStep(ctx));
    var retries := Each(order, RetryStep(ctx));
    var ssl := SslPhase(ctx, order);
    var removes := Each(ctx.current, RemoveStep(ctx, wantedLower));
    assert HostnameEffects(ctx, order, wantedLower).notes == adds.notes + retries.notes + ssl.notes + removes.notes;
    assert HostnameEffects(ctx, order, wantedLower).calls == adds.calls + retries.calls + ssl.calls + removes.calls;
    AddPhaseItems(ctx, order, h, f);
    RetryPhaseItems(ctx, order, h, f);
    SslPhaseItems(ctx, order, h, f);
    RemovePhaseItems(ctx, wantedLower, h, f);
    if ctx.forceSsl.Some? {
      SslPhaseItems(ctx, order, h, ctx.forceSsl.value);
    }
  }

  /** The notes about the zone itself are about its creation or its settings, never about a hostname. */
  lemma ZoneNotesAreZoneLevel(name: string, cfg: ZoneConfig, listed: Option<PullZone>)
    ensures forall n :: n in ZoneNotes(name, cfg, listed) ==>
      n.CreatingZone? || n.UpdatingOriginUrl? || n.UpdatingOriginHostHeader? || n.UpdatingZoneType? || n.UpdatingRegions?
  {
    if listed.Some? {
      var z := listed.value;
      assert UpdateNotes(z, cfg) == OriginUrlNote(z, cfg) + HostHeaderNote(z, cfg) + ZoneTypeNote(z, cfg) + RegionsNote(z, cfg);
    }
  }

  /**
   * A desired hostname whose current entry has no certificate is reported as loading one,
   * and no other hostname is; a dry run reports no certificate warning.
   */
  lemma CertificateNotes(name: string, cfg: ZoneConfig, dryRun: bool, replies: Replies, order: seq<string>, h: string)
    requires IsOrderOf(order, DesiredHostnames(cfg))
    ensures var zone := ZoneAfter(name, cfg, dryRun, replies);
      var changes := Planned(name, cfg, dryRun, replies, order).report.changes;
      && (LoadingCertificate(h) in changes <==>
            zone.Some? && h in DesiredHostnames(cfg) && ListedUncertified(ContextOf(zone.value, cfg, dryRun, replies), h))
      && (dryRun ==> CertificateWarning(h) !in changes)
  {
    var listed := Listed(name, replies);
    ZoneNotesAreZoneLevel(name, cfg, listed);
    match ZoneAfter(name, cfg, dryRun, replies)
    case None =>
      assert Planned(name, cfg, dryRun, replies, order).report.changes == ZoneNotes(name, cfg, listed) + AddingNotes(order);
    case Some(zone) =>
      var ctx := ContextOf(zone, cfg, dryRun, replies);
      var e := HostnameEffects(ctx, order, WantedLower(cfg));
      assert Planned(name, cfg, dryRun, replies, order).report.changes == ZoneNotes(name, cfg, listed) + e.notes;
      HostnameItems(ctx, order, WantedLower(cfg), h, false);
  }

  /**
   * A desired hostname whose current Force SSL differs from the configured value is
   * reported as changing to it, and no other hostname is; a dry run reports no Force SSL
   * warning.
   */
  lemma ForceSslNotes(name: string, cfg: ZoneConfig, dryRun: bool, replies: Replies, order: seq<string>, h: string, f: bool)
    requires IsOrderOf(order, DesiredHostnames(cfg))
    ensures var zone := ZoneAfter(name, cfg, dryRun, replies);
      var changes := Planned(name, cfg, dryRun, replies, order).report.changes;
      && (ForceSslChanging(h, f) in changes <==>
            && zone.Some? && h in DesiredHostnames(cfg) && cfg.forceSsl == Some(f)
            && ListedDiffers(ContextOf(zone.value, cfg, dryRun, replies), h, f))
      && (dryRun ==> ForceSslWarning(h) !in changes)
  {
    var listed := Listed(name, replies);
    ZoneNotesAreZoneLevel(name, cfg, listed);
    match ZoneAfter(name, cfg, dryRun, replies)
    case None =>
      assert Planned(name, cfg, dryRun, replies, order).report.changes == ZoneNotes(name, cfg, listed) + AddingNotes(order);
    case Some(zone) =>
      var ctx := ContextOf(zone, cfg, dryRun, replies);
      var e := HostnameEffects(ctx, order, WantedLower(cfg));
      assert Planned(name, cfg, dryRun, replies, order).report.changes == ZoneNotes(name, cfg, listed) + e.notes;
      HostnameItems(ctx, order, WantedLower(cfg), h, f);
  }

  /**
   * In a live run a warning about a hostname's certificate is reported exactly when its
   * certificate is loaded and the load fails, and one about its Force SSL exactly when
   * Force SSL is set on it and the call fails.
   */
  lemma LiveWarnings(name: string, cfg: ZoneConfig, replies: Replies, order: seq<string>, h: string)
    requires IsOrderOf(order, DesiredHostnames(cfg))
    ensures var zone := ZoneAfter(name, cfg, false, replies).value;
      var p := Planned(name, cfg, false, replies, order);
      && (CertificateWarning(h) in p.report.changes <==> LoadCertificate(h) in p.calls && !replies.loadsCertificate(h))
      && (ForceSslWarning(h) in p.report.changes <==>
            cfg.forceSsl.Some? && SetForceSsl(zone.id, h, cfg.forceSsl.value) in p.calls && !replies.setsForceSsl(h))
  {
    var listed := Listed(name, replies);
    var zone := ZoneAfter(name, cfg, false, replies).value;
    var ctx := ContextOf(zone, cfg, false, replies);
    var e := HostnameEffects(ctx, order, WantedLower(cfg));
    var p := Planned(name, cfg, false, replies, order);
    ZoneNotesAreZoneLevel(name, cfg, listed);
    assert p.report.changes == ZoneNotes(name, cfg, listed) + e.notes;
    assert p.calls == ZoneCalls(name, cfg, listed) + e.calls;
    HostnameItems(ctx, order, WantedLower(cfg), h, false);
    if cfg.forceSsl.Some? {
      HostnameItems(ctx, order, WantedLower(cfg), h, cfg.forceSsl.value);
    }
  }

  /**
   * In a live run every hostname reported added has its add and certificate calls, every
   * desired hostname without a certificate has its load call, every desired hostname
   * lacking the configured Force SSL has its Force SSL call, and every value reported
   * removed has its remove call; and no such call is issued otherwise.
   */
  lemma LiveCallsIssued(name: string, cfg: ZoneConfig, replies: Replies, order: seq<string>, h: string, f: bool)
    requires IsOrderOf(order, DesiredHostnames(cfg))
    ensures var zone := ZoneAfter(name, cfg, false, replies).value;
      var ctx := ContextOf(zone, cfg, false, replies);
      var p := Planned(name, cfg, false, replies, order);
      && (AddHostname(zone.id, h) in p.calls <==> h in p.report.added)
      && (h in p.report.added ==> LoadCertificate(h) in p.calls)
      && (LoadCertificate(h) in p.calls <==> h in DesiredHostnames(cfg) && Uncertified(ctx, h))
      && (SetForceSsl(zone.id, h, f) in p.calls <==> h in DesiredHostnames(cfg) && SslWanted(ctx, h, f))
      && (RemoveHostname(zone.id, h) in p.calls <==> h in p.report.removed)
  {
    var listed := Listed(name, replies);
    var zone := ZoneAfter(name, cfg, false, replies).value;
    var ctx := ContextOf(zone, cfg, false, replies);
    var wl := WantedLower(cfg);
    var e := HostnameEffects(ctx, order, wl);
    var p := Planned(name, cfg, false, replies, order);
    assert p.calls == ZoneCalls(name, cfg, listed) + e.calls;
    assert p.report.added == e.added && p.report.removed == e.removed;
    HostnameItems(ctx, order, wl, h, f);
    HostnameEffectsAdded(ctx, order, wl);
    AddPhaseFields(ctx, order);
    RetryPhaseFields(ctx, order);
    SslPhaseFields(ctx, order);
    assert e.removed == [] + [] + [] + Each(ctx.current, RemoveStep(ctx, wl)).removed;
    RemovePhaseRemoved(ctx, wl, h);
  }

  /** The hostname loops of a dry run add and remove the same hostnames as a live run on that zone. */
  lemma HostnameListingSameWhenDry(ctx: Ctx, order: seq<string>, wantedLower: set<string>)
    ensures var dry, live := ctx.(dryRun := true), ctx.(dryRun := false);
      && HostnameEffects(dry, order, wantedLower).added == HostnameEffects(live, order, wantedLower).added
      && HostnameEffects(dry, order, wantedLower).removed == HostnameEffects(live, order, wantedLower).removed
  {
    var dry, live := ctx.(dryRun := true), ctx.(dryRun := false);
    forall i | 0 <= i < |order|
      ensures AddStep(dry)(order[i]).added == AddStep(live)(order[i]).added
      ensures AddStep(dry)(order[i]).removed == AddStep(live)(order[i]).removed
    {
    }
    EachSameListing(order, AddStep(dry), AddStep(live));
    forall i | 0 <= i < |ctx.current|
      ensures RemoveStep(dry, wantedLower)(ctx.current[i]).added == RemoveStep(live, wantedLower)(ctx.current[i]).added
      ensures RemoveStep(dry, wantedLower)(ctx.current[i]).removed == RemoveStep(live, wantedLower)(ctx.current[i]).removed
    {
    }
    EachSameListing(ctx.current, RemoveStep(dry, wantedLower), RemoveStep(live, wantedLower));
    RetryPhaseFields(dry, order);
    RetryPhaseFields(live, order);
    SslPhaseFields(dry, order);
    SslPhaseFields(live, order);
  }

  /**
   * On a listed zone that needs no update, a dry run reports the same zone flags and
   * the same added and removed hostnames as a live run.
   */
  lemma DryRunMatchesLive(name: string, cfg: ZoneConfig, replies: Replies, order: seq<string>)
    requires Listed(name, replies).Some? && !NeedsZoneUpdate(Listed(name, replies).value, cfg)
    ensures var dry := Planned(name, cfg, true, replies, order).report;
      var live := Planned(name, cfg, false, replies, order).report;
      && dry.created == live.created && dry.updated == live.updated
      && dry.added == live.added && dry.removed == live.removed
  {
    var zone := Listed(name, replies).value;
    HostnameListingSameWhenDry(ContextOf(zone, cfg, true, replies), order, WantedLower(cfg));
  }

  /**
   * A zone that already matches its configuration: settings equal, every desired
   * hostname present with a certificate and the configured Force SSL, and no other
   * non-system hostname.
   */
  predicate Converged(zone: PullZone, cfg: ZoneConfig) {
    var cur := CurrentHostnames(zone.hostnames);
    && !NeedsZoneUpdate(zone, cfg)
    && (forall h :: h in DesiredHostnames(cfg) ==>
          match Lookup(cur, Lower(h))
          case None => false
          case Some(obj) => obj.hasCertificate && (cfg.forceSsl.None? || obj.forceSsl == cfg.forceSsl.value))
    && forall i :: 0 <= i < |cur| ==> cur[i].0 in WantedLower(cfg)
  }

  /** Each loop over a converged zone does nothing. */
  lemma ConvergedPhasesQuiet(ctx: Ctx, order: seq<string>, wantedLower: set<string>)
    requires forall h :: h in order ==>
      match Lookup(ctx.current, Lower(h))
      case None => false
      case Some(obj) => obj.hasCertificate && (ctx.forceSsl.None? || obj.forceSsl == ctx.forceSsl.value)
    requires forall i :: 0 <= i < |ctx.current| ==> ctx.current[i].0 in wantedLower
    ensures HostnameEffects(ctx, order, wantedLower) == NoEffects
  {
    forall i | 0 <= i < |order|
      ensures AddStep(ctx)(order[i]) == NoEffects && RetryStep(ctx)(order[i]) == NoEffects
    {
      assert order[i] in order;
    }
    EachEmptyFields(order, AddStep(ctx));
    EachEmptyFields(order, RetryStep(ctx));
    if ctx.forceSsl.Some? {
      var f := ctx.forceSsl.value;
      forall i | 0 <= i < |order| ensures SslStep(ctx, f)(order[i]) == NoEffects {
        assert order[i] in order;
      }
      EachEmptyFields(order, SslStep(ctx, f));
    }
    EachEmptyFields(ctx.current, RemoveStep(ctx, wantedLower));
  }

  /** Reconciling a zone that already matches its configuration changes nothing and calls nothing. */
  lemma ConvergedZoneIsQuiet(name: string, cfg: ZoneConfig, dryRun: bool, replies: Replies, order: seq<string>)
    requires IsOrderOf(order, DesiredHostnames(cfg))
    requires Listed(name, replies).Some? && Converged(Listed(name, replies).value, cfg)
    ensures var sync := Planned(name, cfg, dryRun, replies, order);
      && !sync.report.created && !sync.report.updated
      && sync.report.added == [] && sync.report.removed == [] && sync.report.certs == []
      && sync.report.changes == [] && sync.calls == []
  {
    var zone := Listed(name, replies).value;
    ConvergedPhasesQuiet(ContextOf(zone, cfg, dryRun, replies), order, WantedLower(cfg));
  }
}
