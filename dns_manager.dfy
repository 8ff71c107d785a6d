/**
 * DNS records and the zone reconciler of bunny_dns/dns_manager.py.
 *
 * The remote side is what the provider lists (zones with their records, as wire
 * data) plus its reply to a zone-creation call; the reconciler returns its report
 * and the list of mutating calls it issued, in order.
 */
module DnsManager {
  import opened Wrappers
  import opened Text
  import opened Dicts
  import opened Scan

  /** `DNS_RECORD_TYPES`: record type name to the provider's numeric code. */
  const RecordTypes: Dict<string, int> := [
    ("A", 0), ("AAAA", 1), ("CNAME", 2), ("TXT", 3), ("MX", 4), ("RDR", 5),
    ("PZ", 7), ("SRV", 8), ("CAA", 9), ("PTR", 10), ("SCR", 11), ("NS", 12)]

  /** `DNS_RECORD_TYPES_REVERSE`: the same table read from code to name. */
  const RecordTypesReverse: Dict<int, string> := Swap(RecordTypes)

  /** A name the table knows. */
  predicate KnownType(name: string) {
    Lookup(RecordTypes, name).Some?
  }

  /** The two tables are mutual inverses. */
  lemma TypeTablesInverse()
    ensures forall name :: Lookup(RecordTypes, name).Some? ==>
      Lookup(RecordTypesReverse, Lookup(RecordTypes, name).value) == Some(name)
    ensures forall code :: Lookup(RecordTypesReverse, code).Some? ==>
      Lookup(RecordTypes, Lookup(RecordTypesReverse, code).value) == Some(code)
  {
    forall i, j | 0 <= i < j < |RecordTypes|
      ensures RecordTypes[i].0 != RecordTypes[j].0 && RecordTypes[i].1 != RecordTypes[j].1
    {
      var a, b := RecordTypes[i].0, RecordTypes[j].0;
      assert |a| != |b| || a[0] != b[0] || a[1] != b[1];
    }
    SwapInverse(RecordTypes);
  }

  /** `DNSRecord`. */
  datatype DnsRecord = DnsRecord(
    recordType: string, name: string, value: string, ttl: int,
    priority: Option<int>, weight: Option<int>, port: Option<int>,
    id: Option<int>)

  /** A record as JSON on the wire; `None` is a key that is absent. */
  datatype RecordWire = RecordWire(
    id: Option<int>, typeCode: Option<int>, name: Option<string>, value: Option<string>, ttl: Option<int>,
    priority: Option<int>, weight: Option<int>, port: Option<int>)

  /** The raising `DNS_RECORD_TYPES[...]` lookup of `to_api_payload`, made explicit. */
  datatype DnsError = UnknownRecordType(recordType: string)

  /** `to_api_payload`: `None` where the upper-cased type is not in the table (a KeyError). */
  function ToApiPayload(r: DnsRecord): (p: Option<RecordWire>)
    ensures p.Some? <==> KnownType(Upper(r.recordType))
    ensures p.Some? ==> p.value.typeCode == Lookup(RecordTypes, Upper(r.recordType))
  {
    var t := Upper(r.recordType);
    if Lookup(RecordTypes, t).None? then None
    else Some(RecordWire(None, Some(Lookup(RecordTypes, t).value), Some(r.name), Some(r.value), Some(r.ttl),
                         r.priority, r.weight, r.port))
  }

  /** `from_api_response`: absent keys take their defaults, an unknown type code reads as "A". */
  function FromApiResponse(w: RecordWire): (r: DnsRecord)
    ensures r.recordType == Get(RecordTypesReverse, w.typeCode.GetOr(0), "A")
  {
    var code := w.typeCode.GetOr(0);
    DnsRecord(
      Get(RecordTypesReverse, code, "A"),
      w.name.GetOr(""), w.value.GetOr(""), w.ttl.GetOr(300),
      w.priority, w.weight, w.port, w.id)
  }

  /** Decoding what was encoded gives the record back, with its type upper-cased and no id. */
  lemma PayloadRoundTrip(r: DnsRecord)
    requires KnownType(Upper(r.recordType))
    ensures ToApiPayload(r).Some?
    ensures FromApiResponse(ToApiPayload(r).value) == r.(recordType := Upper(r.recordType), id := None)
  {
    TypeTablesInverse();
  }

  /** An unknown or absent type code decodes to "A". */
  lemma UnknownTypeDecodesToA(w: RecordWire)
    requires w.typeCode.None? || Lookup(RecordTypesReverse, w.typeCode.value).None?
    ensures FromApiResponse(w).recordType == "A"
  {
    assert RecordTypesReverse[0] == (0, "A");
  }

  /** Every decoded record carries a type the forward table knows. */
  lemma DecodedTypeIsKnown(w: RecordWire)
    ensures KnownType(FromApiResponse(w).recordType)
  {
    TypeTablesInverse();
    assert RecordTypes[0] == ("A", 0);
  }

  /** `ipaddress.IPv6Address(v)` rendered back with `str`: `None` where parsing raises. */
  type Canonicaliser = string -> Option<string>

  /** `_normalize_name`: lower-case, strip, and read "@" as the root "". */
  function NormalizeName(name: string): string {
    var n := Strip(Lower(name));
    if n == "@" then "" else n
  }

  /** `_normalize_value`: AAAA values compare in canonical form, or raw where they do not parse. */
  function NormalizeValue(value: string, recordType: string, canon: Canonicaliser): string {
    if Upper(recordType) == "AAAA" then canon(value).GetOr(value) else value
  }

  /** `matches`: same type ignoring case, same normalised name, same normalised value. */
  predicate Matches(a: DnsRecord, b: DnsRecord, canon: Canonicaliser) {
    && Upper(a.recordType) == Upper(b.recordType)
    && NormalizeName(a.name) == NormalizeName(b.name)
    && NormalizeValue(a.value, a.recordType, canon) == NormalizeValue(b.value, b.recordType, canon)
  }

  /** `_normalize_optional`: an absent number counts as 0. */
  function NormalizeOptional(v: Option<int>): int {
    v.GetOr(0)
  }

  /** `needs_update`: the records match but ttl, priority, weight or port differ. */
  predicate NeedsUpdate(a: DnsRecord, b: DnsRecord, canon: Canonicaliser) {
    && Matches(a, b, canon)
    && (|| a.ttl != b.ttl
        || NormalizeOptional(a.priority) != NormalizeOptional(b.priority)
        || NormalizeOptional(a.weight) != NormalizeOptional(b.weight)
        || NormalizeOptional(a.port) != NormalizeOptional(b.port))
  }

  /** "@", " @ " and "" all name the root. */
  lemma RootNames()
    ensures NormalizeName("@") == "" && NormalizeName(" @ ") == "" && NormalizeName("") == ""
    ensures NormalizeName("@") == NormalizeName("")
  {
    var at := "@";
    assert Lower(at) == at;
    assert !IsSpace('@');
    assert TrimLeft(at) == at;
    assert TrimRight(at) == at;
    var padded := " @ ";
    assert Lower(padded) == padded by {
      LowerNoCapitals(padded);
    }
    assert IsSpace(' ');
    assert padded[1..] == "@ ";
    assert TrimLeft(padded) == TrimLeft("@ ") == "@ ";
    assert "@ "[..1] == at;
    assert TrimRight("@ ") == TrimRight(at);
  }

  /** A normalised name carries no ASCII capital, no surrounding whitespace, and is never "@". */
  lemma NormalizeNameShape(name: string)
    ensures var n := NormalizeName(name);
      && n != "@"
      && (forall i :: 0 <= i < |n| ==> !('A' <= n[i] <= 'Z'))
      && (n == [] || (!IsSpace(n[0]) && !IsSpace(n[|n| - 1])))
  {
    var l := Lower(name);
    var s := Strip(l);
    LowerAt(name);
    StripIsSlice(l);
    StripEnds(l);
    var i := |l| - |TrimLeft(l)|;
    forall k | 0 <= k < |s|
      ensures !('A' <= s[k] <= 'Z')
    {
      assert s[k] == l[i + k] == LowerChar(name[i + k]);
    }
  }

  /** Normalising a name twice changes nothing. */
  lemma NormalizeNameIdempotent(name: string)
    ensures NormalizeName(NormalizeName(name)) == NormalizeName(name)
  {
    var n := NormalizeName(name);
    NormalizeNameShape(name);
    LowerNoCapitals(n);
    StripStable(n);
  }

  /** `matches` is an equivalence: reflexive, symmetric and transitive. */
  lemma MatchesIsEquivalence(a: DnsRecord, b: DnsRecord, c: DnsRecord, canon: Canonicaliser)
    ensures Matches(a, a, canon)
    ensures Matches(a, b, canon) <==> Matches(b, a, canon)
    ensures Matches(a, b, canon) && Matches(b, c, canon) ==> Matches(a, c, canon)
  {
  }

  /**
   * `needs_update` is never true of records that do not match; of records that do,
   * it is true exactly when ttl differs or a numeric field differs with absent read as 0.
   */
  lemma NeedsUpdateIff(a: DnsRecord, b: DnsRecord, canon: Canonicaliser)
    ensures !Matches(a, b, canon) ==> !NeedsUpdate(a, b, canon)
    ensures Matches(a, b, canon) ==>
      (NeedsUpdate(a, b, canon) <==>
        || a.ttl != b.ttl
        || a.priority.GetOr(0) != b.priority.GetOr(0)
        || a.weight.GetOr(0) != b.weight.GetOr(0)
        || a.port.GetOr(0) != b.port.GetOr(0))
  {
  }

  /** Absent and 0 priority, weight and port are the same for update detection. */
  lemma AbsentIsZero(a: DnsRecord, canon: Canonicaliser)
    requires a.priority in {None, Some(0)} && a.weight in {None, Some(0)} && a.port in {None, Some(0)}
    ensures !NeedsUpdate(a, a.(priority := Some(0), weight := Some(0), port := Some(0)), canon)
    ensures !NeedsUpdate(a, a.(priority := None, weight := None, port := None), canon)
  {
  }

  /** `needs_update` is symmetric, so the reconciler's `current.needs_update(desired)` is the same test. */
  lemma NeedsUpdateSymmetric(a: DnsRecord, b: DnsRecord, canon: Canonicaliser)
    ensures NeedsUpdate(a, b, canon) <==> NeedsUpdate(b, a, canon)
  {
  }

  /** Two AAAA values with the same canonical form match, whatever their textual form. */
  lemma Ipv6FormsMatch(a: DnsRecord, b: DnsRecord, canon: Canonicaliser)
    requires Upper(a.recordType) == "AAAA" && Upper(b.recordType) == "AAAA"
    requires NormalizeName(a.name) == NormalizeName(b.name)
    requires canon(a.value).Some? && canon(a.value) == canon(b.value)
    ensures Matches(a, b, canon)
  {
  }

  /** `DNSZone`. */
  datatype DnsZone = DnsZone(domain: string, id: Option<int>, records: seq<DnsRecord>)

  datatype ZoneWire = ZoneWire(id: Option<int>, domain: Option<string>, records: Option<seq<RecordWire>>)

  /** `DNSZone.from_api_response`. */
  function ZoneFromApiResponse(w: ZoneWire): (z: DnsZone)
    ensures z.id == w.id && z.domain == w.domain.GetOr("")
    ensures |z.records| == |w.records.GetOr([])|
    ensures forall i :: 0 <= i < |z.records| ==> z.records[i] == FromApiResponse(w.records.GetOr([])[i])
  {
    var rs := w.records.GetOr([]);
    DnsZone(w.domain.GetOr(""), w.id, seq(|rs|, i requires 0 <= i < |rs| => FromApiResponse(rs[i])))
  }

  predicate SameDomain(w: ZoneWire, domain: string) {
    Lower(w.domain.GetOr("")) == Lower(domain)
  }

  /**
   * `get_zone_by_domain`: the first listed zone whose domain equals `domain` ignoring
   * case, fetched again by its id (`get_zone`) so that its records are present.
   * `fetch` is the reply of the by-id request for each id.
   */
  function GetZoneByDomain(zones: seq<ZoneWire>, domain: string, fetch: Option<int> -> ZoneWire): (z: Option<DnsZone>)
    ensures z.None? <==> forall i :: 0 <= i < |zones| ==> !SameDomain(zones[i], domain)
    ensures z.Some? ==> exists i :: (0 <= i < |zones| && SameDomain(zones[i], domain)
      && z.value == ZoneFromApiResponse(fetch(zones[i].id))
      && forall k :: 0 <= k < i ==> !SameDomain(zones[k], domain))
  {
    if zones == [] then None
    else if SameDomain(zones[0], domain) then Some(ZoneFromApiResponse(fetch(zones[0].id)))
    else
      var rest := GetZoneByDomain(zones[1..], domain, fetch);
      assert forall i :: 1 <= i < |zones| ==> zones[i] == zones[1..][i - 1];
      rest
  }

  /** One desired record as the configuration writes it. */
  datatype RecordConfig = RecordConfig(
    recordType: string, name: string, value: string, ttl: Option<int>,
    priority: Option<int>, weight: Option<int>, port: Option<int>)

  /** The conversion of a configured record at the start of the reconciler: ttl defaults to 300. */
  function FromConfig(c: RecordConfig): DnsRecord {
    DnsRecord(c.recordType, c.name, c.value, c.ttl.GetOr(300), c.priority, c.weight, c.port, None)
  }

  function DesiredRecords(cs: seq<RecordConfig>): (ds: seq<DnsRecord>)
    ensures |ds| == |cs| && forall i :: 0 <= i < |cs| ==> ds[i] == FromConfig(cs[i])
  {
    seq(|cs|, i requires 0 <= i < |cs| => FromConfig(cs[i]))
  }

  /** The report line `"<type> <name> -> <value>"`. */
  function Describe(recordType: string, name: string, value: string): string {
    recordType + " " + name + " -> " + value
  }

  function RecordDesc(r: DnsRecord): string {
    Describe(r.recordType, r.name, r.value)
  }

  function ConfigDesc(c: RecordConfig): string {
    Describe(c.recordType, c.name, c.value)
  }

  /** The mutating calls the reconciler can issue. */
  datatype DnsCall =
    | CreateZone(domain: string)
    | AddRecord(zoneId: Option<int>, payload: RecordWire)
    | UpdateRecord(zoneId: Option<int>, recordId: Option<int>, payload: RecordWire)
    | DeleteRecord(zoneId: Option<int>, recordId: Option<int>)

  /** The report `sync_zone` returns; `kept` is its `unchanged` list. */
  datatype DnsReport = DnsReport(
    zone: string, created: seq<string>, updated: seq<string>, deleted: seq<string>,
    kept: seq<string>, zoneCreated: bool)

  /**
   * The two record comparisons the reconciler uses, `matches` and `needs_update`. The
   * reconciler's specification is written against any such pair; `RecordComparator`
   * is the pair `DNSRecord` defines.
   */
  datatype Comparator = Comparator(matches: (DnsRecord, DnsRecord) -> bool, needsUpdate: (DnsRecord, DnsRecord) -> bool)

  function RecordComparator(canon: Canonicaliser): (cmp: Comparator)
    ensures forall a, b :: cmp.matches(a, b) == Matches(a, b, canon)
    ensures forall a, b :: cmp.needsUpdate(a, b) == NeedsUpdate(a, b, canon)
  {
    Comparator((a, b) => Matches(a, b, canon), (a, b) => NeedsUpdate(a, b, canon))
  }

  /** The test the inner loop applies to each current record. */
  function MatchTest(d: DnsRecord, cmp: Comparator): DnsRecord -> bool {
    c => cmp.matches(d, c)
  }

  /** The index of the first current record, in listing order, that the desired record matches. */
  function FirstMatch(d: DnsRecord, current: seq<DnsRecord>, cmp: Comparator): (r: Option<nat>)
    ensures r.Some? ==> r.value < |current|
  {
    First(MatchTest(d, cmp), current)
  }

  /**
   * The first match is a matching record with no matching record before it, and there
   * is none exactly when no current record matches.
   */
  lemma FirstMatchSpec(d: DnsRecord, current: seq<DnsRecord>, cmp: Comparator)
    ensures var r := FirstMatch(d, current, cmp);
      && (r.Some? ==> cmp.matches(d, current[r.value]))
      && (r.Some? ==> forall k :: 0 <= k < r.value ==> !cmp.matches(d, current[k]))
      && (r.None? <==> forall k :: 0 <= k < |current| ==> !cmp.matches(d, current[k]))
  {
    FirstSpec(MatchTest(d, cmp), current);
  }

  /** A matching record with no matching record before it is the first match. */
  lemma FirstMatchAt(d: DnsRecord, current: seq<DnsRecord>, j: nat, cmp: Comparator)
    requires j < |current| && cmp.matches(d, current[j])
    requires forall k :: 0 <= k < j ==> !cmp.matches(d, current[k])
    ensures FirstMatch(d, current, cmp) == Some(j)
  {
    FirstIsUnique(MatchTest(d, cmp), current, j);
  }

  /** How the reconciler judges one desired record. */
  datatype Verdict = Create | Update(at: nat) | Keep(at: nat)

  /** The verdict on `d`: judged only against its first matching current record. */
  function Judge(d: DnsRecord, current: seq<DnsRecord>, cmp: Comparator): (v: Verdict)
    ensures v.Create? <==> FirstMatch(d, current, cmp).None?
    ensures !v.Create? ==> v.at < |current| && FirstMatch(d, current, cmp) == Some(v.at)
  {
    match FirstMatch(d, current, cmp)
    case None => Create
    case Some(j) => if cmp.needsUpdate(current[j], d) then Update(j) else Keep(j)
  }

  /**
   * A desired record is created when no current record matches it; otherwise it is
   * updated or kept according to whether its first match needs an update, and later
   * matching records play no part.
   */
  lemma JudgeSpec(d: DnsRecord, current: seq<DnsRecord>, cmp: Comparator)
    ensures Judge(d, current, cmp).Create? <==> forall k :: 0 <= k < |current| ==> !cmp.matches(d, current[k])
    ensures forall j :: 0 <= j < |current| && cmp.matches(d, current[j])
                        && (forall k :: 0 <= k < j ==> !cmp.matches(d, current[k])) ==>
      Judge(d, current, cmp) == (if cmp.needsUpdate(current[j], d) then Update(j) else Keep(j))
  {
    FirstMatchSpec(d, current, cmp);
    forall j | 0 <= j < |current| && cmp.matches(d, current[j])
               && (forall k :: 0 <= k < j ==> !cmp.matches(d, current[k]))
      ensures FirstMatch(d, current, cmp) == Some(j)
    {
      FirstMatchAt(d, current, j, cmp);
    }
  }

  /** The three report lists and the set of consumed current ids, after judging `ds` in order. */
  datatype Tally = Tally(created: seq<string>, updated: seq<string>, kept: seq<string>, matched: set<Option<int>>)

  /** What judging one more desired record adds to the tally. */
  function Tallied(t: Tally, d: DnsRecord, current: seq<DnsRecord>, cmp: Comparator): (u: Tally)
    ensures |u.created| + |u.updated| + |u.kept| == |t.created| + |t.updated| + |t.kept| + 1
  {
    match Judge(d, current, cmp)
    case Create => t.(created := t.created + [RecordDesc(d)])
    case Update(j) => t.(updated := t.updated + [RecordDesc(d)], matched := t.matched + {current[j].id})
    case Keep(j) => t.(kept := t.kept + [RecordDesc(d)], matched := t.matched + {current[j].id})
  }

  function Classify(ds: seq<DnsRecord>, current: seq<DnsRecord>, cmp: Comparator): Tally
    decreases |ds|
  {
    if ds == [] then Tally([], [], [], {})
    else Tallied(Classify(ds[..|ds| - 1], current, cmp), ds[|ds| - 1], current, cmp)
  }

  /** The report lines of the current records whose id was never consumed, in listing order. */
  function DeletedDescs(current: seq<DnsRecord>, matched: set<Option<int>>): seq<string>
    decreases |current|
  {
    if current == [] then []
    else
      var c := current[|current| - 1];
      DeletedDescs(current[..|current| - 1], matched) + (if c.id in matched then [] else [RecordDesc(c)])
  }

  function DeleteCalls(zoneId: Option<int>, current: seq<DnsRecord>, matched: set<Option<int>>): seq<DnsCall>
    decreases |current|
  {
    if current == [] then []
    else
      var c := current[|current| - 1];
      DeleteCalls(zoneId, current[..|current| - 1], matched) + (if c.id in matched then [] else [DeleteRecord(zoneId, c.id)])
  }

  /** The mutating call a live run issues for one desired record, or the KeyError of its payload. */
  function CallFor(zoneId: Option<int>, d: DnsRecord, current: seq<DnsRecord>, cmp: Comparator): Result<seq<DnsCall>, DnsError> {
    match Judge(d, current, cmp)
    case Keep(_) => Success([])
    case Create =>
      (match ToApiPayload(d)
       case None => Failure(UnknownRecordType(d.recordType))
       case Some(p) => Success([AddRecord(zoneId, p)]))
    case Update(j) =>
      var id := current[j].id;
      (match ToApiPayload(d.(id := id))
       case None => Failure(UnknownRecordType(d.recordType))
       case Some(p) => Success([UpdateRecord(zoneId, id, p.(id := id))]))
  }

  /** The calls issued for the desired records in order, up to the first one that raises. */
  datatype Issued = Issued(calls: seq<DnsCall>, failure: Option<DnsError>)

  function DesiredCalls(zoneId: Option<int>, ds: seq<DnsRecord>, current: seq<DnsRecord>, cmp: Comparator): Issued
    decreases |ds|
  {
    if ds == [] then Issued([], None)
    else
      var prior := DesiredCalls(zoneId, ds[..|ds| - 1], current, cmp);
      if prior.failure.Some? then prior
      else match CallFor(zoneId, ds[|ds| - 1], current, cmp)
        case Success(cs) => Issued(prior.calls + cs, None)
        case Failure(e) => Issued(prior.calls, Some(e))
  }

  /** Judging one more desired record extends the tally and the issued calls by that record's share. */
  lemma PrefixStep(zoneId: Option<int>, ds: seq<DnsRecord>, i: nat, current: seq<DnsRecord>, cmp: Comparator)
    requires i < |ds|
    ensures Classify(ds[..i + 1], current, cmp) == Tallied(Classify(ds[..i], current, cmp), ds[i], current, cmp)
    ensures var prior := DesiredCalls(zoneId, ds[..i], current, cmp);
      DesiredCalls(zoneId, ds[..i + 1], current, cmp) ==
        if prior.failure.Some? then prior
        else match CallFor(zoneId, ds[i], current, cmp)
          case Success(cs) => Issued(prior.calls + cs, None)
          case Failure(e) => Issued(prior.calls, Some(e))
  {
    var pre := ds[..i + 1];
    assert pre[..i] == ds[..i];
    assert pre[|pre| - 1] == ds[i];
  }

  /** Once a desired record has raised, the later ones issue nothing more. */
  lemma {:induction false} FailureSticks(zoneId: Option<int>, ds: seq<DnsRecord>, n: nat, current: seq<DnsRecord>, cmp: Comparator)
    requires n <= |ds|
    requires DesiredCalls(zoneId, ds[..n], current, cmp).failure.Some?
    ensures DesiredCalls(zoneId, ds, current, cmp) == DesiredCalls(zoneId, ds[..n], current, cmp)
    decreases |ds|
  {
    if n < |ds| {
      var init := ds[..|ds| - 1];
      assert init[..n] == ds[..n];
      FailureSticks(zoneId, init, n, current, cmp);
    } else {
      assert ds[..n] == ds;
    }
  }

  /** One desired record raises exactly when it is created or updated and its type is outside the table. */
  lemma CallForFailure(zoneId: Option<int>, d: DnsRecord, current: seq<DnsRecord>, cmp: Comparator)
    ensures CallFor(zoneId, d, current, cmp).Failure? <==>
      !Judge(d, current, cmp).Keep? && !KnownType(Upper(d.recordType))
    ensures CallFor(zoneId, d, current, cmp).Failure? ==>
      CallFor(zoneId, d, current, cmp).error == UnknownRecordType(d.recordType)
  {
  }

  /** The condition under which a desired record raises in a live run. */
  predicate Raises(d: DnsRecord, current: seq<DnsRecord>, cmp: Comparator) {
    !Judge(d, current, cmp).Keep? && !KnownType(Upper(d.recordType))
  }

  function RaiseTest(current: seq<DnsRecord>, cmp: Comparator): DnsRecord -> bool {
    d => Raises(d, current, cmp)
  }

  /** The index of the first desired record that raises, if any. */
  function FirstRaise(ds: seq<DnsRecord>, current: seq<DnsRecord>, cmp: Comparator): (r: Option<nat>)
    ensures r.Some? ==> r.value < |ds|
  {
    First(RaiseTest(current, cmp), ds)
  }

  /** The first raising record raises and no record before it does; none raises when there is none. */
  lemma FirstRaiseSpec(ds: seq<DnsRecord>, current: seq<DnsRecord>, cmp: Comparator)
    ensures var r := FirstRaise(ds, current, cmp);
      && (r.Some? ==> Raises(ds[r.value], current, cmp))
      && (r.Some? ==> forall j :: 0 <= j < r.value ==> !Raises(ds[j], current, cmp))
      && (r.None? <==> forall j :: 0 <= j < |ds| ==> !Raises(ds[j], current, cmp))
  {
    FirstSpec(RaiseTest(current, cmp), ds);
  }

  /**
   * A live run raises exactly at the first desired record that is created or updated
   * with a type outside the table, with the KeyError of that record's type.
   */
  lemma {:induction false} DesiredCallsFailure(zoneId: Option<int>, ds: seq<DnsRecord>, current: seq<DnsRecord>, cmp: Comparator)
    ensures DesiredCalls(zoneId, ds, current, cmp).failure ==
      match FirstRaise(ds, current, cmp)
      case None => None
      case Some(i) => Some(UnknownRecordType(ds[i].recordType))
    decreases |ds|
  {
    if ds != [] {
      var init := ds[..|ds| - 1];
      DesiredCallsFailure(zoneId, init, current, cmp);
      CallForFailure(zoneId, ds[|ds| - 1], current, cmp);
      FirstOfInit(RaiseTest(current, cmp), ds);
      if FirstRaise(init, current, cmp).Some? {
        assert ds[FirstRaise(init, current, cmp).value] == init[FirstRaise(init, current, cmp).value];
      }
    }
  }

  /** Without a raise, a live run issues one add or update per desired record not kept. */
  lemma {:induction false} DesiredCallsCount(zoneId: Option<int>, ds: seq<DnsRecord>, current: seq<DnsRecord>, cmp: Comparator)
    ensures var r := DesiredCalls(zoneId, ds, current, cmp);
      r.failure.None? ==> |r.calls| + |Classify(ds, current, cmp).kept| == |ds|
    decreases |ds|
  {
    if ds != [] {
      var init, last := ds[..|ds| - 1], ds[|ds| - 1];
      DesiredCallsCount(zoneId, init, current, cmp);
      var r := CallFor(zoneId, last, current, cmp);
      var t := Classify(init, current, cmp);
      assert r.Success? ==> |r.value| == if Judge(last, current, cmp).Keep? then 0 else 1;
      assert |Tallied(t, last, current, cmp).kept| == |t.kept| + if Judge(last, current, cmp).Keep? then 1 else 0;
    }
  }

  /** The report for a zone whose current records are `current`, dry or live alike. */
  function PlannedReport(domain: string, ds: seq<DnsRecord>, current: seq<DnsRecord>, deleteExtra: bool,
                         zoneCreated: bool, cmp: Comparator): DnsReport
  {
    var t := Classify(ds, current, cmp);
    DnsReport(domain, t.created, t.updated, if deleteExtra then DeletedDescs(current, t.matched) else [],
              t.kept, zoneCreated)
  }

  function ConfigDescs(cs: seq<RecordConfig>): seq<string>
    decreases |cs|
  {
    if cs == [] then [] else ConfigDescs(cs[..|cs| - 1]) + [ConfigDesc(cs[|cs| - 1])]
  }

  /** The dry-run report for a zone that does not exist: every desired record is "created". */
  function MissingZoneReport(domain: string, cs: seq<RecordConfig>): DnsReport {
    DnsReport(domain, ConfigDescs(cs), [], [], [], true)
  }

  /**
   * Every desired record lands in exactly one of the three lists, the one its verdict
   * names, so their lengths add up to the number of desired records.
   */
  lemma {:induction false} ClassifyPartition(ds: seq<DnsRecord>, current: seq<DnsRecord>, cmp: Comparator)
    ensures var t := Classify(ds, current, cmp); |t.created| + |t.updated| + |t.kept| == |ds|
    ensures var t := Classify(ds, current, cmp);
      forall i :: 0 <= i < |ds| ==>
        match Judge(ds[i], current, cmp)
        case Create => RecordDesc(ds[i]) in t.created
        case Update(_) => RecordDesc(ds[i]) in t.updated
        case Keep(_) => RecordDesc(ds[i]) in t.kept
    decreases |ds|
  {
    if ds != [] {
      var init := ds[..|ds| - 1];
      ClassifyPartition(init, current, cmp);
      assert forall i :: 0 <= i < |init| ==> ds[i] == init[i];
    }
  }

  /**
   * The consumed ids are exactly the ids of the first matches of the desired records:
   * a current record counts as matched only through being some desired record's first match.
   */
  lemma {:induction false} ClassifyMatched(ds: seq<DnsRecord>, current: seq<DnsRecord>, cmp: Comparator)
    ensures forall x :: x in Classify(ds, current, cmp).matched <==>
      exists i :: 0 <= i < |ds| && FirstMatch(ds[i], current, cmp).Some?
                  && current[FirstMatch(ds[i], current, cmp).value].id == x
    decreases |ds|
  {
    if ds != [] {
      var init := ds[..|ds| - 1];
      ClassifyMatched(init, current, cmp);
      assert forall i :: 0 <= i < |init| ==> ds[i] == init[i];
      var t := Classify(ds, current, cmp);
      var n := |ds| - 1;
      forall x | x in t.matched
        ensures exists i :: 0 <= i < |ds| && FirstMatch(ds[i], current, cmp).Some?
                  && current[FirstMatch(ds[i], current, cmp).value].id == x
      {
        if x !in Classify(init, current, cmp).matched {
          assert FirstMatch(ds[n], current, cmp).Some? && current[FirstMatch(ds[n], current, cmp).value].id == x;
        }
      }
    }
  }

  /**
   * `deleted` lists exactly the current records whose id was never consumed: each such
   * record is reported, and each report line belongs to such a record.
   */
  lemma {:induction false} DeletedExactly(current: seq<DnsRecord>, matched: set<Option<int>>)
    ensures forall c :: c in current && c.id !in matched ==> RecordDesc(c) in DeletedDescs(current, matched)
    ensures forall line :: line in DeletedDescs(current, matched) ==>
      exists c :: c in current && c.id !in matched && line == RecordDesc(c)
    ensures |DeletedDescs(current, matched)| <= |current|
    decreases |current|
  {
    if current != [] {
      var init := current[..|current| - 1];
      DeletedExactly(init, matched);
      assert current == init + [current[|current| - 1]];
    }
  }

  /** When every current id was consumed nothing is deleted, and the deletion calls follow the deleted lines one for one. */
  lemma {:induction false} DeletedMatchesCalls(zoneId: Option<int>, current: seq<DnsRecord>, matched: set<Option<int>>)
    ensures (forall c :: c in current ==> c.id in matched) ==> DeletedDescs(current, matched) == []
    ensures |DeleteCalls(zoneId, current, matched)| == |DeletedDescs(current, matched)|
    ensures forall k :: 0 <= k < |DeleteCalls(zoneId, current, matched)| ==>
      DeleteCalls(zoneId, current, matched)[k].DeleteRecord? && DeleteCalls(zoneId, current, matched)[k].zoneId == zoneId
    decreases |current|
  {
    if current != [] {
      var init := current[..|current| - 1];
      DeletedMatchesCalls(zoneId, init, matched);
      assert forall c :: c in init ==> c in current;
    }
  }

  /** Without `delete_extra` nothing is reported deleted, whatever the records. */
  lemma NoDeleteExtraNoDeleted(domain: string, ds: seq<DnsRecord>, current: seq<DnsRecord>, zoneCreated: bool,
                               cmp: Comparator)
    ensures PlannedReport(domain, ds, current, false, zoneCreated, cmp).deleted == []
    ensures PlannedReport(domain, ds, current, true, zoneCreated, cmp).deleted
         == DeletedDescs(current, Classify(ds, current, cmp).matched)
  {
  }

  /** Against no current records every desired record is created, in order. */
  lemma {:induction false} AllCreatedOnEmpty(cs: seq<RecordConfig>, cmp: Comparator)
    ensures Classify(DesiredRecords(cs), [], cmp) == Tally(ConfigDescs(cs), [], [], {})
    decreases |cs|
  {
    if cs != [] {
      var init := cs[..|cs| - 1];
      AllCreatedOnEmpty(init, cmp);
      assert DesiredRecords(cs)[..|cs| - 1] == DesiredRecords(init);
    }
  }

  /**
   * The dry-run report for a missing zone is the report a live run gives when the
   * freshly created zone has no records.
   */
  lemma MissingZoneDryMatchesLive(domain: string, cs: seq<RecordConfig>, deleteExtra: bool, cmp: Comparator)
    ensures PlannedReport(domain, DesiredRecords(cs), [], deleteExtra, true, cmp) == MissingZoneReport(domain, cs)
  {
    AllCreatedOnEmpty(cs, cmp);
  }

  /** Every desired record is kept, and every listed record is the first match of some desired record. */
  predicate InSync(ds: seq<DnsRecord>, current: seq<DnsRecord>, cmp: Comparator) {
    && (forall i :: 0 <= i < |ds| ==> Judge(ds[i], current, cmp).Keep?)
    && (forall c :: c in current ==> exists i :: 0 <= i < |ds| && FirstMatch(ds[i], current, cmp).Some?
                                                 && current[FirstMatch(ds[i], current, cmp).value].id == c.id)
  }

  /**
   * A zone in sync is a fixpoint, and only such a zone is: the reconciler reports
   * nothing created, updated or deleted, and every desired record unchanged, exactly
   * when every desired record's first match needs no update and every listed record
   * is some desired record's first match, in whatever order the listing holds them.
   * Such a zone then receives no add, update or delete call.
   */
  lemma InSyncIsFixpoint(zoneId: Option<int>, ds: seq<DnsRecord>, current: seq<DnsRecord>, cmp: Comparator)
    ensures var t := Classify(ds, current, cmp);
      (t.created == [] && t.updated == [] && DeletedDescs(current, t.matched) == []) <==> InSync(ds, current, cmp)
    ensures InSync(ds, current, cmp) ==>
      var t := Classify(ds, current, cmp);
      && |t.kept| == |ds|
      && DesiredCalls(zoneId, ds, current, cmp) == Issued([], None)
      && DeleteCalls(zoneId, current, t.matched) == []
  {
    NoChangeIsInSync(ds, current, cmp);
    if InSync(ds, current, cmp) {
      InSyncChangesNothing(zoneId, ds, current, cmp);
    }
  }

  /** Helper of `InSyncIsFixpoint`: a reconciliation that changes nothing found the zone in sync. */
  lemma NoChangeIsInSync(ds: seq<DnsRecord>, current: seq<DnsRecord>, cmp: Comparator)
    ensures var t := Classify(ds, current, cmp);
      t.created == [] && t.updated == [] && DeletedDescs(current, t.matched) == [] ==> InSync(ds, current, cmp)
  {
    var t := Classify(ds, current, cmp);
    if t.created == [] && t.updated == [] && DeletedDescs(current, t.matched) == [] {
      ClassifyPartition(ds, current, cmp);
      ClassifyMatched(ds, current, cmp);
      DeletedExactly(current, t.matched);
      assert forall i :: 0 <= i < |ds| ==> Judge(ds[i], current, cmp).Keep?;
      assert forall c :: c in current ==> c.id in t.matched;
    }
  }

  /** Helper of `InSyncIsFixpoint`: a zone in sync is reported unchanged and receives no call. */
  lemma InSyncChangesNothing(zoneId: Option<int>, ds: seq<DnsRecord>, current: seq<DnsRecord>, cmp: Comparator)
    requires InSync(ds, current, cmp)
    ensures var t := Classify(ds, current, cmp);
      && t.created == [] && t.updated == [] && DeletedDescs(current, t.matched) == []
      && |t.kept| == |ds|
      && DesiredCalls(zoneId, ds, current, cmp) == Issued([], None)
      && DeleteCalls(zoneId, current, t.matched) == []
  {
    var t := Classify(ds, current, cmp);
    ClassifyPartition(ds, current, cmp);
    ClassifyMatched(ds, current, cmp);
    DeletedMatchesCalls(zoneId, current, t.matched);
    KeepsOnly(ds, current, cmp, |ds|);
    assert ds[..|ds|] == ds;
    KeepsCallNothing(zoneId, ds, current, cmp);
    forall c | c in current
      ensures c.id in t.matched
    {
      var i :| 0 <= i < |ds| && FirstMatch(ds[i], current, cmp).Some?
               && current[FirstMatch(ds[i], current, cmp).value].id == c.id;
    }
  }

  /** Helper of `InSyncIsFixpoint`: desired records that are all kept issue no call. */
  lemma {:induction false} KeepsCallNothing(zoneId: Option<int>, ds: seq<DnsRecord>, current: seq<DnsRecord>,
                                            cmp: Comparator)
    requires forall i :: 0 <= i < |ds| ==> Judge(ds[i], current, cmp).Keep?
    ensures DesiredCalls(zoneId, ds, current, cmp) == Issued([], None)
    decreases |ds|
  {
    if ds != [] {
      var init := ds[..|ds| - 1];
      assert forall i :: 0 <= i < |init| ==> init[i] == ds[i];
      KeepsCallNothing(zoneId, init, current, cmp);
      assert Judge(ds[|ds| - 1], current, cmp).Keep?;
    }
  }

  /** Helper of `InSyncIsFixpoint`: a prefix judged all Keep creates and updates nothing. */
  lemma {:induction false} KeepsOnly(ds: seq<DnsRecord>, current: seq<DnsRecord>, cmp: Comparator, n: nat)
    requires n <= |ds|
    requires forall i :: 0 <= i < |ds| ==> Judge(ds[i], current, cmp).Keep?
    ensures Classify(ds[..n], current, cmp).created == [] && Classify(ds[..n], current, cmp).updated == []
    decreases n
  {
    if n > 0 {
      KeepsOnly(ds, current, cmp, n - 1);
      assert ds[..n][..n - 1] == ds[..n - 1];
    }
  }

  /**
   * The inner loop does not skip current records already consumed: two desired records
   * matching the same single current record are both absorbed by it, and neither is created.
   */
  lemma DoubleMatch(d1: DnsRecord, d2: DnsRecord, c: DnsRecord, cmp: Comparator)
    requires cmp.matches(d1, c) && cmp.matches(d2, c)
    ensures var t := Classify([d1, d2], [c], cmp);
      t.created == [] && |t.updated| + |t.kept| == 2 && t.matched == {c.id}
  {
    assert [d1, d2][..1] == [d1];
    assert [d1][..0] == [];
    FirstMatchAt(d1, [c], 0, cmp);
    FirstMatchAt(d2, [c], 0, cmp);
    var t1 := Classify([d1], [c], cmp);
    assert Classify([], [c], cmp) == Tally([], [], [], {});
    assert t1 == Tallied(Classify([d1][..0], [c], cmp), d1, [c], cmp);
    assert t1 == Tallied(Tally([], [], [], {}), d1, [c], cmp);
    assert t1.created == [] && |t1.updated| + |t1.kept| == 1 && t1.matched == {c.id};
    assert Classify([d1, d2], [c], cmp) == Tallied(t1, d2, [c], cmp);
  }

  /** Creating "A @ -> 1.2.3.4" in an empty zone sends type code 0 and the default ttl 300. */
  lemma CreateScenario(cmp: Comparator)
    ensures var d := FromConfig(RecordConfig("A", "@", "1.2.3.4", None, None, None, None));
      DesiredCalls(Some(5), [d], [], cmp)
        == Issued([AddRecord(Some(5), RecordWire(None, Some(0), Some("@"), Some("1.2.3.4"), Some(300), None, None, None))], None)
  {
    var d := FromConfig(RecordConfig("A", "@", "1.2.3.4", None, None, None, None));
    assert [d][..0] == [];
    assert Upper("A") == "A";
    assert Judge(d, [], cmp) == Create;
  }

  /** Raising the ttl of a listed record to 600 updates that record, by its id 7, with the id in the payload. */
  lemma UpdateScenario(canon: Canonicaliser)
    ensures var c := DnsRecord("A", "@", "1.2.3.4", 300, None, None, None, Some(7));
      var d := FromConfig(RecordConfig("A", "@", "1.2.3.4", Some(600), None, None, None));
      DesiredCalls(Some(5), [d], [c], RecordComparator(canon))
        == Issued([UpdateRecord(Some(5), Some(7), RecordWire(Some(7), Some(0), Some("@"), Some("1.2.3.4"), Some(600), None, None, None))], None)
  {
    var c := DnsRecord("A", "@", "1.2.3.4", 300, None, None, None, Some(7));
    var d := FromConfig(RecordConfig("A", "@", "1.2.3.4", Some(600), None, None, None));
    var cmp := RecordComparator(canon);
    assert [d][..0] == [];
    assert Upper("A") == "A";
    assert cmp.matches(d, c) && cmp.needsUpdate(c, d);
    FirstMatchAt(d, [c], 0, cmp);
    assert Judge(d, [c], cmp) == Update(0);
  }

  /** The scan of `current` for the first record matching `d`, as the reconciler's inner loop does it. */
  method FindMatch(d: DnsRecord, current: seq<DnsRecord>, canon: Canonicaliser) returns (at: Option<nat>)
    ensures at == FirstMatch(d, current, RecordComparator(canon))
  {
    ghost var cmp := RecordComparator(canon);
    var j := 0;
    while j < |current|
      invariant 0 <= j <= |current|
      invariant forall k :: 0 <= k < j ==> !Matches(d, current[k], canon)
    {
      if Matches(d, current[j], canon) {
        FirstMatchAt(d, current, j, cmp);
        return Some(j);
      }
      j := j + 1;
    }
    FirstMatchSpec(d, current, cmp);
    return None;
  }

  /**
   * The body of the loop over the desired records, for one record `d`: its report line
   * and consumed id, and in a live run its add or update call or the KeyError of its payload.
   */
  method JudgeOne(zoneId: Option<int>, d: DnsRecord, current: seq<DnsRecord>, dryRun: bool, canon: Canonicaliser,
                  t: Tally)
    returns (u: Tally, cs: seq<DnsCall>, failure: Option<DnsError>)
    ensures failure.None? ==> u == Tallied(t, d, current, RecordComparator(canon))
    ensures dryRun ==> cs == [] && failure.None?
    ensures !dryRun ==> CallFor(zoneId, d, current, RecordComparator(canon))
                        == if failure.None? then Success(cs) else Failure(failure.value)
  {
    ghost var cmp := RecordComparator(canon);
    u, cs, failure := t, [], None;
    var found := FindMatch(d, current, canon);
    if found.Some? {
      var j := found.value;
      u := u.(matched := u.matched + {current[j].id});
      if NeedsUpdate(current[j], d, canon) {
        assert Judge(d, current, cmp) == Update(j);
        u := u.(updated := u.updated + [RecordDesc(d)]);
        if !dryRun {
          var id := current[j].id;
          var payload := ToApiPayload(d.(id := id));
          if payload.None? {
            return u, [], Some(UnknownRecordType(d.recordType));
          }
          cs := [UpdateRecord(zoneId, id, payload.value.(id := id))];
        }
      } else {
        assert Judge(d, current, cmp) == Keep(j);
        u := u.(kept := u.kept + [RecordDesc(d)]);
      }
    } else {
      assert Judge(d, current, cmp) == Create;
      u := u.(created := u.created + [RecordDesc(d)]);
      if !dryRun {
        var payload := ToApiPayload(d);
        if payload.None? {
          return u, [], Some(UnknownRecordType(d.recordType));
        }
        cs := [AddRecord(zoneId, payload.value)];
      }
    }
  }

  /**
   * The loop over the desired records: their report lines and consumed ids, and in a
   * live run the add and update calls, stopping at the first record that raises.
   */
  method JudgeDesired(zoneId: Option<int>, desired: seq<DnsRecord>, current: seq<DnsRecord>, dryRun: bool,
                      canon: Canonicaliser)
    returns (t: Tally, issued: Issued)
    ensures dryRun ==> issued == Issued([], None)
    ensures !dryRun ==> issued == DesiredCalls(zoneId, desired, current, RecordComparator(canon))
    ensures issued.failure.None? ==> t == Classify(desired, current, RecordComparator(canon))
  {
    ghost var cmp := RecordComparator(canon);
    t := Tally([], [], [], {});
    var calls: seq<DnsCall> := [];
    var i := 0;
    while i < |desired|
      invariant 0 <= i <= |desired|
      invariant Classify(desired[..i], current, cmp) == t
      invariant dryRun ==> calls == []
      invariant !dryRun ==> DesiredCalls(zoneId, desired[..i], current, cmp) == Issued(calls, None)
    {
      PrefixStep(zoneId, desired, i, current, cmp);
      var cs, failure;
      t, cs, failure := JudgeOne(zoneId, desired[i], current, dryRun, canon, t);
      if failure.Some? {
        FailureSticks(zoneId, desired, i + 1, current, cmp);
        return t, Issued(calls, failure);
      }
      calls := calls + cs;
      i := i + 1;
    }
    assert desired[..i] == desired;
    issued := Issued(calls, None);
  }

  /** The loop over the current records whose id was never consumed: report lines, and deletions in a live run. */
  method DeleteUnmatched(zoneId: Option<int>, current: seq<DnsRecord>, matched: set<Option<int>>, dryRun: bool)
    returns (deleted: seq<string>, calls: seq<DnsCall>)
    ensures deleted == DeletedDescs(current, matched)
    ensures calls == if dryRun then [] else DeleteCalls(zoneId, current, matched)
  {
    deleted, calls := [], [];
    var k := 0;
    while k < |current|
      invariant 0 <= k <= |current|
      invariant deleted == DeletedDescs(current[..k], matched)
      invariant calls == if dryRun then [] else DeleteCalls(zoneId, current[..k], matched)
    {
      assert current[..k + 1][..k] == current[..k];
      var c := current[k];
      if c.id !in matched {
        deleted := deleted + [RecordDesc(c)];
        if !dryRun {
          calls := calls + [DeleteRecord(zoneId, c.id)];
        }
      }
      k := k + 1;
    }
    assert current[..k] == current;
  }

  /**
   * The report, or error, and the calls of the reconciliation of a found or freshly
   * created zone: a dry run issues no call; a live run stops at the first record of
   * unknown type, after the calls issued before it.
   */
  function ZoneOutcome(domain: string, ds: seq<DnsRecord>, zone: DnsZone, dryRun: bool, deleteExtra: bool,
                       created: bool, cmp: Comparator): (Result<DnsReport, DnsError>, seq<DnsCall>)
  {
    var issued := DesiredCalls(zone.id, ds, zone.records, cmp);
    var report := PlannedReport(domain, ds, zone.records, deleteExtra, created, cmp);
    if dryRun then (Success(report), [])
    else if issued.failure.Some? then (Failure(issued.failure.value), issued.calls)
    else
      (Success(report),
       issued.calls + (if deleteExtra then DeleteCalls(zone.id, zone.records, Classify(ds, zone.records, cmp).matched) else []))
  }

  /**
   * The report, or error, and the calls of `sync_zone`: a dry run on a missing zone
   * plans every record; a live run on a missing zone first creates it and then
   * reconciles against the records of the created zone.
   */
  function Reconciled(domain: string, configs: seq<RecordConfig>, dryRun: bool, deleteExtra: bool,
                      zones: seq<ZoneWire>, fetch: Option<int> -> ZoneWire, createReply: ZoneWire,
                      canon: Canonicaliser): (Result<DnsReport, DnsError>, seq<DnsCall>)
  {
    var found := GetZoneByDomain(zones, domain, fetch);
    var ds := DesiredRecords(configs);
    var cmp := RecordComparator(canon);
    if found.Some? then ZoneOutcome(domain, ds, found.value, dryRun, deleteExtra, false, cmp)
    else if dryRun then (Success(MissingZoneReport(domain, configs)), [])
    else
      var o := ZoneOutcome(domain, ds, ZoneFromApiResponse(createReply), false, deleteExtra, true, cmp);
      (o.0, [CreateZone(domain)] + o.1)
  }

  /** The reconciliation part of `DNSManager.sync_zone`, once the zone is known. */
  method ReconcileZone(domain: string, configs: seq<RecordConfig>, zone: DnsZone, dryRun: bool, deleteExtra: bool,
                       created: bool, canon: Canonicaliser)
    returns (r: Result<DnsReport, DnsError>, calls: seq<DnsCall>)
    ensures (r, calls) == ZoneOutcome(domain, DesiredRecords(configs), zone, dryRun, deleteExtra, created,
                                      RecordComparator(canon))
  {
    var desired := DesiredRecords(configs);
    ghost var cmp := RecordComparator(canon);
    var t, issued := JudgeDesired(zone.id, desired, zone.records, dryRun, canon);
    if issued.failure.Some? {
      return Failure(issued.failure.value), issued.calls;
    }
    assert t == Classify(desired, zone.records, cmp);
    var deleted: seq<string> := [];
    var deletes: seq<DnsCall> := [];
    if deleteExtra {
      deleted, deletes := DeleteUnmatched(zone.id, zone.records, t.matched, dryRun);
    }
    r, calls := Success(DnsReport(domain, t.created, t.updated, deleted, t.kept, created)), issued.calls + deletes;
    ghost var o := ZoneOutcome(domain, desired, zone, dryRun, deleteExtra, created, cmp);
    assert r == o.0;
    assert calls == o.1;
  }

  /** `DNSManager.sync_zone`, with the outcome `Reconciled` states. */
  method SyncZone(domain: string, configs: seq<RecordConfig>, dryRun: bool, deleteExtra: bool,
                  zones: seq<ZoneWire>, fetch: Option<int> -> ZoneWire, createReply: ZoneWire,
                  canon: Canonicaliser)
    returns (r: Result<DnsReport, DnsError>, calls: seq<DnsCall>)
    ensures r.Success? ==> r.value.zone == domain
    ensures dryRun ==> r.Success? && calls == []
    ensures (r, calls) == Reconciled(domain, configs, dryRun, deleteExtra, zones, fetch, createReply, canon)
  {
    var existing := GetZoneByDomain(zones, domain, fetch);
    if existing.Some? {
      r, calls := ReconcileZone(domain, configs, existing.value, dryRun, deleteExtra, false, canon);
      return;
    }
    if dryRun {
      var planned: seq<string> := [];
      var n := 0;
      while n < |configs|
        invariant 0 <= n <= |configs|
        invariant planned == ConfigDescs(configs[..n])
      {
        assert configs[..n + 1][..n] == configs[..n];
        planned := planned + [ConfigDesc(configs[n])];
        n := n + 1;
      }
      assert configs[..n] == configs;
      return Success(DnsReport(domain, planned, [], [], [], true)), [];
    }
    var zone := ZoneFromApiResponse(createReply);
    var issued;
    r, issued := ReconcileZone(domain, configs, zone, false, deleteExtra, true, canon);
    calls := [CreateZone(domain)] + issued;
  }

  /**
   * A dry run succeeds, issues no call, and reports what a live run that raises nothing
   * reports, provided a zone the live run creates comes back empty. A live run on a
   * missing zone creates it before any other call.
   */
  lemma DryRunMatchesLive(domain: string, configs: seq<RecordConfig>, deleteExtra: bool, zones: seq<ZoneWire>,
                          fetch: Option<int> -> ZoneWire, createReply: ZoneWire, canon: Canonicaliser)
    requires GetZoneByDomain(zones, domain, fetch).None? ==> ZoneFromApiResponse(createReply).records == []
    ensures var dry := Reconciled(domain, configs, true, deleteExtra, zones, fetch, createReply, canon);
      var live := Reconciled(domain, configs, false, deleteExtra, zones, fetch, createReply, canon);
      && dry.0.Success? && dry.1 == []
      && (live.0.Success? ==> dry.0 == live.0)
      && (GetZoneByDomain(zones, domain, fetch).None? ==> live.1 != [] && live.1[0] == CreateZone(domain))
  {
    if GetZoneByDomain(zones, domain, fetch).None? {
      MissingZoneDryMatchesLive(domain, configs, deleteExtra, RecordComparator(canon));
    }
  }
}
