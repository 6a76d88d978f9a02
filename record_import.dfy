/**
 * Import of an existing DNS record by its composite identifier
 * `domain/hostname/type[/index]`: parse the identifier, scan the account's
 * zones for the first one named `domain`, keep that zone's records whose
 * fully-qualified name and type match, and select the one at `index`.
 *
 * The provider's client is replaced by two inputs: the answer of the zone
 * listing (`None` when it fails) and a function from a zone identifier and a
 * type filter to the answer of the record listing.
 */
module RecordImport {
  import opened Wrappers
  import opened Records
  import opened ImportId

  /** The resource fields an import fills in. */
  datatype ResourceState = ResourceState(
    id: string,
    domain: string,
    hostname: string,
    name: string,
    priority: int,
    proxied: bool,
    ttl: int,
    rtype: string,
    value: string,
    zoneId: string)

  /** The errors the import returns. */
  datatype ImportError =
    | BadIndex                                // an MX id whose index segment is not a base-10 int64
    | ZoneListFailed                          // the zone listing failed
    | NotFound(zonesListed: nat)              // no record matched; carries the number of zones listed
    | IndexOutOfRange(index: int, zonesListed: nat)  // too few matches; carries the number of zones listed

  /** The runtime panics the import runs into instead of returning an error. */
  datatype Panic =
    | UnmatchedId          // the pattern did not match, and `matches[0]` is out of range
    | IndexPanic(index: int) // `results[index]` is out of range

  datatype ImportOutcome = Imported(state: ResourceState) | Failed(error: ImportError) | Panicked(panic: Panic)

  /** The record-listing collaborator: zone identifier and type filter to the records, or a failure. */
  type RecordLister = (string, string) -> Option<seq<DnsRecord>>

  predicate HasSuffix(s: string, suffix: string) {
    |suffix| <= |s| && s[|s| - |suffix|..] == suffix
  }

  /** `s` without `suffix` when it ends in it, otherwise `s` unchanged. */
  function TrimSuffix(s: string, suffix: string): string {
    if HasSuffix(s, suffix) then s[..|s| - |suffix|] else s
  }

  /** The resource fields read from a matching record of `zone`. */
  function ToState(zone: Zone, record: DnsRecord): ResourceState {
    ResourceState(
      id := record.id,
      domain := zone.name,
      hostname := record.name,
      name := TrimSuffix(record.name, "." + zone.name),
      priority := record.priority,
      proxied := record.proxied,
      ttl := record.ttl,
      rtype := record.rtype,
      value := record.content,
      zoneId := zone.id)
  }

  /** Index of the first zone named `domain`. */
  function FirstZone(zones: seq<Zone>, domain: string): (k: Option<nat>)
    ensures k.Some? ==> k.value < |zones| && zones[k.value].name == domain
    ensures k.Some? ==> forall j :: 0 <= j < k.value ==> zones[j].name != domain
    ensures k.None? ==> forall j :: 0 <= j < |zones| ==> zones[j].name != domain
  {
    if zones == [] then None
    else if zones[0].name == domain then Some(0)
    else match FirstZone(zones[1..], domain)
      case None => None
      case Some(k) => Some(k + 1)
  }

  predicate Wanted(record: DnsRecord, name: string, rtype: string) {
    record.name == name && record.rtype == rtype
  }

  /** The records with the given name and type, in listing order. */
  function Filter(records: seq<DnsRecord>, name: string, rtype: string): seq<DnsRecord> {
    if records == [] then []
    else
      var last := records[|records| - 1];
      Filter(records[..|records| - 1], name, rtype) + (if Wanted(last, name, rtype) then [last] else [])
  }

  /** The resource state of each record, in order. */
  function States(zone: Zone, records: seq<DnsRecord>): seq<ResourceState> {
    if records == [] then []
    else States(zone, records[..|records| - 1]) + [ToState(zone, records[|records| - 1])]
  }

  /** The index the identifier selects: parsed only for MX, 0 for every other type. */
  function ImportIndex(p: IdParts): Option<int> {
    if p.rtype == "MX" then ParseInt64(IndexText(p)) else Some(0)
  }

  /** The zone whose records are listed: the first one named like the id's domain. */
  function SearchedZone(zones: seq<Zone>, p: IdParts): Option<Zone> {
    match FirstZone(zones, p.domain)
    case None => None
    case Some(k) => Some(zones[k])
  }

  /** The resource states collected for the parsed id. */
  function Matches(zones: seq<Zone>, p: IdParts, listRecords: RecordLister): seq<ResourceState> {
    match SearchedZone(zones, p)
    case None => []
    case Some(zone) => States(zone, Filter(listRecords(zone.id, p.rtype).GetOr([]), p.record, p.rtype))
  }

  /** The choice among the collected matches, with the Go `int` wrap-around of `index + 1`. */
  function Select(matches: seq<ResourceState>, index: int, zoneCount: nat): ImportOutcome {
    if |matches| == 0 then Failed(NotFound(zoneCount))
    else if |matches| < Wrap64(index + 1) then Failed(IndexOutOfRange(index, zoneCount))
    else if 0 <= index < |matches| then Imported(matches[index])
    else Panicked(IndexPanic(index))
  }

  /** The outcome of importing `id`, as a function of the collaborators' answers. */
  function ImportSpec(id: string, zoneListing: Option<seq<Zone>>, listRecords: RecordLister): ImportOutcome {
    match MatchImportId(id)
    case None => Panicked(UnmatchedId)
    case Some(p) =>
      match ImportIndex(p)
      case None => Failed(BadIndex)
      case Some(index) =>
        match zoneListing
        case None => Failed(ZoneListFailed)
        case Some(zones) => Select(Matches(zones, p, listRecords), index, |zones|)
  }

  /** The identifiers of the zones whose records the import lists. */
  function ListedZones(id: string, zoneListing: Option<seq<Zone>>): seq<string> {
    match MatchImportId(id)
    case None => []
    case Some(p) =>
      if ImportIndex(p).None? || zoneListing.None? then []
      else match SearchedZone(zoneListing.value, p)
        case None => []
        case Some(zone) => [zone.id]
  }

  /**
   * The import: the zone scan stops at the first zone named like the domain,
   * and only that zone's records are listed and filtered.
   */
  method Import(id: string, zoneListing: Option<seq<Zone>>, listRecords: RecordLister)
    returns (outcome: ImportOutcome, listed: seq<string>)
    ensures outcome == ImportSpec(id, zoneListing, listRecords)
    ensures listed == ListedZones(id, zoneListing)
  {
    listed := [];
    var m := MatchImportId(id);
    if m.None? {
      return Panicked(UnmatchedId), listed;
    }
    var parts := m.value;
    var index := 0;
    if parts.rtype == "MX" {
      var parsed := ParseInt64(IndexText(parts));
      if parsed.None? {
        return Failed(BadIndex), listed;
      }
      index := parsed.value;
    }
    if zoneListing.None? {
      return Failed(ZoneListFailed), listed;
    }
    var zones := zoneListing.value;
    var found, results;
    found, results, listed := ScanZones(zones, parts, listRecords);
    if !found {
      return Failed(NotFound(|zones|)), listed;
    }
    if |results| < Wrap64(index + 1) {
      return Failed(IndexOutOfRange(index, |zones|)), listed;
    }
    if index < 0 || index >= |results| {
      return Panicked(IndexPanic(index)), listed;
    }
    outcome := Imported(results[index]);
  }

  /** The loop over the zones, ended by `break` at the first zone named like the domain. */
  method ScanZones(zones: seq<Zone>, parts: IdParts, listRecords: RecordLister)
    returns (found: bool, results: seq<ResourceState>, listed: seq<string>)
    ensures results == Matches(zones, parts, listRecords)
    ensures found == (results != [])
    ensures listed == (match SearchedZone(zones, parts) case None => [] case Some(zone) => [zone.id])
  {
    found, results, listed := false, [], [];
    var i := 0;
    while i < |zones|
      invariant i <= |zones|
      invariant forall j :: 0 <= j < i ==> zones[j].name != parts.domain
      invariant !found && results == [] && listed == []
    {
      var zone := zones[i];
      if zone.name == parts.domain {
        listed := [zone.id];
        var records := listRecords(zone.id, parts.rtype).GetOr([]);
        found, results := CollectRecords(zone, records, parts.record, parts.rtype);
        assert FirstZone(zones, parts.domain) == Some(i);
        return;
      }
      i := i + 1;
    }
  }

  /** The loop over one zone's records, appending each match in listing order. */
  method CollectRecords(zone: Zone, records: seq<DnsRecord>, name: string, rtype: string)
    returns (found: bool, results: seq<ResourceState>)
    ensures results == States(zone, Filter(records, name, rtype))
    ensures found == (results != [])
  {
    found, results := false, [];
    var j := 0;
    while j < |records|
      invariant j <= |records|
      invariant results == States(zone, Filter(records[..j], name, rtype))
      invariant found == (results != [])
    {
      var record := records[j];
      ghost var seen := records[..j + 1];
      assert seen[..j] == records[..j] && seen[j] == record;
      assert Filter(seen, name, rtype)
          == Filter(records[..j], name, rtype) + (if Wanted(record, name, rtype) then [record] else []);
      if record.name == name && record.rtype == rtype {
        found := true;
        ghost var kept := Filter(seen, name, rtype);
        assert kept[..|kept| - 1] == Filter(records[..j], name, rtype) && kept[|kept| - 1] == record;
        assert States(zone, kept) == results + [ToState(zone, record)];
        results := results + [ToState(zone, record)];
      } else {
        assert Filter(seen, name, rtype) == Filter(records[..j], name, rtype);
      }
      assert results == States(zone, Filter(seen, name, rtype));
      j := j + 1;
    }
    assert records[..j] == records;
  }

  // ---- Properties of the specification ----

  /** A record is kept exactly when it is listed and has the wanted name and type. */
  lemma {:induction false} FilterMembership(records: seq<DnsRecord>, name: string, rtype: string, r: DnsRecord)
    ensures r in Filter(records, name, rtype) <==> r in records && Wanted(r, name, rtype)
  {
    if records != [] {
      var init := records[..|records| - 1];
      FilterMembership(init, name, rtype, r);
      assert records == init + [records[|records| - 1]];
    }
  }

  /** Filtering commutes with concatenation, so kept records stay in listing order. */
  lemma {:induction false} FilterConcat(a: seq<DnsRecord>, b: seq<DnsRecord>, name: string, rtype: string)
    ensures Filter(a + b, name, rtype) == Filter(a, name, rtype) + Filter(b, name, rtype)
  {
    if b == [] {
      assert a + b == a;
    } else {
      var init := b[..|b| - 1];
      FilterConcat(a, init, name, rtype);
      assert (a + b)[..|a + b| - 1] == a + init;
    }
  }

  /** The k-th collected state is the k-th kept record's. */
  lemma {:induction false} StatesAt(zone: Zone, records: seq<DnsRecord>, k: nat)
    requires k < |records|
    ensures |States(zone, records)| == |records|
    ensures States(zone, records)[k] == ToState(zone, records[k])
  {
    var init := records[..|records| - 1];
    if k < |init| {
      StatesAt(zone, init, k);
    } else if init != [] {
      StatesAt(zone, init, 0);
    }
  }

  /** Outside a suffix match the name is the full hostname; with one, name + "." + zone is the hostname. */
  lemma ImportedName(zone: Zone, record: DnsRecord)
    ensures var st := ToState(zone, record);
      && st.hostname == record.name
      && (HasSuffix(record.name, "." + zone.name) ==> st.name + "." + zone.name == record.name)
      && (!HasSuffix(record.name, "." + zone.name) ==> st.name == record.name)
  {
    var st := ToState(zone, record);
    if HasSuffix(record.name, "." + zone.name) {
      assert st.name + ("." + zone.name) == record.name;
    }
  }

  /** A record at the zone apex keeps its full name, since "." + zone is longer than the zone name. */
  lemma ApexKeepsFullName(zone: Zone, record: DnsRecord)
    requires record.name == zone.name
    ensures ToState(zone, record).name == zone.name
  {
  }

  /** An identifier the pattern does not match makes the import panic. */
  lemma UnmatchedIdPanics(id: string, zoneListing: Option<seq<Zone>>, listRecords: RecordLister)
    requires '\n' in id || multiset(id)['/'] < 2
    ensures ImportSpec(id, zoneListing, listRecords) == Panicked(UnmatchedId)
    ensures ListedZones(id, zoneListing) == []
  {
    MatchesIffTwoSlashes(id);
  }

  /** For every type but MX, the segment after the third '/' is ignored and the index is 0. */
  lemma {:induction false} NonMxIgnoresTail(p: IdParts, tail: Option<string>, zoneListing: Option<seq<Zone>>, listRecords: RecordLister)
    requires WellFormed(p) && WellFormed(p.(tail := tail)) && p.rtype != "MX"
    ensures ImportIndex(p) == Some(0)
    ensures ImportSpec(Compose(p), zoneListing, listRecords)
         == ImportSpec(Compose(p.(tail := tail)), zoneListing, listRecords)
  {
    MatchCompose(p);
    MatchCompose(p.(tail := tail));
  }

  /** An MX identifier whose index segment does not parse fails, whatever the zones and records. */
  lemma {:induction false} MxIndexMustParse(p: IdParts, zoneListing: Option<seq<Zone>>, listRecords: RecordLister)
    requires WellFormed(p) && p.rtype == "MX" && ParseInt64(IndexText(p)).None?
    ensures ImportSpec(Compose(p), zoneListing, listRecords) == Failed(BadIndex)
    ensures ListedZones(Compose(p), zoneListing) == []
  {
    MatchCompose(p);
  }

  /** A bad index and a failed zone listing both abort before any record is listed. */
  lemma EarlyFailuresListNothing(id: string, zoneListing: Option<seq<Zone>>, listRecords: RecordLister, other: RecordLister)
    requires ImportSpec(id, zoneListing, listRecords) == Failed(BadIndex)
          || ImportSpec(id, zoneListing, listRecords) == Failed(ZoneListFailed)
    ensures ListedZones(id, zoneListing) == []
    ensures ImportSpec(id, zoneListing, other) == ImportSpec(id, zoneListing, listRecords)
  {
  }

  /** The searched zone is the first one named like the domain, and there is none when no zone is. */
  lemma SearchedZoneIsFirstNamed(zones: seq<Zone>, p: IdParts, k: nat)
    requires k < |zones| && zones[k].name == p.domain
    requires forall j :: 0 <= j < k ==> zones[j].name != p.domain
    ensures SearchedZone(zones, p) == Some(zones[k])
  {
  }

  /** Zones after the first one named like the domain are never looked at. */
  lemma LaterZonesIgnored(zones: seq<Zone>, later: seq<Zone>, p: IdParts, listRecords: RecordLister)
    requires SearchedZone(zones, p).Some?
    ensures SearchedZone(zones + later, p) == SearchedZone(zones, p)
    ensures Matches(zones + later, p, listRecords) == Matches(zones, p, listRecords)
  {
    var k := FirstZone(zones, p.domain).value;
    SearchedZoneIsFirstNamed(zones + later, p, k);
  }

  /** Only the searched zone's record listing matters. */
  lemma OnlySearchedZoneListed(zones: seq<Zone>, p: IdParts, listRecords: RecordLister, other: RecordLister)
    requires SearchedZone(zones, p).Some?
    requires var z := SearchedZone(zones, p).value; listRecords(z.id, p.rtype) == other(z.id, p.rtype)
    ensures Matches(zones, p, listRecords) == Matches(zones, p, other)
  {
  }

  /** Each collected state comes from a listed record of the searched zone with the wanted name and type. */
  lemma {:induction false} MatchesAreWanted(zones: seq<Zone>, p: IdParts, listRecords: RecordLister, k: nat)
    requires k < |Matches(zones, p, listRecords)|
    ensures SearchedZone(zones, p).Some?
    ensures var zone := SearchedZone(zones, p).value;
      exists r :: r in listRecords(zone.id, p.rtype).GetOr([]) && Wanted(r, p.record, p.rtype)
               && Matches(zones, p, listRecords)[k] == ToState(zone, r)
  {
    var zone := SearchedZone(zones, p).value;
    var listed := listRecords(zone.id, p.rtype).GetOr([]);
    var kept := Filter(listed, p.record, p.rtype);
    StatesAt(zone, kept, 0);
    StatesAt(zone, kept, k);
    FilterMembership(listed, p.record, p.rtype, kept[k]);
  }

  /**
   * How the outcome depends on the number of matches: none is "not found",
   * too few for the index is "out of range", a valid position selects that
   * match, and a negative index (or the largest int64, whose successor wraps)
   * reaches `results[index]` and panics.
   */
  lemma OutcomeByMatchCount(id: string, zones: seq<Zone>, listRecords: RecordLister, p: IdParts, index: int)
    requires MatchImportId(id) == Some(p) && ImportIndex(p) == Some(index)
    ensures var n := |Matches(zones, p, listRecords)|;
      var outcome := ImportSpec(id, Some(zones), listRecords);
      && (n == 0 ==> outcome == Failed(NotFound(|zones|)))
      && (0 < n <= index < MaxInt64 ==> outcome == Failed(IndexOutOfRange(index, |zones|)))
      && (0 <= index < n ==> outcome == Imported(Matches(zones, p, listRecords)[index]))
      && (0 < n <= MaxInt64 && (index < 0 || index == MaxInt64) ==> outcome == Panicked(IndexPanic(index)))
  {
    assert ImportSpec(id, Some(zones), listRecords) == Select(Matches(zones, p, listRecords), index, |zones|);
    SuccessorWrap(index);
  }

  lemma SuccessorWrap(index: int)
    requires IsInt64(index)
    ensures index < MaxInt64 ==> Wrap64(index + 1) == index + 1
    ensures index == MaxInt64 ==> Wrap64(index + 1) == MinInt64
  {
  }

  /** A successful import yields the state of a wanted record of the first zone named like the domain. */
  lemma ImportedIsWantedRecord(id: string, zones: seq<Zone>, listRecords: RecordLister, st: ResourceState)
    requires ImportSpec(id, Some(zones), listRecords) == Imported(st)
    ensures MatchImportId(id).Some?
    ensures var p := MatchImportId(id).value;
      && SearchedZone(zones, p).Some?
      && var zone := SearchedZone(zones, p).value;
         exists r :: r in listRecords(zone.id, p.rtype).GetOr([]) && Wanted(r, p.record, p.rtype)
                  && st == ToState(zone, r)
  {
    var p := MatchImportId(id).value;
    var index := ImportIndex(p).value;
    MatchesAreWanted(zones, p, listRecords, index);
  }
}
