/**
 * Import outcomes for typical identifiers: selecting among MX records by
 * position, indexes that are missing, negative or past the matches, the
 * zone-relative hostname that finds nothing, and a duplicate zone name.
 * Each is stated for every zone, record and identifier of its shape.
 */
module ImportScenarios {
  import opened Wrappers
  import opened Records
  import opened ImportId
  import opened RecordImport

  lemma FilterOne(r: DnsRecord, name: string, rtype: string)
    ensures Filter([r], name, rtype) == if Wanted(r, name, rtype) then [r] else []
  {
    assert [r][..0] == [];
  }

  lemma FilterTwo(first: DnsRecord, second: DnsRecord, name: string, rtype: string)
    requires Wanted(first, name, rtype) && Wanted(second, name, rtype)
    ensures Filter([first, second], name, rtype) == [first, second]
  {
    assert [first, second] == [first] + [second];
    FilterConcat([first], [second], name, rtype);
    FilterOne(first, name, rtype);
    FilterOne(second, name, rtype);
  }

  /** Two MX records of the same name, listed in the given order, whatever their priorities. */
  lemma TwoMxMatches(p: IdParts, zone: Zone, first: DnsRecord, second: DnsRecord, listRecords: RecordLister)
    requires p.rtype == "MX" && zone.name == p.domain
    requires listRecords(zone.id, "MX") == Some([first, second])
    requires Wanted(first, p.record, "MX") && Wanted(second, p.record, "MX")
    ensures Matches([zone], p, listRecords) == [ToState(zone, first), ToState(zone, second)]
  {
    SearchedZoneIsFirstNamed([zone], p, 0);
    FilterTwo(first, second, p.record, "MX");
    assert [first, second][..1] == [first] && [first][..0] == [];
    assert States(zone, [first]) == [ToState(zone, first)];
    assert States(zone, [first, second]) == [ToState(zone, first), ToState(zone, second)];
  }

  lemma SmallIndex(text: string, n: nat)
    requires n < 10 && text == [Digit(n)]
    ensures ParseInt64(text) == Some(n)
    ensures ParseInt64("-" + text) == Some(-(n as int))
  {
    assert text[..0] == [] && IsDigit(text[0]);
    assert DigitsValue(text) == n;
    assert Unsigned(text) == text;
    assert Unsigned("-" + text) == text;
  }

  /** Index 1 selects the second record listed, not the one with the lower priority. */
  lemma MxSelectedByPosition(p: IdParts, zone: Zone, first: DnsRecord, second: DnsRecord, listRecords: RecordLister)
    requires WellFormed(p) && p.rtype == "MX" && p.tail == Some("1") && zone.name == p.domain
    requires listRecords(zone.id, "MX") == Some([first, second])
    requires Wanted(first, p.record, "MX") && Wanted(second, p.record, "MX")
    ensures ImportSpec(Compose(p), Some([zone]), listRecords) == Imported(ToState(zone, second))
  {
    MatchCompose(p);
    SmallIndex("1", 1);
    TwoMxMatches(p, zone, first, second, listRecords);
  }

  /** An index equal to the number of matches is out of range. */
  lemma MxIndexPastMatches(p: IdParts, zone: Zone, first: DnsRecord, second: DnsRecord, listRecords: RecordLister)
    requires WellFormed(p) && p.rtype == "MX" && p.tail == Some("2") && zone.name == p.domain
    requires listRecords(zone.id, "MX") == Some([first, second])
    requires Wanted(first, p.record, "MX") && Wanted(second, p.record, "MX")
    ensures ImportSpec(Compose(p), Some([zone]), listRecords) == Failed(IndexOutOfRange(2, 1))
  {
    MatchCompose(p);
    SmallIndex("2", 2);
    TwoMxMatches(p, zone, first, second, listRecords);
    OutcomeByMatchCount(Compose(p), [zone], listRecords, p, 2);
  }

  /** Index "-1" parses, passes the range check and reaches the slice index, which panics. */
  lemma MxNegativeIndexPanics(p: IdParts, zone: Zone, first: DnsRecord, second: DnsRecord, listRecords: RecordLister)
    requires WellFormed(p) && p.rtype == "MX" && p.tail == Some("-1") && zone.name == p.domain
    requires listRecords(zone.id, "MX") == Some([first, second])
    requires Wanted(first, p.record, "MX") && Wanted(second, p.record, "MX")
    ensures ImportSpec(Compose(p), Some([zone]), listRecords) == Panicked(IndexPanic(-1))
  {
    MatchCompose(p);
    SmallIndex("1", 1);
    assert "-1" == "-" + "1";
    assert ImportIndex(p) == Some(-1);
    TwoMxMatches(p, zone, first, second, listRecords);
    OutcomeByMatchCount(Compose(p), [zone], listRecords, p, -1);
  }

  /** An MX identifier without the index segment fails to parse. */
  lemma MxIndexMissing(p: IdParts, zoneListing: Option<seq<Zone>>, listRecords: RecordLister)
    requires WellFormed(p) && p.rtype == "MX" && p.tail == None
    ensures ImportSpec(Compose(p), zoneListing, listRecords) == Failed(BadIndex)
  {
    assert ParseInt64(IndexText(p)) == None;
    MxIndexMustParse(p, zoneListing, listRecords);
  }

  /** A record named prefix + "." + zone is imported with `name` equal to the prefix. */
  lemma SubdomainLabel(zone: Zone, record: DnsRecord, prefix: string)
    requires record.name == prefix + "." + zone.name
    ensures ToState(zone, record).name == prefix
  {
    var suffix := "." + zone.name;
    assert record.name == prefix + suffix;
    assert record.name[|record.name| - |suffix|..] == suffix;
    assert record.name[..|record.name| - |suffix|] == prefix;
  }

  /**
   * The middle segment is compared with the fully-qualified name: an
   * identifier carrying only the zone-relative part finds nothing.
   */
  lemma ZoneRelativeHostnameNotFound(p: IdParts, zone: Zone, record: DnsRecord, listRecords: RecordLister)
    requires WellFormed(p) && p.rtype != "MX" && zone.name == p.domain
    requires record.rtype == p.rtype && record.name == p.record + "." + zone.name
    requires listRecords(zone.id, p.rtype) == Some([record])
    ensures ImportSpec(Compose(p), Some([zone]), listRecords) == Failed(NotFound(1))
  {
    MatchCompose(p);
    SearchedZoneIsFirstNamed([zone], p, 0);
    FilterOne(record, p.record, p.rtype);
  }

  /** A second zone with the same name is never searched, even when only it holds the record. */
  lemma DuplicateZoneNameNotSearched(p: IdParts, first: Zone, second: Zone, listRecords: RecordLister)
    requires WellFormed(p) && p.rtype != "MX" && first.name == p.domain && second.name == p.domain
    requires listRecords(first.id, p.rtype) == Some([])
    ensures ImportSpec(Compose(p), Some([first, second]), listRecords) == Failed(NotFound(2))
  {
    MatchCompose(p);
    SearchedZoneIsFirstNamed([first, second], p, 0);
  }
}
