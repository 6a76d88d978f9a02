# DNS record resource: import-ID resolution and create order

A Dafny model of the DNS record resource of a Terraform provider for
Cloudflare (`cloudflare/resource_cloudflare_record.go`). It covers the two
parts of the handler that carry logic of their own:

- **Import** (`resourceCloudFlareRecordImport`). A composite identifier
  `domain/hostname/type[/index]` is split by the pattern
  `^(.*?)/(.*?)/(.*?)(/(.*?))?$`. For type `MX` the index segment is parsed as
  a base-10 64-bit integer; every other type uses index 0. The account's zones
  are scanned and the first zone named like `domain` is searched. Its records
  are kept when their fully-qualified name equals `hostname` and their type
  equals `type`, in the order the service lists them. The match at position
  `index` becomes the imported resource state. Its `name` is the hostname with
  a trailing `"." + zone` removed.
- **Create** (`resourceCloudFlareRecordCreate`). The value-for-type check runs
  first, then the type/proxied check, then the zone lookup, then the create
  call. A created record with an empty identifier is an error. The
  resource identifier is set only after that check passes.

The provider's client is replaced by plain inputs. The zone listing is an
`Option<seq<Zone>>`, where `None` means the listing failed. The record listing
is a function from a zone identifier and a type filter to an
`Option<seq<DnsRecord>>`. For Create, a `Provider` value holds the two
validators and the two client calls.

Files:

- `wrappers.dfy`: `Option`.
- `records.dfy`: zones, DNS records, and Go's 64-bit `int` wrap-around.
- `import_id.dfy`: the identifier pattern (`MatchImportId`) and `strconv.ParseInt(s, 10, 64)` (`ParseInt64`).
- `record_import.dfy`: the import. `ImportSpec` is its specification as a function. `Import` is the imperative code: a zone loop ended by `break`, a record loop that appends to `results`, and a `found` flag. The lemmas prove the properties of the specification.
- `import_scenarios.dfy`: import outcomes for typical identifiers (MX selection by position, missing, negative or too-large indexes, a zone-relative hostname, a duplicate zone name), proved for every zone and record of each shape.
- `record_create.dfy`: the resource as a class, and `Create` as a method that updates `id` and `zone_id`.

Outcomes are split three ways:

- `Imported(state)`: the one resource state the import returns.
- `Failed(error)`: one of the returned error classes.
- `Panicked(...)`: the code indexes out of range and the Go runtime panics; no error is returned.

## Behaviour worth noting

The code behaves as follows in cases one might expect to work differently; the model follows the code.

- **Record segment.** The middle segment is compared with the record's
  fully-qualified name as the service returns it (`www.example.com`), not with
  a zone-relative label. An identifier such as `example.com/www/A` finds
  nothing (`ImportScenarios.ZoneRelativeHostnameNotFound`).
- **Malformed identifiers.** An identifier with fewer than two `/`, or with
  a newline, does not match the pattern. The code then reads `matches[0]`
  unchecked and panics; it does not return a descriptive error.
- **Negative MX index.** `ParseInt` accepts a sign, so `.../MX/-1` parses. A
  negative index passes the range check, because `len(results) < index+1` is
  false, and `results[index]` panics. Index `MaxInt64` panics the same way,
  since `index+1` wraps around to the minimum `int`.
- **"Not found".** The not-found error covers three cases: no zone with the
  name, no matching record in that zone, and a failed record listing (that
  error is only logged). The count it reports is the number of zones listed,
  not the number of zones checked.
- **"Index out of range".** This error reports the index and, again, the
  number of zones listed; it does not report how many records matched.
- **Partial state on Create.** `zone_id` is set before the create call. A
  create call that fails, or one that returns an empty identifier, leaves
  `zone_id` set; only the identifier stays unset.

## Model

| member | source | states |
|---|---|---|
| `ImportId.Cut` | cloudflare/resource_cloudflare_record.go:223 | A lazy `(.*?)/` group stops at the first `/`: the prefix holds no `/` and prefix + "/" + rest is the input; there is no cut exactly when the input holds no `/`. |
| `ImportId.MatchImportId` | cloudflare/resource_cloudflare_record.go:223-228 | A match gives parts whose domain, record and type hold no `/`, with no newline anywhere, and which compose back to the identifier. The index segment is everything after the third `/` and may itself hold `/`. |
| `ImportId.MatchesIffTwoSlashes` | cloudflare/resource_cloudflare_record.go:223-226 | The pattern fails to match exactly when the identifier has a newline or fewer than two `/`. |
| `ImportId.MatchCompose` | cloudflare/resource_cloudflare_record.go:223-228 | Every well-formed domain/record/type/optional-index is recovered by the pattern from the identifier it composes, so the split is the inverse of composition. |
| `ImportId.ParseInt64` | cloudflare/resource_cloudflare_record.go:231 | A parsed value lies in the 64-bit range, comes from at least one ASCII digit after an optional sign, and is negative only with a leading `-`. |
| `ImportId.ParseFormat` | cloudflare/resource_cloudflare_record.go:231 | Parsing the decimal text of any 64-bit integer returns that integer. |
| `ImportId.ParseInt64Edges` | cloudflare/resource_cloudflare_record.go:231 | `-1` and `+7` are accepted; the empty text, a lone sign and trailing junk are rejected. |
| `Records.Wrap64` | cloudflare/resource_cloudflare_record.go:293 | Go `int` arithmetic: the result is in the 64-bit range, congruent to the input modulo 2^64 (two's-complement wrap-around, not saturation), and equal to the input whenever the input is. |
| `RecordImport.FirstZone` | cloudflare/resource_cloudflare_record.go:249-251 | The zone found is named like the domain and no earlier zone is; none is found only when no zone has that name. |
| `RecordImport.Import` | cloudflare/resource_cloudflare_record.go:220-298 | The imperative import returns exactly the outcome of `ImportSpec`, and lists the records of at most one zone, the one `SearchedZone` names. |
| `RecordImport.ScanZones` | cloudflare/resource_cloudflare_record.go:247-288 | The zone loop with its `break` collects exactly the matches of the first zone named like the domain; `found` holds exactly when something was collected. |
| `RecordImport.CollectRecords` | cloudflare/resource_cloudflare_record.go:258-283 | The record loop appends the state of each record with the wanted name and type, in listing order. |
| `RecordImport.FilterMembership` | cloudflare/resource_cloudflare_record.go:258-260 | A record is collected if and only if it is listed and both its name and its type are equal to the parsed ones. |
| `RecordImport.FilterConcat` | cloudflare/resource_cloudflare_record.go:258-279 | Collecting distributes over concatenation of the listing, so collected records keep the service's order. |
| `RecordImport.StatesAt` | cloudflare/resource_cloudflare_record.go:262-279 | One resource state per collected record, with the k-th state built from the k-th record. |
| `RecordImport.ImportedName` | cloudflare/resource_cloudflare_record.go:269-272 | `hostname` is the record name. When the name ends in "." + zone, `name` + "." + zone is the hostname; otherwise `name` is the hostname unchanged. |
| `RecordImport.ApexKeepsFullName` | cloudflare/resource_cloudflare_record.go:269 | A record whose name equals the zone name keeps the full name. |
| `RecordImport.UnmatchedIdPanics` | cloudflare/resource_cloudflare_record.go:223-226 | An identifier with a newline or fewer than two `/` panics before any listing. |
| `RecordImport.NonMxIgnoresTail` | cloudflare/resource_cloudflare_record.go:229-237 | For every type but MX the index is 0, and the outcome does not depend on any trailing segment. |
| `RecordImport.MxIndexMustParse` | cloudflare/resource_cloudflare_record.go:230-234 | An MX identifier whose index segment is not a base-10 int64 fails with the index error, whatever the zones and records, and lists nothing. |
| `RecordImport.EarlyFailuresListNothing` | cloudflare/resource_cloudflare_record.go:230-243 | A bad index or a failed zone listing aborts before any record listing: no zone is listed, and the record listing cannot change the outcome. |
| `RecordImport.SearchedZoneIsFirstNamed` | cloudflare/resource_cloudflare_record.go:249-251 | The searched zone is the first zone whose name equals the domain. |
| `RecordImport.LaterZonesIgnored` | cloudflare/resource_cloudflare_record.go:249-288 | Once a zone with the name is present, appending further zones, including ones with the same name, changes neither the searched zone nor the matches. |
| `RecordImport.OnlySearchedZoneListed` | cloudflare/resource_cloudflare_record.go:253-258 | The matches depend only on the searched zone's record listing. |
| `RecordImport.MatchesAreWanted` | cloudflare/resource_cloudflare_record.go:258-279 | Each collected state is built from a listed record of the searched zone with the wanted name and type. |
| `RecordImport.OutcomeByMatchCount` | cloudflare/resource_cloudflare_record.go:289-297 | Zero matches gives "not found" with the zone count. A count at most the index is out of range, reported with the index and the zone count. A valid position gives exactly the match there. A negative index, or the largest int64, panics. |
| `RecordImport.ImportedIsWantedRecord` | cloudflare/resource_cloudflare_record.go:249-297 | A successful import returns the state of a listed record of the first zone named like the domain, with the wanted name and type. |
| `ImportScenarios.MxSelectedByPosition` | cloudflare/resource_cloudflare_record.go:258-297 | With two MX records of one name, index 1 selects the second record listed, whatever the priorities. |
| `ImportScenarios.MxIndexPastMatches` | cloudflare/resource_cloudflare_record.go:293-294 | With two matches in the single listed zone, index 2 gives the out-of-range error carrying index 2 and one zone. |
| `ImportScenarios.MxNegativeIndexPanics` | cloudflare/resource_cloudflare_record.go:231-297 | With matches present, index `-1` parses, passes the range check and panics at the slice index. |
| `ImportScenarios.MxIndexMissing` | cloudflare/resource_cloudflare_record.go:230-234 | An MX identifier without an index segment fails with the index error. |
| `ImportScenarios.SubdomainLabel` | cloudflare/resource_cloudflare_record.go:269 | A record named prefix + "." + zone is imported with `name` equal to the prefix. |
| `ImportScenarios.ZoneRelativeHostnameNotFound` | cloudflare/resource_cloudflare_record.go:260 | An identifier carrying the zone-relative part of a record's name finds nothing ("not found", one zone). |
| `ImportScenarios.DuplicateZoneNameNotSearched` | cloudflare/resource_cloudflare_record.go:249-290 | When the first of two zones with the same name has no records, the import reports "not found", even if the second zone holds the record. |
| `RecordCreate.RecordResource.constructor` | cloudflare/resource_cloudflare_record.go:81-95 | A new resource holds its declared fields and has neither an identifier nor a zone_id. |
| `RecordCreate.RecordResource.Create` | cloudflare/resource_cloudflare_record.go:78-133 | No client call unless both validations pass, value first. The zone lookup is the first call and the create call the second, after zone_id is set. A failed create or an empty returned identifier is an error. The identifier is set, and is non-empty, only on success, which hands over to the read-back. |

## Left out

- Read, Update and Delete (lines 135-218): thin pass-throughs to the client's zone lookup, fetch, update and delete calls, and a field copy.
- The read-back at the end of Create: the `ReadBack` outcome stands for the call to the read handler, whose behaviour is not modelled.
- The schema and the state-migration hook (lines 14-76): configuration for the plugin framework.
- `validateRecordName`, `validateRecordType` and the state-migration function are not part of this model. The validators are opaque predicates supplied in `Provider`.
- The plugin framework's `Get`/`GetOk` zero-value handling: `ttl` and `priority` are `Option`s, and an unset one goes out as Go's zero value. `GetOk` also treats a set 0 as unset; that is not modelled.
- The cloudflare-go client is not part of this model. A failed record listing is taken to yield no records, because the client returns an empty slice with its error.
- Logging and the text of error messages: only the error class is modelled, with the numbers it reports.
- Go strings are UTF-8 byte strings and the pattern works on runes. The model works on `char` sequences.
- `Records.Wrap64`: the model fixes Go's `int` at 64 bits. On 32-bit platforms the conversion `int(parsed_index)` at line 235 truncates and `match_index+1` at line 293 wraps at 32 bits (`d/h/MX/4294967296` would then select `results[0]`); that behaviour is not modelled.
- Slices are unbounded sequences. `RecordImport.OutcomeByMatchCount` states its panic case only for at most `MaxInt64` matches, the bound Go's `len` obeys.
- The import builds a `ResourceData` for every match and returns the selected one. The model builds plain `ResourceState` values.
