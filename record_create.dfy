/**
 * Creation of a DNS record resource: two validations, then the zone lookup,
 * then the create call, then the check that the service returned an
 * identifier. Only then is the resource's identifier set, and the handler
 * goes on to read the record back.
 */
module RecordCreate {
  import opened Wrappers
  import opened Records

  /**
   * What Create consults. The validators are opaque predicates (their bodies
   * are not part of this model); the two client calls answer `None` on failure.
   */
  datatype Provider = Provider(
    validValue: (string, string) -> bool,                   // value against type
    validType: (string, bool) -> bool,                      // type against the proxied flag
    zoneIdByName: string -> Option<string>,                 // zone lookup by name
    createRecord: (string, DnsRecord) -> Option<DnsRecord>) // create call: zone id, request, created record

  /** The client calls Create makes, in order. */
  datatype Call = LookupZone(zoneName: string) | CreateRecord(zoneId: string, request: DnsRecord)

  datatype CreateOutcome =
    | InvalidValue        // the value does not suit the type
    | InvalidType         // the type does not allow the proxied flag
    | ZoneNotFound        // the zone lookup failed
    | CreateFailed        // the create call failed
    | EmptyId             // the service answered with a record whose identifier is empty
    | ReadBack(id: string) // created; the handler reads the record back (not part of this model)

  /** The resource being created: its declared fields and the two it is given by Create. */
  class RecordResource {
    var domain: string
    var name: string
    var rtype: string
    var value: string
    var ttl: Option<int>
    var priority: Option<int>
    var proxied: bool
    var id: string      // the resource identifier, "" until set
    var zoneId: string  // the computed zone_id

    constructor (domain: string, name: string, rtype: string, value: string,
                 ttl: Option<int>, priority: Option<int>, proxied: bool)
      ensures this.domain == domain && this.name == name && this.rtype == rtype && this.value == value
      ensures this.ttl == ttl && this.priority == priority && this.proxied == proxied
      ensures id == "" && zoneId == ""
    {
      this.domain, this.name, this.rtype, this.value := domain, name, rtype, value;
      this.ttl, this.priority, this.proxied := ttl, priority, proxied;
      id, zoneId := "", "";
    }

    /** Both validations that precede any client call. */
    predicate Validated(provider: Provider)
      reads this
    {
      provider.validValue(rtype, value) && provider.validType(rtype, proxied)
    }

    /** The record sent to the create call: an unset priority or ttl goes out as Go's zero value. */
    function Request(zone: string): DnsRecord
      reads this
    {
      DnsRecord("", rtype, name, value, proxied, ttl.GetOr(0), priority.GetOr(0), zone, domain)
    }

    method Create(provider: Provider) returns (outcome: CreateOutcome, calls: seq<Call>)
      modifies this`id, this`zoneId
      // no client call unless both validations pass, and the value is checked first
      ensures calls != [] ==> Validated(provider)
      ensures !provider.validValue(rtype, value) ==> outcome == InvalidValue
      ensures provider.validValue(rtype, value) && !provider.validType(rtype, proxied) ==> outcome == InvalidType
      ensures !Validated(provider) ==> calls == [] && zoneId == old(zoneId)
      // then the zone lookup, always the first call
      ensures Validated(provider) ==> calls != [] && calls[0] == LookupZone(domain)
      ensures Validated(provider) && provider.zoneIdByName(domain).None? ==>
                outcome == ZoneNotFound && calls == [LookupZone(domain)] && zoneId == old(zoneId)
      // then the create call, after zone_id is set
      ensures Validated(provider) && provider.zoneIdByName(domain).Some? ==>
                var zone := provider.zoneIdByName(domain).value;
                var created := provider.createRecord(zone, Request(zone));
                && zoneId == zone
                && calls == [LookupZone(domain), CreateRecord(zone, Request(zone))]
                && (created.None? ==> outcome == CreateFailed)
                && (created.Some? && created.value.id == "" ==> outcome == EmptyId)
                && (created.Some? && created.value.id != "" ==> outcome == ReadBack(created.value.id))
      // the identifier is set only on success, and never to ""
      ensures outcome.ReadBack? ==> id == outcome.id && id != ""
      ensures !outcome.ReadBack? ==> id == old(id)
    {
      calls := [];
      if !provider.validValue(rtype, value) {
        return InvalidValue, calls;
      }
      if !provider.validType(rtype, proxied) {
        return InvalidType, calls;
      }
      calls := calls + [LookupZone(domain)];
      var found := provider.zoneIdByName(domain);
      if found.None? {
        return ZoneNotFound, calls;
      }
      zoneId := found.value;
      var request := Request(zoneId);
      calls := calls + [CreateRecord(zoneId, request)];
      var created := provider.createRecord(zoneId, request);
      if created.None? {
        return CreateFailed, calls;
      }
      if created.value.id == "" {
        return EmptyId, calls;
      }
      id := created.value.id;
      outcome := ReadBack(id);
    }
  }
}
