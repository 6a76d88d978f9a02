/**
 * The values the DNS provider's client hands back to the resource handler:
 * zones and DNS records, plus the 64-bit integer arithmetic of the Go code.
 */
module Records {

  /** A zone as listed by the provider: its identifier and its DNS name. */
  datatype Zone = Zone(id: string, name: string)

  /**
   * A DNS record as the provider's client represents it. `name` is the
   * fully-qualified name the service returns (for example "www.example.com").
   * Absent numbers are Go's zero value, 0.
   */
  datatype DnsRecord = DnsRecord(
    id: string,
    rtype: string,
    name: string,
    content: string,
    proxied: bool,
    ttl: int,
    priority: int,
    zoneId: string,
    zoneName: string)

  const MinInt64: int := -0x8000_0000_0000_0000
  const MaxInt64: int := 0x7fff_ffff_ffff_ffff

  predicate IsInt64(n: int) {
    MinInt64 <= n <= MaxInt64
  }

  /** Two's-complement wrap-around of a 64-bit Go `int`. */
  function Wrap64(n: int): (r: int)
    ensures IsInt64(r)
    ensures (r - n) % 0x1_0000_0000_0000_0000 == 0
    ensures IsInt64(n) ==> r == n
  {
    (n - MinInt64) % 0x1_0000_0000_0000_0000 + MinInt64
  }
}
