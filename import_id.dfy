/**
 * The composite import identifier `domain/hostname/type[/index]`: how the
 * pattern `^(.*?)/(.*?)/(.*?)(/(.*?))?$` splits it, and how the index segment
 * is read as a base-10 64-bit integer.
 */
module ImportId {
  import opened Wrappers
  import opened Records

  /**
   * The submatches of the pattern. `tail` is submatch 5, present exactly when
   * the optional group `(/(.*?))` took part in the match.
   */
  datatype IdParts = IdParts(domain: string, record: string, rtype: string, tail: Option<string>)

  /** What the Go code reads as submatch 5: the empty string when the group did not take part. */
  function IndexText(p: IdParts): string {
    p.tail.GetOr("")
  }

  /** The identifier the parts were cut from. */
  function Compose(p: IdParts): string {
    p.domain + "/" + p.record + "/" + p.rtype + TailText(p.tail)
  }

  /** The optional `/index` segment as it stands in the identifier. */
  function TailText(tail: Option<string>): string {
    match tail
    case None => ""
    case Some(t) => "/" + t
  }

  /** Parts the pattern can produce: no '/' in the first three segments and no newline anywhere. */
  predicate WellFormed(p: IdParts) {
    '/' !in p.domain && '/' !in p.record && '/' !in p.rtype && '\n' !in Compose(p)
  }

  /** Splits `s` at its first '/'. */
  function Cut(s: string): (r: Option<(string, string)>)
    ensures r.None? <==> '/' !in s
    ensures r.Some? ==> '/' !in r.value.0 && s == r.value.0 + "/" + r.value.1
  {
    if s == [] then None
    else if s[0] == '/' then Some(([], s[1..]))
    else match Cut(s[1..])
      case None => None
      case Some((a, b)) => Some(([s[0]] + a, b))
  }

  /**
   * The pattern applied to `id`. Every `.` stands for a character other than a
   * newline and the lazy groups stop at the first '/' that lets the rest match,
   * so the id matches exactly when it has at least two '/' and no newline.
   */
  function MatchImportId(id: string): (m: Option<IdParts>)
    ensures m.Some? ==> WellFormed(m.value) && Compose(m.value) == id
  {
    if '\n' in id then None
    else match Cut(id)
      case None => None
      case Some((domain, rest)) => MatchAfterDomain(domain, rest)
  }

  /** The pattern's remaining groups, once the domain and the first '/' are consumed. */
  function MatchAfterDomain(domain: string, rest: string): (m: Option<IdParts>)
    requires '/' !in domain && '\n' !in domain + "/" + rest
    ensures m.Some? ==> WellFormed(m.value) && Compose(m.value) == domain + "/" + rest
  {
    match Cut(rest)
    case None => None
    case Some((record, rest')) =>
      var p := MatchType(domain, record, rest');
      ComposeSplit(domain + "/" + rest, rest, rest', p);
      Some(p)
  }

  /** The type group and the optional index group, from what follows the second '/'. */
  function MatchType(domain: string, record: string, rest': string): (p: IdParts)
    ensures p.domain == domain && p.record == record && '/' !in p.rtype
    ensures rest' == p.rtype + TailText(p.tail)
  {
    match Cut(rest')
    case None => IdParts(domain, record, rest', None)
    case Some((rtype, tail)) => IdParts(domain, record, rtype, Some(tail))
  }

  /** The identifier matches exactly when it has no newline and at least two '/'. */
  lemma MatchesIffTwoSlashes(id: string)
    ensures MatchImportId(id).None? <==> '\n' in id || multiset(id)['/'] < 2
  {
    if '\n' !in id {
      match Cut(id)
      case None =>
        SlashFree(id);
      case Some((domain, rest)) =>
        SlashCount(domain, rest);
        match Cut(rest)
        case None =>
          SlashFree(rest);
        case Some((record, rest')) =>
          SlashCount(record, rest');
    }
  }

  lemma SlashFree(s: string)
    ensures '/' !in s <==> multiset(s)['/'] == 0
  {
  }

  lemma SlashCount(a: string, b: string)
    requires '/' !in a
    ensures multiset(a + "/" + b)['/'] == 1 + multiset(b)['/']
  {
    assert multiset(a + "/" + b) == multiset(a) + multiset("/") + multiset(b);
    SlashFree(a);
  }

  lemma ComposeSplit(id: string, rest: string, rest': string, p: IdParts)
    requires id == p.domain + "/" + rest
    requires rest == p.record + "/" + rest'
    requires rest' == p.rtype + TailText(p.tail)
    ensures Compose(p) == id
  {
    assert id == p.domain + "/" + (p.record + "/" + (p.rtype + TailText(p.tail)));
  }

  lemma {:induction false} CutAtFirstSlash(a: string, b: string)
    requires '/' !in a
    ensures Cut(a + "/" + b) == Some((a, b))
  {
    if a != [] {
      assert (a + "/" + b)[1..] == a[1..] + "/" + b;
      CutAtFirstSlash(a[1..], b);
      assert [a[0]] + a[1..] == a;
    }
  }

  /** Every well-formed set of parts is recovered from the identifier it composes. */
  lemma {:induction false} MatchCompose(p: IdParts)
    requires WellFormed(p)
    ensures MatchImportId(Compose(p)) == Some(p)
  {
    var id := Compose(p);
    var rest' := p.rtype + TailText(p.tail);
    var rest := p.record + "/" + rest';
    assert id == p.domain + "/" + rest by {
      assert id == p.domain + "/" + (p.record + "/" + (p.rtype + TailText(p.tail)));
    }
    CutAtFirstSlash(p.domain, rest);
    CutAtFirstSlash(p.record, rest');
    match p.tail
    case None =>
      assert rest' == p.rtype;
      assert MatchType(p.domain, p.record, rest') == p;
    case Some(t) =>
      assert rest' == p.rtype + "/" + t;
      CutAtFirstSlash(p.rtype, t);
      assert MatchType(p.domain, p.record, rest') == p;
    assert MatchAfterDomain(p.domain, rest) == Some(p);
  }

  // ---- strconv.ParseInt(s, 10, 64) ----

  predicate IsDigit(c: char) {
    '0' <= c <= '9'
  }

  predicate AllDigits(s: string) {
    forall i :: 0 <= i < |s| ==> IsDigit(s[i])
  }

  /** The value of a string of decimal digits, most significant first. */
  function DigitsValue(s: string): nat
    requires AllDigits(s)
  {
    if s == [] then 0 else DigitsValue(s[..|s| - 1]) * 10 + (s[|s| - 1] as int - '0' as int)
  }

  /** The digits after an optional leading sign. */
  function Unsigned(s: string): string {
    if s != [] && (s[0] == '+' || s[0] == '-') then s[1..] else s
  }

  /**
   * Base-10 parse into a signed 64-bit integer: an optional '+' or '-',
   * then at least one ASCII digit and nothing else; a value outside the
   * 64-bit range is an error.
   */
  function ParseInt64(s: string): (r: Option<int>)
    ensures r.Some? ==> IsInt64(r.value)
    ensures r.Some? ==> Unsigned(s) != [] && AllDigits(Unsigned(s))
    ensures r.Some? && r.value < 0 ==> s[0] == '-'
  {
    var digits := Unsigned(s);
    if digits == [] || !AllDigits(digits) then None
    else
      var v: int := if s[0] == '-' then -(DigitsValue(digits) as int) else DigitsValue(digits);
      if IsInt64(v) then Some(v) else None
  }

  function Digit(d: nat): (c: char)
    requires d < 10
    ensures IsDigit(c)
  {
    ('0' as int + d) as char
  }

  /** The canonical decimal text of a natural number. */
  function FormatNat(n: nat): (s: string)
    ensures s != []
  {
    if n < 10 then [Digit(n)] else FormatNat(n / 10) + [Digit(n % 10)]
  }

  /** The canonical decimal text of an integer, with '-' for negatives only. */
  function FormatInt(n: int): string {
    if n < 0 then "-" + FormatNat(-n) else FormatNat(n)
  }

  lemma {:induction false} FormatNatDigits(n: nat)
    ensures AllDigits(FormatNat(n)) && DigitsValue(FormatNat(n)) == n
  {
    if n >= 10 {
      FormatNatDigits(n / 10);
      var s := FormatNat(n);
      assert s[..|s| - 1] == FormatNat(n / 10);
    }
  }

  /** Parsing the canonical text of any 64-bit integer gives that integer back. */
  lemma ParseFormat(n: int)
    requires IsInt64(n)
    ensures ParseInt64(FormatInt(n)) == Some(n)
  {
    if n < 0 {
      FormatNatDigits(-n);
      assert Unsigned(FormatInt(n)) == FormatNat(-n);
    } else {
      FormatNatDigits(n);
      assert Unsigned(FormatInt(n)) == FormatNat(n);
    }
  }

  /** Values the Go parser accepts beyond the canonical form, and texts it rejects. */
  lemma ParseInt64Edges()
    ensures ParseInt64("-1") == Some(-1)
    ensures ParseInt64("+7") == Some(7)
    ensures ParseInt64("") == None
    ensures ParseInt64("-") == None
    ensures ParseInt64("1x") == None
  {
  }
}
