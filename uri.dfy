/**
 * The endpoint `init_grpc` hands to `Channel::from_shared`:
 * `format!("http://{}:{}", ip, grpc_port)`.  The port is written as Rust's
 * `Display` writes an unsigned integer: the shortest decimal form.
 * `ParseUri` is the inverse, so the URI determines the host exactly.
 */
module Uri {
  import opened Wrappers
  import opened Handles

  const Scheme: string := "http://"

  predicate IsDigit(ch: char) {
    '0' <= ch <= '9'
  }

  predicate AllDigits(s: string) {
    forall i :: 0 <= i < |s| ==> IsDigit(s[i])
  }

  /** Non-empty, decimal digits only, no leading zero except for "0" itself. */
  predicate IsCanonicalDecimal(s: string) {
    |s| >= 1 && AllDigits(s) && (s[0] == '0' ==> |s| == 1)
  }

  function DigitChar(d: nat): (ch: char)
    requires d < 10
    ensures IsDigit(ch) && ch as int - '0' as int == d
  {
    ('0' as int + d) as char
  }

  function DigitValue(ch: char): (d: nat)
    requires IsDigit(ch)
    ensures d < 10 && DigitChar(d) == ch
  {
    ch as int - '0' as int
  }

  /** The decimal text of `n`. */
  function Decimal(n: nat): (s: string)
    ensures IsCanonicalDecimal(s)
    ensures s[0] == '0' <==> n == 0
  {
    if n < 10 then [DigitChar(n)] else Decimal(n / 10) + [DigitChar(n % 10)]
  }

  /** The number a string of digits denotes. */
  function DecimalValue(s: string): nat
    requires AllDigits(s)
  {
    if s == [] then 0 else DecimalValue(s[..|s| - 1]) * 10 + DigitValue(s[|s| - 1])
  }

  /** The URI of the gRPC port of `host`. */
  function GrpcUri(host: HostInfo): string {
    Scheme + host.ip + ":" + Decimal(host.grpcPort)
  }

  /** The index of the last occurrence of `c` in `s`. */
  function LastIndexOf(s: string, c: char): (r: Option<nat>)
    ensures r.Some? ==> r.value < |s| && s[r.value] == c && forall j :: r.value < j < |s| ==> s[j] != c
    ensures r.None? ==> forall j :: 0 <= j < |s| ==> s[j] != c
  {
    if s == [] then None
    else if s[|s| - 1] == c then Some(|s| - 1)
    else LastIndexOf(s[..|s| - 1], c)
  }

  /**
   * Splits an `http://host:port` URI at its last colon.  The host part may
   * itself contain colons (an IPv6 literal); the port part cannot.
   */
  function ParseUri(uri: string): Option<HostInfo> {
    if |uri| < |Scheme| || uri[..|Scheme|] != Scheme then None
    else
      var rest := uri[|Scheme|..];
      match LastIndexOf(rest, ':')
      case None => None
      case Some(k) =>
        var port := rest[k + 1..];
        if IsCanonicalDecimal(port) then Some(HostInfo(rest[..k], DecimalValue(port))) else None
  }

  lemma {:induction false} DecimalValueOfDecimal(n: nat)
    ensures DecimalValue(Decimal(n)) == n
  {
    if n >= 10 {
      var s := Decimal(n);
      assert s[..|s| - 1] == Decimal(n / 10);
      DecimalValueOfDecimal(n / 10);
    }
  }

  lemma {:induction false} LeadingDigitPositive(s: string)
    requires AllDigits(s) && |s| >= 1 && s[0] != '0'
    ensures DecimalValue(s) >= 1
  {
    if |s| > 1 {
      LeadingDigitPositive(s[..|s| - 1]);
    }
  }

  lemma {:induction false} DecimalOfDecimalValue(s: string)
    requires IsCanonicalDecimal(s)
    ensures Decimal(DecimalValue(s)) == s
  {
    if |s| > 1 {
      var prefix := s[..|s| - 1];
      var last := DigitValue(s[|s| - 1]);
      LeadingDigitPositive(prefix);
      DecimalOfDecimalValue(prefix);
      var v := DecimalValue(s);
      assert v == DecimalValue(prefix) * 10 + last;
      assert v / 10 == DecimalValue(prefix) && v % 10 == last;
      assert s == prefix + [s[|s| - 1]];
    }
  }

  /** Parsing the URI gives back the host it was built from. */
  lemma GrpcUriParses(host: HostInfo)
    ensures ParseUri(GrpcUri(host)) == Some(host)
  {
    var digits := Decimal(host.grpcPort);
    var uri := GrpcUri(host);
    var rest := host.ip + ":" + digits;
    var k := |host.ip|;
    assert uri[..|Scheme|] == Scheme;
    assert uri[|Scheme|..] == rest;
    assert rest[k] == ':';
    assert forall j :: k < j < |rest| ==> rest[j] == digits[j - k - 1];
    assert LastIndexOf(rest, ':') == Some(k);
    assert rest[..k] == host.ip;
    assert rest[k + 1..] == digits;
    DecimalValueOfDecimal(host.grpcPort);
  }

  /** Every URI that parses is exactly the URI of the host it parses to. */
  lemma ParsedUriIsGrpcUri(uri: string, host: HostInfo)
    requires ParseUri(uri) == Some(host)
    ensures uri == GrpcUri(host)
  {
    var rest := uri[|Scheme|..];
    var k := LastIndexOf(rest, ':').value;
    DecimalOfDecimalValue(rest[k + 1..]);
    assert rest == rest[..k] + ":" + rest[k + 1..];
    assert uri == uri[..|Scheme|] + rest;
  }

  /** Distinct hosts are given distinct endpoints. */
  lemma GrpcUriInjective(a: HostInfo, b: HostInfo)
    requires GrpcUri(a) == GrpcUri(b)
    ensures a == b
  {
    GrpcUriParses(a);
    GrpcUriParses(b);
  }
}
