/** The target identity verdict taken after every asset entry (src/jumpserver/target-verify.ts). */
module TargetVerify {
  import opened Basics

  datatype Status = Verified | Unverified | Mismatch

  /** One to three digits with a value of at most 255. */
  predicate IsOctet(part: string) {
    1 <= |part| <= 3 && (forall c <- part :: IsDigit(c)) && ParseDecimal(part) <= 255
  }

  predicate IsIpv4Literal(value: string) {
    var parts := Split(value, '.');
    |parts| == 4 && forall p <- parts :: IsOctet(p)
  }

  function Decimals(numbers: seq<nat>): (r: seq<string>)
    ensures |r| == |numbers| && forall i :: 0 <= i < |r| ==> r[i] == Decimal(numbers[i])
  {
    seq(|numbers|, i requires 0 <= i < |numbers| => Decimal(numbers[i]))
  }

  /** Numbers joined by dots are a literal exactly when there are four of them and none exceeds 255. */
  lemma QuadsAreLiterals(numbers: seq<nat>)
    requires numbers != []
    ensures IsIpv4Literal(Join(Decimals(numbers), '.')) <==>
            |numbers| == 4 && forall i :: 0 <= i < |numbers| ==> numbers[i] <= 255
  {
    var parts := Decimals(numbers);
    forall p <- parts ensures '.' !in p {}
    SplitJoin(parts, '.');
    hide Split, Join, Decimal;
    forall i | 0 <= i < |parts| ensures IsOctet(parts[i]) <==> numbers[i] <= 255 { OctetIff(numbers[i]); }
    hide IsOctet;
    assert (forall p <- parts :: IsOctet(p)) <==> forall i :: 0 <= i < |parts| ==> IsOctet(parts[i]);
  }

  lemma OctetIff(n: nat)
    ensures IsOctet(Decimal(n)) <==> n <= 255
  {
    DecimalRoundTrip(n);
    if n <= 255 {
      var tens, hundreds := n / 10, n / 10 / 10;
      assert |Decimal(hundreds)| == 1;
      assert |Decimal(tens)| <= 2;
      assert |Decimal(n)| <= 3;
    }
  }

  function NonEmpty(ips: seq<string>): seq<string> { Filter(ips, (ip: string) => |ip| > 0) }

  /**
   * verifyTargetIdentity. `embedded` says whether a pattern search found an IPv4 address inside
   * the host name; which address it was only changes the wording of the reason.
   */
  function VerifyTargetIdentity(target: string, hostname: Option<string>, ips: seq<string>, embedded: bool): Status {
    var observed := NonEmpty(ips);
    var wanted := Trim(target);
    if IsIpv4Literal(wanted) then
      if observed == [] then Unverified
      else if wanted in observed then Verified
      else Mismatch
    else if !embedded then Unverified
    else if hostname == Some(wanted) then Verified
    else Unverified
  }

  /** What an entered session may claim about the machine it sits on: no address evidence, or the right one. */
  predicate AddressesAllow(target: string, ips: seq<string>) {
    IsIpv4Literal(target) ==> ips == [] || target in ips
  }

  /** The characters allowed in a target: TARGET_PATTERN of session.ts. */
  predicate TargetChar(c: char) {
    'a' <= c <= 'z' || 'A' <= c <= 'Z' || '0' <= c <= '9' || c in "_.:/-"
  }

  predicate ValidTarget(target: string) { |target| > 0 && forall c <- target :: TargetChar(c) }

  /**
   * For a valid target and a probe's address list (the parser drops empty entries), the verdict is
   * "mismatch" exactly when the addresses do not allow the target; and it is positive exactly on evidence
   * naming the target itself: its own address, or the very host name, if that carries an address.
   */
  lemma MismatchIffAddressesForbid(target: string, hostname: Option<string>, ips: seq<string>, embedded: bool)
    requires ValidTarget(target)
    requires forall ip <- ips :: |ip| > 0
    ensures VerifyTargetIdentity(target, hostname, ips, embedded) == Mismatch <==> !AddressesAllow(target, ips)
    ensures VerifyTargetIdentity(target, hostname, ips, embedded) == Verified <==>
              if IsIpv4Literal(target) then target in ips else embedded && hostname == Some(target)
  {
    forall c <- target ensures !IsSpace(c) { assert TargetChar(c); }
    TrimId(target);
    FilterAll(ips, (ip: string) => |ip| > 0);
  }
}
