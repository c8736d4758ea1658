/** The query-reply value types of the resolver and their textual forms
    (Sources/MiniAsyncDNSResolver/AsyncDNSResolver.swift:155-276). */
module Resolver {
  import opened Swift
  import opened Text

  /** The record types a query can ask for. */
  datatype QueryType = A | NS | CNAME | SOA | PTR | MX | TXT | AAAA | SRV | NAPTR

  /** Which interfaces a query is scoped to. */
  datatype Interface = Default | LocalOnly

  /** An address in its textual presentation form. */
  datatype IPAddress = IPv4(address: string) | IPv6(address: string)

  datatype ARecord = ARecord(address: IPAddress, ttl: Option<Int32>)

  datatype AAAARecord = AAAARecord(address: IPAddress, ttl: Option<Int32>)

  datatype NSRecord = NSRecord(nameservers: seq<string>)

  datatype SOARecord = SOARecord(
    mname: Option<string>,
    rname: Option<string>,
    serial: UInt32,
    refresh: UInt32,
    retry: UInt32,
    expire: UInt32,
    ttl: UInt32
  )

  datatype PTRRecord = PTRRecord(names: seq<string>)

  datatype MXRecord = MXRecord(host: string, priority: UInt16)

  datatype TXTRecord = TXTRecord(txt: string)

  datatype SRVRecord = SRVRecord(host: string, port: UInt16, weight: UInt16, priority: UInt16)

  datatype NAPTRRecord = NAPTRRecord(
    flags: Option<string>,
    service: Option<string>,
    regExp: Option<string>,
    replacement: string,
    order: UInt16,
    preference: UInt16
  )

  // The `description` of each value type.

  /** `IPAddress.description`: the address text, whichever the family. */
  function AddressDescription(a: IPAddress): (r: string)
    ensures r == a.address
  {
    match a
    case IPv4(address) => address
    case IPv6(address) => address
  }

  /** The description does not tell the two families apart. */
  lemma AddressDescriptionForgetsFamily(text: string)
    ensures AddressDescription(IPv4(text)) == AddressDescription(IPv6(text)) == text
  {
  }

  /** `ttl.map { "\($0)" } ?? ""`: an absent TTL renders as the empty text. */
  function TtlText(ttl: Option<Int32>): (r: string)
    ensures r == "" <==> ttl.None?
    ensures '=' !in r
  {
    match ttl
    case Some(t) => Decimal(t as int)
    case None => ""
  }

  function ARecordDescription(r: ARecord): (text: string)
    ensures "ARecord(address=" <= text && text[|text| - 1] == ')'
  {
    "ARecord(address=" + AddressDescription(r.address) + ", ttl=" + TtlText(r.ttl) + ")"
  }

  function AAAARecordDescription(r: AAAARecord): (text: string)
    ensures "AAAARecord(address=" <= text && text[|text| - 1] == ')'
  {
    "AAAARecord(address=" + AddressDescription(r.address) + ", ttl=" + TtlText(r.ttl) + ")"
  }

  function NSRecordDescription(r: NSRecord): (text: string)
    ensures "NSRecord(nameservers=[" <= text && text[|text| - 1] == ')'
  {
    "NSRecord(nameservers=" + ArrayDescription(r.nameservers) + ")"
  }

  /** The part of an SOA record's text that holds its two names. */
  function SOANames(r: SOARecord): string {
    OrEmpty(r.mname) + ", rname=" + OrEmpty(r.rname)
  }

  function SOARecordDescription(r: SOARecord): (text: string)
    ensures "SOARecord(mname=" <= text && text[|text| - 1] == ')'
  {
    "SOARecord(mname=" + SOANames(r)
    + ", serial=" + Decimal(r.serial as int) + ", refresh=" + Decimal(r.refresh as int)
    + ", retry=" + Decimal(r.retry as int) + ", expire=" + Decimal(r.expire as int)
    + ", ttl=" + Decimal(r.ttl as int) + ")"
  }

  function PTRRecordDescription(r: PTRRecord): (text: string)
    ensures "PTRRecord(names=[" <= text && text[|text| - 1] == ')'
  {
    "PTRRecord(names=" + ArrayDescription(r.names) + ")"
  }

  function MXRecordDescription(r: MXRecord): (text: string)
    ensures "MXRecord(host=" <= text && text[|text| - 1] == ')'
  {
    "MXRecord(host=" + r.host + ", priority=" + Decimal(r.priority as int) + ")"
  }

  function TXTRecordDescription(r: TXTRecord): (text: string)
    ensures "TXTRecord(" <= text && text[|text| - 1] == ')'
  {
    "TXTRecord(" + r.txt + ")"
  }

  function SRVRecordDescription(r: SRVRecord): (text: string)
    ensures "SRVRecord(host=" <= text && text[|text| - 1] == ')'
  {
    "SRVRecord(host=" + r.host + ", port=" + Decimal(r.port as int)
    + ", weight=" + Decimal(r.weight as int) + ", priority=" + Decimal(r.priority as int) + ")"
  }

  /** The part of a NAPTR record's text that holds its four text fields, in
      the order flags, service, regExp, replacement. */
  function NAPTRTextFields(r: NAPTRRecord): string {
    OrEmpty(r.flags) + ", service=" + OrEmpty(r.service)
    + ", regExp=" + OrEmpty(r.regExp) + ", replacement=" + r.replacement
  }

  function NAPTRRecordDescription(r: NAPTRRecord): (text: string)
    ensures "NAPTRRecord(flags=" <= text && text[|text| - 1] == ')'
  {
    "NAPTRRecord(flags=" + NAPTRTextFields(r)
    + ", order=" + Decimal(r.order as int) + ", preference=" + Decimal(r.preference as int) + ")"
  }

  // What each description keeps: the fields that the text determines, read
  // back from the right by splitting at the last '=' (decimal numbers never
  // contain one).

  lemma TtlTextInjective(t1: Option<Int32>, t2: Option<Int32>)
    requires TtlText(t1) == TtlText(t2)
    ensures t1 == t2
  {
    if t1.Some? && t2.Some? {
      DecimalInjective(t1.value as int, t2.value as int);
    }
  }

  lemma DecimalHasNoEquals(n: int)
    ensures '=' !in Decimal(n)
    ensures '=' !in Decimal(n) + ")"
  {
    var d := Decimal(n);
    assert forall i :: 0 <= i < |d| ==> d[i] == '-' || IsDigit(d[i]);
  }

  /** Reads the last field back: what follows the separator is recovered, and so
      is the text before it. */
  lemma PeelField(x1: string, t1: string, x2: string, t2: string, sep: string)
    requires 0 < |sep| && sep[|sep| - 1] == '='
    requires '=' !in t1 && '=' !in t2
    requires x1 + sep + t1 == x2 + sep + t2
    ensures x1 == x2 && t1 == t2
  {
    var k := sep[..|sep| - 1];
    assert sep == k + ['='];
    assert x1 + sep + t1 == (x1 + k) + ['='] + t1;
    assert x2 + sep + t2 == (x2 + k) + ['='] + t2;
    SplitAtLast(x1 + k, t1, x2 + k, t2, '=');
    CancelRight(x1, k, x2, k);
  }

  /** Reads back a number that is the last field, before the closing parenthesis. */
  lemma PeelLastNumber(x1: string, n1: int, x2: string, n2: int, sep: string)
    requires 0 < |sep| && sep[|sep| - 1] == '='
    requires x1 + sep + Decimal(n1) + ")" == x2 + sep + Decimal(n2) + ")"
    ensures x1 == x2 && n1 == n2
  {
    DecimalHasNoEquals(n1);
    DecimalHasNoEquals(n2);
    assert x1 + sep + Decimal(n1) + ")" == x1 + sep + (Decimal(n1) + ")");
    assert x2 + sep + Decimal(n2) + ")" == x2 + sep + (Decimal(n2) + ")");
    PeelField(x1, Decimal(n1) + ")", x2, Decimal(n2) + ")", sep);
    CancelRight(Decimal(n1), ")", Decimal(n2), ")");
    DecimalInjective(n1, n2);
  }

  /** Reads back a number in the middle of the field list. */
  lemma PeelNumber(x1: string, n1: int, x2: string, n2: int, sep: string)
    requires 0 < |sep| && sep[|sep| - 1] == '='
    requires x1 + sep + Decimal(n1) == x2 + sep + Decimal(n2)
    ensures x1 == x2 && n1 == n2
  {
    DecimalHasNoEquals(n1);
    DecimalHasNoEquals(n2);
    PeelField(x1, Decimal(n1), x2, Decimal(n2), sep);
    DecimalInjective(n1, n2);
  }

  /** An A record's text gives back its address text and its TTL, absent or not. */
  lemma ARecordDescriptionInjective(r1: ARecord, r2: ARecord)
    requires ARecordDescription(r1) == ARecordDescription(r2)
    ensures r1.address.address == r2.address.address && r1.ttl == r2.ttl
  {
    var t1, t2 := TtlText(r1.ttl), TtlText(r2.ttl);
    var p := "ARecord(address=";
    var x1, x2 := p + r1.address.address, p + r2.address.address;
    assert ARecordDescription(r1) == x1 + ", ttl=" + (t1 + ")");
    assert ARecordDescription(r2) == x2 + ", ttl=" + (t2 + ")");
    PeelField(x1, t1 + ")", x2, t2 + ")", ", ttl=");
    CancelRight(t1, ")", t2, ")");
    TtlTextInjective(r1.ttl, r2.ttl);
    CancelLeft(p, r1.address.address, r2.address.address);
  }

  /** An AAAA record's text gives back its address text and its TTL, absent or not. */
  lemma AAAARecordDescriptionInjective(r1: AAAARecord, r2: AAAARecord)
    requires AAAARecordDescription(r1) == AAAARecordDescription(r2)
    ensures r1.address.address == r2.address.address && r1.ttl == r2.ttl
  {
    var t1, t2 := TtlText(r1.ttl), TtlText(r2.ttl);
    var p := "AAAARecord(address=";
    var x1, x2 := p + r1.address.address, p + r2.address.address;
    assert AAAARecordDescription(r1) == x1 + ", ttl=" + (t1 + ")");
    assert AAAARecordDescription(r2) == x2 + ", ttl=" + (t2 + ")");
    PeelField(x1, t1 + ")", x2, t2 + ")", ", ttl=");
    CancelRight(t1, ")", t2, ")");
    TtlTextInjective(r1.ttl, r2.ttl);
    CancelLeft(p, r1.address.address, r2.address.address);
  }

  /** An MX record is determined by its text. */
  lemma MXRecordDescriptionInjective(r1: MXRecord, r2: MXRecord)
    requires MXRecordDescription(r1) == MXRecordDescription(r2)
    ensures r1 == r2
  {
    var p := "MXRecord(host=";
    PeelLastNumber(p + r1.host, r1.priority as int, p + r2.host, r2.priority as int, ", priority=");
    CancelLeft(p, r1.host, r2.host);
  }

  /** An SRV record is determined by its text. */
  lemma SRVRecordDescriptionInjective(r1: SRVRecord, r2: SRVRecord)
    requires SRVRecordDescription(r1) == SRVRecordDescription(r2)
    ensures r1 == r2
  {
    var p := "SRVRecord(host=";
    var x1 := p + r1.host + ", port=" + Decimal(r1.port as int);
    var x2 := p + r2.host + ", port=" + Decimal(r2.port as int);
    var y1 := x1 + ", weight=" + Decimal(r1.weight as int);
    var y2 := x2 + ", weight=" + Decimal(r2.weight as int);
    PeelLastNumber(y1, r1.priority as int, y2, r2.priority as int, ", priority=");
    PeelNumber(x1, r1.weight as int, x2, r2.weight as int, ", weight=");
    PeelNumber(p + r1.host, r1.port as int, p + r2.host, r2.port as int, ", port=");
    CancelLeft(p, r1.host, r2.host);
  }

  /** An SOA record's text gives back its five numbers, and the text of its
      two names together. */
  lemma SOARecordDescriptionNumbers(r1: SOARecord, r2: SOARecord)
    requires SOARecordDescription(r1) == SOARecordDescription(r2)
    ensures r1.serial == r2.serial && r1.refresh == r2.refresh && r1.retry == r2.retry
    ensures r1.expire == r2.expire && r1.ttl == r2.ttl
    ensures SOANames(r1) == SOANames(r2)
  {
    var n1, n2 := "SOARecord(mname=" + SOANames(r1), "SOARecord(mname=" + SOANames(r2);
    var s1 := n1 + ", serial=" + Decimal(r1.serial as int);
    var s2 := n2 + ", serial=" + Decimal(r2.serial as int);
    var f1 := s1 + ", refresh=" + Decimal(r1.refresh as int);
    var f2 := s2 + ", refresh=" + Decimal(r2.refresh as int);
    var t1 := f1 + ", retry=" + Decimal(r1.retry as int);
    var t2 := f2 + ", retry=" + Decimal(r2.retry as int);
    var e1 := t1 + ", expire=" + Decimal(r1.expire as int);
    var e2 := t2 + ", expire=" + Decimal(r2.expire as int);
    PeelLastNumber(e1, r1.ttl as int, e2, r2.ttl as int, ", ttl=");
    PeelNumber(t1, r1.expire as int, t2, r2.expire as int, ", expire=");
    PeelNumber(f1, r1.retry as int, f2, r2.retry as int, ", retry=");
    PeelNumber(s1, r1.refresh as int, s2, r2.refresh as int, ", refresh=");
    PeelNumber(n1, r1.serial as int, n2, r2.serial as int, ", serial=");
    CancelLeft("SOARecord(mname=", SOANames(r1), SOANames(r2));
  }

  /** A NAPTR record's text gives back its order and preference, and the
      text of its four text fields together. */
  lemma NAPTRRecordDescriptionNumbers(r1: NAPTRRecord, r2: NAPTRRecord)
    requires NAPTRRecordDescription(r1) == NAPTRRecordDescription(r2)
    ensures r1.order == r2.order && r1.preference == r2.preference
    ensures NAPTRTextFields(r1) == NAPTRTextFields(r2)
  {
    var p := "NAPTRRecord(flags=";
    var x1, x2 := p + NAPTRTextFields(r1), p + NAPTRTextFields(r2);
    var o1 := x1 + ", order=" + Decimal(r1.order as int);
    var o2 := x2 + ", order=" + Decimal(r2.order as int);
    PeelLastNumber(o1, r1.preference as int, o2, r2.preference as int, ", preference=");
    PeelNumber(x1, r1.order as int, x2, r2.order as int, ", order=");
    CancelLeft(p, NAPTRTextFields(r1), NAPTRTextFields(r2));
  }

  /** A TXT record is determined by its text. */
  lemma TXTRecordDescriptionInjective(r1: TXTRecord, r2: TXTRecord)
    requires TXTRecordDescription(r1) == TXTRecordDescription(r2)
    ensures r1 == r2
  {
    CancelAround("TXTRecord(", r1.txt, r2.txt, ")");
  }

  /** Names without double quotes are read back from an NS record's text. */
  lemma NSRecordDescriptionInjective(r1: NSRecord, r2: NSRecord)
    requires QuoteFree(r1.nameservers) && QuoteFree(r2.nameservers)
    requires NSRecordDescription(r1) == NSRecordDescription(r2)
    ensures r1 == r2
  {
    CancelAround("NSRecord(nameservers=", ArrayDescription(r1.nameservers), ArrayDescription(r2.nameservers), ")");
    ArrayDescriptionInjective(r1.nameservers, r2.nameservers);
  }

  /** Names without double quotes are read back from a PTR record's text. */
  lemma PTRRecordDescriptionInjective(r1: PTRRecord, r2: PTRRecord)
    requires QuoteFree(r1.names) && QuoteFree(r2.names)
    requires PTRRecordDescription(r1) == PTRRecordDescription(r2)
    ensures r1 == r2
  {
    CancelAround("PTRRecord(names=", ArrayDescription(r1.names), ArrayDescription(r2.names), ")");
    ArrayDescriptionInjective(r1.names, r2.names);
  }
}
