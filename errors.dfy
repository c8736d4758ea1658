/** The resolver's error taxonomy (`AsyncDNSResolver.Error` and its `Code`,
    Sources/MiniAsyncDNSResolver/Errors.swift:17-221): the codes, their fixed
    textual form, and the factories that build an error. */
module Errors {
  import opened Swift
  import opened Text
  import opened DNSServiceErrors

  /** The 24 cases of `Code` that carry nothing but an optional detail text. */
  datatype Kind =
    | NoData
    | InvalidQuery
    | ServerFailure
    | NotFound
    | NotImplemented
    | ServerRefused
    | BadQuery
    | BadName
    | BadFamily
    | BadResponse
    | ConnectionRefused
    | Timeout
    | Eof
    | FileIO
    | NoMemory
    | Destruction
    | BadString
    | BadFlags
    | NoName
    | BadHints
    | NotInitialized
    | InitError
    | Cancelled
    | Service

  /** `Code`: a kind with its optional detail, a decoded native service
      error, or a raw code with its optional detail. */
  datatype Code =
    | Labelled(kind: Kind, detail: Option<string>)
    | DnsService(error: DNSServiceError)
    | Other(code: int, detail: Option<string>)

  /** `Error`: a value holding one immutable code. */
  datatype Error = Error(code: Code)

  /** The text that opens the description of each kind. */
  function KindLabel(k: Kind): (r: string)
    ensures |r| == LabelLength(k)
  {
    match k
    case NoData => "no data"
    case InvalidQuery => "invalid query"
    case ServerFailure => "server failure"
    case NotFound => "not found"
    case NotImplemented => "not implemented"
    case ServerRefused => "server refused"
    case BadQuery => "bad query"
    case BadName => "bad name"
    case BadFamily => "bad family"
    case BadResponse => "bad response"
    case ConnectionRefused => "connection refused"
    case Timeout => "timeout"
    case Eof => "EOF"
    case FileIO => "file IO"
    case NoMemory => "no memory"
    case Destruction => "destruction"
    case BadString => "bad string"
    case BadFlags => "bad flags"
    case NoName => "no name"
    case BadHints => "bad hints"
    case NotInitialized => "not initialized"
    case InitError => "initialization error"
    case Cancelled => "cancelled"
    case Service => "service"
  }

  /** `Code.description`. */
  function CodeDescription(codes: NativeCodes, c: Code): (r: string)
    ensures c.Labelled? ==> KindLabel(c.kind) + ": " <= r
    ensures c.DnsService? ==> "DNS service: " + ServiceErrorName(c.error) + " [" <= r && r[|r| - 1] == ']'
    ensures c.Other? ==> "other [" + Decimal(c.code) + "]: " <= r
  {
    match c
    case Labelled(k, d) => KindLabel(k) + ": " + OrEmpty(d)
    case DnsService(e) => "DNS service: " + ServiceErrorName(e) + " [" + Decimal(ErrorCode(codes, e)) + "]"
    case Other(n, d) => "other [" + Decimal(n) + "]: " + OrEmpty(d)
  }

  /** `Error.description`: the description of the error's code. */
  function ErrorDescription(codes: NativeCodes, err: Error): (r: string)
    ensures r == CodeDescription(codes, err.code)
  {
    CodeDescription(codes, err.code)
  }

  /** The factories `noData(_:)` … `service(_:)`, one per kind; the detail
      defaults to nil. */
  function MakeError(kind: Kind, detail: Option<string> := None): (r: Error)
    ensures r.code.Labelled? && r.code.kind == kind && r.code.detail == detail
  {
    Error(Labelled(kind, detail))
  }

  /** `dnsService(code:_:)`: wraps the case that `init?(errorCode:)` decodes
      from `code`. An unrecognised code stops the program in the source, so
      here it is excluded by the precondition; the detail text is dropped. */
  function MakeDnsServiceError(codes: NativeCodes, code: Int32, detail: Option<string> := None): (r: Error)
    requires FromErrorCode(codes, code).Some?
    ensures r.code.DnsService? && ErrorCode(codes, r.code.error) == code as int
    ensures r.code == DnsService(FromErrorCode(codes, code).value)
  {
    Error(DnsService(FromErrorCode(codes, code).value))
  }

  /** `other(code:_:)`: keeps the raw code and the detail as given. */
  function MakeOtherError(code: int, detail: Option<string> := None): (r: Error)
    ensures r.code.Other? && r.code.code == code && r.code.detail == detail
  {
    Error(Other(code, detail))
  }

  /** The code of the native `NoError` status is accepted: it yields a
      `dnsService` error wrapping `NoError`, whatever the detail. */
  lemma NoErrorIsWrapped(codes: NativeCodes, detail: Option<string>)
    ensures FromErrorCode(codes, codes.noError).Some?
    ensures MakeDnsServiceError(codes, codes.noError, detail).code == DnsService(NoError)
  {
  }

  /** With distinct constants, the error built from a case's constant wraps that case. */
  lemma DnsServiceErrorOfCase(codes: NativeCodes, e: DNSServiceError, detail: Option<string>)
    requires Distinct(codes)
    ensures -0x8000_0000 <= ErrorCode(codes, e) < 0x8000_0000
    ensures FromErrorCode(codes, ErrorCode(codes, e) as Int32).Some?
    ensures MakeDnsServiceError(codes, ErrorCode(codes, e) as Int32, detail).code == DnsService(e)
  {
    FromErrorCodeRoundTrip(codes, e);
  }

  // Reading a description back.

  // The positions below repeat the enumeration's order only so that the
  // search for a label compares one kind at a time, which keeps each proof
  // obligation small.

  /** The cases in declaration order, by position. */
  function KindAt(i: nat): Kind
    requires i < 24
  {
    match i
    case 0 => NoData
    case 1 => InvalidQuery
    case 2 => ServerFailure
    case 3 => NotFound
    case 4 => NotImplemented
    case 5 => ServerRefused
    case 6 => BadQuery
    case 7 => BadName
    case 8 => BadFamily
    case 9 => BadResponse
    case 10 => ConnectionRefused
    case 11 => Kind.Timeout
    case 12 => Eof
    case 13 => FileIO
    case 14 => Kind.NoMemory
    case 15 => Destruction
    case 16 => BadString
    case 17 => Kind.BadFlags
    case 18 => NoName
    case 19 => BadHints
    case 20 => Kind.NotInitialized
    case 21 => InitError
    case 22 => Cancelled
    case _ => Service
  }

  /** Position of each case in declaration order. */
  function KindIndex(k: Kind): (i: nat)
    ensures i < 24 && KindAt(i) == k
  {
    match k
    case NoData => 0
    case InvalidQuery => 1
    case ServerFailure => 2
    case NotFound => 3
    case NotImplemented => 4
    case ServerRefused => 5
    case BadQuery => 6
    case BadName => 7
    case BadFamily => 8
    case BadResponse => 9
    case ConnectionRefused => 10
    case Timeout => 11
    case Eof => 12
    case FileIO => 13
    case NoMemory => 14
    case Destruction => 15
    case BadString => 16
    case BadFlags => 17
    case NoName => 18
    case BadHints => 19
    case NotInitialized => 20
    case InitError => 21
    case Cancelled => 22
    case Service => 23
  }

  /** The kind a label opens, if any: the inverse of `KindLabel`. */
  function KindOfLabel(s: string): (r: Option<Kind>)
    ensures r.Some? ==> KindLabel(r.value) == s
    ensures r.None? ==> forall k :: KindLabel(k) != s
  {
    LabelledBelow(24, s)
  }

  /** A kind at a position below `n` that is labelled `s`, if there is one. */
  function LabelledBelow(n: nat, s: string): (r: Option<Kind>)
    requires n <= 24
    ensures r.Some? ==> KindLabel(r.value) == s
    ensures r.None? ==> forall k :: KindIndex(k) < n ==> KindLabel(k) != s
  {
    if n == 0 then None
    else
      var k := KindAt(n - 1);
      if KindLabel(k) == s then Some(k) else LabelledBelow(n - 1, s)
  }

  /** Each label reads back as its kind. */
  lemma KindLabelRoundTrip(k: Kind)
    ensures KindOfLabel(KindLabel(k)) == Some(k)
  {
    var r := KindOfLabel(KindLabel(k));
    KindLabelInjective(r.value, k);
  }

  /** Distinct kinds have distinct labels: labels of different lengths
      differ, and labels of one length are compared among themselves. */
  lemma KindLabelInjective(k1: Kind, k2: Kind)
    requires KindLabel(k1) == KindLabel(k2)
    ensures k1 == k2
  {
    var n := LabelLength(k1);
    assert LabelLength(k2) == n;
    if n == 7 {
      LabelsOfLength7Differ(k1, k2);
    } else if n == 9 {
      LabelsOfLength9Differ(k1, k2);
    } else if n == 10 {
      LabelsOfLength10Differ(k1, k2);
    } else if n == 14 {
      LabelsOfLength14Differ(k1, k2);
    } else if n == 15 {
      LabelsOfLength15Differ(k1, k2);
    }
  }

  // The label lengths below tabulate `|KindLabel(k)|`, and the lemmas after
  // them compare labels of one length at a time, or look for a colon in a
  // third of the labels at a time. They exist only to keep the proof
  // obligations small.

  /** The length of each kind's label. */
  function LabelLength(k: Kind): nat {
    match k
    case NoData => 7
    case InvalidQuery => 13
    case ServerFailure => 14
    case NotFound => 9
    case NotImplemented => 15
    case ServerRefused => 14
    case BadQuery => 9
    case BadName => 8
    case BadFamily => 10
    case BadResponse => 12
    case ConnectionRefused => 18
    case Timeout => 7
    case Eof => 3
    case FileIO => 7
    case NoMemory => 9
    case Destruction => 11
    case BadString => 10
    case BadFlags => 9
    case NoName => 7
    case BadHints => 9
    case NotInitialized => 15
    case InitError => 20
    case Cancelled => 9
    case Service => 7
  }

  lemma LabelsOfLength7Differ(k1: Kind, k2: Kind)
    requires LabelLength(k1) == 7 && LabelLength(k2) == 7
    requires KindLabel(k1) == KindLabel(k2)
    ensures k1 == k2
  {
  }

  lemma LabelsOfLength9Differ(k1: Kind, k2: Kind)
    requires LabelLength(k1) == 9 && LabelLength(k2) == 9
    requires KindLabel(k1) == KindLabel(k2)
    ensures k1 == k2
  {
  }

  lemma LabelsOfLength10Differ(k1: Kind, k2: Kind)
    requires LabelLength(k1) == 10 && LabelLength(k2) == 10
    requires KindLabel(k1) == KindLabel(k2)
    ensures k1 == k2
  {
  }

  lemma LabelsOfLength14Differ(k1: Kind, k2: Kind)
    requires LabelLength(k1) == 14 && LabelLength(k2) == 14
    requires KindLabel(k1) == KindLabel(k2)
    ensures k1 == k2
  {
  }

  lemma LabelsOfLength15Differ(k1: Kind, k2: Kind)
    requires LabelLength(k1) == 15 && LabelLength(k2) == 15
    requires KindLabel(k1) == KindLabel(k2)
    ensures k1 == k2
  {
  }

  /** No label contains a colon; the kinds are taken eight at a time. */
  lemma KindLabelColonFree(k: Kind)
    ensures ':' !in KindLabel(k)
  {
    var i := KindIndex(k);
    if i < 8 {
      FirstLabelsColonFree(k);
    } else if i < 16 {
      MiddleLabelsColonFree(k);
    } else {
      LastLabelsColonFree(k);
    }
  }

  lemma FirstLabelsColonFree(k: Kind)
    requires KindIndex(k) < 8
    ensures ':' !in KindLabel(k)
  {
  }

  lemma MiddleLabelsColonFree(k: Kind)
    requires 8 <= KindIndex(k) < 16
    ensures ':' !in KindLabel(k)
  {
  }

  lemma LastLabelsColonFree(k: Kind)
    requires 16 <= KindIndex(k)
    ensures ':' !in KindLabel(k)
  {
  }

  /** No label opens with 'D' or 'o'. */
  lemma KindLabelOpening(k: Kind)
    ensures 0 < |KindLabel(k)| && KindLabel(k)[0] !in "Do"
  {
  }

  /** Text that is no label opens no kind. */
  lemma KindOfLabelNone(s: string)
    requires 0 < |s| && s[0] in "Do" && ':' !in s
    ensures KindOfLabel(s) == None
  {
    forall k: Kind ensures KindLabel(k) != s {
      KindLabelOpening(k);
    }
  }

  /** A code with every absent detail replaced by the empty text: what a
      description can tell apart. */
  function Normalized(c: Code): Code {
    match c
    case Labelled(k, d) => Labelled(k, Some(OrEmpty(d)))
    case DnsService(e) => c
    case Other(n, d) => Other(n, Some(OrEmpty(d)))
  }

  /** Reads a code back from its description: the text before the first
      colon says which case it is. */
  function ParseCodeDescription(s: string): Option<Code> {
    var i := IndexOf(s, ':');
    if |s| < i + 2 || s[i..i + 2] != ": " then None
    else ParseCodeParts(s[..i], s[i + 2..])
  }

  function ParseCodeParts(head: string, rest: string): Option<Code> {
    match KindOfLabel(head)
    case Some(k) => Some(Labelled(k, Some(rest)))
    case None =>
      if head == "DNS service" then ParseServiceError(rest)
      else ParseOther(head, rest)
  }

  /** Reads "<name> [<code>]" back as the named service error. */
  function ParseServiceError(rest: string): Option<Code> {
    var j := LastIndexOf(rest, '[');
    if j < 1 || rest[j - 1] != ' ' then None
    else match ServiceErrorNamed(rest[..j - 1])
      case Some(e) => Some(DnsService(e))
      case None => None
  }

  /** Reads "other [<code>]" and the detail back as an `other` code. */
  function ParseOther(head: string, rest: string): Option<Code> {
    if 8 <= |head| && head[..7] == "other [" && head[|head| - 1] == ']' then
      match ParseDecimal(head[7..|head| - 1])
      case Some(n) => Some(Other(n, Some(rest)))
      case None => None
    else None
  }

  /** The description splits at its first colon into the case's head and the rest. */
  lemma ParseAtColon(head: string, rest: string)
    requires ':' !in head
    ensures ParseCodeDescription(head + ": " + rest) == ParseCodeParts(head, rest)
  {
    var s := head + ": " + rest;
    assert s == head + (": " + rest);
    IndexOfAfter(head, ": " + rest, ':');
    assert s[..|head|] == head && s[|head| + 2..] == rest;
  }

  lemma LabelledDescriptionRoundTrip(codes: NativeCodes, k: Kind, d: Option<string>)
    ensures ParseCodeDescription(CodeDescription(codes, Labelled(k, d))) == Some(Labelled(k, Some(OrEmpty(d))))
  {
    KindLabelColonFree(k);
    ParseAtColon(KindLabel(k), OrEmpty(d));
    KindLabelRoundTrip(k);
  }

  lemma ServiceErrorTextRoundTrip(name: string, number: string, e: DNSServiceError)
    requires ServiceErrorNamed(name) == Some(e) && '[' !in number
    ensures ParseServiceError(name + " [" + number + "]") == Some(DnsService(e))
  {
    ServiceTextSplits(name, number);
  }

  /** "<name> [<number>]" splits before its last '[' into the name and the rest. */
  lemma ServiceTextSplits(name: string, number: string)
    requires '[' !in number
    ensures var rest := name + " [" + number + "]";
      var j := LastIndexOf(rest, '[');
      j == |name| + 1 && rest[j - 1] == ' ' && rest[..j - 1] == name
  {
    var rest := name + " [" + number + "]";
    var tail := number + "]";
    assert '[' !in tail;
    assert rest == (name + " ") + ['['] + tail;
    LastIndexOfBefore(name + " ", tail, '[');
    assert rest[|name|] == ' ' && rest[..|name|] == name;
  }

  /** The service form of a description, for any name that reads back. */
  lemma DnsServiceTextRoundTrip(name: string, number: string, e: DNSServiceError)
    requires ServiceErrorNamed(name) == Some(e) && '[' !in number
    ensures ParseCodeDescription("DNS service: " + name + " [" + number + "]") == Some(DnsService(e))
  {
    ServiceHeadSplits(name, number);
    ServiceHeadParts(name + " [" + number + "]");
    ServiceErrorTextRoundTrip(name, number, e);
  }

  lemma ServiceHeadSplits(name: string, number: string)
    ensures ParseCodeDescription("DNS service: " + name + " [" + number + "]")
         == ParseCodeParts("DNS service", name + " [" + number + "]")
  {
    var rest := name + " [" + number + "]";
    assert "DNS service: " + name + " [" + number + "]" == "DNS service" + ": " + rest;
    ParseAtColon("DNS service", rest);
  }

  lemma ServiceHeadParts(rest: string)
    ensures ParseCodeParts("DNS service", rest) == ParseServiceError(rest)
  {
    KindOfLabelNone("DNS service");
  }

  lemma DnsServiceDescriptionRoundTrip(codes: NativeCodes, e: DNSServiceError)
    ensures ParseCodeDescription(CodeDescription(codes, DnsService(e))) == Some(DnsService(e))
  {
    var number := Decimal(ErrorCode(codes, e));
    assert '[' !in number;
    ServiceErrorNameRoundTrip(e);
    DnsServiceTextRoundTrip(ServiceErrorName(e), number, e);
  }

  lemma OtherDescriptionRoundTrip(codes: NativeCodes, n: int, d: Option<string>)
    ensures ParseCodeDescription(CodeDescription(codes, Other(n, d))) == Some(Other(n, Some(OrEmpty(d))))
  {
    var head := "other [" + Decimal(n) + "]";
    assert CodeDescription(codes, Other(n, d)) == head + ": " + OrEmpty(d);
    OtherHeadColonFree(n);
    ParseAtColon(head, OrEmpty(d));
    OtherHeadParts(n, OrEmpty(d));
  }

  lemma OtherHeadColonFree(n: int)
    ensures ':' !in "other [" + Decimal(n) + "]"
  {
    var head := "other [" + Decimal(n) + "]";
    assert forall i :: 0 <= i < |Decimal(n)| ==> head[7 + i] == Decimal(n)[i];
  }

  lemma OtherHeadParts(n: int, rest: string)
    ensures ParseCodeParts("other [" + Decimal(n) + "]", rest) == Some(Other(n, Some(rest)))
  {
    var head := "other [" + Decimal(n) + "]";
    OtherHeadColonFree(n);
    KindOfLabelNone(head);
    assert head[0] == 'o';
    assert head[..7] == "other [" && head[7..|head| - 1] == Decimal(n);
    DecimalRoundTrip(n);
  }

  /** The description of a code reads back as that code, up to an absent
      detail reading back as the empty text. */
  lemma CodeDescriptionRoundTrip(codes: NativeCodes, c: Code)
    ensures ParseCodeDescription(CodeDescription(codes, c)) == Some(Normalized(c))
  {
    match c
    case Labelled(k, d) => LabelledDescriptionRoundTrip(codes, k, d);
    case DnsService(e) => DnsServiceDescriptionRoundTrip(codes, e);
    case Other(n, d) => OtherDescriptionRoundTrip(codes, n, d);
  }

  /** Two codes with the same description differ at most in an absent
      detail standing where the other has the empty text. */
  lemma CodeDescriptionInjective(codes: NativeCodes, c1: Code, c2: Code)
    requires CodeDescription(codes, c1) == CodeDescription(codes, c2)
    ensures Normalized(c1) == Normalized(c2)
  {
    CodeDescriptionRoundTrip(codes, c1);
    CodeDescriptionRoundTrip(codes, c2);
  }
}
