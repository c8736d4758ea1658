/** The native DNS service status codes (the `DNSServiceError` enumeration of
    Sources/MiniAsyncDNSResolver/Errors.swift:223-383): its cases, the native
    code of each case, the case named by a native code, and each case's name. */
module DNSServiceErrors {
  import opened Swift
  import opened Text

  /** One case per `kDNSServiceErr_*` constant of the native `dns_sd.h` header. */
  datatype DNSServiceError =
    NoError
    | Unknown
    | NoSuchName
    | NoMemory
    | BadParam
    | BadReference
    | BadState
    | BadFlags
    | Unsupported
    | NotInitialized
    | AlreadyRegistered
    | NameConflict
    | Invalid
    | Firewall
    | Incompatible
    | BadInterfaceIndex
    | Refused
    | NoSuchRecord
    | NoAuth
    | NoSuchKey
    | NATTraversal
    | DoubleNAT
    | BadTime
    | BadSig
    | BadKey
    | Transient
    | ServiceNotRunning
    | NATPortMappingUnsupported
    | NATPortMappingDisabled
    | NoRouter
    | PollingMode
    | Timeout
    | DefunctConnection
    | PolicyDenied
    | NotPermitted

  /** The values of the 35 `kDNSServiceErr_*` constants. The header defining
      them is outside this model, so every operation that needs them takes
      them as a parameter. Each is taken to fit the 32-bit `DNSServiceErrorType`;
      beyond that, only their being pairwise distinct is relied on. */
  datatype NativeCodes = NativeCodes(
    noError: Int32,
    unknown: Int32,
    noSuchName: Int32,
    noMemory: Int32,
    badParam: Int32,
    badReference: Int32,
    badState: Int32,
    badFlags: Int32,
    unsupported: Int32,
    notInitialized: Int32,
    alreadyRegistered: Int32,
    nameConflict: Int32,
    invalid: Int32,
    firewall: Int32,
    incompatible: Int32,
    badInterfaceIndex: Int32,
    refused: Int32,
    noSuchRecord: Int32,
    noAuth: Int32,
    noSuchKey: Int32,
    natTraversal: Int32,
    doubleNAT: Int32,
    badTime: Int32,
    badSig: Int32,
    badKey: Int32,
    transient: Int32,
    serviceNotRunning: Int32,
    natPortMappingUnsupported: Int32,
    natPortMappingDisabled: Int32,
    noRouter: Int32,
    pollingMode: Int32,
    timeout: Int32,
    defunctConnection: Int32,
    policyDenied: Int32,
    notPermitted: Int32
  )

  /** `errorCode`: the native constant of a case, widened to `Int`. The
      constants are taken to be `DNSServiceErrorType` (32-bit) values, so the
      result lies in that range. */
  function ErrorCode(codes: NativeCodes, e: DNSServiceError): (r: int)
    ensures -0x8000_0000 <= r < 0x8000_0000
  {
    match e
    case NoError => codes.noError as int
    case Unknown => codes.unknown as int
    case NoSuchName => codes.noSuchName as int
    case NoMemory => codes.noMemory as int
    case BadParam => codes.badParam as int
    case BadReference => codes.badReference as int
    case BadState => codes.badState as int
    case BadFlags => codes.badFlags as int
    case Unsupported => codes.unsupported as int
    case NotInitialized => codes.notInitialized as int
    case AlreadyRegistered => codes.alreadyRegistered as int
    case NameConflict => codes.nameConflict as int
    case Invalid => codes.invalid as int
    case Firewall => codes.firewall as int
    case Incompatible => codes.incompatible as int
    case BadInterfaceIndex => codes.badInterfaceIndex as int
    case Refused => codes.refused as int
    case NoSuchRecord => codes.noSuchRecord as int
    case NoAuth => codes.noAuth as int
    case NoSuchKey => codes.noSuchKey as int
    case NATTraversal => codes.natTraversal as int
    case DoubleNAT => codes.doubleNAT as int
    case BadTime => codes.badTime as int
    case BadSig => codes.badSig as int
    case BadKey => codes.badKey as int
    case Transient => codes.transient as int
    case ServiceNotRunning => codes.serviceNotRunning as int
    case NATPortMappingUnsupported => codes.natPortMappingUnsupported as int
    case NATPortMappingDisabled => codes.natPortMappingDisabled as int
    case NoRouter => codes.noRouter as int
    case PollingMode => codes.pollingMode as int
    case Timeout => codes.timeout as int
    case DefunctConnection => codes.defunctConnection as int
    case PolicyDenied => codes.policyDenied as int
    case NotPermitted => codes.notPermitted as int
  }

  /** The header gives every case its own value. */
  ghost predicate Distinct(codes: NativeCodes) {
    forall e1, e2 :: ErrorCode(codes, e1) == ErrorCode(codes, e2) ==> e1 == e2
  }

  /** `init?(errorCode:)`: the first case, in declaration order, whose
      constant equals `c`; `None` for any other value. */
  function FromErrorCode(codes: NativeCodes, c: Int32): (r: Option<DNSServiceError>)
    ensures r.Some? ==> ErrorCode(codes, r.value) == c as int
    ensures c == codes.noError ==> r == Some(NoError)
  {
    if ErrorCode(codes, NoError) == c as int then Some(NoError)
    else if ErrorCode(codes, Unknown) == c as int then Some(Unknown)
    else if ErrorCode(codes, NoSuchName) == c as int then Some(NoSuchName)
    else if ErrorCode(codes, NoMemory) == c as int then Some(NoMemory)
    else if ErrorCode(codes, BadParam) == c as int then Some(BadParam)
    else if ErrorCode(codes, BadReference) == c as int then Some(BadReference)
    else if ErrorCode(codes, BadState) == c as int then Some(BadState)
    else if ErrorCode(codes, BadFlags) == c as int then Some(BadFlags)
    else if ErrorCode(codes, Unsupported) == c as int then Some(Unsupported)
    else if ErrorCode(codes, NotInitialized) == c as int then Some(NotInitialized)
    else if ErrorCode(codes, AlreadyRegistered) == c as int then Some(AlreadyRegistered)
    else if ErrorCode(codes, NameConflict) == c as int then Some(NameConflict)
    else if ErrorCode(codes, Invalid) == c as int then Some(Invalid)
    else if ErrorCode(codes, Firewall) == c as int then Some(Firewall)
    else if ErrorCode(codes, Incompatible) == c as int then Some(Incompatible)
    else if ErrorCode(codes, BadInterfaceIndex) == c as int then Some(BadInterfaceIndex)
    else if ErrorCode(codes, Refused) == c as int then Some(Refused)
    else if ErrorCode(codes, NoSuchRecord) == c as int then Some(NoSuchRecord)
    else if ErrorCode(codes, NoAuth) == c as int then Some(NoAuth)
    else if ErrorCode(codes, NoSuchKey) == c as int then Some(NoSuchKey)
    else if ErrorCode(codes, NATTraversal) == c as int then Some(NATTraversal)
    else if ErrorCode(codes, DoubleNAT) == c as int then Some(DoubleNAT)
    else if ErrorCode(codes, BadTime) == c as int then Some(BadTime)
    else if ErrorCode(codes, BadSig) == c as int then Some(BadSig)
    else if ErrorCode(codes, BadKey) == c as int then Some(BadKey)
    else if ErrorCode(codes, Transient) == c as int then Some(Transient)
    else if ErrorCode(codes, ServiceNotRunning) == c as int then Some(ServiceNotRunning)
    else if ErrorCode(codes, NATPortMappingUnsupported) == c as int then Some(NATPortMappingUnsupported)
    else if ErrorCode(codes, NATPortMappingDisabled) == c as int then Some(NATPortMappingDisabled)
    else if ErrorCode(codes, NoRouter) == c as int then Some(NoRouter)
    else if ErrorCode(codes, PollingMode) == c as int then Some(PollingMode)
    else if ErrorCode(codes, Timeout) == c as int then Some(Timeout)
    else if ErrorCode(codes, DefunctConnection) == c as int then Some(DefunctConnection)
    else if ErrorCode(codes, PolicyDenied) == c as int then Some(PolicyDenied)
    else if ErrorCode(codes, NotPermitted) == c as int then Some(NotPermitted)
    else None
  }

  lemma NotInTable(codes: NativeCodes, c: Int32, e: DNSServiceError)
    requires FromErrorCode(codes, c).None?
    ensures ErrorCode(codes, e) != c as int
  {
  }

  /** `init?(errorCode:)` fails exactly on the values that are no case's constant. */
  lemma FromErrorCodeNone(codes: NativeCodes, c: Int32)
    ensures FromErrorCode(codes, c).None? <==> forall e :: ErrorCode(codes, e) != c as int
  {
    if FromErrorCode(codes, c).None? {
      forall e ensures ErrorCode(codes, e) != c as int {
        NotInTable(codes, c, e);
      }
    }
  }

  /** With distinct constants, decoding the code of a case gives that case back. */
  lemma FromErrorCodeRoundTrip(codes: NativeCodes, e: DNSServiceError)
    requires Distinct(codes)
    ensures -0x8000_0000 <= ErrorCode(codes, e) < 0x8000_0000
    ensures FromErrorCode(codes, ErrorCode(codes, e) as Int32) == Some(e)
  {
    var c := ErrorCode(codes, e) as Int32;
    FromErrorCodeNone(codes, c);
    var r := FromErrorCode(codes, c);
    assert r.Some?;
  }

  /** `description`: the name of the case, as written in the enumeration. */
  function ServiceErrorName(e: DNSServiceError): (r: string)
    ensures 6 <= |r|
  {
    match e
    case NoError => "NoError"
    case Unknown => "Unknown"
    case NoSuchName => "NoSuchName"
    case NoMemory => "NoMemory"
    case BadParam => "BadParam"
    case BadReference => "BadReference"
    case BadState => "BadState"
    case BadFlags => "BadFlags"
    case Unsupported => "Unsupported"
    case NotInitialized => "NotInitialized"
    case AlreadyRegistered => "AlreadyRegistered"
    case NameConflict => "NameConflict"
    case Invalid => "Invalid"
    case Firewall => "Firewall"
    case Incompatible => "Incompatible"
    case BadInterfaceIndex => "BadInterfaceIndex"
    case Refused => "Refused"
    case NoSuchRecord => "NoSuchRecord"
    case NoAuth => "NoAuth"
    case NoSuchKey => "NoSuchKey"
    case NATTraversal => "NATTraversal"
    case DoubleNAT => "DoubleNAT"
    case BadTime => "BadTime"
    case BadSig => "BadSig"
    case BadKey => "BadKey"
    case Transient => "Transient"
    case ServiceNotRunning => "ServiceNotRunning"
    case NATPortMappingUnsupported => "NATPortMappingUnsupported"
    case NATPortMappingDisabled => "NATPortMappingDisabled"
    case NoRouter => "NoRouter"
    case PollingMode => "PollingMode"
    case Timeout => "Timeout"
    case DefunctConnection => "DefunctConnection"
    case PolicyDenied => "PolicyDenied"
    case NotPermitted => "NotPermitted"
  }

  // Reading a name back. The positions below repeat the enumeration's order
  // only so that the search for a name compares one case at a time, which
  // keeps each proof obligation small.

  /** The cases in declaration order, by position. */
  function ServiceErrorAt(i: nat): DNSServiceError
    requires i < 35
  {
    match i
    case 0 => NoError
    case 1 => Unknown
    case 2 => NoSuchName
    case 3 => NoMemory
    case 4 => BadParam
    case 5 => BadReference
    case 6 => BadState
    case 7 => BadFlags
    case 8 => Unsupported
    case 9 => NotInitialized
    case 10 => AlreadyRegistered
    case 11 => NameConflict
    case 12 => Invalid
    case 13 => Firewall
    case 14 => Incompatible
    case 15 => BadInterfaceIndex
    case 16 => Refused
    case 17 => NoSuchRecord
    case 18 => NoAuth
    case 19 => NoSuchKey
    case 20 => NATTraversal
    case 21 => DoubleNAT
    case 22 => BadTime
    case 23 => BadSig
    case 24 => BadKey
    case 25 => Transient
    case 26 => ServiceNotRunning
    case 27 => NATPortMappingUnsupported
    case 28 => NATPortMappingDisabled
    case 29 => NoRouter
    case 30 => PollingMode
    case 31 => Timeout
    case 32 => DefunctConnection
    case 33 => PolicyDenied
    case _ => NotPermitted
  }

  /** Position of each case in declaration order. */
  function ServiceErrorIndex(e: DNSServiceError): (i: nat)
    ensures i < 35 && ServiceErrorAt(i) == e
  {
    match e
    case NoError => 0
    case Unknown => 1
    case NoSuchName => 2
    case NoMemory => 3
    case BadParam => 4
    case BadReference => 5
    case BadState => 6
    case BadFlags => 7
    case Unsupported => 8
    case NotInitialized => 9
    case AlreadyRegistered => 10
    case NameConflict => 11
    case Invalid => 12
    case Firewall => 13
    case Incompatible => 14
    case BadInterfaceIndex => 15
    case Refused => 16
    case NoSuchRecord => 17
    case NoAuth => 18
    case NoSuchKey => 19
    case NATTraversal => 20
    case DoubleNAT => 21
    case BadTime => 22
    case BadSig => 23
    case BadKey => 24
    case Transient => 25
    case ServiceNotRunning => 26
    case NATPortMappingUnsupported => 27
    case NATPortMappingDisabled => 28
    case NoRouter => 29
    case PollingMode => 30
    case Timeout => 31
    case DefunctConnection => 32
    case PolicyDenied => 33
    case NotPermitted => 34
  }

  /** The case a name denotes, if any: the inverse of `ServiceErrorName`. */
  function ServiceErrorNamed(s: string): (r: Option<DNSServiceError>)
    ensures r.Some? ==> ServiceErrorName(r.value) == s
    ensures r.None? ==> forall e :: ServiceErrorName(e) != s
  {
    NamedBelow(35, s)
  }

  /** A case at a position below `n` that is named `s`, if there is one. */
  function NamedBelow(n: nat, s: string): (r: Option<DNSServiceError>)
    requires n <= 35
    ensures r.Some? ==> ServiceErrorName(r.value) == s
    ensures r.None? ==> forall e :: ServiceErrorIndex(e) < n ==> ServiceErrorName(e) != s
  {
    if n == 0 then None
    else
      var e := ServiceErrorAt(n - 1);
      if ServiceErrorName(e) == s then Some(e) else NamedBelow(n - 1, s)
  }

  /** Every case's name reads back as that case. */
  lemma ServiceErrorNameRoundTrip(e: DNSServiceError)
    ensures ServiceErrorNamed(ServiceErrorName(e)) == Some(e)
  {
    var r := ServiceErrorNamed(ServiceErrorName(e));
    ServiceErrorNameInjective(r.value, e);
  }

  /** Distinct cases have distinct names: names of different lengths differ,
      and names of one length are compared among themselves. */
  lemma ServiceErrorNameInjective(e1: DNSServiceError, e2: DNSServiceError)
    requires ServiceErrorName(e1) == ServiceErrorName(e2)
    ensures e1 == e2
  {
    var n := NameLength(e1);
    assert NameLength(e2) == n;
    if n == 6 {
      NamesOfLength6Differ(e1, e2);
    } else if n == 7 {
      NamesOfLength7Differ(e1, e2);
    } else if n == 8 {
      NamesOfLength8Differ(e1, e2);
    } else if n == 9 {
      NamesOfLength9Differ(e1, e2);
    } else if n == 11 {
      NamesOfLength11Differ(e1, e2);
    } else if n == 12 {
      NamesOfLength12Differ(e1, e2);
    } else if n == 17 {
      NamesOfLength17Differ(e1, e2);
    }
  }

  // The name lengths below tabulate `|ServiceErrorName(e)|`, and the lemmas
  // after them compare names of one length at a time. They exist only to keep
  // the proof obligations of the injectivity lemma small.

  /** The length of each case's name. */
  function NameLength(e: DNSServiceError): (n: nat)
    ensures n == |ServiceErrorName(e)|
  {
    match e
    case NoError => 7
    case Unknown => 7
    case NoSuchName => 10
    case NoMemory => 8
    case BadParam => 8
    case BadReference => 12
    case BadState => 8
    case BadFlags => 8
    case Unsupported => 11
    case NotInitialized => 14
    case AlreadyRegistered => 17
    case NameConflict => 12
    case Invalid => 7
    case Firewall => 8
    case Incompatible => 12
    case BadInterfaceIndex => 17
    case Refused => 7
    case NoSuchRecord => 12
    case NoAuth => 6
    case NoSuchKey => 9
    case NATTraversal => 12
    case DoubleNAT => 9
    case BadTime => 7
    case BadSig => 6
    case BadKey => 6
    case Transient => 9
    case ServiceNotRunning => 17
    case NATPortMappingUnsupported => 25
    case NATPortMappingDisabled => 22
    case NoRouter => 8
    case PollingMode => 11
    case Timeout => 7
    case DefunctConnection => 17
    case PolicyDenied => 12
    case NotPermitted => 12
  }

  lemma NamesOfLength6Differ(e1: DNSServiceError, e2: DNSServiceError)
    requires NameLength(e1) == 6 && NameLength(e2) == 6
    requires ServiceErrorName(e1) == ServiceErrorName(e2)
    ensures e1 == e2
  {
  }

  lemma NamesOfLength7Differ(e1: DNSServiceError, e2: DNSServiceError)
    requires NameLength(e1) == 7 && NameLength(e2) == 7
    requires ServiceErrorName(e1) == ServiceErrorName(e2)
    ensures e1 == e2
  {
  }

  lemma NamesOfLength8Differ(e1: DNSServiceError, e2: DNSServiceError)
    requires NameLength(e1) == 8 && NameLength(e2) == 8
    requires ServiceErrorName(e1) == ServiceErrorName(e2)
    ensures e1 == e2
  {
  }

  lemma NamesOfLength9Differ(e1: DNSServiceError, e2: DNSServiceError)
    requires NameLength(e1) == 9 && NameLength(e2) == 9
    requires ServiceErrorName(e1) == ServiceErrorName(e2)
    ensures e1 == e2
  {
  }

  lemma NamesOfLength11Differ(e1: DNSServiceError, e2: DNSServiceError)
    requires NameLength(e1) == 11 && NameLength(e2) == 11
    requires ServiceErrorName(e1) == ServiceErrorName(e2)
    ensures e1 == e2
  {
  }

  lemma NamesOfLength12Differ(e1: DNSServiceError, e2: DNSServiceError)
    requires NameLength(e1) == 12 && NameLength(e2) == 12
    requires ServiceErrorName(e1) == ServiceErrorName(e2)
    ensures e1 == e2
  {
  }

  lemma NamesOfLength17Differ(e1: DNSServiceError, e2: DNSServiceError)
    requires NameLength(e1) == 17 && NameLength(e2) == 17
    requires ServiceErrorName(e1) == ServiceErrorName(e2)
    ensures e1 == e2
  {
  }
}
