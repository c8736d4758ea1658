# MiniAsyncDNSResolver: error taxonomy and reply value types

A Dafny model of the value layer of MiniAsyncDNSResolver, a Swift DNS resolver
built on Apple's `dns_sd` service:

- `AsyncDNSResolver.Error`, its `Code` enumeration, and the factories that
  build an error. The model has 24 detail-carrying kinds, plus a decoded
  native service error and a raw `other` code.
- The nested `DNSServiceError` enumeration of native service status codes,
  with its `errorCode`, `description` and failable `init?(errorCode:)`.
- The query types (`QueryType`, `Interface`, `IPAddress`) and the typed
  reply records (A, AAAA, NS, SOA, PTR, MX, TXT, SRV, NAPTR), each with its
  `description`.

Everything in this layer is an immutable value, so the model is made of
datatypes, functions and lemmas. It has five modules in four files:

- `Swift` (`swift.dfy`): the Swift runtime behaviour the renderers rely on.
  This covers the fixed-width integer types, `?? ""`, the decimal text of an
  integer in interpolation, and the text of a `[String]`.
- `Text` (`swift.dfy`): small facts about strings used to read values back
  out of their text.
- `DNSServiceErrors` (`service_errors.dfy`): the native status enumeration.
- `Errors` (`errors.dfy`): `Error` and `Code`.
- `Resolver` (`resolver.dfy`): the record types and their descriptions.

The values of the `kDNSServiceErr_*` constants come from the platform header
`dns_sd.h`, which is not part of this model. Every operation that needs them
takes them as a parameter `codes: NativeCodes`. Each constant is taken to fit
the 32-bit `DNSServiceErrorType`; a lemma that needs them to be pairwise
distinct says so with `requires Distinct(codes)`.

Each renderer is paired with a partner that reads its text back:

- `ServiceErrorNamed` reads back a native error's name.
- `KindOfLabel` reads back a kind's label.
- `ParseCodeDescription` reads back a whole error description.
- `ParseDecimal` reads back an integer's text.

The partners come with round-trip and injectivity lemmas. The record
descriptions are covered by injectivity lemmas: equal texts imply equal
fields.

## Model

| member | source | states |
|---|---|---|
| DNSServiceErrors.ErrorCode | Sources/MiniAsyncDNSResolver/Errors.swift:262-300 | `errorCode` is the case's native constant, which lies in the 32-bit range because the constants are taken to be 32-bit values |
| DNSServiceErrors.FromErrorCode | Sources/MiniAsyncDNSResolver/Errors.swift:342-381 | a decoded case's `errorCode` is the value decoded; the `NoError` constant always decodes to `NoError` |
| DNSServiceErrors.FromErrorCodeNone | Sources/MiniAsyncDNSResolver/Errors.swift:342-381 | `init?(errorCode:)` returns nil exactly when the value is no case's constant |
| DNSServiceErrors.FromErrorCodeRoundTrip | Sources/MiniAsyncDNSResolver/Errors.swift:262-300 | with distinct constants, each case's `errorCode` decodes back to that case (its 32-bit range follows from the constants being taken as 32-bit values) |
| DNSServiceErrors.ServiceErrorName | Sources/MiniAsyncDNSResolver/Errors.swift:302-340 | `description` is the case's name as written, at least six characters long; that the names read back and are pairwise distinct is stated by the rows below |
| DNSServiceErrors.ServiceErrorNamed | Sources/MiniAsyncDNSResolver/Errors.swift:302-340 | the case named by a text has that text as its `description`; when there is none, no case has that text as its `description` |
| DNSServiceErrors.ServiceErrorNameRoundTrip | Sources/MiniAsyncDNSResolver/Errors.swift:302-340 | every case's `description` reads back as that case |
| DNSServiceErrors.ServiceErrorNameInjective | Sources/MiniAsyncDNSResolver/Errors.swift:302-340 | distinct cases have distinct descriptions |
| Errors.KindLabel | Sources/MiniAsyncDNSResolver/Errors.swift:50-97 | the label that opens each kind's description; its length is the one the label table gives, which the injectivity proof compares |
| Errors.CodeDescription | Sources/MiniAsyncDNSResolver/Errors.swift:48-103 | a labelled code's text opens with "<label>: ", a service error's with "DNS service: <name> [" and ends with "]", a raw code's opens with "other [<code>]: " |
| Errors.ErrorDescription | Sources/MiniAsyncDNSResolver/Errors.swift:112-114 | an error's description is its code's description |
| Errors.MakeError | Sources/MiniAsyncDNSResolver/Errors.swift:116-210 | each kind's factory builds a code of that kind carrying the detail unchanged (nil by default) |
| Errors.MakeDnsServiceError | Sources/MiniAsyncDNSResolver/Errors.swift:212-215 | `dnsService(code:)` wraps the case decoded from the code, whose `errorCode` equals the code; the detail is dropped |
| Errors.NoErrorIsWrapped | Sources/MiniAsyncDNSResolver/Errors.swift:212-215 | the `NoError` status is accepted and yields `dnsService(.NoError)`, whatever the detail |
| Errors.DnsServiceErrorOfCase | Sources/MiniAsyncDNSResolver/Errors.swift:212-215 | with distinct constants, passing a case's constant yields that case, whatever the detail |
| Errors.MakeOtherError | Sources/MiniAsyncDNSResolver/Errors.swift:217-219 | `other(code:)` keeps the raw code and the detail as given |
| Errors.KindOfLabel | Sources/MiniAsyncDNSResolver/Errors.swift:48-97 | the kind found for a text has that text as its label; when there is none, no kind has that label |
| Errors.KindLabelRoundTrip | Sources/MiniAsyncDNSResolver/Errors.swift:48-97 | every kind's label reads back as that kind |
| Errors.KindLabelInjective | Sources/MiniAsyncDNSResolver/Errors.swift:48-97 | distinct kinds have distinct labels |
| Errors.KindLabelColonFree | Sources/MiniAsyncDNSResolver/Errors.swift:48-97 | no label contains ':', so a description's first colon ends its label |
| Errors.LabelledDescriptionRoundTrip | Sources/MiniAsyncDNSResolver/Errors.swift:50-97 | "<label>: <detail ?? "">" reads back as the kind, with the detail or the empty text |
| Errors.DnsServiceDescriptionRoundTrip | Sources/MiniAsyncDNSResolver/Errors.swift:98-99 | "DNS service: <name> [<errorCode>]" reads back as the wrapped case |
| Errors.OtherDescriptionRoundTrip | Sources/MiniAsyncDNSResolver/Errors.swift:100-101 | "other [<code>]: <detail ?? "">" reads back as the raw code and the detail |
| Errors.CodeDescriptionRoundTrip | Sources/MiniAsyncDNSResolver/Errors.swift:48-103 | every code's description reads back as that code, with an absent detail read as the empty text |
| Errors.CodeDescriptionInjective | Sources/MiniAsyncDNSResolver/Errors.swift:48-103 | two codes with the same description are equal once an absent detail is read as the empty text |
| Swift.OrEmpty | Sources/MiniAsyncDNSResolver/Errors.swift:51 | `s ?? ""` is the string when present and the empty text when nil |
| Swift.Decimal | Sources/MiniAsyncDNSResolver/Errors.swift:101 | the interpolated text of an integer is non-empty, opens with '-' exactly when the integer is negative, and is otherwise made of digits |
| Swift.DecimalRoundTrip | Sources/MiniAsyncDNSResolver/Errors.swift:101 | the interpolated text of an integer (a '-' sign, then base-10 digits) reads back as that integer |
| Swift.DecimalInjective | Sources/MiniAsyncDNSResolver/AsyncDNSResolver.swift:242 | distinct integers interpolate to distinct texts |
| Swift.ArrayDescription | Sources/MiniAsyncDNSResolver/AsyncDNSResolver.swift:211 | the text of a `[String]` is bracketed and is "[]" exactly for the empty array |
| Swift.ArrayDescriptionInjective | Sources/MiniAsyncDNSResolver/AsyncDNSResolver.swift:211 | the text of a `[String]` whose elements hold no '"' determines the array |
| Resolver.AddressDescription | Sources/MiniAsyncDNSResolver/AsyncDNSResolver.swift:179-186 | an address's description is its text, whichever the family |
| Resolver.AddressDescriptionForgetsFamily | Sources/MiniAsyncDNSResolver/AsyncDNSResolver.swift:179-186 | an IPv4 and an IPv6 address with the same text describe alike |
| Resolver.TtlText | Sources/MiniAsyncDNSResolver/AsyncDNSResolver.swift:194 | the TTL text is empty exactly when the TTL is nil, and never contains '=' |
| Resolver.TtlTextInjective | Sources/MiniAsyncDNSResolver/AsyncDNSResolver.swift:194 | the TTL text determines the TTL, nil included |
| Resolver.ARecordDescription | Sources/MiniAsyncDNSResolver/AsyncDNSResolver.swift:193-195 | the description opens with the type name and its first field, "ARecord(address=", and closes with ")"; what it determines is stated by the lemma below |
| Resolver.AAAARecordDescription | Sources/MiniAsyncDNSResolver/AsyncDNSResolver.swift:202-204 | the description opens with the type name and its first field, "AAAARecord(address=", and closes with ")"; what it determines is stated by the lemma below |
| Resolver.NSRecordDescription | Sources/MiniAsyncDNSResolver/AsyncDNSResolver.swift:210-212 | the description opens with the type name and its first field, "NSRecord(nameservers=[", and closes with ")"; what it determines is stated by the lemma below |
| Resolver.SOARecordDescription | Sources/MiniAsyncDNSResolver/AsyncDNSResolver.swift:224-226 | the description opens with the type name and its first field, "SOARecord(mname=", and closes with ")"; what it determines is stated by the lemma below |
| Resolver.PTRRecordDescription | Sources/MiniAsyncDNSResolver/AsyncDNSResolver.swift:232-234 | the description opens with the type name and its first field, "PTRRecord(names=[", and closes with ")"; what it determines is stated by the lemma below |
| Resolver.MXRecordDescription | Sources/MiniAsyncDNSResolver/AsyncDNSResolver.swift:241-243 | the description opens with the type name and its first field, "MXRecord(host=", and closes with ")"; what it determines is stated by the lemma below |
| Resolver.TXTRecordDescription | Sources/MiniAsyncDNSResolver/AsyncDNSResolver.swift:249-251 | the description opens with the type name and its first field, "TXTRecord(", and closes with ")"; what it determines is stated by the lemma below |
| Resolver.SRVRecordDescription | Sources/MiniAsyncDNSResolver/AsyncDNSResolver.swift:260-262 | the description opens with the type name and its first field, "SRVRecord(host=", and closes with ")"; what it determines is stated by the lemma below |
| Resolver.NAPTRRecordDescription | Sources/MiniAsyncDNSResolver/AsyncDNSResolver.swift:273-275 | the description opens with the type name and its first field, "NAPTRRecord(flags=", and closes with ")"; what it determines is stated by the lemma below |
| Resolver.ARecordDescriptionInjective | Sources/MiniAsyncDNSResolver/AsyncDNSResolver.swift:193-195 | an A record's description gives back its address text and its TTL |
| Resolver.AAAARecordDescriptionInjective | Sources/MiniAsyncDNSResolver/AsyncDNSResolver.swift:202-204 | an AAAA record's description gives back its address text and its TTL |
| Resolver.NSRecordDescriptionInjective | Sources/MiniAsyncDNSResolver/AsyncDNSResolver.swift:210-212 | an NS record whose names hold no '"' is determined by its description |
| Resolver.SOARecordDescriptionNumbers | Sources/MiniAsyncDNSResolver/AsyncDNSResolver.swift:224-226 | an SOA record's description gives back serial, refresh, retry, expire and ttl, and the text "<mname>, rname=<rname>" of its two names together |
| Resolver.PTRRecordDescriptionInjective | Sources/MiniAsyncDNSResolver/AsyncDNSResolver.swift:232-234 | a PTR record whose names hold no '"' is determined by its description |
| Resolver.MXRecordDescriptionInjective | Sources/MiniAsyncDNSResolver/AsyncDNSResolver.swift:241-243 | an MX record is determined by its description (host, then priority) |
| Resolver.TXTRecordDescriptionInjective | Sources/MiniAsyncDNSResolver/AsyncDNSResolver.swift:249-251 | a TXT record is determined by its description "TXTRecord(<txt>)" |
| Resolver.SRVRecordDescriptionInjective | Sources/MiniAsyncDNSResolver/AsyncDNSResolver.swift:260-262 | an SRV record is determined by its description (host, port, weight, priority, in that order) |
| Resolver.NAPTRRecordDescriptionNumbers | Sources/MiniAsyncDNSResolver/AsyncDNSResolver.swift:273-275 | a NAPTR record's description gives back its order and preference, and the text of its four text fields together |

## Left out

- The `dns_sd` query engine (`dnssd/DNSResolver_dnssd.swift`), the public
  resolver facade and its protocol (AsyncDNSResolver.swift:18-153), and all
  asynchronous behaviour. They run native queries and callbacks, which lie
  outside a value model.
- The numeric values of the `kDNSServiceErr_*` constants. They come from a
  platform header, so they are a parameter here. Each is assumed to fit
  `DNSServiceErrorType` (a 32-bit integer), although the source widens them
  to `Int`; their distinctness is assumed where a lemma needs it.
- DNSServiceErrors.ErrorCode: its 32-bit range is an assumption carried by
  the type of the constants, not something proved. The same holds for the
  range clauses of DNSServiceErrors.FromErrorCodeRoundTrip and
  Errors.DnsServiceErrorOfCase.
- Strings are sequences of Unicode scalars and are compared scalar by
  scalar. Swift compares `String`s, and so the synthesized `Equatable` of
  `Code`, up to canonical equivalence ("\u{E9}" equals "e\u{301}"). Every
  round-trip and injectivity lemma here is therefore a statement about
  scalar sequences.
- Logging and the Swift runtime's general `String(describing:)` machinery.
  Only the forms the renderers use are modelled: the decimal text of
  integers, `?? ""`, `Self.self` as the literal type name, and `[String]`.
- The escaping of special characters inside `[String]` descriptions. The
  model quotes each element verbatim.
- Errors.MakeDnsServiceError: the source stops the program (`fatalError`)
  on a native code that no case has. The model makes this a precondition
  instead of modelling a crash. An unrecognised code does not fall back to
  `other(code:)`.
- Errors.CodeDescriptionInjective: a nil detail and an empty detail render
  alike, so codes are recovered only up to that difference (`Normalized`).
- Resolver.NSRecordDescriptionInjective: holds only for names without '"',
  because unescaped quotes would make the text ambiguous.
- Resolver.PTRRecordDescriptionInjective: holds only for names without '"',
  for the same reason.
- Resolver.ARecordDescriptionInjective: recovers the address text but not
  its family, because IPv4 and IPv6 addresses render alike.
- Resolver.AAAARecordDescriptionInjective: recovers the address text but not
  its family, for the same reason.
- Resolver.SOARecordDescriptionNumbers: recovers the five numbers, but
  `mname` and `rname` only as one text. Either name may itself contain
  ", rname=", so the text does not determine them one by one.
- Resolver.NAPTRRecordDescriptionNumbers: recovers `order` and `preference`,
  but the four text fields only as one text. Each may contain the
  separators of the others.
- `QueryType` and `Interface` are modelled as datatypes only. Within the
  modelled lines they have no operations; they are used by the facade,
  which is left out.
- `TXTRecord` declares a `description` but does not conform to
  `CustomStringConvertible`. The model renders it as declared, and
  interpolating a `TXTRecord` elsewhere is not modelled.
