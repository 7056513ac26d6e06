/** The messages between a proxy and its certificate generator: a query becomes a request,
    the reply to it becomes a cache entry. Both are maps of MessagePack values, read one
    entry at a time. */
module CertAgent {
  import opened Basics

  /** Certificates and private keys are only handed on. */
  datatype Cert = Cert(der: seq<nat>)
  datatype PrivateKey = PrivateKey(der: seq<nat>)

  type Bytes = seq<nat>

  /** A decoded MessagePack value. A string that is not UTF-8 is kept apart. */
  datatype Value =
    | Text(text: string)
    | BadText(raw: Bytes)
    | Binary(bytes: Bytes)
    | Integer(number: int)
    | Array(items: seq<Value>)
    | Map(entries: seq<(Value, Value)>)
    | Other

  /** What other libraries make of text, certificates and keys. */
  datatype Foreign = Foreign(
    utf8: Bytes -> Option<string>,
    lower: string -> string,
    decimal: int -> string,
    parseU32: string -> Option<nat>,
    radix10: Bytes -> Option<nat>,
    pemCerts: Value -> Option<seq<Cert>>,
    pemCert: Value -> Option<Cert>,
    derCert: Bytes -> Option<Cert>,
    pemKey: Value -> Option<PrivateKey>,
    derKey: Bytes -> Option<PrivateKey>)

  datatype Service = Http | Smtp | Imap

  datatype Usage = TlsServer | TlsServerTongsuo | TlcpServerSignature | TlcpServerEncryption

  function ServiceCode(s: Service): nat {
    match s case Http => 0 case Smtp => 1 case Imap => 2
  }

  function ServiceOf(u: nat): Option<Service> {
    match u case 0 => Some(Http) case 1 => Some(Smtp) case 2 => Some(Imap) case _ => None
  }

  function ServiceNamed(s: string): Option<Service> {
    if s == "http" || s == "HTTP" then Some(Http)
    else if s == "smtp" || s == "SMTP" then Some(Smtp)
    else if s == "imap" || s == "IMAP" then Some(Imap)
    else None
  }

  function UsageCode(u: Usage): nat {
    match u case TlsServer => 0 case TlsServerTongsuo => 1 case TlcpServerSignature => 11 case TlcpServerEncryption => 12
  }

  function UsageOf(u: nat): Option<Usage> {
    match u
    case 0 => Some(TlsServer)
    case 1 => Some(TlsServerTongsuo)
    case 11 => Some(TlcpServerSignature)
    case 12 => Some(TlcpServerEncryption)
    case _ => None
  }

  function UsageNamed(s: string): Option<Usage> {
    if s in {"tls_server", "tlsserver"} then Some(TlsServer)
    else if s in {"tls_server_tongsuo", "tlsservertongsuo"} then Some(TlsServerTongsuo)
    else if s in {"tlcp_server_signature", "tlcp_server_sign", "tlcpserversignature", "tlcpserversign"}
    then Some(TlcpServerSignature)
    else if s in {"tlcp_server_encryption", "tlcp_server_enc", "tlcpserverencryption", "tlcpserverenc"}
    then Some(TlcpServerEncryption)
    else None
  }

  function AsString(f: Foreign, v: Value): Option<string> {
    match v
    case Text(s) => Some(s)
    case Binary(b) => f.utf8(b)
    case Integer(i) => Some(f.decimal(i))
    case _ => None
  }

  function AsU32(f: Foreign, v: Value): Option<nat> {
    match v
    case Text(s) => f.parseU32(s)
    case Binary(b) => f.radix10(b)
    case Integer(i) => if 0 <= i < 0x1_0000_0000 then Some(i) else None
    case _ => None
  }

  /** The text of a value that may be given as a string or as its bytes. */
  function AsText(f: Foreign, v: Value): Option<string> {
    match v
    case Text(s) => Some(s)
    case Binary(b) => f.utf8(b)
    case _ => None
  }

  function AsService(f: Foreign, v: Value): Option<Service> {
    if v.Integer? then if 0 <= v.number < 256 then ServiceOf(v.number) else None
    else match AsText(f, v) case Some(s) => ServiceNamed(s) case None => None
  }

  function AsUsage(f: Foreign, v: Value): Option<Usage> {
    if v.Integer? then if 0 <= v.number < 256 then UsageOf(v.number) else None
    else match AsText(f, v) case Some(s) => UsageNamed(f.lower(s)) case None => None
  }

  function AsCert(f: Foreign, v: Value): Option<Cert> {
    match v
    case Text(_) => f.pemCert(v)
    case BadText(_) => f.pemCert(v)
    case Binary(b) => f.derCert(b)
    case _ => None
  }

  function AsCertsElement(f: Foreign, v: Value): Option<seq<Cert>> {
    if v.Text? || v.BadText? || v.Binary? then
      var certs := f.pemCerts(v);
      if certs == Some([]) then None else certs
    else None
  }

  /** The certificates of every element, if all of them have some. */
  function AsCertsArray(f: Foreign, items: seq<Value>): Option<seq<Cert>> {
    if items == [] then Some([])
    else match (AsCertsElement(f, items[0]), AsCertsArray(f, items[1..]))
      case (Some(a), Some(b)) => Some(a + b)
      case _ => None
  }

  function AsCerts(f: Foreign, v: Value): Option<seq<Cert>> {
    if v.Array? then AsCertsArray(f, v.items) else AsCertsElement(f, v)
  }

  function AsKey(f: Foreign, v: Value): Option<PrivateKey> {
    match v
    case Text(_) => f.pemKey(v)
    case BadText(_) => f.pemKey(v)
    case Binary(b) => f.derKey(b)
    case _ => None
  }

  function Underscored(s: string): string {
    if s == "" then "" else [if s[0] == '-' then '_' else s[0]] + Underscored(s[1..])
  }

  function Normalize(f: Foreign, s: string): string {
    Underscored(f.lower(s))
  }

  datatype Field = HostField | ServiceField | UsageField | CertField | CertsField | KeyField | TtlField

  /** A value put in a field. */
  datatype Datum =
    | Host(host: string)
    | ServiceIs(service: Service)
    | UsageIs(usage: Usage)
    | Mimic(cert: Cert)
    | Chain(certs: seq<Cert>)
    | Key(key: PrivateKey)
    | Ttl(ttl: nat)

  function FieldOf(d: Datum): Field {
    match d
    case Host(_) => HostField
    case ServiceIs(_) => ServiceField
    case UsageIs(_) => UsageField
    case Mimic(_) => CertField
    case Chain(_) => CertsField
    case Key(_) => KeyField
    case Ttl(_) => TtlField
  }

  /** What one entry of a map does. */
  datatype Effect = Bad | Ignored | Put(datum: Datum)

  function Convert(f: Foreign, field: Field, v: Value): Effect {
    match field
    case HostField => (match AsString(f, v) case Some(x) => Put(Host(x)) case None => Bad)
    case ServiceField => (match AsService(f, v) case Some(x) => Put(ServiceIs(x)) case None => Bad)
    case UsageField => (match AsUsage(f, v) case Some(x) => Put(UsageIs(x)) case None => Bad)
    case CertField => (match AsCert(f, v) case Some(x) => Put(Mimic(x)) case None => Bad)
    case CertsField => (match AsCerts(f, v) case Some(x) => Put(Chain(x)) case None => Bad)
    case KeyField => (match AsKey(f, v) case Some(x) => Put(Key(x)) case None => Bad)
    case TtlField => (match AsU32(f, v) case Some(x) => Put(Ttl(x)) case None => Bad)
  }

  function RequestKeyNamed(key: string): Option<Field> {
    if key == "host" then Some(HostField)
    else if key == "service" then Some(ServiceField)
    else if key == "usage" then Some(UsageField)
    else if key == "cert" then Some(CertField)
    else None
  }

  function RequestKeyNumbered(id: int): Option<Field> {
    match id
    case 1 => Some(HostField)
    case 2 => Some(ServiceField)
    case 4 => Some(UsageField)
    case 3 => Some(CertField)
    case _ => None
  }

  /** A request knows its keys, by name or by number, and takes no other. */
  function RequestEffect(f: Foreign, k: Value, v: Value): Effect {
    var field := match k
      case Text(s) => RequestKeyNamed(Normalize(f, s))
      case Integer(i) => RequestKeyNumbered(i)
      case _ => None;
    if field.Some? then Convert(f, field.value, v) else Bad
  }

  function ResponseKeyNamed(key: string): Option<Field> {
    if key == "host" then Some(HostField)
    else if key == "service" then Some(ServiceField)
    else if key == "usage" then Some(UsageField)
    else if key == "cert" then Some(CertsField)
    else if key == "key" then Some(KeyField)
    else if key == "ttl" then Some(TtlField)
    else None
  }

  function ResponseKeyNumbered(id: int): Option<Field> {
    match id
    case 1 => Some(HostField)
    case 2 => Some(ServiceField)
    case 6 => Some(UsageField)
    case 3 => Some(CertsField)
    case 4 => Some(KeyField)
    case 5 => Some(TtlField)
    case _ => None
  }

  /** A response ignores the keys it does not know. */
  function ResponseEffect(f: Foreign, k: Value, v: Value): Effect {
    if k.Text? || (k.Integer? && k.number >= 0) then
      var field := if k.Text? then ResponseKeyNamed(Normalize(f, k.text)) else ResponseKeyNumbered(k.number);
      if field.Some? then Convert(f, field.value, v) else Ignored
    else Bad
  }

  datatype Request = Request(host: string, service: Service, usage: Usage, cert: Option<Cert>)

  const DEFAULT_REQUEST := Request("", Http, TlsServer, None)

  datatype Response = Response(host: string, service: Service, usage: Usage, certs: seq<Cert>, key: Option<PrivateKey>, ttl: nat)

  function NewResponse(protectiveTtl: nat): Response {
    Response("", Http, TlsServer, [], None, protectiveTtl)
  }

  type Entries = seq<(Value, Value)>

  function RequestEffects(f: Foreign, entries: Entries): seq<Effect> {
    seq(|entries|, i requires 0 <= i < |entries| => RequestEffect(f, entries[i].0, entries[i].1))
  }

  function ResponseEffects(f: Foreign, entries: Entries): seq<Effect> {
    seq(|entries|, i requires 0 <= i < |entries| => ResponseEffect(f, entries[i].0, entries[i].1))
  }

  /** The datum put last in `field`. */
  function Last(effects: seq<Effect>, field: Field): (r: Option<Datum>)
    ensures r.Some? ==> FieldOf(r.value) == field && Put(r.value) in effects
    ensures r.None? ==> forall e :: e in effects && e.Put? ==> FieldOf(e.datum) != field
  {
    if effects == [] then None
    else
      var e := effects[|effects| - 1];
      if e.Put? && FieldOf(e.datum) == field then Some(e.datum) else Last(effects[..|effects| - 1], field)
  }

  /** The request that has in each field what was put there last. */
  function RequestFrom(effects: seq<Effect>): Request {
    Request(
      (match Last(effects, HostField) case Some(d) => d.host case None => DEFAULT_REQUEST.host),
      (match Last(effects, ServiceField) case Some(d) => d.service case None => DEFAULT_REQUEST.service),
      (match Last(effects, UsageField) case Some(d) => d.usage case None => DEFAULT_REQUEST.usage),
      (match Last(effects, CertField) case Some(d) => Some(d.cert) case None => DEFAULT_REQUEST.cert))
  }

  function ResponseFrom(effects: seq<Effect>, protectiveTtl: nat): Response {
    var r := NewResponse(protectiveTtl);
    Response(
      (match Last(effects, HostField) case Some(d) => d.host case None => r.host),
      (match Last(effects, ServiceField) case Some(d) => d.service case None => r.service),
      (match Last(effects, UsageField) case Some(d) => d.usage case None => r.usage),
      (match Last(effects, CertsField) case Some(d) => d.certs case None => r.certs),
      (match Last(effects, KeyField) case Some(d) => Some(d.key) case None => r.key),
      (match Last(effects, TtlField) case Some(d) => d.ttl case None => r.ttl))
  }

  /** What parsing a request gives. */
  function ParsedRequest(f: Foreign, v: Value): Option<Request> {
    var r :=
      if v.Map? then
        var effects := RequestEffects(f, v.entries);
        if Bad in effects then None else Some(RequestFrom(effects))
      else
        match AsString(f, v) case Some(s) => Some(DEFAULT_REQUEST.(host := s)) case None => None;
    if r.Some? && r.value.host == "" then None else r
  }

  function ParsedResponse(f: Foreign, v: Value, protectiveTtl: nat): Option<Response> {
    if v.Map? then
      var effects := ResponseEffects(f, v.entries);
      if Bad in effects then None else Some(ResponseFrom(effects, protectiveTtl))
    else None
  }

  /** One entry read into a request. */
  function SetRequest(f: Foreign, r: Request, k: Value, v: Value): Option<Request> {
    match RequestEffect(f, k, v)
    case Bad => None
    case Ignored => Some(r)
    case Put(Host(x)) => Some(r.(host := x))
    case Put(ServiceIs(x)) => Some(r.(service := x))
    case Put(UsageIs(x)) => Some(r.(usage := x))
    case Put(Mimic(x)) => Some(r.(cert := Some(x)))
    case Put(_) => Some(r)
  }

  function SetResponse(f: Foreign, r: Response, k: Value, v: Value): Option<Response> {
    match ResponseEffect(f, k, v)
    case Bad => None
    case Ignored => Some(r)
    case Put(Host(x)) => Some(r.(host := x))
    case Put(ServiceIs(x)) => Some(r.(service := x))
    case Put(UsageIs(x)) => Some(r.(usage := x))
    case Put(Chain(x)) => Some(r.(certs := x))
    case Put(Key(x)) => Some(r.(key := Some(x)))
    case Put(Ttl(x)) => Some(r.(ttl := x))
    case Put(Mimic(_)) => Some(r)
  }

  lemma LastSnoc(effects: seq<Effect>, e: Effect, field: Field)
    ensures Last(effects + [e], field) ==
            if e.Put? && FieldOf(e.datum) == field then Some(e.datum) else Last(effects, field)
  {
    assert (effects + [e])[..|effects|] == effects;
  }

  lemma RequestStep(f: Foreign, effects: seq<Effect>, k: Value, v: Value)
    requires RequestEffect(f, k, v) != Bad
    ensures SetRequest(f, RequestFrom(effects), k, v) == Some(RequestFrom(effects + [RequestEffect(f, k, v)]))
  {
    var e := RequestEffect(f, k, v);
    LastSnoc(effects, e, HostField);
    LastSnoc(effects, e, ServiceField);
    LastSnoc(effects, e, UsageField);
    LastSnoc(effects, e, CertField);
    hide Last, Convert, RequestEffect;
  }

  lemma ResponseStep(f: Foreign, effects: seq<Effect>, ttl: nat, k: Value, v: Value)
    requires ResponseEffect(f, k, v) != Bad
    ensures SetResponse(f, ResponseFrom(effects, ttl), k, v)
         == Some(ResponseFrom(effects + [ResponseEffect(f, k, v)], ttl))
  {
    var e := ResponseEffect(f, k, v);
    LastSnoc(effects, e, HostField);
    LastSnoc(effects, e, ServiceField);
    LastSnoc(effects, e, UsageField);
    LastSnoc(effects, e, CertsField);
    LastSnoc(effects, e, KeyField);
    LastSnoc(effects, e, TtlField);
    hide Last, Convert, ResponseEffect;
  }

  lemma RequestStart()
    ensures RequestFrom([]) == DEFAULT_REQUEST
  {
  }

  lemma ResponseStart(ttl: nat)
    ensures ResponseFrom([], ttl) == NewResponse(ttl)
  {
  }

  method ParseRequest(f: Foreign, v: Value) returns (r: Option<Request>)
    ensures r == ParsedRequest(f, v)
  {
    hide RequestEffect, SetRequest, RequestFrom;
    var request := DEFAULT_REQUEST;
    if v.Map? {
      ghost var effects := RequestEffects(f, v.entries);
      RequestStart();
      for i := 0 to |v.entries|
        invariant Bad !in effects[..i] && request == RequestFrom(effects[..i])
      {
        var (key, value) := v.entries[i];
        assert effects[..i + 1] == effects[..i] + [effects[i]];
        var next := SetRequest(f, request, key, value);
        SetRequestFails(f, request, key, value);
        if next.None? {
          return None;
        }
        RequestStep(f, effects[..i], key, value);
        request := next.value;
      }
      assert effects[..|v.entries|] == effects;
    } else {
      var host := AsString(f, v);
      if host.None? {
        return None;
      }
      request := request.(host := host.value);
    }
    if request.host == "" {
      return None;
    }
    return Some(request);
  }

  lemma SetRequestFails(f: Foreign, r: Request, k: Value, v: Value)
    ensures SetRequest(f, r, k, v).None? <==> RequestEffect(f, k, v) == Bad
  {
  }

  lemma SetResponseFails(f: Foreign, r: Response, k: Value, v: Value)
    ensures SetResponse(f, r, k, v).None? <==> ResponseEffect(f, k, v) == Bad
  {
  }

  method ParseResponse(f: Foreign, v: Value, protectiveTtl: nat) returns (r: Option<Response>)
    ensures r == ParsedResponse(f, v, protectiveTtl)
  {
    hide ResponseEffect, SetResponse, ResponseFrom;
    if !v.Map? {
      return None;
    }
    var response := NewResponse(protectiveTtl);
    ghost var effects := ResponseEffects(f, v.entries);
    ResponseStart(protectiveTtl);
    for i := 0 to |v.entries|
      invariant Bad !in effects[..i] && response == ResponseFrom(effects[..i], protectiveTtl)
    {
      var (key, value) := v.entries[i];
      assert effects[..i + 1] == effects[..i] + [effects[i]];
      var next := SetResponse(f, response, key, value);
      SetResponseFails(f, response, key, value);
      if next.None? {
        return None;
      }
      ResponseStep(f, effects[..i], protectiveTtl, key, value);
      response := next.value;
    }
    assert effects[..|v.entries|] == effects;
    return Some(response);
  }

  /** The same entries in another order. */
  ghost predicate Shuffled(a: Entries, b: Entries) {
    multiset(a) == multiset(b)
  }

  lemma SameEntries(a: Entries, b: Entries)
    requires Shuffled(a, b)
    ensures forall e :: e in a <==> e in b
  {
    forall e ensures e in a <==> e in b {
      assert e in a <==> e in multiset(a);
      assert e in b <==> e in multiset(b);
    }
  }

  ghost predicate SameMembers(a: seq<Effect>, b: seq<Effect>) {
    forall e :: e in a <==> e in b
  }

  lemma SameRequestEffects(f: Foreign, a: Entries, b: Entries)
    requires Shuffled(a, b)
    ensures SameMembers(RequestEffects(f, a), RequestEffects(f, b))
  {
    hide RequestEffect;
    SameEntries(a, b);
    RequestMembers(f, a);
    RequestMembers(f, b);
  }

  lemma RequestMembers(f: Foreign, a: Entries)
    ensures forall e :: e in RequestEffects(f, a) <==> exists x :: x in a && RequestEffect(f, x.0, x.1) == e
  {
    hide RequestEffect;
    var effects := RequestEffects(f, a);
    assert forall i :: 0 <= i < |a| ==> effects[i] == RequestEffect(f, a[i].0, a[i].1);
    forall x | x in a ensures RequestEffect(f, x.0, x.1) in effects {
      var i :| 0 <= i < |a| && a[i] == x;
      assert effects[i] == RequestEffect(f, x.0, x.1);
    }
  }

  lemma SameResponseEffects(f: Foreign, a: Entries, b: Entries)
    requires Shuffled(a, b)
    ensures SameMembers(ResponseEffects(f, a), ResponseEffects(f, b))
  {
    hide ResponseEffect;
    SameEntries(a, b);
    ResponseMembers(f, a);
    ResponseMembers(f, b);
  }

  lemma ResponseMembers(f: Foreign, a: Entries)
    ensures forall e :: e in ResponseEffects(f, a) <==> exists x :: x in a && ResponseEffect(f, x.0, x.1) == e
  {
    hide ResponseEffect;
    var effects := ResponseEffects(f, a);
    assert forall i :: 0 <= i < |a| ==> effects[i] == ResponseEffect(f, a[i].0, a[i].1);
    forall x | x in a ensures ResponseEffect(f, x.0, x.1) in effects {
      var i :| 0 <= i < |a| && a[i] == x;
      assert effects[i] == ResponseEffect(f, x.0, x.1);
    }
  }

  /** Two different values for one field. */
  ghost predicate Conflict(effects: seq<Effect>, field: Field) {
    exists d, e :: Put(d) in effects && Put(e) in effects && d != e && FieldOf(d) == FieldOf(e) == field
  }

  /** Without a conflict the order does not matter. */
  lemma SameLast(a: seq<Effect>, b: seq<Effect>, field: Field)
    requires SameMembers(a, b) && !Conflict(a, field)
    ensures Last(a, field) == Last(b, field)
  {
  }

  function Remove(s: Entries, e: (Value, Value)): Entries {
    if s == [] then [] else if s[0] == e then s[1..] else [s[0]] + Remove(s[1..], e)
  }

  lemma {:induction false} Removed(s: Entries, e: (Value, Value))
    requires e in s
    ensures multiset(Remove(s, e)) + multiset{e} == multiset(s)
  {
    assert s == [s[0]] + s[1..];
    if s[0] != e {
      Removed(s[1..], e);
    }
  }

  /** Any entry can come last. */
  lemma CanBeLast(a: Entries, e: (Value, Value))
    requires e in a
    ensures Shuffled(a, Remove(a, e) + [e])
  {
    Removed(a, e);
  }

  lemma RequestPutLast(f: Foreign, a: Entries, d: Datum) returns (b: Entries)
    requires Put(d) in RequestEffects(f, a)
    ensures Shuffled(a, b) && Last(RequestEffects(f, b), FieldOf(d)) == Some(d)
  {
    hide RequestEffect;
    RequestMembers(f, a);
    var e :| e in a && RequestEffect(f, e.0, e.1) == Put(d);
    var rest := Remove(a, e);
    b := rest + [e];
    CanBeLast(a, e);
    assert RequestEffects(f, b) == RequestEffects(f, rest) + [Put(d)];
    LastSnoc(RequestEffects(f, rest), Put(d), FieldOf(d));
  }

  lemma ResponsePutLast(f: Foreign, a: Entries, d: Datum) returns (b: Entries)
    requires Put(d) in ResponseEffects(f, a)
    ensures Shuffled(a, b) && Last(ResponseEffects(f, b), FieldOf(d)) == Some(d)
  {
    hide ResponseEffect;
    ResponseMembers(f, a);
    var e :| e in a && ResponseEffect(f, e.0, e.1) == Put(d);
    var rest := Remove(a, e);
    b := rest + [e];
    CanBeLast(a, e);
    assert ResponseEffects(f, b) == ResponseEffects(f, rest) + [Put(d)];
    LastSnoc(ResponseEffects(f, rest), Put(d), FieldOf(d));
  }

  /** Every order of these entries gives the same response. */
  ghost predicate ResponseSettled(f: Foreign, a: Entries, ttl: nat) {
    forall b :: Shuffled(a, b) ==> ParsedResponse(f, Map(b), ttl) == ParsedResponse(f, Map(a), ttl)
  }

  /** It does exactly when some entry is bad or no field is given two values. */
  lemma ResponseOrder(f: Foreign, a: Entries, ttl: nat)
    ensures ResponseSettled(f, a, ttl) <==>
            Bad in ResponseEffects(f, a) || forall field :: !Conflict(ResponseEffects(f, a), field)
  {
    hide ResponseEffects;
    var effects := ResponseEffects(f, a);
    if Bad in effects {
      forall b | Shuffled(a, b) ensures ParsedResponse(f, Map(b), ttl) == ParsedResponse(f, Map(a), ttl) {
        SameResponseEffects(f, a, b);
      }
    } else if field :| Conflict(effects, field) {
      var d, e :| Put(d) in effects && Put(e) in effects && d != e && FieldOf(d) == FieldOf(e) == field;
      var b := ResponsePutLast(f, a, d);
      var c := ResponsePutLast(f, a, e);
      SameResponseEffects(f, a, b);
      SameResponseEffects(f, a, c);
      ResponseFields(f, a);
      DifferentResponses(ResponseEffects(f, b), ResponseEffects(f, c), field, ttl);
      assert Shuffled(a, b) && Shuffled(a, c);
    } else {
      forall b | Shuffled(a, b) ensures ParsedResponse(f, Map(b), ttl) == ParsedResponse(f, Map(a), ttl) {
        SameResponseEffects(f, a, b);
        forall field ensures Last(effects, field) == Last(ResponseEffects(f, b), field) {
          SameLast(effects, ResponseEffects(f, b), field);
        }
      }
    }
  }

  lemma ResponseFields(f: Foreign, a: Entries)
    ensures forall d :: Put(d) in ResponseEffects(f, a) ==> FieldOf(d) != CertField
  {
    ResponseMembers(f, a);
  }

  lemma RequestFields(f: Foreign, a: Entries)
    ensures forall d :: Put(d) in RequestEffects(f, a) ==> FieldOf(d) in {HostField, ServiceField, UsageField, CertField}
  {
    RequestMembers(f, a);
  }

  lemma DifferentResponses(a: seq<Effect>, b: seq<Effect>, field: Field, ttl: nat)
    requires Last(a, field).Some? && Last(b, field).Some? && Last(a, field) != Last(b, field)
    requires field != CertField
    ensures ResponseFrom(a, ttl) != ResponseFrom(b, ttl)
  {
    hide Last;
  }

  lemma DifferentRequests(a: seq<Effect>, b: seq<Effect>, field: Field)
    requires Last(a, field).Some? && Last(b, field).Some? && Last(a, field) != Last(b, field)
    requires field in {HostField, ServiceField, UsageField, CertField}
    ensures RequestFrom(a) != RequestFrom(b)
  {
    hide Last;
  }

  /** Every order of these entries gives the same request. */
  ghost predicate RequestSettled(f: Foreign, a: Entries) {
    forall b :: Shuffled(a, b) ==> ParsedRequest(f, Map(b)) == ParsedRequest(f, Map(a))
  }

  ghost predicate NoHost(effects: seq<Effect>) {
    forall d :: Put(d) in effects && d.Host? ==> d.host == ""
  }

  ghost predicate NoConflict(effects: seq<Effect>) {
    forall field :: !Conflict(effects, field)
  }

  /** It does exactly when some entry is bad, no host is given at all, or no field is given
      two values. */
  lemma RequestOrder(f: Foreign, a: Entries)
    ensures RequestSettled(f, a) <==>
            var effects := RequestEffects(f, a);
            Bad in effects || NoHost(effects) || NoConflict(effects)
  {
    hide RequestEffects, ParsedRequest;
    var effects := RequestEffects(f, a);
    if Bad in effects || NoHost(effects) {
      forall b | Shuffled(a, b) ensures ParsedRequest(f, Map(b)) == ParsedRequest(f, Map(a)) {
        SameRequestEffects(f, a, b);
        RefusedRequest(f, a);
        RefusedRequest(f, b);
      }
    } else if NoConflict(effects) {
      forall b | Shuffled(a, b) ensures ParsedRequest(f, Map(b)) == ParsedRequest(f, Map(a)) {
        AgreedRequest(f, a, b);
      }
    } else {
      UnsettledRequest(f, a);
    }
  }

  lemma RefusedRequest(f: Foreign, a: Entries)
    ensures Bad in RequestEffects(f, a) || NoHost(RequestEffects(f, a)) ==> ParsedRequest(f, Map(a)) == None
  {
    hide RequestEffects;
  }

  lemma AgreedRequest(f: Foreign, a: Entries, b: Entries)
    requires Shuffled(a, b) && NoConflict(RequestEffects(f, a))
    ensures ParsedRequest(f, Map(b)) == ParsedRequest(f, Map(a))
  {
    SameRequestEffects(f, a, b);
    hide RequestEffects;
    forall field ensures Last(RequestEffects(f, a), field) == Last(RequestEffects(f, b), field) {
      SameLast(RequestEffects(f, a), RequestEffects(f, b), field);
    }
  }

  lemma UnsettledRequest(f: Foreign, a: Entries)
    requires Bad !in RequestEffects(f, a) && !NoHost(RequestEffects(f, a)) && !NoConflict(RequestEffects(f, a))
    ensures !RequestSettled(f, a)
  {
    hide RequestEffects, RequestSettled;
    var effects := RequestEffects(f, a);
    var field :| Conflict(effects, field) && (field == HostField || !Conflict(effects, HostField));
    var d, e :| Put(d) in effects && Put(e) in effects && d != e && FieldOf(d) == FieldOf(e) == field;
    hide Conflict, NoHost, NoConflict, FieldOf;
    UnsettledBy(f, a, d, e);
  }

  /** Each of two values for a field can be put last, and that shows. */
  lemma UnsettledBy(f: Foreign, a: Entries, d: Datum, e: Datum)
    requires Bad !in RequestEffects(f, a) && !NoHost(RequestEffects(f, a))
    requires Put(d) in RequestEffects(f, a) && Put(e) in RequestEffects(f, a) && d != e && FieldOf(d) == FieldOf(e)
    requires FieldOf(d) == HostField || !Conflict(RequestEffects(f, a), HostField)
    ensures !RequestSettled(f, a)
  {
    hide RequestEffects, ParsedRequest, Last, NoHost, Conflict, RequestFrom, FieldOf;
    var b := RequestPutLast(f, a, d);
    var c := RequestPutLast(f, a, e);
    SameRequestEffects(f, a, b);
    SameRequestEffects(f, a, c);
    RequestFields(f, a);
    DifferentRequests(RequestEffects(f, b), RequestEffects(f, c), FieldOf(d));
    ParsedGood(f, b);
    ParsedGood(f, c);
    assert ParsedRequest(f, Map(b)) != ParsedRequest(f, Map(c)) by {
      HostsShow(RequestEffects(f, a), RequestEffects(f, b), RequestEffects(f, c), d, e);
    }
    assert Shuffled(a, b) && Shuffled(a, c);
  }

  lemma HostsShow(effects: seq<Effect>, b: seq<Effect>, c: seq<Effect>, d: Datum, e: Datum)
    requires SameMembers(effects, b) && SameMembers(effects, c) && !NoHost(effects)
    requires d != e && FieldOf(d) == FieldOf(e) && Last(b, FieldOf(d)) == Some(d) && Last(c, FieldOf(d)) == Some(e)
    requires FieldOf(d) == HostField || !Conflict(effects, HostField)
    ensures RequestFrom(b).host != "" || RequestFrom(c).host != ""
  {
    if FieldOf(d) != HostField {
      SameLast(effects, b, HostField);
      SomeHost(effects);
    }
    hide Last;
  }

  lemma SomeHost(effects: seq<Effect>)
    requires !NoHost(effects) && !Conflict(effects, HostField)
    ensures Last(effects, HostField).Some? && Last(effects, HostField).value.host != ""
  {
  }

  lemma ParsedGood(f: Foreign, a: Entries)
    requires Bad !in RequestEffects(f, a)
    ensures var r := RequestFrom(RequestEffects(f, a));
            ParsedRequest(f, Map(a)) == if r.host == "" then None else Some(r)
  {
    hide RequestEffects;
  }

  /** Keys that differ are not enough: a number and a name can mean the same field. */
  lemma DistinctKeysDisagree(f: Foreign)
    requires f.lower("host") == "host"
    ensures var byNumber, byName := (Integer(1), Text("a")), (Text("host"), Text("b"));
            && Shuffled([byNumber, byName], [byName, byNumber])
            && ParsedRequest(f, Map([byNumber, byName])) != ParsedRequest(f, Map([byName, byNumber]))
  {
    var byNumber, byName := (Integer(1), Text("a")), (Text("host"), Text("b"));
    HostIsHost(f);
    HostNumber(f);
    hide RequestEffect;
    var a, b := RequestEffects(f, [byNumber, byName]), RequestEffects(f, [byName, byNumber]);
    assert a == [Put(Host("a"))] + [Put(Host("b"))];
    assert b == [Put(Host("b"))] + [Put(Host("a"))];
    LastSnoc([Put(Host("a"))], Put(Host("b")), HostField);
    LastSnoc([Put(Host("b"))], Put(Host("a")), HostField);
    hide Last, RequestEffects;
    ParsedGood(f, [byNumber, byName]);
    ParsedGood(f, [byName, byNumber]);
  }

  lemma HostNumber(f: Foreign)
    ensures RequestEffect(f, Integer(1), Text("a")) == Put(Host("a"))
  {
  }

  lemma HostIsHost(f: Foreign)
    requires f.lower("host") == "host"
    ensures RequestEffect(f, Text("host"), Text("b")) == Put(Host("b"))
  {
    PlainName(f, "host");
  }

  lemma {:induction false} UnderscoredPlain(s: string)
    requires '-' !in s
    ensures Underscored(s) == s
  {
    if s != "" {
      UnderscoredPlain(s[1..]);
    }
  }

  lemma PlainName(f: Foreign, s: string)
    requires '-' !in s && f.lower(s) == s
    ensures Normalize(f, s) == s
  {
    UnderscoredPlain(s);
  }

  function RequestName(field: Field): string {
    match field
    case HostField => "host"
    case ServiceField => "service"
    case UsageField => "usage"
    case _ => "cert"
  }

  function RequestNumber(field: Field): nat {
    match field
    case HostField => 1
    case ServiceField => 2
    case UsageField => 4
    case _ => 3
  }

  lemma RequestNamed(field: Field)
    requires field in {HostField, ServiceField, UsageField, CertField}
    ensures RequestKeyNamed(RequestName(field)) == Some(field) == RequestKeyNumbered(RequestNumber(field))
  {
    match field
    case HostField =>
    case ServiceField => assert |"service"| != |"host"|;
    case UsageField => assert |"usage"| != |"host"| && |"usage"| != |"service"|;
    case CertField => assert "cert"[0] != "host"[0];
  }

  /** A request key means the same by name and by number. */
  lemma RequestNames(f: Foreign, field: Field, v: Value)
    requires field in {HostField, ServiceField, UsageField, CertField}
    requires f.lower(RequestName(field)) == RequestName(field)
    ensures RequestEffect(f, Text(RequestName(field)), v) == Convert(f, field, v)
    ensures RequestEffect(f, Integer(RequestNumber(field)), v) == Convert(f, field, v)
  {
    assert '-' !in RequestName(field);
    hide Normalize, Convert, RequestKeyNamed, RequestKeyNumbered, RequestName, RequestNumber;
    PlainName(f, RequestName(field));
    RequestNamed(field);
  }

  function ResponseName(field: Field): string {
    match field
    case HostField => "host"
    case ServiceField => "service"
    case UsageField => "usage"
    case KeyField => "key"
    case TtlField => "ttl"
    case _ => "cert"
  }

  function ResponseNumber(field: Field): nat {
    match field
    case HostField => 1
    case ServiceField => 2
    case UsageField => 6
    case KeyField => 4
    case TtlField => 5
    case _ => 3
  }

  lemma ResponseNamed(field: Field)
    requires field != CertField
    ensures ResponseKeyNamed(ResponseName(field)) == Some(field) == ResponseKeyNumbered(ResponseNumber(field))
  {
    match field
    case HostField =>
    case ServiceField => assert |"service"| != |"host"|;
    case UsageField => assert |"usage"| != |"host"| && |"usage"| != |"service"|;
    case CertsField => assert "cert"[0] != "host"[0];
    case KeyField => assert |"key"| == 3;
    case TtlField => assert |"ttl"| == 3 && "ttl"[0] != "key"[0];
  }

  /** And so does a response key. */
  lemma ResponseNames(f: Foreign, field: Field, v: Value)
    requires field != CertField
    requires f.lower(ResponseName(field)) == ResponseName(field)
    ensures ResponseEffect(f, Text(ResponseName(field)), v) == Convert(f, field, v)
    ensures ResponseEffect(f, Integer(ResponseNumber(field)), v) == Convert(f, field, v)
  {
    assert '-' !in ResponseName(field);
    hide Normalize, Convert, ResponseKeyNamed, ResponseKeyNumbered, ResponseName, ResponseNumber;
    PlainName(f, ResponseName(field));
    ResponseNamed(field);
  }

  function ServiceName(s: Service): string {
    match s case Http => "http" case Smtp => "smtp" case Imap => "imap"
  }

  function UsageName(u: Usage): string {
    match u
    case TlsServer => "tls_server"
    case TlsServerTongsuo => "tls_server_tongsuo"
    case TlcpServerSignature => "tlcp_server_signature"
    case TlcpServerEncryption => "tlcp_server_encryption"
  }

  /** A service and a usage are read alike from their name, as text or as bytes, and from
      their number. */
  lemma ReadByName(f: Foreign, s: Service, u: Usage, b: Bytes, c: Bytes)
    requires f.lower(UsageName(u)) == UsageName(u)
    requires f.utf8(b) == Some(ServiceName(s)) && f.utf8(c) == Some(UsageName(u))
    ensures AsService(f, Text(ServiceName(s))) == AsService(f, Binary(b)) == AsService(f, Integer(ServiceCode(s))) == Some(s)
    ensures AsUsage(f, Text(UsageName(u))) == AsUsage(f, Binary(c)) == AsUsage(f, Integer(UsageCode(u))) == Some(u)
  {
    UsageNames(u);
  }

  lemma UsageNames(u: Usage)
    ensures UsageNamed(UsageName(u)) == Some(u)
  {
  }

  /** What a message without entries says: a request lacks its host, a response has the
      defaults and lives for the protective time. */
  lemma NoEntries(f: Foreign, protectiveTtl: nat)
    ensures ParsedRequest(f, Map([])) == None
    ensures ParsedResponse(f, Map([]), protectiveTtl) == Some(Response("", Http, TlsServer, [], None, protectiveTtl))
  {
    assert RequestEffects(f, []) == [] && ResponseEffects(f, []) == [];
  }

  /** A key that names no field is refused in a request; in a response it is passed over, if
      it is text or a number from 0 on. */
  lemma UnknownKeys(f: Foreign, i: int, s: string, k: Value, v: Value)
    ensures i !in {1, 2, 3, 4} ==> RequestEffect(f, Integer(i), v) == Bad
    ensures Normalize(f, s) !in {"host", "service", "usage", "cert"} ==> RequestEffect(f, Text(s), v) == Bad
    ensures i >= 0 && i !in {1, 2, 3, 4, 5, 6} ==> ResponseEffect(f, Integer(i), v) == Ignored
    ensures i < 0 ==> ResponseEffect(f, Integer(i), v) == Bad
    ensures Normalize(f, s) !in {"host", "service", "usage", "cert", "key", "ttl"} ==>
      ResponseEffect(f, Text(s), v) == Ignored
    ensures !k.Text? && !k.Integer? ==> RequestEffect(f, k, v) == ResponseEffect(f, k, v) == Bad
  {
  }

  /** Every spelling of a service; a name is taken as it stands. */
  lemma ServiceSpellings(s: string)
    ensures ServiceNamed(s) == Some(Http) <==> s in {"http", "HTTP"}
    ensures ServiceNamed(s) == Some(Smtp) <==> s in {"smtp", "SMTP"}
    ensures ServiceNamed(s) == Some(Imap) <==> s in {"imap", "IMAP"}
  {
  }

  /** Every spelling of a usage, in lower case. */
  lemma UsageSpellings(s: string)
    ensures UsageNamed(s) == Some(TlsServer) <==> s in {"tls_server", "tlsserver"}
    ensures UsageNamed(s) == Some(TlsServerTongsuo) <==> s in {"tls_server_tongsuo", "tlsservertongsuo"}
    ensures UsageNamed(s) == Some(TlcpServerSignature) <==>
      s in {"tlcp_server_signature", "tlcp_server_sign", "tlcpserversignature", "tlcpserversign"}
    ensures UsageNamed(s) == Some(TlcpServerEncryption) <==>
      s in {"tlcp_server_encryption", "tlcp_server_enc", "tlcpserverencryption", "tlcpserverenc"}
  {
  }

  /** Which numbers are taken, and which are refused. */
  lemma ReadByNumber(f: Foreign, i: int)
    ensures AsService(f, Integer(i)) ==
      if i == 0 then Some(Http) else if i == 1 then Some(Smtp) else if i == 2 then Some(Imap) else None
    ensures AsUsage(f, Integer(i)) ==
      if i == 0 then Some(TlsServer) else if i == 1 then Some(TlsServerTongsuo)
      else if i == 11 then Some(TlcpServerSignature) else if i == 12 then Some(TlcpServerEncryption) else None
    ensures AsU32(f, Integer(i)) == if 0 <= i < 0x1_0000_0000 then Some(i) else None
  {
  }

  /** A request that is no map is its host: text, bytes of text or a number, if not empty. */
  lemma BareHost(f: Foreign, v: Value)
    requires !v.Map?
    ensures ParsedRequest(f, v) ==
      match v
      case Text(s) => (if s == "" then None else Some(Request(s, Http, TlsServer, None)))
      case Binary(b) =>
        (if f.utf8(b).None? || f.utf8(b).value == "" then None
         else Some(Request(f.utf8(b).value, Http, TlsServer, None)))
      case Integer(i) => (if f.decimal(i) == "" then None else Some(Request(f.decimal(i), Http, TlsServer, None)))
      case _ => None
    ensures forall ttl :: ParsedResponse(f, v, ttl) == None
  {
  }

  /** The certificates of one element: at least one, or the element is refused. */
  lemma OneElement(f: Foreign, v: Value)
    requires !v.Array?
    ensures AsCerts(f, v) == AsCerts(f, Array([v]))
    ensures AsCerts(f, v).Some? ==> AsCerts(f, v) == f.pemCerts(v) && AsCerts(f, v).value != []
    ensures AsCerts(f, v).None? <==> !(v.Text? || v.BadText? || v.Binary?) || f.pemCerts(v) in {None, Some([])}
    ensures AsCerts(f, Array([])) == Some([])
  {
    assert AsCertsArray(f, [v][1..]) == Some([]);
    if AsCertsElement(f, v).Some? {
      var a := AsCertsElement(f, v).value;
      assert a + [] == a;
    }
  }

  /** A chain has the certificates of all its elements in order, and is refused with any. */
  lemma {:induction false} ChainsJoin(f: Foreign, a: seq<Value>, b: seq<Value>)
    ensures AsCerts(f, Array(a + b)) ==
      match (AsCerts(f, Array(a)), AsCerts(f, Array(b)))
      case (Some(x), Some(y)) => Some(x + y)
      case _ => None
  {
    if a == [] {
      assert a + b == b;
      if AsCertsArray(f, b).Some? {
        assert [] + AsCertsArray(f, b).value == AsCertsArray(f, b).value;
      }
    } else {
      assert (a + b)[1..] == a[1..] + b;
      ChainsJoin(f, a[1..], b);
      if AsCertsElement(f, a[0]).Some? && AsCertsArray(f, a[1..]).Some? && AsCertsArray(f, b).Some? {
        var x, y, z := AsCertsElement(f, a[0]).value, AsCertsArray(f, a[1..]).value, AsCertsArray(f, b).value;
        assert x + (y + z) == (x + y) + z;
      }
    }
  }

  /** A certificate or a key is PEM as text and DER as bytes. */
  lemma PemOrDer(f: Foreign, s: string, b: Bytes)
    ensures AsCert(f, Text(s)) == f.pemCert(Text(s)) && AsCert(f, Binary(b)) == f.derCert(b)
    ensures AsKey(f, Text(s)) == f.pemKey(Text(s)) && AsKey(f, Binary(b)) == f.derKey(b)
    ensures forall v: Value :: v.Integer? || v.Array? || v.Map? || v.Other? ==> AsCert(f, v).None? && AsKey(f, v).None?
  {
  }

  /** A cache key; the certificate to mimic is not part of it. */
  datatype QueryKey = QueryKey(service: Service, usage: Usage, host: string, mimic: Option<Cert>)

  predicate SameKey(a: QueryKey, b: QueryKey) {
    a.service == b.service && a.usage == b.usage && a.host == b.host
  }

  /** `toDer` is the certificate's own encoding, which may fail. */
  function EncodeQuery(q: QueryKey, toDer: Cert -> Option<Bytes>): Value {
    var entries := [(Integer(1), Text(q.host)),
                    (Integer(2), Integer(ServiceCode(q.service))),
                    (Integer(4), Integer(UsageCode(q.usage)))];
    if q.mimic.Some? && toDer(q.mimic.value).Some?
    then Map(entries + [(Integer(3), Binary(toDer(q.mimic.value).value))])
    else Map(entries)
  }

  function EncodeResponse(r: Request, pemCert: string, derKey: Bytes, ttl: nat): Value {
    Map([(Integer(1), Text(r.host)),
         (Integer(2), Integer(ServiceCode(r.service))),
         (Integer(6), Integer(UsageCode(r.usage))),
         (Integer(3), Text(pemCert)),
         (Integer(4), Binary(derKey)),
         (Integer(5), Integer(ttl))])
  }

  /** The parts of a response that has both certificates and a key. */
  function IntoParts(r: Response): Option<(QueryKey, seq<Cert>, PrivateKey, nat)> {
    if r.certs == [] || r.key.None? then None
    else Some((QueryKey(r.service, r.usage, r.host, None), r.certs, r.key.value, r.ttl))
  }

  /** The certificate sent along, if any, can be read back. */
  ghost predicate MimicReads(f: Foreign, q: QueryKey, toDer: Cert -> Option<Bytes>) {
    q.mimic.Some? && toDer(q.mimic.value).Some? ==> f.derCert(toDer(q.mimic.value).value).Some?
  }

  lemma Codes(f: Foreign, s: Service, u: Usage)
    ensures AsService(f, Integer(ServiceCode(s))) == Some(s)
    ensures AsUsage(f, Integer(UsageCode(u))) == Some(u)
  {
  }

  /** `r` is what the entries make of a new request. */
  ghost predicate RequestSoFar(f: Foreign, entries: Entries, r: Request) {
    Bad !in RequestEffects(f, entries) && RequestFrom(RequestEffects(f, entries)) == r
  }

  lemma RequestReadsNext(f: Foreign, entries: Entries, r: Request, k: Value, v: Value)
    requires RequestSoFar(f, entries, r) && SetRequest(f, r, k, v).Some?
    ensures RequestSoFar(f, entries + [(k, v)], SetRequest(f, r, k, v).value)
  {
    hide RequestEffect, SetRequest, RequestFrom;
    SetRequestFails(f, r, k, v);
    RequestStep(f, RequestEffects(f, entries), k, v);
    assert RequestEffects(f, entries + [(k, v)]) == RequestEffects(f, entries) + [RequestEffect(f, k, v)];
  }

  /** `r` is what the entries make of a new response. */
  ghost predicate ResponseSoFar(f: Foreign, entries: Entries, ttl: nat, r: Response) {
    Bad !in ResponseEffects(f, entries) && ResponseFrom(ResponseEffects(f, entries), ttl) == r
  }

  lemma ResponseReadsNext(f: Foreign, entries: Entries, ttl: nat, r: Response, k: Value, v: Value)
    requires ResponseSoFar(f, entries, ttl, r) && SetResponse(f, r, k, v).Some?
    ensures ResponseSoFar(f, entries + [(k, v)], ttl, SetResponse(f, r, k, v).value)
  {
    hide ResponseEffect, SetResponse, ResponseFrom;
    SetResponseFails(f, r, k, v);
    ResponseStep(f, ResponseEffects(f, entries), ttl, k, v);
    assert ResponseEffects(f, entries + [(k, v)]) == ResponseEffects(f, entries) + [ResponseEffect(f, k, v)];
  }

  lemma RequestNumbers(f: Foreign, r: Request, h: string, s: Service, u: Usage)
    ensures SetRequest(f, r, Integer(1), Text(h)) == Some(r.(host := h))
    ensures SetRequest(f, r, Integer(2), Integer(ServiceCode(s))) == Some(r.(service := s))
    ensures SetRequest(f, r, Integer(4), Integer(UsageCode(u))) == Some(r.(usage := u))
  {
    Codes(f, s, u);
  }

  lemma RequestStarts(f: Foreign)
    ensures RequestSoFar(f, [], DEFAULT_REQUEST)
  {
  }

  lemma ResponseStarts(f: Foreign, ttl: nat)
    ensures ResponseSoFar(f, [], ttl, NewResponse(ttl))
  {
  }

  lemma QuerySoFar(f: Foreign, q: QueryKey, entries: Entries)
    requires entries == [(Integer(1), Text(q.host)), (Integer(2), Integer(ServiceCode(q.service))),
                         (Integer(4), Integer(UsageCode(q.usage)))]
    ensures RequestSoFar(f, entries, Request(q.host, q.service, q.usage, None))
  {
    hide SetRequest, RequestSoFar, ServiceCode, UsageCode;
    RequestStarts(f);
    var at := DEFAULT_REQUEST;
    for i := 0 to 3
      invariant RequestSoFar(f, entries[..i], at) && at.cert == None
      invariant i >= 1 ==> at.host == q.host
      invariant i >= 2 ==> at.service == q.service
      invariant i >= 3 ==> at.usage == q.usage
    {
      RequestNumbers(f, at, q.host, q.service, q.usage);
      RequestReadsNext(f, entries[..i], at, entries[i].0, entries[i].1);
      assert entries[..i] + [entries[i]] == entries[..i + 1];
      at := SetRequest(f, at, entries[i].0, entries[i].1).value;
    }
    assert entries[..3] == entries;
  }

  lemma MimicSet(f: Foreign, r: Request, der: Bytes)
    requires f.derCert(der).Some?
    ensures SetRequest(f, r, Integer(3), Binary(der)) == Some(r.(cert := f.derCert(der)))
  {
  }

  lemma RequestEnds(f: Foreign, entries: Entries, r: Request)
    requires RequestSoFar(f, entries, r)
    ensures ParsedRequest(f, Map(entries)) == if r.host == "" then None else Some(r)
  {
    hide RequestEffects, RequestFrom;
  }

  /** A query with a host, and only such, is read as what it asks for. */
  lemma QueryReads(f: Foreign, q: QueryKey, toDer: Cert -> Option<Bytes>)
    requires MimicReads(f, q, toDer)
    ensures var r := ParsedRequest(f, EncodeQuery(q, toDer));
            && (r.Some? <==> q.host != "")
            && (r.Some? ==>
                  && r.value.host == q.host && r.value.service == q.service && r.value.usage == q.usage
                  && r.value.cert == (if q.mimic.Some? && toDer(q.mimic.value).Some?
                                      then f.derCert(toDer(q.mimic.value).value) else None))
  {
    hide ParsedRequest, SetRequest, RequestSoFar, ServiceCode, UsageCode;
    var entries := EncodeQuery(q, toDer).entries;
    var three := entries[..3];
    var r := Request(q.host, q.service, q.usage, None);
    QuerySoFar(f, q, three);
    if |entries| == 4 {
      var der := entries[3].1.bytes;
      MimicSet(f, r, der);
      RequestReadsNext(f, three, r, entries[3].0, entries[3].1);
      assert three + [entries[3]] == entries;
      RequestEnds(f, entries, r.(cert := f.derCert(der)));
    } else {
      assert three == entries;
      RequestEnds(f, entries, r);
    }
  }

  lemma ResponseNumbers(f: Foreign, r: Response, h: string, s: Service, u: Usage, ttl: nat)
    requires ttl < 0x1_0000_0000
    ensures SetResponse(f, r, Integer(1), Text(h)) == Some(r.(host := h))
    ensures SetResponse(f, r, Integer(2), Integer(ServiceCode(s))) == Some(r.(service := s))
    ensures SetResponse(f, r, Integer(6), Integer(UsageCode(u))) == Some(r.(usage := u))
    ensures SetResponse(f, r, Integer(5), Integer(ttl)) == Some(r.(ttl := ttl))
  {
    Codes(f, s, u);
  }

  lemma ResponseSecrets(f: Foreign, r: Response, pemCert: string, derKey: Bytes)
    requires f.pemCerts(Text(pemCert)).Some? && f.pemCerts(Text(pemCert)).value != []
    requires f.derKey(derKey).Some?
    ensures SetResponse(f, r, Integer(3), Text(pemCert)) == Some(r.(certs := f.pemCerts(Text(pemCert)).value))
    ensures SetResponse(f, r, Integer(4), Binary(derKey)) == Some(r.(key := f.derKey(derKey)))
  {
  }

  /** The reply to a request is read as what was put in it. */
  lemma ReplyReads(f: Foreign, r: Request, pemCert: string, derKey: Bytes, ttl: nat, protectiveTtl: nat)
    requires f.pemCerts(Text(pemCert)).Some? && f.pemCerts(Text(pemCert)).value != []
    requires f.derKey(derKey).Some? && ttl < 0x1_0000_0000
    ensures ParsedResponse(f, EncodeResponse(r, pemCert, derKey, ttl), protectiveTtl)
         == Some(Response(r.host, r.service, r.usage, f.pemCerts(Text(pemCert)).value, f.derKey(derKey), ttl))
  {
    hide SetResponse, ResponseSoFar, ServiceCode, UsageCode;
    var entries := EncodeResponse(r, pemCert, derKey, ttl).entries;
    ResponseStarts(f, protectiveTtl);
    var at := NewResponse(protectiveTtl);
    for i := 0 to 6
      invariant ResponseSoFar(f, entries[..i], protectiveTtl, at)
      invariant i >= 1 ==> at.host == r.host
      invariant i >= 2 ==> at.service == r.service
      invariant i >= 3 ==> at.usage == r.usage
      invariant i >= 4 ==> at.certs == f.pemCerts(Text(pemCert)).value
      invariant i >= 5 ==> at.key == f.derKey(derKey)
      invariant i >= 6 ==> at.ttl == ttl
    {
      ResponseNumbers(f, at, r.host, r.service, r.usage, ttl);
      ResponseSecrets(f, at, pemCert, derKey);
      ResponseReadsNext(f, entries[..i], protectiveTtl, at, entries[i].0, entries[i].1);
      assert entries[..i] + [entries[i]] == entries[..i + 1];
      at := SetResponse(f, at, entries[i].0, entries[i].1).value;
    }
    assert entries[..6] == entries;
    ResponseEnds(f, entries, protectiveTtl, at);
  }

  lemma ResponseEnds(f: Foreign, entries: Entries, ttl: nat, r: Response)
    requires ResponseSoFar(f, entries, ttl, r)
    ensures ParsedResponse(f, Map(entries), ttl) == Some(r)
  {
  }

  /** A query with a host, answered, comes back under an equal key. */
  lemma RoundTrip(f: Foreign, q: QueryKey, toDer: Cert -> Option<Bytes>,
                  pemCert: string, derKey: Bytes, ttl: nat, protectiveTtl: nat)
    requires q.host != "" && MimicReads(f, q, toDer)
    requires f.pemCerts(Text(pemCert)).Some? && f.pemCerts(Text(pemCert)).value != []
    requires f.derKey(derKey).Some? && ttl < 0x1_0000_0000
    ensures var request := ParsedRequest(f, EncodeQuery(q, toDer));
            request.Some? &&
            var response := ParsedResponse(f, EncodeResponse(request.value, pemCert, derKey, ttl), protectiveTtl);
            response.Some? && IntoParts(response.value).Some? &&
            var (key, certs, secret, t) := IntoParts(response.value).value;
            && SameKey(key, q) && t == ttl
            && certs == f.pemCerts(Text(pemCert)).value && Some(secret) == f.derKey(derKey)
  {
    hide ParsedRequest, ParsedResponse, EncodeQuery, EncodeResponse;
    QueryReads(f, q, toDer);
    ReplyReads(f, ParsedRequest(f, EncodeQuery(q, toDer)).value, pemCert, derKey, ttl, protectiveTtl);
  }

  /** handle_rsp: what goes into the cache, and for how long. */
  method HandleResponse(f: Foreign, v: Value, protectiveTtl: nat, maximumTtl: nat)
    returns (r: Option<(QueryKey, seq<Cert>, PrivateKey, nat)>)
    ensures r.Some? <==> ParsedResponse(f, v, protectiveTtl).Some? && IntoParts(ParsedResponse(f, v, protectiveTtl).value).Some?
    ensures r.Some? ==> var (key, certs, secret, ttl) := r.value;
            var asked := ParsedResponse(f, v, protectiveTtl).value;
            && (ttl <= protectiveTtl || ttl <= maximumTtl)
            && (asked.ttl == 0 ==> ttl == protectiveTtl) && (asked.ttl > maximumTtl ==> ttl == maximumTtl)
            && (0 < asked.ttl <= maximumTtl ==> ttl == asked.ttl)
            && certs == asked.certs != [] && Some(secret) == asked.key
            && SameKey(key, QueryKey(asked.service, asked.usage, asked.host, None))
  {
    hide ParsedResponse;
    var response := ParseResponse(f, v, protectiveTtl);
    if response.None? {
      return None;
    }
    var parts := IntoParts(response.value);
    if parts.None? {
      return None;
    }
    var (key, certs, secret, ttl) := parts.value;
    if ttl == 0 {
      ttl := protectiveTtl;
    } else if ttl > maximumTtl {
      ttl := maximumTtl;
    }
    return Some((key, certs, secret, ttl));
  }
}
