/** Name-server clients: transports, the wrappers over them, and who may share a transport. */
module DnsClients {
  import opened Options

  type Params = map<string, string>

  /** A proxy adapter; comparing two of an uncomparable kind panics, which the callers read as unequal. */
  datatype Adapter = NoAdapter | Adapter(id: nat, comparable: bool)

  datatype NameServer = NameServer(net: string, addr: string, adapter: Adapter, proxyName: string, params: Params,
                                   preferH3: bool)

  /** An address prefix for the client subnet option. */
  type Prefix = nat

  /** Parsers outside the model: a subnet prefix or address, and a known record type number. */
  datatype Parsers = Parsers(subnet: string -> Option<Prefix>, recordType: string -> Option<nat>)

  /** What a transport constructor makes of a name server. */
  datatype Setup =
    | Tls(addr: string, adapter: Adapter, proxyName: string, skipCertVerify: bool, nameCertVerify: string,
          disableReuse: bool)
    | Https(addr: string, adapter: Adapter, proxyName: string, preferH3: bool, onlyH3: bool, skipCertVerify: bool,
            nameCertVerify: string)
    | Dhcp(addr: string)
    | System
    | Tailscale(addr: string)
    | EasyTier(addr: string)
    | RCode(addr: string)
    | Quic(addr: string, adapter: Adapter, proxyName: string, skipCertVerify: bool, nameCertVerify: string)
    | Plain(addr: string, adapter: Adapter, proxyName: string, tcp: bool)

  /** A raw transport, with its identity, under any number of wrappers. */
  datatype Client =
    | Raw(id: nat, setup: Setup)
    | WithSubnet(inner: Client, prefix: Prefix, override: bool)
    | WithDisabledTypes(inner: Client, types: set<nat>)

  // ---- Parameters ----

  const QTYPE_PREFIX := "disable-qtype-"

  predicate IsDisableTypesParam(key: string) {
    key == "disable-ipv4" || key == "disable-ipv6" || QTYPE_PREFIX <= key
  }

  predicate IsSubnetParam(key: string) {
    key == "ecs" || key == "ecs-override"
  }

  predicate IsWrapperOnlyParam(key: string) {
    IsDisableTypesParam(key) || IsSubnetParam(key)
  }

  /** A lookup of a missing key gives the empty text. */
  function Lookup(params: Params, key: string): string {
    if key in params then params[key] else ""
  }

  // ---- Construction ----

  function SetupOf(s: NameServer): Setup {
    var skip, name := Lookup(s.params, "skip-cert-verify") == "true", Lookup(s.params, "name-cert-verify");
    match s.net
    case "tls" => Tls(s.addr, s.adapter, s.proxyName, skip, name, Lookup(s.params, "disable-reuse") == "true")
    case "https" => Https(s.addr, s.adapter, s.proxyName, s.preferH3, Lookup(s.params, "h3") == "true", skip, name)
    case "dhcp" => Dhcp(s.addr)
    case "system" => System
    case "tailscale" => Tailscale(s.addr)
    case "easytier" => EasyTier(s.addr)
    case "rcode" => RCode(s.addr)
    case "quic" => Quic(s.addr, s.adapter, s.proxyName, skip, name)
    case _ => Plain(s.addr, s.adapter, s.proxyName, "tcp" <= s.net)
  }

  function WrapWithSubnet(lib: Parsers, c: Client, params: Params): Client {
    var ecs := Lookup(params, "ecs");
    var prefix := if ecs == "" then None else lib.subnet(ecs);
    if prefix.Some? then WithSubnet(c, prefix.value, Lookup(params, "ecs-override") == "true") else c
  }

  function DisabledTypes(lib: Parsers, params: Params): set<nat> {
    (if Lookup(params, "disable-ipv4") == "true" then {1} else {})
    + (if Lookup(params, "disable-ipv6") == "true" then {28} else {})
    + set key | key in params && QTYPE_PREFIX <= key && params[key] == "true"
                && lib.recordType(key[|QTYPE_PREFIX|..]).Some?
        :: lib.recordType(key[|QTYPE_PREFIX|..]).value
  }

  function WrapWithDisabledTypes(lib: Parsers, c: Client, params: Params): Client {
    var types := DisabledTypes(lib, params);
    if types == {} then c else WithDisabledTypes(c, types)
  }

  function Peel(c: Client): (raw: Client)
    ensures raw.Raw?
  {
    if c.Raw? then c else Peel(c.inner)
  }

  function Wrap(lib: Parsers, raw: Client, params: Params): Client {
    WrapWithDisabledTypes(lib, WrapWithSubnet(lib, raw, params), params)
  }

  /** Peels all wrappers off and wraps the transport anew. */
  method RewrapClient(lib: Parsers, client: Client, params: Params) returns (c: Client)
    ensures c == Wrap(lib, Peel(client), params)
  {
    c := client;
    while !c.Raw?
      invariant Peel(c) == Peel(client)
      decreases c
    {
      c := c.inner;
    }
    c := WrapWithSubnet(lib, c, params);
    c := WrapWithDisabledTypes(lib, c, params);
  }

  /** Wrapping anew forgets every earlier wrapper and keeps the transport. */
  lemma RewrapForgets(lib: Parsers, raw: Client, before: Params, after: Params)
    requires raw.Raw?
    ensures Peel(Wrap(lib, raw, before)) == raw
    ensures Wrap(lib, Peel(Wrap(lib, raw, before)), after) == Wrap(lib, raw, after)
  {
    var inner := WrapWithSubnet(lib, raw, before);
    assert Peel(inner) == raw;
  }

  // ---- Sharing ----

  predicate SameAdapter(a: Adapter, b: Adapter) {
    a == b && (a.NoAdapter? || a.comparable)
  }

  predicate Equal(s: NameServer, t: NameServer) {
    s == t && SameAdapter(s.adapter, t.adapter)
  }

  /** Every parameter of `a` that concerns the transport has the same value in `b`. */
  predicate Covered(a: Params, b: Params) {
    forall key :: key in a && !IsWrapperOnlyParam(key) ==> key in b && b[key] == a[key]
  }

  predicate TransportEqual(s: NameServer, t: NameServer) {
    && s.net == t.net && s.addr == t.addr && SameAdapter(s.adapter, t.adapter) && s.proxyName == t.proxyName
    && s.preferH3 == t.preferH3 && Covered(s.params, t.params) && Covered(t.params, s.params)
  }

  lemma SameLookup(a: Params, b: Params, key: string)
    requires Covered(a, b) && Covered(b, a) && !IsWrapperOnlyParam(key)
    ensures Lookup(a, key) == Lookup(b, key)
  {
  }

  /** No parameter that a transport constructor reads is one of the wrappers' own. */
  lemma TransportParamsAreNotWrappers()
    ensures !IsWrapperOnlyParam("skip-cert-verify") && !IsWrapperOnlyParam("name-cert-verify")
    ensures !IsWrapperOnlyParam("disable-reuse") && !IsWrapperOnlyParam("h3")
  {
    assert "disable-reuse"[8] == 'r' && QTYPE_PREFIX[8] == 'q';
    assert "skip-cert-verify"[0] == 's' && "name-cert-verify"[0] == 'n' && QTYPE_PREFIX[0] == 'd';
    assert |"disable-reuse"| == 13 && |"disable-ipv4"| == 12 && |"disable-ipv6"| == 12;
    assert |"h3"| == 2 && |"ecs"| == 3 && |"ecs-override"| == 12;
  }

  /** Servers with equal transports are set up alike, so either can stand in for the other. */
  lemma EqualTransportsAreSetUpAlike(s: NameServer, t: NameServer)
    requires TransportEqual(s, t)
    ensures SetupOf(s) == SetupOf(t)
  {
    TransportParamsAreNotWrappers();
    SameLookup(s.params, t.params, "skip-cert-verify");
    SameLookup(s.params, t.params, "name-cert-verify");
    SameLookup(s.params, t.params, "disable-reuse");
    SameLookup(s.params, t.params, "h3");
    hide Lookup, Covered;
  }

  /** Parameters that agree on the wrappers' own keys give the same wrappers. */
  lemma WrappersReadTheirOwn(lib: Parsers, raw: Client, a: Params, b: Params)
    requires forall key :: IsWrapperOnlyParam(key) ==> (key in a <==> key in b) && (key in a ==> a[key] == b[key])
    ensures Wrap(lib, raw, a) == Wrap(lib, raw, b)
  {
    assert Lookup(a, "ecs") == Lookup(b, "ecs") && Lookup(a, "ecs-override") == Lookup(b, "ecs-override") by {
      assert IsWrapperOnlyParam("ecs") && IsWrapperOnlyParam("ecs-override");
    }
    assert && Lookup(a, "disable-ipv4") == Lookup(b, "disable-ipv4")
           && Lookup(a, "disable-ipv6") == Lookup(b, "disable-ipv6") by {
      assert IsWrapperOnlyParam("disable-ipv4") && IsWrapperOnlyParam("disable-ipv6");
    }
    assert forall key :: QTYPE_PREFIX <= key ==> IsWrapperOnlyParam(key);
    assert DisabledTypes(lib, a) == DisabledTypes(lib, b);
  }

  /** Sharing is an equivalence among servers whose adapter can be compared. */
  lemma SharingIsEquivalence(s: NameServer, t: NameServer, u: NameServer)
    ensures TransportEqual(s, s) <==> SameAdapter(s.adapter, s.adapter)
    ensures TransportEqual(s, t) ==> TransportEqual(t, s)
    ensures TransportEqual(s, t) && TransportEqual(t, u) ==> TransportEqual(s, u)
  {
    hide IsWrapperOnlyParam;
  }
}
