/** The cache of name-server clients: what it hands out agrees with building afresh, and transports are shared. */
module ClientCache {
  import opened Options
  import opened DnsClients

  datatype Entry = Entry(server: NameServer, client: Client)

  /** `c` is what building `s` gives, over the raw transport `id`. */
  predicate BuiltAs(lib: Parsers, c: Client, s: NameServer, id: nat) {
    c == Wrap(lib, Raw(id, SetupOf(s)), s.params)
  }

  function RawId(c: Client): nat {
    Peel(c).id
  }

  lemma BuiltHasId(lib: Parsers, c: Client, s: NameServer, id: nat)
    requires BuiltAs(lib, c, s, id)
    ensures RawId(c) == id && Peel(c) == Raw(id, SetupOf(s))
  {
    RewrapForgets(lib, Raw(id, SetupOf(s)), s.params, s.params);
  }

  /** Each entry is its server's own client over an existing transport. */
  predicate Built(lib: Parsers, cache: seq<Entry>, made: nat) {
    forall k :: 0 <= k < |cache| ==>
      && RawId(cache[k].client) < made
      && BuiltAs(lib, cache[k].client, cache[k].server, RawId(cache[k].client))
  }

  /** Two entries are over one transport exactly when their servers may share it. */
  predicate Shares(cache: seq<Entry>) {
    forall i, j :: 0 <= i < j < |cache| ==>
      (RawId(cache[i].client) == RawId(cache[j].client) <==> TransportEqual(cache[i].server, cache[j].server))
  }

  predicate CacheOk(lib: Parsers, cache: seq<Entry>, made: nat) {
    Built(lib, cache, made) && Shares(cache)
  }

  /** The first entry with an equal transport decides for all entries. */
  lemma SharedKeepsShares(cache: seq<Entry>, e: Entry, first: nat)
    requires Shares(cache) && first < |cache|
    requires TransportEqual(cache[first].server, e.server) && RawId(cache[first].client) == RawId(e.client)
    ensures Shares(cache + [e])
  {
    hide TransportEqual, RawId;
    var more := cache + [e];
    forall i | 0 <= i < |cache|
      ensures RawId(cache[i].client) == RawId(e.client) <==> TransportEqual(cache[i].server, e.server)
    {
      var s, t, u := cache[i].server, cache[first].server, e.server;
      SharingIsEquivalence(s, t, u);
      SharingIsEquivalence(t, u, t);
      SharingIsEquivalence(s, u, t);
      SharingIsEquivalence(t, s, s);
      assert i < first || first < i || i == first;
    }
    assert forall j :: 0 <= j < |cache| ==> more[j] == cache[j];
  }

  lemma NewKeepsShares(lib: Parsers, cache: seq<Entry>, made: nat, e: Entry)
    requires CacheOk(lib, cache, made) && RawId(e.client) == made
    requires forall k :: 0 <= k < |cache| ==> !TransportEqual(cache[k].server, e.server)
    ensures Shares(cache + [e])
  {
    hide TransportEqual, RawId, BuiltAs;
    var more := cache + [e];
    assert forall j :: 0 <= j < |cache| ==> more[j] == cache[j];
  }

  lemma BuiltGrows(lib: Parsers, cache: seq<Entry>, made: nat, e: Entry, made': nat)
    requires Built(lib, cache, made) && made <= made'
    requires RawId(e.client) < made' && BuiltAs(lib, e.client, e.server, RawId(e.client))
    ensures Built(lib, cache + [e], made')
  {
    hide RawId, BuiltAs;
    var more := cache + [e];
    assert forall j :: 0 <= j < |cache| ==> more[j] == cache[j];
  }

  /** The result for one server is in the cache under it. */
  predicate Listed(cache: seq<Entry>, s: NameServer, c: Client) {
    Entry(s, c) in cache
  }

  /** Entry `k` is the first whose server is `s`. */
  predicate FirstEqual(cache: seq<Entry>, s: NameServer, k: nat) {
    && k < |cache| && Equal(cache[k].server, s)
    && forall j :: 0 <= j < k ==> !Equal(cache[j].server, s)
  }

  /** Entry `k` is the first whose server may share its transport with `s`. */
  predicate FirstShared(cache: seq<Entry>, s: NameServer, k: nat) {
    && k < |cache| && TransportEqual(cache[k].server, s)
    && forall j :: 0 <= j < k ==> !TransportEqual(cache[j].server, s)
  }

  predicate NoneEqual(cache: seq<Entry>, s: NameServer) {
    forall j :: 0 <= j < |cache| ==> !Equal(cache[j].server, s)
  }

  predicate NoneShared(cache: seq<Entry>, s: NameServer) {
    forall j :: 0 <= j < |cache| ==> !TransportEqual(cache[j].server, s)
  }

  class Cache {
    const lib: Parsers
    var cache: seq<Entry>

    /** Transports built so far; the next one gets this number. */
    var made: nat

    predicate Valid()
      reads this
    {
      CacheOk(lib, cache, made)
    }

    constructor (lib: Parsers)
      ensures Valid() && cache == [] && made == 0
    {
      this.lib, cache, made := lib, [], 0;
    }

    /** Builds a client from scratch. */
    method Transform(s: NameServer) returns (c: Client)
      modifies `made
      ensures BuiltAs(lib, c, s, old(made)) && made == old(made) + 1
    {
      c := RewrapClient(lib, Raw(made, SetupOf(s)), s.params);
      made := made + 1;
    }

    /** The scan: the first equal server ends it; otherwise the first equal transport is remembered. */
    method Scan(s: NameServer) returns (exact: Option<nat>, shared: Option<nat>)
      ensures exact.Some? ==> FirstEqual(cache, s, exact.value)
      ensures exact.None? ==> NoneEqual(cache, s)
      ensures exact.None? && shared.Some? ==> FirstShared(cache, s, shared.value)
      ensures exact.None? && shared.None? ==> NoneShared(cache, s)
    {
      hide TransportEqual, Equal;
      exact, shared := None, None;
      for k := 0 to |cache|
        invariant forall j :: 0 <= j < k ==> !Equal(cache[j].server, s)
        invariant shared.Some? ==> shared.value < k && FirstShared(cache, s, shared.value)
        invariant shared.None? ==> forall j :: 0 <= j < k ==> !TransportEqual(cache[j].server, s)
      {
        if Equal(cache[k].server, s) {
          return Some(k), shared;
        }
        if shared.None? && TransportEqual(cache[k].server, s) {
          shared := Some(k);
        }
      }
    }

    /**
     The client of one server.  An equal server's client is handed out as it is; otherwise the
     server is added, over the transport of the first server that may share one, or a new one.
     */
    method ClientFor(s: NameServer) returns (c: Client)
      requires Valid()
      modifies this
      ensures Valid() && Listed(cache, s, c)
      ensures NoneEqual(old(cache), s) ==> cache == old(cache) + [Entry(s, c)]
      ensures !NoneEqual(old(cache), s) ==>
        && cache == old(cache) && made == old(made)
        && exists k: nat :: FirstEqual(cache, s, k) && c == cache[k].client
      ensures NoneEqual(old(cache), s) && NoneShared(old(cache), s) ==> RawId(c) == old(made) && made == old(made) + 1
      ensures NoneEqual(old(cache), s) && !NoneShared(old(cache), s) ==>
        && made == old(made)
        && exists k: nat :: FirstShared(old(cache), s, k) && RawId(c) == RawId(old(cache)[k].client)
    {
      hide TransportEqual, Equal, BuiltAs, RawId, Shares;
      var exact, shared := Scan(s);
      if exact.Some? {
        var k := exact.value;
        EqualIsSame(cache[k].server, s);
        assert cache[k] == Entry(s, cache[k].client);
        return cache[k].client;
      }
      if shared.Some? {
        var from := cache[shared.value];
        c := RewrapClient(lib, from.client, s.params);
        RewrappedIsBuilt(lib, from, s, c);
        SharedKeepsShares(cache, Entry(s, c), shared.value);
      } else {
        c := Transform(s);
        BuiltHasId(lib, c, s, old(made));
        NewKeepsShares(lib, cache, old(made), Entry(s, c));
      }
      BuiltGrows(lib, cache, old(made), Entry(s, c), made);
      cache := cache + [Entry(s, c)];
    }

    /**
     The clients of a list of servers, in its order.  Every one is listed in the cache under its
     server, and what was listed stays.
     */
    method CacheTransform(servers: seq<NameServer>) returns (result: seq<Client>)
      requires Valid()
      modifies this
      ensures Valid() && old(cache) <= cache
      ensures |result| == |servers| && forall k :: 0 <= k < |servers| ==> Listed(cache, servers[k], result[k])
    {
      hide CacheOk;
      result := [];
      for k := 0 to |servers|
        invariant Valid() && old(cache) <= cache
        invariant |result| == k && forall j :: 0 <= j < k ==> Listed(cache, servers[j], result[j])
      {
        var before := cache;
        var c := ClientFor(servers[k]);
        StillListed(before, cache);
        result := result + [c];
      }
    }
  }

  lemma EqualIsSame(s: NameServer, t: NameServer)
    requires Equal(s, t)
    ensures s == t
  {
  }

  lemma StillListed(before: seq<Entry>, after: seq<Entry>)
    requires before <= after
    ensures forall s, c :: Listed(before, s, c) ==> Listed(after, s, c)
  {
    assert forall k :: 0 <= k < |before| ==> before[k] == after[k];
  }

  lemma RewrappedIsBuilt(lib: Parsers, from: Entry, s: NameServer, c: Client)
    requires BuiltAs(lib, from.client, from.server, RawId(from.client)) && TransportEqual(from.server, s)
    requires c == Wrap(lib, Peel(from.client), s.params)
    ensures RawId(c) == RawId(from.client) && BuiltAs(lib, c, s, RawId(c))
  {
    hide SetupOf, Wrap, TransportEqual;
    EqualTransportsAreSetUpAlike(from.server, s);
    BuiltHasId(lib, from.client, from.server, RawId(from.client));
    BuiltHasId(lib, c, s, RawId(from.client));
  }

  /**
   A client that was handed out is its server's own wrapper stack over a transport set up as
   building afresh would; two of them, from whichever calls, are over one transport exactly when
   their servers may share it, unless they are one and the same entry.
   */
  lemma HandedOutAgreesWithBuilding(lib: Parsers, cache: seq<Entry>, made: nat, s: NameServer, c: Client,
                                    t: NameServer, d: Client)
    requires CacheOk(lib, cache, made) && Listed(cache, s, c) && Listed(cache, t, d)
    ensures BuiltAs(lib, c, s, RawId(c)) && Peel(c).setup == SetupOf(s)
    ensures TransportEqual(s, t) ==> RawId(c) == RawId(d)
    ensures RawId(c) == RawId(d) ==> TransportEqual(s, t) || (s == t && c == d)
  {
    hide TransportEqual, RawId, BuiltAs;
    var i :| 0 <= i < |cache| && cache[i] == Entry(s, c);
    var j :| 0 <= j < |cache| && cache[j] == Entry(t, d);
    BuiltHasId(lib, c, s, RawId(c));
    SharingIsEquivalence(s, t, s);
    SharingIsEquivalence(t, s, t);
  }
}
