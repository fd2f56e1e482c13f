/** Aging of cached DNS answers: times to live are 32-bit and each section is aged by its own minimum. */
module DnsTtl {
  import opened Options
  import opened Subsequences

  const WORD: int := 0x1_0000_0000

  /** A 32-bit unsigned number. */
  type Word = w: int | 0 <= w < WORD

  /** The time to live kept for a server failure. */
  const FAILURE_TTL: Word := 5
  const SECOND := 1_000_000_000

  const SERVER_FAILURE := 2
  const OPT := 41
  const TXT := 16

  datatype Record = Record(rrtype: nat, ttl: Word)

  datatype Msg = Msg(rcode: nat, answer: seq<Record>, ns: seq<Record>, extra: seq<Record>)

  /** Subtraction that wraps around. */
  function Minus(a: Word, b: Word): Word {
    if a >= b then a - b else a - b + WORD
  }

  function Clamp(value: Word, low: Word, high: Word): Word {
    if value < low then low else if value > high then high else value
  }

  function Max(a: int, b: int): int {
    if a < b then b else a
  }

  // ---- The least time to live ----

  predicate IsMinimum(records: seq<Record>, m: Word) {
    && (forall k :: 0 <= k < |records| ==> m <= records[k].ttl)
    && (if records == [] then m == 0 else exists k :: 0 <= k < |records| && records[k].ttl == m)
  }

  function MinimalTTL(records: seq<Record>): (m: Word)
    ensures IsMinimum(records, m)
  {
    if records == [] then 0
    else
      var init, last := records[..|records| - 1], records[|records| - 1].ttl;
      var rest := MinimalTTL(init);
      assert forall k :: 0 <= k < |init| ==> init[k] == records[k];
      if init == [] || last < rest then last
      else
        var k :| 0 <= k < |init| && init[k].ttl == rest;
        assert records[k].ttl == rest;
        rest
  }

  // ---- Aging ----

  /** What a record of a section with the given minimum is served with when `left` seconds remain. */
  function AgedTTL(ttl: Word, minimum: Word, left: Word): Word {
    Clamp(Minus(ttl, Minus(minimum, left)), 1, ttl)
  }

  function Aged(records: seq<Record>, left: Word): (aged: seq<Record>)
    ensures |aged| == |records|
    ensures forall k :: 0 <= k < |records| ==>
      aged[k] == records[k].(ttl := AgedTTL(records[k].ttl, MinimalTTL(records), left))
  {
    var minimum := MinimalTTL(records);
    seq(|records|, k requires 0 <= k < |records| => records[k].(ttl := AgedTTL(records[k].ttl, minimum, left)))
  }

  /** The longest a record may still be served for: it was given `ttl` when `life - left` more seconds remained. */
  function Deserved(ttl: Word, life: Word, left: Word): int {
    Max(1, ttl - (life - left))
  }

  lemma AgedWithoutWrapping(ttl: Word, minimum: Word, left: Word)
    requires left <= minimum <= ttl && 0 < ttl
    ensures AgedTTL(ttl, minimum, left) == Max(1, ttl - (minimum - left))
  {
  }

  /** Without wrapping, a section ages by one common amount, down to 1. */
  lemma SectionAgesTogether(records: seq<Record>, left: Word)
    requires left <= MinimalTTL(records)
    ensures var delta := MinimalTTL(records) - left;
      forall k :: 0 <= k < |records| && records[k].ttl > 0 ==>
        Aged(records, left)[k].ttl == Max(1, records[k].ttl - delta)
  {
    hide AgedTTL, MinimalTTL;
    forall k | 0 <= k < |records| && records[k].ttl > 0
      ensures Aged(records, left)[k].ttl == Max(1, records[k].ttl - (MinimalTTL(records) - left))
    {
      AgedWithoutWrapping(records[k].ttl, MinimalTTL(records), left);
    }
  }

  /** A section whose minimum is not below its message's life is never served past its expiry, but for the floor. */
  lemma SectionServedInTime(records: seq<Record>, life: Word, left: Word)
    requires left <= life <= MinimalTTL(records) && 0 < life
    ensures forall k :: 0 <= k < |records| ==> 1 <= Aged(records, left)[k].ttl <= Deserved(records[k].ttl, life, left)
  {
    hide AgedTTL, MinimalTTL;
    forall k | 0 <= k < |records|
      ensures 1 <= Aged(records, left)[k].ttl <= Deserved(records[k].ttl, life, left)
    {
      assert MinimalTTL(records) <= records[k].ttl;
      SectionAgesTogether(records, left);
    }
  }

  // ---- Messages ----

  function NotOpt(records: seq<Record>): (kept: seq<Record>)
    ensures forall k :: 0 <= k < |kept| ==> kept[k] in records && kept[k].rrtype != OPT
    ensures forall r :: r in records && r.rrtype != OPT ==> r in kept
  {
    if records == [] then []
    else
      var init, last := records[..|records| - 1], records[|records| - 1];
      assert records == init + [last];
      if last.rrtype == OPT then NotOpt(init) else NotOpt(init) + [last]
  }

  /** Option records and nothing else are left out; the rest keeps its order and its repetitions. */
  lemma {:induction false} NotOptFilters(records: seq<Record>, r: Record)
    ensures Subsequence(NotOpt(records), records)
    ensures multiset(NotOpt(records))[r] == if r.rrtype == OPT then 0 else multiset(records)[r]
  {
    if records != [] {
      var init, last := records[..|records| - 1], records[|records| - 1];
      assert records == init + [last];
      NotOptFilters(init, r);
      SubsequenceOfMore(NotOpt(init), init, last);
    }
  }

  function Stored(m: Msg): Msg {
    m.(extra := NotOpt(m.extra))
  }

  /** Seconds a stored message is kept for. */
  function Life(m: Msg): Word {
    if m.rcode == SERVER_FAILURE then FAILURE_TTL else MinimalTTL(m.answer + m.ns + m.extra)
  }

  /** What is put into the cache for a question, with its life; nothing for an acme challenge or a life of 0. */
  function Put(qtype: nat, name: string, m: Msg): Option<(Msg, Word)> {
    if (qtype == TXT && "_acme-challenge." <= name) || Life(Stored(m)) == 0 then None
    else Some((Stored(m), Life(Stored(m))))
  }

  function AgedMsg(m: Msg, left: Word): Msg {
    Msg(m.rcode, Aged(m.answer, left), Aged(m.ns, left), Aged(m.extra, left))
  }

  lemma MinimumOfPart(part: seq<Record>, all: seq<Record>)
    requires part != [] && forall k :: 0 <= k < |part| ==> part[k] in all
    ensures MinimalTTL(all) <= MinimalTTL(part)
  {
    var k :| 0 <= k < |part| && part[k].ttl == MinimalTTL(part);
    assert part[k] in all;
  }

  predicate InTime(records: seq<Record>, served: seq<Record>, life: Word, left: Word) {
    && |served| == |records|
    && forall k :: 0 <= k < |records| ==> 1 <= served[k].ttl <= Deserved(records[k].ttl, life, left)
  }

  /** No record of a message is served with more than it deserves. */
  predicate Sparing(m: Msg, served: Msg, life: Word, left: Word) {
    && InTime(m.answer, served.answer, life, left)
    && InTime(m.ns, served.ns, life, left)
    && InTime(m.extra, served.extra, life, left)
  }

  lemma PartServedInTime(part: seq<Record>, all: seq<Record>, left: Word)
    requires forall k :: 0 <= k < |part| ==> part[k] in all
    requires left <= MinimalTTL(all) && 0 < MinimalTTL(all)
    ensures InTime(part, Aged(part, left), MinimalTTL(all), left)
    ensures part != [] ==> left <= MinimalTTL(part)
  {
    if part != [] {
      MinimumOfPart(part, all);
      SectionServedInTime(part, MinimalTTL(all), left);
    }
  }

  /**
   A cached answer other than a server failure: whatever of its life is left, no section's
   subtraction wraps, and no record is served past its own expiry but for the floor of 1.
   */
  lemma CachedServedInTime(qtype: nat, name: string, m: Msg, left: Word)
    requires Put(qtype, name, m).Some? && m.rcode != SERVER_FAILURE && left <= Put(qtype, name, m).value.1
    ensures var (s, life) := Put(qtype, name, m).value;
      && Sparing(s, AgedMsg(s, left), life, left)
      && (s.answer != [] ==> left <= MinimalTTL(s.answer)) && (s.ns != [] ==> left <= MinimalTTL(s.ns))
      && (s.extra != [] ==> left <= MinimalTTL(s.extra))
      && forall k :: 0 <= k < |s.extra| ==> s.extra[k].rrtype != OPT
  {
    var s := Stored(m);
    var all := s.answer + s.ns + s.extra;
    PartServedInTime(s.answer, all, left);
    PartServedInTime(s.ns, all, left);
    PartServedInTime(s.extra, all, left);
  }

  // ---- Put at one time and served at another ----

  /** A message in the cache, with the time of its expiry in nanoseconds. */
  datatype Cached = Cached(msg: Msg, expire: int)

  /** The caches keep an expiry in whole seconds, rounded down. */
  function Expiry(at: int, life: Word): (expire: int)
    ensures at + (life - 1) * SECOND < expire <= at + life * SECOND
  {
    (at + life * SECOND) / SECOND * SECOND
  }

  function PutAt(qtype: nat, name: string, m: Msg, at: int): Option<Cached> {
    match Put(qtype, name, m)
    case None => None
    case Some((s, life)) => Some(Cached(s, Expiry(at, life)))
  }

  /** Times to live are whole seconds of 32 bits, which is all a message can be kept for. */
  predicate CanServe(expire: int, now: int) {
    expire - now < WORD * SECOND
  }

  function Left(expire: int, now: int): (left: Word)
    requires now <= expire && CanServe(expire, now)
    ensures left * SECOND <= expire - now < (left + 1) * SECOND
  {
    (expire - now) / SECOND
  }

  /** What a question at `now` is answered with. */
  function Served(e: Cached, now: int): Msg
    requires CanServe(e.expire, now)
  {
    if e.expire < now
    then Msg(e.msg.rcode, SetAll(e.msg.answer, 1, false), SetAll(e.msg.ns, 1, false), SetAll(e.msg.extra, 1, true))
    else AgedMsg(e.msg, Left(e.expire, now))
  }

  /** A record given at `at` and served at `now` ends no later than it was given for, but for the floor. */
  predicate RecordInTime(given: Record, at: int, served: Record, now: int) {
    served.rrtype == given.rrtype && (served.ttl <= 1 || now + served.ttl * SECOND <= at + given.ttl * SECOND)
  }

  predicate SectionInTime(given: seq<Record>, at: int, served: seq<Record>, now: int) {
    |served| == |given| && forall k :: 0 <= k < |given| ==> RecordInTime(given[k], at, served[k], now)
  }

  predicate MsgInTime(given: Msg, at: int, served: Msg, now: int) {
    && SectionInTime(given.answer, at, served.answer, now)
    && SectionInTime(given.ns, at, served.ns, now)
    && SectionInTime(given.extra, at, served.extra, now)
  }

  lemma PutCanServe(qtype: nat, name: string, m: Msg, at: int, now: int)
    requires PutAt(qtype, name, m, at).Some? && at <= now
    ensures CanServe(PutAt(qtype, name, m, at).value.expire, now)
  {
  }

  /** Time that has passed is taken off the seconds left, and rounding takes off more. */
  lemma LeftWithinLife(life: Word, at: int, now: int)
    requires at <= now <= Expiry(at, life) && CanServe(Expiry(at, life), now)
    ensures Left(Expiry(at, life), now) <= life && now - at <= (life - Left(Expiry(at, life), now)) * SECOND
  {
  }

  /** Who gets no more than what is deserved ends in time. */
  lemma DeservedIsInTime(ttl: Word, u: Word, life: Word, left: Word, at: int, now: int)
    requires left <= life && now - at <= (life - left) * SECOND && u <= Deserved(ttl, life, left)
    ensures u <= 1 || now + u * SECOND <= at + ttl * SECOND
  {
  }

  /** A stale message is served with 1 all over. */
  lemma StaleIsInTime(m: Msg, at: int, expire: int, now: int)
    requires expire < now && forall k :: 0 <= k < |m.extra| ==> m.extra[k].rrtype != OPT
    ensures MsgInTime(m, at, Served(Cached(m, expire), now), now)
  {
  }

  lemma PutIsStored(qtype: nat, name: string, m: Msg, at: int)
    requires PutAt(qtype, name, m, at).Some?
    ensures Put(qtype, name, m).Some?
    ensures var e, (s, life) := PutAt(qtype, name, m, at).value, Put(qtype, name, m).value;
      e == Cached(s, Expiry(at, life)) && forall k :: 0 <= k < |s.extra| ==> s.extra[k].rrtype != OPT
  {
    hide MinimalTTL;
  }

  /**
   An answer other than a server failure, put into the cache at one time and served at any later
   one, stale or not: every record of every section ends in time.
   */
  lemma AnswerServedInTime(qtype: nat, name: string, m: Msg, at: int, now: int)
    requires PutAt(qtype, name, m, at).Some? && m.rcode != SERVER_FAILURE && at <= now
    ensures CanServe(PutAt(qtype, name, m, at).value.expire, now)
    ensures var e := PutAt(qtype, name, m, at).value; MsgInTime(e.msg, at, Served(e, now), now)
  {
    hide Put, PutAt, Sparing, MinimalTTL, Left, CanServe, MsgInTime, AgedMsg, Expiry;
    PutCanServe(qtype, name, m, at, now);
    PutIsStored(qtype, name, m, at);
    var e := PutAt(qtype, name, m, at).value;
    if now <= e.expire {
      var life := Put(qtype, name, m).value.1;
      LeftWithinLife(life, at, now);
      CachedServedInTime(qtype, name, m, Left(e.expire, now));
      SparingIsInTime(e.msg, life, Left(e.expire, now), at, now);
    } else {
      StaleIsInTime(e.msg, at, e.expire, now);
    }
  }

  lemma SparingIsInTime(m: Msg, life: Word, left: Word, at: int, now: int)
    requires left <= life && now - at <= (life - left) * SECOND && Sparing(m, AgedMsg(m, left), life, left)
    ensures MsgInTime(m, at, AgedMsg(m, left), now)
  {
    hide InTime, SectionInTime, MinimalTTL;
    AgedSectionInTime(m.answer, life, left, at, now);
    AgedSectionInTime(m.ns, life, left, at, now);
    AgedSectionInTime(m.extra, life, left, at, now);
  }

  lemma AgedSectionInTime(records: seq<Record>, life: Word, left: Word, at: int, now: int)
    requires left <= life && now - at <= (life - left) * SECOND && InTime(records, Aged(records, left), life, left)
    ensures SectionInTime(records, at, Aged(records, left), now)
  {
    hide MinimalTTL, AgedTTL, Deserved;
    var served := Aged(records, left);
    forall k | 0 <= k < |records|
      ensures RecordInTime(records[k], at, served[k], now)
    {
      DeservedIsInTime(records[k].ttl, served[k].ttl, life, left, at, now);
    }
  }

  // ---- Server failures ----

  /**
   A server failure is kept for five seconds whatever its records say.  One of them ends in time
   exactly under this condition.  With no more left than the minimum of its section: it has reached
   the floor, or no more time has passed than is taken off.  With more left than that nothing is
   taken off: it was at the floor already, no time has passed, or the sum wraps round.
   */
  predicate FailureOk(ttl: Word, minimum: Word, left: Word, at: int, now: int) {
    if left <= minimum then ttl <= 1 + minimum - left || now - at <= (minimum - left) * SECOND
    else ttl <= 1 || now == at || ttl + left - minimum >= WORD
  }

  lemma FailureServedInTime(ttl: Word, minimum: Word, left: Word, at: int, now: int)
    requires minimum <= ttl && left <= FAILURE_TTL && 0 <= now - at <= (FAILURE_TTL - left) * SECOND
    ensures var u := AgedTTL(ttl, minimum, left);
      u <= 1 || now + u * SECOND <= at + ttl * SECOND <==> FailureOk(ttl, minimum, left, at, now)
  {
  }

  predicate SectionFailureOk(records: seq<Record>, left: Word, at: int, now: int) {
    forall k :: 0 <= k < |records| ==> FailureOk(records[k].ttl, MinimalTTL(records), left, at, now)
  }

  predicate MsgFailureOk(m: Msg, left: Word, at: int, now: int) {
    && SectionFailureOk(m.answer, left, at, now)
    && SectionFailureOk(m.ns, left, at, now)
    && SectionFailureOk(m.extra, left, at, now)
  }

  lemma FailureSectionInTime(records: seq<Record>, left: Word, at: int, now: int)
    requires left <= FAILURE_TTL && 0 <= now - at <= (FAILURE_TTL - left) * SECOND
    ensures SectionInTime(records, at, Aged(records, left), now) <==> SectionFailureOk(records, left, at, now)
  {
    hide MinimalTTL, AgedTTL, FailureOk;
    var served := Aged(records, left);
    forall k | 0 <= k < |records|
      ensures RecordInTime(records[k], at, served[k], now) <==>
        FailureOk(records[k].ttl, MinimalTTL(records), left, at, now)
    {
      FailureServedInTime(records[k].ttl, MinimalTTL(records), left, at, now);
    }
  }

  /**
   A server failure, put into the cache at one time and served at a later one: all its records end
   in time exactly if it is stale by then, or every record of every section meets the condition.
   */
  lemma FailureServedInTimeExactly(qtype: nat, name: string, m: Msg, at: int, now: int)
    requires PutAt(qtype, name, m, at).Some? && m.rcode == SERVER_FAILURE && at <= now
    ensures CanServe(PutAt(qtype, name, m, at).value.expire, now)
    ensures var e := PutAt(qtype, name, m, at).value;
      MsgInTime(e.msg, at, Served(e, now), now) <==>
        e.expire < now || MsgFailureOk(e.msg, Left(e.expire, now), at, now)
  {
    PutCanServe(qtype, name, m, at, now);
    PutIsStored(qtype, name, m, at);
    var e := PutAt(qtype, name, m, at).value;
    assert e.expire == Expiry(at, FAILURE_TTL);
    hide MinimalTTL, SectionFailureOk, SectionInTime, PutAt, Put, Expiry;
    if now <= e.expire {
      LeftWithinLife(FAILURE_TTL, at, now);
      var left := Left(e.expire, now);
      FailureSectionInTime(e.msg.answer, left, at, now);
      FailureSectionInTime(e.msg.ns, left, at, now);
      FailureSectionInTime(e.msg.extra, left, at, now);
    } else {
      StaleIsInTime(e.msg, at, e.expire, now);
    }
  }

  const FAILURE := Msg(SERVER_FAILURE, [], [Record(6, 2)], [])

  /** A record of a server failure outlives itself: two seconds later it still has both of its two seconds. */
  lemma FailureOutlivesRecord()
    ensures PutAt(1, "example.com.", FAILURE, 0) == Some(Cached(FAILURE, 5 * SECOND))
    ensures Served(Cached(FAILURE, 5 * SECOND), 2 * SECOND).ns == [Record(6, 2)]
    ensures !MsgInTime(FAILURE, 0, Served(Cached(FAILURE, 5 * SECOND), 2 * SECOND), 2 * SECOND)
  {
    assert MinimalTTL(FAILURE.ns) == 2 by {
      assert FAILURE.ns[0].ttl == 2;
    }
    assert Left(5 * SECOND, 2 * SECOND) == 3;
    assert Aged(FAILURE.ns, 3)[0] == Record(6, 2);
    assert !RecordInTime(FAILURE.ns[0], 0, Record(6, 2), 2 * SECOND);
  }

  function SetAll(records: seq<Record>, ttl: Word, skipOpt: bool): (r: seq<Record>)
    ensures |r| == |records|
    ensures forall k :: 0 <= k < |records| ==>
      r[k] == if skipOpt && records[k].rrtype == OPT then records[k] else records[k].(ttl := ttl)
  {
    seq(|records|, k requires 0 <= k < |records| =>
          if skipOpt && records[k].rrtype == OPT then records[k] else records[k].(ttl := ttl))
  }

  // ---- In place ----

  method FindMinimum(records: array<Record>) returns (m: Word)
    ensures m == MinimalTTL(records[..])
  {
    if records.Length == 0 {
      return 0;
    }
    m := records[0].ttl;
    for k := 1 to records.Length
      invariant m == MinimalTTL(records[..k])
    {
      assert records[..k + 1][..k] == records[..k];
      if records[k].ttl < m {
        m := records[k].ttl;
      }
    }
    assert records[..records.Length] == records[..];
  }

  method UpdateTTL(records: array<Record>, left: Word)
    modifies records
    ensures records[..] == Aged(old(records[..]), left)
  {
    if records.Length == 0 {
      return;
    }
    var minimum := FindMinimum(records);
    var delta := Minus(minimum, left);
    for k := 0 to records.Length
      invariant forall j :: 0 <= j < k ==>
                  records[j] == old(records[j]).(ttl := AgedTTL(old(records[j].ttl), minimum, left))
      invariant forall j :: k <= j < records.Length ==> records[j] == old(records[j])
    {
      records[k] := records[k].(ttl := Clamp(Minus(records[k].ttl, delta), 1, records[k].ttl));
    }
  }

  class Message {
    const rcode: nat
    const answer: array<Record>
    const ns: array<Record>
    const extra: array<Record>

    ghost predicate Valid() {
      answer != ns && answer != extra && ns != extra
    }

    function View(): Msg
      reads answer, ns, extra
    {
      Msg(rcode, answer[..], ns[..], extra[..])
    }

    constructor (m: Msg)
      ensures Valid() && View() == m && fresh(answer) && fresh(ns) && fresh(extra)
    {
      rcode := m.rcode;
      var a := new Record[|m.answer|](k requires 0 <= k < |m.answer| => m.answer[k]);
      var n := new Record[|m.ns|](k requires 0 <= k < |m.ns| => m.ns[k]);
      var e := new Record[|m.extra|](k requires 0 <= k < |m.extra| => m.extra[k]);
      answer, ns, extra := a, n, e;
      new;
      assert answer[..] == m.answer && ns[..] == m.ns && extra[..] == m.extra;
    }

    method UpdateMsgTTL(left: Word)
      requires Valid()
      modifies answer, ns, extra
      ensures View() == AgedMsg(old(View()), left)
    {
      UpdateTTL(answer, left);
      UpdateTTL(ns, left);
      UpdateTTL(extra, left);
    }

    /** Every record gets the given time to live, but for option records of the additional section. */
    method SetMsgTTL(ttl: Word)
      requires Valid()
      modifies answer, ns, extra
      ensures answer[..] == SetAll(old(answer[..]), ttl, false) && ns[..] == SetAll(old(ns[..]), ttl, false)
      ensures extra[..] == SetAll(old(extra[..]), ttl, true)
    {
      SetTTL(answer, ttl, false);
      SetTTL(ns, ttl, false);
      SetTTL(extra, ttl, true);
    }

    /** A copy from the cache, made fit for the time of the question; tells whether it had expired. */
    method Serve(expire: int, now: int) returns (stale: bool)
      requires Valid() && CanServe(expire, now)
      modifies answer, ns, extra
      ensures stale <==> expire < now
      ensures View() == Served(Cached(old(View()), expire), now)
    {
      if expire < now {
        SetMsgTTL(1);
        return true;
      }
      UpdateMsgTTL(Left(expire, now));
      return false;
    }
  }

  method SetTTL(records: array<Record>, ttl: Word, skipOpt: bool)
    modifies records
    ensures records[..] == SetAll(old(records[..]), ttl, skipOpt)
  {
    for k := 0 to records.Length
      invariant forall j :: 0 <= j < k ==> records[j] == SetAll(old(records[..]), ttl, skipOpt)[j]
      invariant forall j :: k <= j < records.Length ==> records[j] == old(records[j])
    {
      if !skipOpt || records[k].rrtype != OPT {
        records[k] := records[k].(ttl := ttl);
      }
    }
  }
}
