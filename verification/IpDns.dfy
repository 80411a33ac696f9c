/** The cached lookup of the server's own address, whose failure makes Join and StartShare fail. */
module IpDns {
  import opened Domain

  // Times and durations in nanoseconds.
  const SECOND := 1_000_000_000
  const MINUTE := 60 * SECOND

  // An address is what net.IP prints: a colon tells IPv6 from IPv4.
  type Ip = string

  datatype Answer = Addresses(ips: seq<Ip>) | Failure(error: string)

  // What Get returns and keeps: err is None exactly after a lookup that found an address.
  datatype Result = Result(v4: Option<Ip>, v6: Option<Ip>, err: Option<string>)

  /** One call of Get: both readings of the clock, and what the resolver answers if it is asked. */
  datatype Call = Call(now: int, answer: Answer, later: int)

  predicate IsV6(ip: Ip) {
    ':' in ip
  }

  /** The first address of a family, if there is one. */
  function First(ips: seq<Ip>, v6: bool): Option<Ip> {
    if ips == [] then None
    else if First(ips[..|ips| - 1], v6).Some? then First(ips[..|ips| - 1], v6)
    else if IsV6(ips[|ips| - 1]) == v6 then Some(ips[|ips| - 1])
    else None
  }

  /** a is the earliest address of the answer with a colon, or without one. */
  ghost predicate EarliestAt(ips: seq<Ip>, colon: bool, a: Ip, k: nat) {
    k < |ips| && ips[k] == a && (':' in a) == colon && forall j | 0 <= j < k :: (':' in ips[j]) != colon
  }

  ghost predicate Earliest(ips: seq<Ip>, colon: bool, a: Option<Ip>) {
    if a == None then forall ip | ip in ips :: (':' in ip) != colon
    else exists k: nat :: EarliestAt(ips, colon, a.value, k)
  }

  lemma {:induction false} FirstIsEarliest(ips: seq<Ip>, v6: bool)
    ensures Earliest(ips, v6, First(ips, v6))
  {
    if ips != [] {
      var n := |ips| - 1;
      FirstIsEarliest(ips[..n], v6);
      assert ips == ips[..n] + [ips[n]];
      if First(ips[..n], v6).Some? {
        var k: nat :| EarliestAt(ips[..n], v6, First(ips[..n], v6).value, k);
        assert EarliestAt(ips, v6, First(ips, v6).value, k);
      } else if IsV6(ips[n]) == v6 {
        assert EarliestAt(ips, v6, ips[n], n);
      }
    }
  }

  predicate Found(answer: Answer) {
    answer.Addresses? && answer.ips != []
  }

  /** What a lookup makes of an answer: the earliest IPv4 and the earliest IPv6 address, or an error. */
  ghost predicate Picked(answer: Answer, a4: Option<Ip>, a6: Option<Ip>, error: Option<string>) {
    match answer
    case Failure(reason) => a4 == None && a6 == None && error == Some(reason)
    case Addresses(ips) =>
      && Earliest(ips, false, a4) && Earliest(ips, true, a6)
      && error == if ips == [] then Some("dns record doesn't have an A or AAAA record") else None
  }

  lemma LookupPicks(answer: Answer)
    ensures var r := Lookup(answer); Picked(answer, r.v4, r.v6, r.err) && (r.err == None <==> Found(answer))
  {
    if answer.Addresses? {
      hide First;
      var ips := answer.ips;
      FirstIsEarliest(ips, false);
      FirstIsEarliest(ips, true);
      assert ips != [] ==> ips[0] in ips;
    }
  }

  const NO_RECORD := "dns record doesn't have an A or AAAA record"

  function Lookup(answer: Answer): Result {
    match answer
    case Failure(error) => Result(None, None, Some(error))
    case Addresses(ips) =>
      if First(ips, false) == None && First(ips, true) == None then Result(None, None, Some(NO_RECORD))
      else Result(First(ips, false), First(ips, true), None)
  }

  class DNS {
    var refetch: int
    var v4: Option<Ip>
    var v6: Option<Ip>
    var err: Option<string>

    constructor ()
      ensures State() == EMPTY
    {
      refetch, v4, v6, err := 0, None, None, None;
    }

    ghost function State(): Cache
      reads this
    {
      Cache(refetch, Result(v4, v6, err))
    }

    /** Picks the first address of each family out of the resolver's answer. */
    method Query(answer: Answer) returns (a4: Option<Ip>, a6: Option<Ip>, error: Option<string>)
      ensures Result(a4, a6, error) == Lookup(answer)
      ensures Picked(answer, a4, a6, error)
    {
      LookupPicks(answer);
      if answer.Failure? {
        return None, None, Some(answer.error);
      }
      a4, a6 := None, None;
      for n := 0 to |answer.ips|
        invariant a4 == First(answer.ips[..n], false) && a6 == First(answer.ips[..n], true)
      {
        var ip := answer.ips[n];
        assert answer.ips[..n + 1][..n] == answer.ips[..n];
        if IsV6(ip) && a6 == None {
          a6 := Some(ip);
        } else if !IsV6(ip) && a4 == None {
          a4 := Some(ip);
        }
      }
      assert answer.ips[..|answer.ips|] == answer.ips;
      if a4 == None && a6 == None {
        return None, None, Some(NO_RECORD);
      }
      return a4, a6, None;
    }

    method Get(call: Call) returns (r4: Option<Ip>, r6: Option<Ip>, error: Option<string>)
      modifies this
      ensures State() == Got(old(State()), call)
      ensures Result(r4, r6, error) == State().last
      ensures old(refetch) < call.now ==>
        && Picked(call.answer, r4, r6, error)
        && refetch == call.later + if error == None then 60_000_000_000 else 1_000_000_000
      ensures old(refetch) >= call.now ==>
        (refetch, r4, r6, error) == (old(refetch), old(v4), old(v6), old(err))
    {
      if refetch < call.now {
        v4, v6, err := Query(call.answer);
        if err == None {
          refetch := call.later + MINUTE;
        } else {
          refetch := call.later + SECOND;
        }
      }
      return v4, v6, err;
    }
  }

  // ---------- sequences of calls ----------

  datatype Cache = Cache(refetch: int, last: Result)

  // The zero time lies before every reading of the clock.
  const EMPTY := Cache(0, Result(None, None, None))

  predicate Fetches(c: Cache, call: Call) {
    c.refetch < call.now
  }

  function Wait(answer: Answer): int {
    if Lookup(answer).err == None then MINUTE else SECOND
  }

  function Got(c: Cache, call: Call): Cache {
    if Fetches(c, call) then Cache(call.later + Wait(call.answer), Lookup(call.answer)) else c
  }

  function Run(calls: seq<Call>): Cache {
    if calls == [] then EMPTY else Got(Run(calls[..|calls| - 1]), calls[|calls| - 1])
  }

  /** Call n of calls asks the resolver. */
  predicate Asks(calls: seq<Call>, n: nat)
    requires n < |calls|
  {
    Fetches(Run(calls[..n]), calls[n])
  }

  /** Calls hold the lock one after the other and the clock does not run backwards. */
  ghost predicate Clocked(calls: seq<Call>) {
    && (forall n | 0 <= n < |calls| :: 0 < calls[n].now <= calls[n].later)
    && (forall m, n | 0 <= m < n < |calls| :: calls[m].later <= calls[n].now)
  }

  /** Calls m+1 up to n - 1 did not ask, so the cache is as call m left it. */
  lemma {:induction false} CacheKept(calls: seq<Call>, m: nat, n: nat)
    requires m < n <= |calls| && forall k | m < k < n :: !Asks(calls, k)
    ensures Run(calls[..n]) == Run(calls[..m + 1])
  {
    if n > m + 1 {
      CacheKept(calls, m, n - 1);
      assert calls[..n][..n - 1] == calls[..n - 1];
      assert !Asks(calls, n - 1);
    }
  }

  lemma AfterAsking(calls: seq<Call>, m: nat)
    requires m < |calls| && Asks(calls, m)
    ensures Run(calls[..m + 1]) == Cache(calls[m].later + Wait(calls[m].answer), Lookup(calls[m].answer))
  {
    assert calls[..m + 1][..m] == calls[..m];
  }

  /**
   After a lookup, the next one starts exactly at the first call that comes more than a minute later if it found an
   address, and more than a second later if it failed.
   */
  lemma NextLookup(calls: seq<Call>, m: nat, n: nat)
    requires m < n < |calls| && Asks(calls, m) && forall k | m < k < n :: !Asks(calls, k)
    ensures Asks(calls, n) <==>
      calls[n].now > calls[m].later + if Found(calls[m].answer) then 60_000_000_000 else 1_000_000_000
  {
    LookupPicks(calls[m].answer);
    CacheKept(calls, m, n);
    AfterAsking(calls, m);
  }

  /** Any two lookups are that far apart, whatever happens between. */
  lemma {:induction false} LookupsApart(calls: seq<Call>, m: nat, n: nat)
    requires Clocked(calls) && m < n < |calls| && Asks(calls, m) && Asks(calls, n)
    ensures calls[n].now > calls[m].now + if Found(calls[m].answer) then 60_000_000_000 else 1_000_000_000
    decreases n - m
  {
    if k :| m < k < n && Asks(calls, k) {
      LookupsApart(calls, m, k);
      assert calls[k].later <= calls[n].now;
    } else {
      NextLookup(calls, m, n);
    }
  }

  /** What call n returns. */
  function Returned(calls: seq<Call>, n: nat): Result
    requires n < |calls|
  {
    Run(calls[..n + 1]).last
  }

  /** Every call returns what the last lookup up to it picked out of its answer. */
  lemma ReturnsLastLookup(calls: seq<Call>, m: nat, n: nat)
    requires m <= n < |calls| && Asks(calls, m) && forall k | m < k <= n :: !Asks(calls, k)
    ensures var r := Returned(calls, n); Picked(calls[m].answer, r.v4, r.v6, r.err)
  {
    LookupPicks(calls[m].answer);
    AfterAsking(calls, m);
    CacheKept(calls, m, n + 1);
  }

  lemma FirstCallLooksUp(calls: seq<Call>)
    requires Clocked(calls) && calls != []
    ensures Asks(calls, 0)
  {
    assert Run(calls[..0]) == EMPTY;
  }

  /** The last lookup up to call n. */
  lemma {:induction false} SomeLookup(calls: seq<Call>, n: nat) returns (m: nat)
    requires Clocked(calls) && n < |calls|
    ensures m <= n && Asks(calls, m) && forall k | m < k <= n :: !Asks(calls, k)
  {
    if Asks(calls, n) {
      m := n;
    } else {
      FirstCallLooksUp(calls);
      m := SomeLookup(calls, n - 1);
    }
  }

  /** No error means an address of one family at least; an error means none. */
  lemma NoErrorMeansAddress(calls: seq<Call>, n: nat)
    requires Clocked(calls) && n < |calls|
    ensures var r := Returned(calls, n);
      if r.err == None then r.v4.Some? || r.v6.Some? else r.v4 == None && r.v6 == None
  {
    var m := SomeLookup(calls, n);
    ReturnsLastLookup(calls, m, n);
    if Found(calls[m].answer) {
      assert calls[m].answer.ips[0] in calls[m].answer.ips;
    }
  }
}
