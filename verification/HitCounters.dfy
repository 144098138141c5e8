/** Occasional logging: include/easylogging++/easylogging++.h, lines 2023-2100, and
    include/easylogging++/easylogging++.cc, lines 1841-1850. */
module HitCounters {
  import opened Division

  /** `kMaxLogPerCounter` */
  const MAX_LOG_PER_COUNTER := 100000

  datatype Site = Site(filename: string, lineNumber: nat)

  /** `validateHitCounts(n)`: wraps a full counter, keeping its phase, and counts the hit. */
  function Tick(hitCounts: nat, n: nat): nat {
    (if hitCounts >= MAX_LOG_PER_COUNTER then if n >= 1 then MAX_LOG_PER_COUNTER % n else 0 else hitCounts) + 1
  }

  predicate Fires(hitCounts: nat, n: nat) {
    n >= 1 && hitCounts != 0 && hitCounts % n == 0
  }

  /** The counter of a site after its `k`-th call, when every call passes the same `n`. */
  function Counter(n: nat, k: nat): nat {
    if k == 0 then 0 else Tick(Counter(n, k - 1), n)
  }

  /** What "every n-th time" promises for call `k`. */
  predicate Due(n: nat, k: nat) {
    n >= 1 && k % n == 0
  }

  // ---------------------------------------------------------------- the phase survives the wrap

  /** The counter never exceeds the limit and stays in step with the number of calls. */
  lemma {:induction false} PhaseIsKept(n: nat, k: nat)
    requires 1 <= n <= MAX_LOG_PER_COUNTER && k >= 1
    ensures 1 <= Counter(n, k) <= MAX_LOG_PER_COUNTER && Counter(n, k) % n == k % n
  {
    if k == 1 {
      assert Counter(n, k) == Tick(Counter(n, 0), n) == 1;
    } else {
      PhaseIsKept(n, k - 1);
      var c := Counter(n, k - 1);
      if c >= MAX_LOG_PER_COUNTER {
        RemainderOfRemainder(MAX_LOG_PER_COUNTER, n);
        SuccessorRemainder(MAX_LOG_PER_COUNTER % n, k - 1, n);
      } else {
        SuccessorRemainder(c, k - 1, n);
      }
    }
  }

  lemma RemainderOfRemainder(a: nat, n: nat)
    requires n > 0
    ensures a % n < n && a % n % n == a % n
  {
    UniqueRemainder(a % n, n, 0, a % n);
  }

  lemma {:induction false} CountsUpToTheLimit(n: nat, k: nat)
    requires k <= MAX_LOG_PER_COUNTER
    ensures Counter(n, k) == k
  {
    if k > 0 {
      CountsUpToTheLimit(n, k - 1);
    }
  }

  /** For a larger `n` the counter gets stuck just above the limit. */
  lemma {:induction false} StuckAboveTheLimit(n: nat, k: nat)
    requires n > MAX_LOG_PER_COUNTER && k > MAX_LOG_PER_COUNTER
    ensures Counter(n, k) == MAX_LOG_PER_COUNTER + 1
    decreases k
  {
    if k == MAX_LOG_PER_COUNTER + 1 {
      CountsUpToTheLimit(n, k - 1);
    } else {
      StuckAboveTheLimit(n, k - 1);
    }
    UniqueRemainder(MAX_LOG_PER_COUNTER, n, 0, MAX_LOG_PER_COUNTER);
  }

  ghost predicate EveryNthFires(n: nat) {
    forall k: nat | k >= 1 :: Fires(Counter(n, k), n) == Due(n, k)
  }

  /** Every n-th call fires and no other, for all calls, exactly when `n` is at most the limit. */
  lemma EveryNthFiresExactly(n: nat)
    ensures EveryNthFires(n) <==> n <= MAX_LOG_PER_COUNTER
  {
    if n <= MAX_LOG_PER_COUNTER {
      forall k: nat | k >= 1 ensures Fires(Counter(n, k), n) == Due(n, k) {
        if n >= 1 {
          PhaseIsKept(n, k);
        }
      }
    } else if n == MAX_LOG_PER_COUNTER + 1 {
      var k := n + 1;
      StuckAboveTheLimit(n, k);
      UniqueRemainder(n, n, 1, 0);
      UniqueRemainder(k, n, 1, 1);
      assert Fires(Counter(n, k), n) != Due(n, k);
    } else {
      StuckAboveTheLimit(n, n);
      UniqueRemainder(n, n, 1, 0);
      UniqueRemainder(MAX_LOG_PER_COUNTER + 1, n, 0, MAX_LOG_PER_COUNTER + 1);
      assert Fires(Counter(n, n), n) != Due(n, n);
    }
  }

  /** Two inputs past the limit: just above it every later call fires, and at twice the limit none ever does. */
  lemma PastTheLimit()
    ensures Fires(Counter(100001, 100002), 100001) && !Due(100001, 100002)
    ensures !Fires(Counter(200000, 200000), 200000) && Due(200000, 200000)
  {
    StuckAboveTheLimit(100001, 100002);
    StuckAboveTheLimit(200000, 200000);
    hide Counter;
  }

  // ---------------------------------------------------------------- many call sites

  datatype Call = Call(site: Site, n: nat)

  function CountIn(counts: map<Site, nat>, site: Site): nat {
    if site in counts then counts[site] else 0
  }

  /** `validateEveryN` touches the counter of its own site only; a missing counter is registered at 0. */
  function AfterCall(counts: map<Site, nat>, call: Call): map<Site, nat> {
    counts[call.site := Tick(CountIn(counts, call.site), call.n)]
  }

  function CountsAfter(calls: seq<Call>): map<Site, nat> {
    if calls == [] then map[] else AfterCall(CountsAfter(calls[..|calls| - 1]), calls[|calls| - 1])
  }

  function CallsAt(calls: seq<Call>, site: Site): nat {
    if calls == [] then 0
    else CallsAt(calls[..|calls| - 1], site) + if calls[|calls| - 1].site == site then 1 else 0
  }

  /** Calls from other sites do not matter. */
  lemma {:induction false} SitesAreIndependent(calls: seq<Call>, site: Site, n: nat)
    requires forall i | 0 <= i < |calls| && calls[i].site == site :: calls[i].n == n
    ensures CountIn(CountsAfter(calls), site) == Counter(n, CallsAt(calls, site))
    decreases |calls|
  {
    if calls != [] {
      SitesAreIndependent(calls[..|calls| - 1], site, n);
    }
  }

  /** In any interleaving, the k-th call of a site whose `n` is fixed and within the limit fires
      exactly when `n` divides `k`, and the counter stays within the limit. */
  lemma EveryNth(calls: seq<Call>, site: Site, n: nat)
    requires 1 <= n <= MAX_LOG_PER_COUNTER
    requires forall i | 0 <= i < |calls| && calls[i].site == site :: calls[i].n == n
    requires calls != [] && calls[|calls| - 1].site == site
    ensures var k, c := CallsAt(calls, site), CountIn(CountsAfter(calls), site);
            k >= 1 && c <= MAX_LOG_PER_COUNTER && (Fires(c, n) <==> k % n == 0)
  {
    SitesAreIndependent(calls, site, n);
    PhaseIsKept(n, CallsAt(calls, site));
  }

  // ---------------------------------------------------------------- the code that works in place

  class HitCounter {
    const site: Site
    var hitCounts: nat

    constructor (filename: string, lineNumber: nat)
      ensures site == Site(filename, lineNumber) && hitCounts == 0
    {
      site, hitCounts := Site(filename, lineNumber), 0;
    }

    method ValidateHitCounts(n: nat)
      modifies this
      ensures hitCounts == Tick(old(hitCounts), n)
    {
      if hitCounts >= MAX_LOG_PER_COUNTER {
        hitCounts := if n >= 1 then MAX_LOG_PER_COUNTER % n else 0;
      }
      hitCounts := hitCounts + 1;
    }

    /** The test at the end of `validateEveryN`. */
    method Fire(n: nat) returns (result: bool)
      ensures result == Fires(hitCounts, n)
    {
      result := n >= 1 && hitCounts != 0 && hitCounts % n == 0;
    }
  }

  class RegisteredHitCounters {
    var list: seq<HitCounter>

    constructor ()
      ensures Valid() && Counts() == map[]
    {
      list := [];
    }

    /** No site has two counters. */
    ghost predicate Valid()
      reads this
    {
      forall i, j | 0 <= i < j < |list| :: list[i].site != list[j].site
    }

    ghost function Counts(): map<Site, nat>
      requires Valid()
      reads this, list
    {
      map c: HitCounter | c in list :: c.site := c.hitCounts
    }

    /** The counts after one counter changed. */
    twostate lemma OnlyChanged(counter: HitCounter)
      requires old(Valid()) && list == old(list) && counter in list
      requires forall c | c in list && c != counter :: c.hitCounts == old(c.hitCounts)
      ensures Valid() && Counts() == old(Counts())[counter.site := counter.hitCounts]
    {
    }

    /** `get(filename, lineNumber)` */
    method Get(site: Site) returns (counter: HitCounter?)
      ensures counter != null ==> counter in list && counter.site == site
      ensures counter == null ==> forall c | c in list :: c.site != site
    {
      for i := 0 to |list|
        invariant forall j | 0 <= j < i :: list[j].site != site
      {
        if list[i].site == site {
          return list[i];
        }
      }
      counter := null;
    }

    /** The site's counter, registered at 0 if it is missing. */
    method GetOrRegister(filename: string, lineNumber: nat) returns (counter: HitCounter)
      requires Valid()
      modifies this
      ensures Valid() && counter in list && counter.site == Site(filename, lineNumber)
      ensures forall c | c in list :: c in old(list) || fresh(c)
      ensures counter.hitCounts == CountIn(old(Counts()), counter.site)
      ensures Counts() == old(Counts())[counter.site := counter.hitCounts]
    {
      var site := Site(filename, lineNumber);
      var found := Get(site);
      if found == null {
        counter := new HitCounter(filename, lineNumber);
        list := list + [counter];
      } else {
        counter := found;
      }
      assert counter in list;
    }

    method ValidateEveryN(filename: string, lineNumber: nat, n: nat) returns (result: bool)
      requires Valid()
      modifies this, list
      ensures Valid()
      ensures var call := Call(Site(filename, lineNumber), n);
              Counts() == AfterCall(old(Counts()), call) && result == Fires(Counts()[call.site], n)
    {
      hide Tick, Fires, Counts;
      ghost var was := Counts();
      var counter := GetOrRegister(filename, lineNumber);
      Overwritten(was, counter.site, counter.hitCounts, Tick(counter.hitCounts, n));
      label registered:
      counter.ValidateHitCounts(n);
      OnlyChanged@registered(counter);
      result := counter.Fire(n);
    }
  }

  lemma Overwritten(counts: map<Site, nat>, site: Site, first: nat, second: nat)
    ensures counts[site := first][site := second] == counts[site := second]
  {
  }
}
