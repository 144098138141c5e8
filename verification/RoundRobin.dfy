/** What `next` promises over many calls: src/vertx/hazelcast_cluster.cpp, lines 69-88. */
module RoundRobin {
  import opened Bytes
  import opened Cluster
  import opened Division

  /** A call of `next` for a key, or the handling of an `entryAdded` event. */
  datatype Op = Call(key: Str) | Joined(sub: Sub)

  function Do(endpoints: Endpoints, op: Op): (after: Endpoints)
    requires NoEmptyQueue(endpoints)
    ensures NoEmptyQueue(after) && endpoints.Keys <= after.Keys
  {
    match op
    case Call(key) => if key in endpoints then Next(endpoints, key).value.1 else endpoints
    case Joined(sub) => Push(endpoints, sub)
  }

  function DoAll(endpoints: Endpoints, ops: seq<Op>): (after: Endpoints)
    requires NoEmptyQueue(endpoints)
    ensures NoEmptyQueue(after) && endpoints.Keys <= after.Keys
    decreases |ops|
  {
    if ops == [] then endpoints else Do(DoAll(endpoints, ops[..|ops| - 1]), ops[|ops| - 1])
  }

  /** How many of the operations call `next` for the key. */
  function Calls(ops: seq<Op>, key: Str): nat
    decreases |ops|
  {
    if ops == [] then 0
    else Calls(ops[..|ops| - 1], key) + if ops[|ops| - 1] == Call(key) then 1 else 0
  }

  // ---------------------------------------------------------------- waiting while servers join

  /** Whatever joins, a server moves one position forward with each call for its key. */
  lemma {:induction false} PositionAdvances(endpoints: Endpoints, ops: seq<Op>, key: Str, p: nat)
    requires NoEmptyQueue(endpoints) && key in endpoints && p < |endpoints[key]|
    requires Calls(ops, key) <= p
    ensures var queue := DoAll(endpoints, ops)[key];
            p - Calls(ops, key) < |queue| && queue[p - Calls(ops, key)] == endpoints[key][p]
    decreases |ops|
  {
    if ops != [] {
      PositionAdvances(endpoints, ops[..|ops| - 1], key, p);
    }
  }

  /** The server at position `p` is returned by exactly the `p + 1`-th following call for its key, in
      any interleaving with joins and with calls for other keys. */
  lemma BoundedWait(endpoints: Endpoints, ops: seq<Op>, key: Str, p: nat)
    requires NoEmptyQueue(endpoints) && key in endpoints && p < |endpoints[key]|
    requires Calls(ops, key) == p
    ensures var now := DoAll(endpoints, ops);
            key in now && Next(now, key).value.0 == endpoints[key][p]
  {
    PositionAdvances(endpoints, ops, key, p);
  }

  /** A server that joins under a key waits until each of the slots before it has had one call, and is then
      returned by the next one. */
  lemma NewcomersWaitTheirTurn(endpoints: Endpoints, sub: Sub, ops: seq<Op>)
    requires NoEmptyQueue(endpoints) && Calls(ops, sub.key) == |Queue(endpoints, sub.key)|
    ensures var now := DoAll(Do(endpoints, Joined(sub)), ops);
            sub.key in now && Next(now, sub.key).value.0 == sub.node.server
  {
    PushAddsOneSlot(endpoints, sub);
    BoundedWait(Do(endpoints, Joined(sub)), ops, sub.key, |Queue(endpoints, sub.key)|);
  }

  // ---------------------------------------------------------------- fairness between joins

  /** No server joins under the key; other keys may be called and joined at will. */
  predicate Unjoined(ops: seq<Op>, key: Str) {
    forall i | 0 <= i < |ops| && ops[i].Joined? :: ops[i].sub.key != key
  }

  /** The servers that the calls for the key return, in order. */
  function Returned(endpoints: Endpoints, ops: seq<Op>, key: Str): (servers: seq<ServerID>)
    requires NoEmptyQueue(endpoints) && key in endpoints
    ensures |servers| == Calls(ops, key)
    decreases |ops|
  {
    if ops == [] then []
    else
      var front := ops[..|ops| - 1];
      Returned(endpoints, front, key)
      + if ops[|ops| - 1] == Call(key) then [Next(DoAll(endpoints, front), key).value.0] else []
  }

  /** The slot that call `i` of `n` slots chooses. */
  function Slot(i: nat, n: nat): (slot: nat)
    requires n > 0
    ensures slot < n
  {
    i % n
  }

  predicate Rotated(queue: seq<ServerID>, shift: nat, original: seq<ServerID>) {
    && |queue| == |original| > 0
    && forall j | 0 <= j < |queue| :: queue[j] == original[Slot(shift + j, |queue|)]
  }

  lemma StepRotates(before: Endpoints, op: Op, key: Str, m: nat, original: seq<ServerID>)
    requires NoEmptyQueue(before) && key in before && (op.Joined? ==> op.sub.key != key)
    requires Rotated(before[key], m, original) && multiset(before[key]) == multiset(original)
    ensures var now := Do(before, op)[key];
            Rotated(now, if op == Call(key) then m + 1 else m, original) && multiset(now) == multiset(original)
  {
    hide Slot, Queued, Rotated;
    if op == Call(key) {
      NextEffect(before, key);
      RotateOnce(before[key], m, original);
    }
  }

  /** Without joins under the key, its queue is the original one rotated by the number of its calls,
      whatever happens to other keys; the multiset of slots never changes. */
  lemma {:induction false} Rotation(endpoints: Endpoints, ops: seq<Op>, key: Str)
    requires NoEmptyQueue(endpoints) && key in endpoints && Unjoined(ops, key)
    ensures var now := DoAll(endpoints, ops)[key];
            Rotated(now, Calls(ops, key), endpoints[key]) && multiset(now) == multiset(endpoints[key])
    decreases |ops|
  {
    LastOp(endpoints, ops, key);
    assert endpoints[key] != [];
    hide Slot, Queued, Rotated, Do, NoEmptyQueue, DoAll, Calls, Unjoined;
    if ops == [] {
      Unrotated(endpoints[key]);
    } else {
      var front, op := ops[..|ops| - 1], ops[|ops| - 1];
      Rotation(endpoints, front, key);
      StepRotates(DoAll(endpoints, front), op, key, Calls(front, key), endpoints[key]);
    }
  }

  lemma LastOp(endpoints: Endpoints, ops: seq<Op>, key: Str)
    requires NoEmptyQueue(endpoints) && key in endpoints && Unjoined(ops, key)
    ensures ops == [] ==> DoAll(endpoints, ops) == endpoints && Calls(ops, key) == 0
    ensures ops != [] ==>
              var front, op := ops[..|ops| - 1], ops[|ops| - 1];
              && DoAll(endpoints, ops) == Do(DoAll(endpoints, front), op)
              && Calls(ops, key) == (if op == Call(key) then Calls(front, key) + 1 else Calls(front, key))
              && Unjoined(front, key) && (op.Joined? ==> op.sub.key != key)
  {
    hide Do, NoEmptyQueue;
  }

  /** In any such interleaving call `i` for the key (from 0) returns slot `i % n`. */
  lemma {:induction false} ReturnsSlot(endpoints: Endpoints, ops: seq<Op>, key: Str, i: nat)
    requires NoEmptyQueue(endpoints) && key in endpoints && Unjoined(ops, key) && i < Calls(ops, key)
    ensures Returned(endpoints, ops, key)[i] == endpoints[key][Slot(i, |endpoints[key]|)]
    decreases |ops|
  {
    hide Slot, Rotated, Queued, Do;
    var front := ops[..|ops| - 1];
    if i < Calls(front, key) {
      ReturnsSlot(endpoints, front, key, i);
    } else {
      Rotation(endpoints, front, key);
      Front(DoAll(endpoints, front)[key], i, endpoints[key]);
    }
  }

  lemma Unrotated(queue: seq<ServerID>)
    requires queue != []
    ensures Rotated(queue, 0, queue)
  {
    forall j | 0 <= j < |queue| ensures Slot(j, |queue|) == j {
      UniqueRemainder(j, |queue|, 0, j);
    }
  }

  lemma Front(queue: seq<ServerID>, m: nat, original: seq<ServerID>)
    requires Rotated(queue, m, original)
    ensures queue[0] == original[Slot(m, |original|)]
  {
    assert queue[0] == original[Slot(m + 0, |queue|)];
  }

  lemma RotateOnce(q: seq<ServerID>, m: nat, original: seq<ServerID>)
    requires Rotated(q, m, original)
    ensures Rotated(q[1..] + [q[0]], m + 1, original)
  {
    ModShift(m, |q|);
    hide Slot;
    var r := q[1..] + [q[0]];
    forall j | 0 <= j < |r| ensures r[j] == original[Slot(m + 1 + j, |r|)] {
      if j < |q| - 1 {
        assert r[j] == q[j + 1] == original[Slot(m + (j + 1), |q|)];
      } else {
        assert r[j] == q[0] == original[Slot(m + 0, |q|)];
      }
    }
  }

  lemma ModShift(a: nat, n: nat)
    requires n > 0
    ensures Slot(a + n, n) == Slot(a, n)
  {
    assert a == n * (a / n) + a % n;
    assert n * (a / n + 1) == n * (a / n) + n;
    UniqueRemainder(a + n, n, a / n + 1, a % n);
  }

  /** How many of the calls `start .. start + m - 1` choose the slot, when call `i` chooses `i % n`. */
  function Chosen(n: nat, slot: nat, start: nat, m: nat): nat
    requires slot < n
  {
    if m == 0 then 0
    else Chosen(n, slot, start, m - 1) + if (start + m - 1) % n == slot then 1 else 0
  }

  lemma {:induction false} ChosenFromZero(n: nat, slot: nat, x: nat)
    requires slot < n
    ensures x - slot <= n * Chosen(n, slot, 0, x) < x - slot + n
  {
    if x > 0 {
      ChosenFromZero(n, slot, x - 1);
      CountOne(n, slot, x - 1, Chosen(n, slot, 0, x - 1));
    }
  }

  lemma CountOne(n: nat, slot: nat, i: nat, c: nat)
    requires slot < n && i - slot <= n * c < i - slot + n
    ensures i % n == slot ==> i + 1 - slot <= n * (c + 1) < i + 1 - slot + n
    ensures i % n != slot ==> i + 1 - slot <= n * c
  {
    Distribute(n, c, 1);
    if i - slot == n * c {
      UniqueRemainder(i, n, c, slot);
    }
    if i % n == slot {
      assert i == n * (i / n) + slot;
      Cancel(n, c, i / n);
    }
  }

  lemma {:induction false} ChosenSplits(n: nat, slot: nat, start: nat, m: nat)
    requires slot < n
    ensures Chosen(n, slot, 0, start + m) == Chosen(n, slot, 0, start) + Chosen(n, slot, start, m)
  {
    if m > 0 {
      ChosenSplits(n, slot, start, m - 1);
    }
  }

  /** In any window of `m` numbers each of `n` remainders occurs `m / n` times, rounded down or up. */
  lemma ChosenEvenly(n: nat, slot: nat, start: nat, m: nat)
    requires slot < n
    ensures m / n <= Chosen(n, slot, start, m) <= (m + n - 1) / n
  {
    ChosenFromZero(n, slot, start);
    ChosenFromZero(n, slot, start + m);
    ChosenSplits(n, slot, start, m);
    var c := Chosen(n, slot, start, m);
    var a, b := Chosen(n, slot, 0, start), Chosen(n, slot, 0, start + m);
    hide Chosen;
    Distribute(n, a, c);
    Round(n, m, c);
  }

  lemma Round(n: nat, m: nat, c: nat)
    requires n > 0 && m - n < n * c < m + n
    ensures m / n <= c <= (m + n - 1) / n
  {
    var f, g := m / n, (m + n - 1) / n;
    assert m == n * f + m % n;
    assert m + n - 1 == n * g + (m + n - 1) % n;
    assert n * (f - 1) == n * f - n;
    assert n * (g + 1) == n * g + n;
    if c < f {
      Monotone(n, c, f - 1);
    }
    if c > g {
      Monotone(n, g + 1, c);
    }
  }

  // ---------------------------------------------------------------- what callers get

  /** Times the first `k` slots hold the server. */
  function Held(queue: seq<ServerID>, k: nat, server: ServerID): nat
    requires k <= |queue|
  {
    if k == 0 then 0 else Held(queue, k - 1, server) + if queue[k - 1] == server then 1 else 0
  }

  /** Times the calls `start .. start + m - 1` choose one of the first `k` slots and it holds the server. */
  function Served(queue: seq<ServerID>, k: nat, server: ServerID, start: nat, m: nat): nat
    requires k <= |queue|
    decreases k
  {
    if k == 0 then 0
    else Served(queue, k - 1, server, start, m)
         + if queue[k - 1] == server then Chosen(|queue|, k - 1, start, m) else 0
  }

  /** One more call serves the holder of its slot. */
  lemma {:induction false} ServedOnce(queue: seq<ServerID>, k: nat, server: ServerID, start: nat, m: nat)
    requires k <= |queue| && queue != []
    ensures var slot := Slot(start + m, |queue|);
            Served(queue, k, server, start, m + 1)
            == Served(queue, k, server, start, m) + if slot < k && queue[slot] == server then 1 else 0
    decreases k
  {
    if k > 0 {
      ServedOnce(queue, k - 1, server, start, m);
      assert Chosen(|queue|, k - 1, start, m + 1)
          == Chosen(|queue|, k - 1, start, m) + if Slot(start + m, |queue|) == k - 1 then 1 else 0;
    }
  }

  lemma {:induction false} ServedNever(queue: seq<ServerID>, k: nat, server: ServerID, start: nat)
    requires k <= |queue|
    ensures Served(queue, k, server, start, 0) == 0
    decreases k
  {
    if k > 0 {
      ServedNever(queue, k - 1, server, start);
    }
  }

  function Product(a: nat, b: nat): nat {
    a * b
  }

  lemma OneMore(held: nat, served: nat, c: nat, low: nat, high: nat)
    requires Product(held, low) <= served <= Product(held, high) && low <= c <= high
    ensures Product(held + 1, low) <= served + c <= Product(held + 1, high)
  {
    assert Product(held + 1, low) == Product(held, low) + low;
    assert Product(held + 1, high) == Product(held, high) + high;
  }

  /** If every slot is chosen between `low` and `high` times, a server is served that often for each slot it holds. */
  lemma {:induction false} ServedBetween(queue: seq<ServerID>, k: nat, server: ServerID, start: nat, m: nat,
                                         low: nat, high: nat)
    requires k <= |queue|
    requires forall slot | 0 <= slot < |queue| :: low <= Chosen(|queue|, slot, start, m) <= high
    ensures Product(Held(queue, k, server), low) <= Served(queue, k, server, start, m)
            <= Product(Held(queue, k, server), high)
    decreases k
  {
    if k > 0 {
      ServedBetween(queue, k - 1, server, start, m, low, high);
      if queue[k - 1] == server {
        OneMore(Held(queue, k - 1, server), Served(queue, k - 1, server, start, m),
                Chosen(|queue|, k - 1, start, m), low, high);
      }
    } else {
      assert Product(0, low) == 0 && Product(0, high) == 0;
    }
    hide Chosen, Product;
  }

  lemma {:induction false} HeldCounts(queue: seq<ServerID>, k: nat, server: ServerID)
    requires k <= |queue|
    ensures Held(queue, k, server) == multiset(queue[..k])[server]
    decreases k
  {
    if k > 0 {
      HeldCounts(queue, k - 1, server);
      assert queue[..k] == queue[..k - 1] + [queue[k - 1]];
    }
  }

  lemma {:induction false} WindowIsServed(endpoints: Endpoints, ops: seq<Op>, key: Str, server: ServerID, start: nat, m: nat)
    requires NoEmptyQueue(endpoints) && key in endpoints && Unjoined(ops, key) && start + m <= Calls(ops, key)
    ensures multiset(Returned(endpoints, ops, key)[start..start + m])[server]
            == Served(endpoints[key], |endpoints[key]|, server, start, m)
    decreases m
  {
    var queue, servers := endpoints[key], Returned(endpoints, ops, key);
    hide Slot, Served, Returned;
    if m == 0 {
      ServedNever(queue, |queue|, server, start);
    } else {
      WindowIsServed(endpoints, ops, key, server, start, m - 1);
      ReturnsSlot(endpoints, ops, key, start + m - 1);
      ServedOnce(queue, |queue|, server, start, m - 1);
      assert servers[start..start + m] == servers[start..start + m - 1] + [servers[start + m - 1]];
    }
  }

  /** Main result: in any interleaving without joins under the key, any `m` consecutive calls of `next` for it
      return a server `m / n` times, rounded down or up, for each of the `n` queue slots that hold it. */
  lemma Fair(endpoints: Endpoints, ops: seq<Op>, key: Str, server: ServerID, start: nat, m: nat)
    requires NoEmptyQueue(endpoints) && key in endpoints && Unjoined(ops, key) && start + m <= Calls(ops, key)
    ensures var n, slots := |endpoints[key]|, multiset(endpoints[key])[server];
            var times := multiset(Returned(endpoints, ops, key)[start..start + m])[server];
            slots * (m / n) <= times <= slots * ((m + n - 1) / n)
  {
    hide Chosen, Served, Held, Returned, Calls, Unjoined;
    var queue := endpoints[key];
    var low, high := m / |queue|, (m + |queue| - 1) / |queue|;
    WindowIsServed(endpoints, ops, key, server, start, m);
    forall slot | 0 <= slot < |queue| ensures low <= Chosen(|queue|, slot, start, m) <= high {
      ChosenEvenly(|queue|, slot, start, m);
    }
    ServedBetween(queue, |queue|, server, start, m, low, high);
    HeldCounts(queue, |queue|, server);
    assert queue[..|queue|] == queue;
  }
}
