/**
 * The broker's listener table as a value: a map from public key to the
 * waiter event registered under it. Each broker call is a function from
 * the old table to its effect (the new table and the event it set, if
 * any); a run of calls folds them. The imperative broker in module Remote
 * is proved against these functions, and the lemmas here state what any
 * sequence of broker calls can and cannot do.
 *
 * The functions are generic in the event type E: the broker never looks
 * inside an event, it only stores it and sets it.
 */
module Listeners {
  import opened Wrappers

  type Key = string

  /** The entry under `k`, if any. */
  function Lookup<E>(t: map<Key, E>, k: Key): Option<E>
  {
    if k in t then Some(t[k]) else None
  }

  /** What one broker call does: the table afterwards and the event it set. */
  datatype Effect<E> = Effect(table: map<Key, E>, released: Option<E>)

  /** `remove_listener` either returns normally or raises `KeyError`. */
  datatype Removal<E> = Removed(effect: Effect<E>) | KeyError

  /**
   * `listen_for_public_key(k, e)`: `e` is now the waiter for `k`; any
   * earlier waiter for `k` is dropped from the table without being set,
   * and every other key keeps its entry.
   */
  function Register<E>(t: map<Key, E>, k: Key, e: E): (t': map<Key, E>)
    ensures Lookup(t', k) == Some(e)
    ensures forall k' :: k' != k ==> Lookup(t', k') == Lookup(t, k')
  {
    t[k := e]
  }

  /**
   * `remove_listener(k)`: `dict.pop` without a default, then `set()` on the
   * popped event. An absent key raises `KeyError` before anything changes.
   */
  function RemoveListener<E>(t: map<Key, E>, k: Key): (r: Removal<E>)
    ensures r.KeyError? <==> k !in t
    ensures r.Removed? ==> r.effect.released == Some(t[k])
    ensures r.Removed? ==> Lookup(r.effect.table, k) == None
    ensures r.Removed? ==> forall k' :: k' != k ==> Lookup(r.effect.table, k') == Lookup(t, k')
  {
    if k in t then Removed(Effect(t - {k}, Some(t[k]))) else KeyError
  }

  /**
   * `add_transaction(k, pin, tx)`: when `k` has a waiter this is exactly
   * `remove_listener(k)`; otherwise nothing happens. The pin and the
   * transaction are not arguments: the code never reads them.
   */
  function AddTransaction<E>(t: map<Key, E>, k: Key): (r: Effect<E>)
    ensures k in t ==> RemoveListener(t, k) == Removed(r)
    ensures k !in t ==> r == Effect(t, None)
  {
    if k in t then RemoveListener(t, k).effect else Effect(t, None)
  }

  // ---------------------------------------------------------------------
  // Runs of broker calls
  // ---------------------------------------------------------------------

  /** A call on the broker, with the arguments the source passes. */
  datatype Call<E> =
    | Listen(key: Key, event: E)
    | Remove(key: Key)
    | Publish(key: Key, encryptedPin: string, transaction: string)
    | Snapshot

  /** True iff `c` names key `k`. */
  predicate Addresses<E>(c: Call<E>, k: Key)
  {
    !c.Snapshot? && c.key == k
  }

  /**
   * One call. A `Remove` that raises `KeyError` leaves the table as it
   * was (the exception is the caller's concern, the broker keeps going).
   */
  function Step<E>(t: map<Key, E>, c: Call<E>): (r: Effect<E>)
    ensures c.Snapshot? ==> r == Effect(t, None)
    ensures c.Remove? && c.key !in t ==> r == Effect(t, None)
    ensures forall k :: !Addresses(c, k) ==> Lookup(r.table, k) == Lookup(t, k)
    ensures r.released.Some? ==> (c.Remove? || c.Publish?) && Lookup(t, c.key) == r.released
    ensures forall k :: k in r.table ==> (k in t && r.table[k] == t[k]) || (c.Listen? && r.table[k] == c.event)
  {
    match c
    case Listen(k, e) => Effect(Register(t, k, e), None)
    case Remove(k) =>
      (match RemoveListener(t, k)
       case Removed(eff) => eff
       case KeyError => Effect(t, None))
    case Publish(k, _, _) => AddTransaction(t, k)
    case Snapshot => Effect(t, None)
  }

  /** The table after a run of calls, and the events set during it, in order. */
  datatype Trace<E> = Trace(table: map<Key, E>, released: seq<E>)

  function Run<E>(t: map<Key, E>, calls: seq<Call<E>>): (r: Trace<E>)
    ensures |r.released| <= |calls|
    ensures forall i :: 0 <= i < |r.released| ==> Provenance(t, calls, r.released[i])
    decreases |calls|
  {
    if calls == [] then Trace(t, [])
    else
      var s := Step(t, calls[0]);
      var rest := Run(s.table, calls[1..]);
      StepPreservesProvenance(t, calls, s, rest.released);
      Trace(rest.table, ToSeq(s.released) + rest.released)
  }

  /** `e` was in table `t` or is registered by one of `calls`. */
  ghost predicate Provenance<E>(t: map<Key, E>, calls: seq<Call<E>>, e: E)
  {
    (exists k :: k in t && t[k] == e)
    || (exists j :: 0 <= j < |calls| && calls[j].Listen? && calls[j].event == e)
  }

  /** The first call's release, and the later releases traced to its table, trace back to `t` and `calls`. */
  lemma StepPreservesProvenance<E>(t: map<Key, E>, calls: seq<Call<E>>, s: Effect<E>, later: seq<E>)
    requires calls != [] && s == Step(t, calls[0])
    requires forall i :: 0 <= i < |later| ==> Provenance(s.table, calls[1..], later[i])
    ensures forall i :: 0 <= i < |ToSeq(s.released) + later| ==>
      Provenance(t, calls, (ToSeq(s.released) + later)[i])
  {
    var pre := ToSeq(s.released);
    var all := pre + later;
    forall i | 0 <= i < |all|
      ensures Provenance(t, calls, all[i])
    {
      if i < |pre| {
        var k := calls[0].key;
        assert k in t && t[k] == all[i];
      } else {
        var e := later[i - |pre|];
        assert all[i] == e;
        assert Provenance(s.table, calls[1..], e);
        if exists k :: k in s.table && s.table[k] == e {
          var k :| k in s.table && s.table[k] == e;
          if !(k in t && s.table[k] == t[k]) {
            assert calls[0].Listen? && calls[0].event == e;
          }
        } else {
          var j :| 0 <= j < |calls[1..]| && calls[1..][j].Listen? && calls[1..][j].event == e;
          assert calls[j + 1] == calls[1..][j];
        }
      }
    }
  }

  /** How often `e` occurs in `s`. */
  function Count<E(==)>(s: seq<E>, e: E): (n: nat)
    ensures n <= |s|
    ensures n == 0 <==> e !in s
  {
    if s == [] then 0 else (if s[0] == e then 1 else 0) + Count(s[1..], e)
  }

  /** The keys whose waiter is `e`. */
  function Holders<E(==)>(t: map<Key, E>, e: E): (ks: set<Key>)
    ensures forall k :: k in ks <==> k in t && t[k] == e
  {
    set k | k in t && t[k] == e
  }

  /** How many calls in `calls` register `e`. */
  function Listens<E(==)>(calls: seq<Call<E>>, e: E): nat
    decreases |calls|
  {
    if calls == [] then 0
    else (if calls[0].Listen? && calls[0].event == e then 1 else 0) + Listens(calls[1..], e)
  }

  /** The calls of `calls` that name key `k`, in order. */
  function On<E>(calls: seq<Call<E>>, k: Key): (r: seq<Call<E>>)
    ensures |r| <= |calls|
    ensures forall i :: 0 <= i < |r| ==> Addresses(r[i], k)
    decreases |calls|
  {
    if calls == [] then []
    else if Addresses(calls[0], k) then [calls[0]] + On(calls[1..], k)
    else On(calls[1..], k)
  }

  /** `calls` with every publish's pin and transaction blanked out. */
  function WithoutPayload<E>(calls: seq<Call<E>>): (r: seq<Call<E>>)
    ensures |r| == |calls|
    decreases |calls|
  {
    if calls == [] then []
    else
      var c := match calls[0]
        case Publish(k, _, _) => Publish(k, "", "")
        case other => other;
      [c] + WithoutPayload(calls[1..])
  }

  // ---------------------------------------------------------------------
  // Lemmas about single calls
  // ---------------------------------------------------------------------

  /** Register then publish on the same key sets exactly that waiter and empties the slot. */
  lemma ListenThenPublish<E>(t: map<Key, E>, k: Key, e: E, pin: string, tx: string)
    ensures Run(t, [Listen(k, e), Publish(k, pin, tx)]) == Trace(t - {k}, [e])
  {
    var calls: seq<Call<E>> := [Listen(k, e), Publish(k, pin, tx)];
    var t1 := Register(t, k, e);
    var pub: seq<Call<E>> := [Publish(k, pin, tx)];
    assert t1 - {k} == t - {k};
    assert calls[1..] == pub;
    assert pub[1..] == [];
    assert Run(t1, pub) == Trace(t - {k}, [e]);
    assert Run(t, calls) == Trace(Run(t1, pub).table, [] + Run(t1, pub).released);
  }

  /** A second publish with no register in between is a no-op: a waiter is set at most once. */
  lemma SecondPublishIsNoOp<E>(t: map<Key, E>, k: Key)
    requires k in t
    ensures AddTransaction(t, k).released == Some(t[k])
    ensures AddTransaction(AddTransaction(t, k).table, k) == Effect(AddTransaction(t, k).table, None)
  {
  }

  /** Removing a key twice raises `KeyError` the second time: cancelling is not idempotent. */
  lemma SecondRemoveRaises<E>(t: map<Key, E>, k: Key)
    requires k in t
    ensures RemoveListener(RemoveListener(t, k).effect.table, k) == KeyError
  {
  }

  /**
   * A second register on a key evicts the first waiter without setting
   * it; a later remove or publish on that key sets the second waiter. In
   * particular the subscriber whose connection closes calls
   * `remove_listener(k)` and so sets whichever waiter holds `k` now.
   */
  lemma OverwriteReleasesNewest<E>(t: map<Key, E>, k: Key, e1: E, e2: E)
    ensures RemoveListener(Register(Register(t, k, e1), k, e2), k) == Removed(Effect(t - {k}, Some(e2)))
    ensures AddTransaction(Register(Register(t, k, e1), k, e2), k) == Effect(t - {k}, Some(e2))
  {
    assert Register(Register(t, k, e1), k, e2) - {k} == t - {k};
  }

  // ---------------------------------------------------------------------
  // At most one release per registration
  // ---------------------------------------------------------------------

  /** One call: a release of `e` uses up a key held by `e`; only a register of `e` adds one. */
  lemma StepReleaseBound<E>(t: map<Key, E>, c: Call<E>, e: E)
    ensures var s := Step(t, c);
      Count(ToSeq(s.released), e) + |Holders(s.table, e)|
        <= |Holders(t, e)| + (if c.Listen? && c.event == e then 1 else 0)
  {
    var s := Step(t, c);
    var h := Holders(t, e);
    match c
    case Listen(k, e') =>
      if e' == e {
        assert Holders(s.table, e) <= h + {k};
        SubsetCard(Holders(s.table, e), h + {k});
      } else {
        assert Holders(s.table, e) <= h;
        SubsetCard(Holders(s.table, e), h);
      }
    case Remove(k) =>
      if k in t {
        if t[k] == e {
          assert Holders(s.table, e) == h - {k};
        } else {
          assert Holders(s.table, e) == h;
        }
      } else {
        assert s == Effect(t, None);
      }
    case Publish(k, _, _) =>
      if k in t {
        if t[k] == e {
          assert Holders(s.table, e) == h - {k};
        } else {
          assert Holders(s.table, e) == h;
        }
      } else {
        assert s == Effect(t, None);
      }
    case Snapshot =>
  }

  lemma SubsetCard<T>(a: set<T>, b: set<T>)
    requires a <= b
    ensures |a| <= |b|
  {
    assert b == a + (b - a);
  }

  lemma CountAppend<E>(s: seq<E>, u: seq<E>, e: E)
    ensures Count(s + u, e) == Count(s, e) + Count(u, e)
    decreases |s|
  {
    if s != [] {
      assert (s + u)[1..] == s[1..] + u;
      CountAppend(s[1..], u, e);
    } else {
      assert s + u == u;
    }
  }

  /**
   * Over any run, the releases of `e` plus the keys still held by `e` never
   * exceed the keys held by `e` at the start plus the registrations of `e`.
   */
  lemma {:induction false} ReleaseBound<E>(t: map<Key, E>, calls: seq<Call<E>>, e: E)
    ensures Count(Run(t, calls).released, e) + |Holders(Run(t, calls).table, e)|
              <= |Holders(t, e)| + Listens(calls, e)
    decreases |calls|
  {
    if calls != [] {
      var s := Step(t, calls[0]);
      StepReleaseBound(t, calls[0], e);
      ReleaseBound(s.table, calls[1..], e);
      CountAppend(ToSeq(s.released), Run(s.table, calls[1..]).released, e);
    }
  }

  /**
   * A waiter that is not in the table and is registered at most once, as
   * each subscriber's own fresh event is, is set at most once in any run.
   */
  lemma FreshWaiterReleasedAtMostOnce<E>(t: map<Key, E>, calls: seq<Call<E>>, e: E)
    requires e !in t.Values
    requires Listens(calls, e) <= 1
    ensures Count(Run(t, calls).released, e) <= 1
  {
    assert Holders(t, e) == {};
    ReleaseBound(t, calls, e);
  }

  /**
   * A waiter evicted by a second register (and not registered again) is
   * never set afterwards: its subscriber waits forever.
   */
  lemma EvictedWaiterNeverReleased<E>(t: map<Key, E>, k: Key, e1: E, e2: E, calls: seq<Call<E>>)
    requires e1 != e2
    requires e1 !in t.Values
    requires Listens(calls, e1) == 0
    ensures e1 !in Run(Register(Register(t, k, e1), k, e2), calls).released
  {
    var t2 := Register(Register(t, k, e1), k, e2);
    assert Holders(t2, e1) == {};
    ReleaseBound(t2, calls, e1);
  }

  // ---------------------------------------------------------------------
  // Keys are independent
  // ---------------------------------------------------------------------

  /** A call on another key leaves the entry for `k` alone. */
  lemma StepElsewhere<E>(t: map<Key, E>, c: Call<E>, k: Key)
    requires !Addresses(c, k)
    ensures Lookup(Step(t, c).table, k) == Lookup(t, k)
  {
  }

  /** A call on `k` acts on the entry for `k` alone. */
  lemma StepHere<E>(t1: map<Key, E>, t2: map<Key, E>, c: Call<E>, k: Key)
    requires Addresses(c, k)
    requires Lookup(t1, k) == Lookup(t2, k)
    ensures Lookup(Step(t1, c).table, k) == Lookup(Step(t2, c).table, k)
    ensures Step(t1, c).released == Step(t2, c).released
  {
    assert k in t1 <==> Lookup(t1, k).Some?;
    assert k in t2 <==> Lookup(t2, k).Some?;
  }

  /** A run of calls on `k` depends only on the entry for `k`. */
  lemma {:induction false} RunHere<E>(t1: map<Key, E>, t2: map<Key, E>, calls: seq<Call<E>>, k: Key)
    requires forall i :: 0 <= i < |calls| ==> Addresses(calls[i], k)
    requires Lookup(t1, k) == Lookup(t2, k)
    ensures Lookup(Run(t1, calls).table, k) == Lookup(Run(t2, calls).table, k)
    ensures Run(t1, calls).released == Run(t2, calls).released
    decreases |calls|
  {
    if calls != [] {
      StepHere(t1, t2, calls[0], k);
      RunHere(Step(t1, calls[0]).table, Step(t2, calls[0]).table, calls[1..], k);
    }
  }

  /**
   * Isolation across keys: after any run, the entry for `k` is what the
   * calls that name `k` alone would have made it.
   */
  lemma {:induction false} KeyIsolation<E>(t: map<Key, E>, calls: seq<Call<E>>, k: Key)
    ensures Lookup(Run(t, calls).table, k) == Lookup(Run(t, On(calls, k)).table, k)
    decreases |calls|
  {
    if calls != [] {
      var c := calls[0];
      var t1 := Step(t, c).table;
      KeyIsolation(t1, calls[1..], k);
      if Addresses(c, k) {
        assert On(calls, k) == [c] + On(calls[1..], k);
        assert ([c] + On(calls[1..], k))[1..] == On(calls[1..], k);
      } else {
        assert On(calls, k) == On(calls[1..], k);
        StepElsewhere(t, c, k);
        RunHere(t1, t, On(calls[1..], k), k);
      }
    }
  }

  // ---------------------------------------------------------------------
  // Payload independence
  // ---------------------------------------------------------------------

  /** What a run does never depends on the pins or transactions published. */
  lemma {:induction false} PayloadIgnored<E>(t: map<Key, E>, calls: seq<Call<E>>)
    ensures Run(t, calls) == Run(t, WithoutPayload(calls))
    decreases |calls|
  {
    if calls != [] {
      var w := WithoutPayload(calls);
      assert w[1..] == WithoutPayload(calls[1..]);
      assert Step(t, calls[0]) == Step(t, w[0]);
      PayloadIgnored(Step(t, calls[0]).table, calls[1..]);
    }
  }
}
