/**
 * The broker of remote.py as objects: a `Broker` owns one dictionary
 * object from public key to waiter `Event`, and its methods update that
 * dictionary and the events in place. Each method is proved against the
 * table functions of module Listeners. Tornado runs one handler at a time
 * to completion on its event loop, so each call is one atomic step.
 */
module Remote {
  import opened Wrappers
  import L = Listeners
  import V = Validation

  type Key = L.Key

  /** A `tornado.locks.Event` reduced to its flag: unset, then set, and set stays set. */
  class Event {
    var flag: bool

    constructor ()
      ensures !flag
    {
      flag := false;
    }

    /** `is_set()` */
    predicate IsSet()
      reads this
    {
      flag
    }

    /** `set()`: wakes the waiter; setting a set event again changes nothing. */
    method Set()
      modifies this
      ensures IsSet()
    {
      flag := true;
    }
  }

  /** What `dict.pop(k)` without a default gives: the value, or `KeyError`. */
  datatype PopResult<T> = Popped(value: T) | RaisedKeyError

  /** A Python `dict` object, so that two names can refer to the same one. */
  class Dict<K(==), T> {
    var items: map<K, T>

    constructor ()
      ensures items == map[]
    {
      items := map[];
    }

    /** `k in d` */
    predicate Contains(k: K)
      reads this
    {
      k in items
    }

    /** `d[k] = v` */
    method SetItem(k: K, v: T)
      modifies this
      ensures items == old(items)[k := v]
    {
      items := items[k := v];
    }

    /** `d.pop(k)`: removes and returns the value under `k`, or raises `KeyError`, changing nothing. */
    method Pop(k: K) returns (r: PopResult<T>)
      modifies this
      ensures k in old(items) ==> r == Popped(old(items)[k]) && items == old(items) - {k}
      ensures k !in old(items) ==> r == RaisedKeyError && items == old(items)
    {
      if k in items {
        r := Popped(items[k]);
        items := items - {k};
      } else {
        r := RaisedKeyError;
      }
    }
  }

  class Broker {
    /** `self.listeners`: the same dictionary object for the broker's whole life. */
    const listeners: Dict<Key, Event>

    /** `__init__`: an empty table. */
    constructor ()
      ensures fresh(listeners)
      ensures listeners.items == map[]
    {
      listeners := new Dict();
    }

    /** The waiter registered under `k`, as a frame: the only event a call on `k` may set. */
    function Waiter(k: Key): set<Event>
      reads listeners
    {
      if k in listeners.items then {listeners.items[k]} else {}
    }

    /**
     * `listen_for_public_key`: overwrites the entry for `publicKey`. No
     * event is set, in particular not the one it evicts.
     */
    method ListenForPublicKey(publicKey: Key, event: Event)
      modifies listeners
      ensures listeners.items == L.Register(old(listeners.items), publicKey, event)
    {
      listeners.SetItem(publicKey, event);
    }

    /**
     * `remove_listener`: pops the entry for `publicKey` and sets the event
     * that was stored there, or raises `KeyError` when there is none
     * (`keyError`), leaving the table as it was.
     */
    method RemoveListener(publicKey: Key) returns (keyError: bool)
      modifies listeners, Waiter(publicKey)
      ensures var r := L.RemoveListener(old(listeners.items), publicKey);
        && (keyError <==> r.KeyError?)
        && (r.KeyError? ==> listeners.items == old(listeners.items))
        && (r.Removed? ==> listeners.items == r.effect.table && r.effect.released.value.IsSet())
    {
      var popped := listeners.Pop(publicKey);
      match popped
      case RaisedKeyError =>
        keyError := true;
      case Popped(event) =>
        event.Set();
        keyError := false;
    }

    /** `snapshot`: the broker's live dictionary itself, not a copy. */
    method Snapshot() returns (d: Dict<Key, Event>)
      ensures d == listeners
    {
      d := listeners;
    }

    /**
     * `add_transaction`: releases the waiter for `publicKey` if there is
     * one, and otherwise does nothing. `encryptedPin` and `transaction`
     * are not read.
     */
    method AddTransaction(publicKey: Key, encryptedPin: string, transaction: string)
      modifies listeners, Waiter(publicKey)
      ensures var r := L.AddTransaction(old(listeners.items), publicKey);
        && listeners.items == r.table
        && (r.released.Some? ==> r.released.value.IsSet())
    {
      if listeners.Contains(publicKey) {
        var keyError := RemoveListener(publicKey);
        assert !keyError;
      }
    }
  }

  // ---------------------------------------------------------------------
  // The publish handler's guard
  // ---------------------------------------------------------------------

  /** The key a publish request reaches the broker with: only a body that passes the check has one. */
  function PublishTarget(decoded: Option<V.Body>): (k: Option<Key>)
    ensures var body := V.DecodeJson(decoded);
      k.Some? <==> (V.PublicKeyField in body && V.EncryptedPinField in body && V.TransactionField in body)
    ensures decoded.None? ==> k == None
    ensures k.Some? ==> decoded.Some? && k.value == decoded.value[V.PublicKeyField]
  {
    var body := V.DecodeJson(decoded);
    V.ErrorIffMissing(body);
    if V.ErrorKey in V.ValidateBody(body) then None else Some(body[V.PublicKeyField])
  }

  /**
   * `PublishHandler.post` without the transport: decode the body (a
   * decoder failure is `decoded == None`), check it, and either answer
   * 400 with the error object or hand the three fields to the broker and
   * answer 200 with an empty body (`response == None`).
   */
  method Post(broker: Broker, decoded: Option<V.Body>) returns (status: int, response: Option<map<string, string>>)
    modifies broker.listeners
    modifies var k := PublishTarget(decoded); if k.Some? then broker.Waiter(k.value) else {}
    ensures var body := V.DecodeJson(decoded);
      var validation := V.ValidateBody(body);
      && (V.ErrorKey in validation ==>
            status == 400 && response == Some(validation) && broker.listeners.items == old(broker.listeners.items))
      && (V.ErrorKey !in validation ==>
            && status == 200 && response == None
            && var r := L.AddTransaction(old(broker.listeners.items), body[V.PublicKeyField]);
               && broker.listeners.items == r.table
               && (r.released.Some? ==> r.released.value.IsSet()))
  {
    var body := V.DecodeJson(decoded);
    var validation := V.ValidateBody(body);
    if V.ErrorKey in validation {
      status, response := 400, Some(validation);
    } else {
      V.ErrorIffMissing(body);
      broker.AddTransaction(body[V.PublicKeyField], body[V.EncryptedPinField], body[V.TransactionField]);
      status, response := 200, None;
    }
  }
}
