# Remote-signing broker: a Dafny model

The service in `remote.py` pairs a signing request with a device waiting for it.
A subscriber long-polls `/subscribe/<publicKey>/`, and the handler registers a fresh
Tornado `Event` under that public key. A publisher posts a JSON body with
`publicKey`, `encryptedPin` and `transaction` to `/publish/`. If a waiter is
registered under the key, the broker removes it and sets its event, which
finishes the subscriber's request. The `Broker` keeps all of this in one
dictionary, `listeners`, from public key to event.

This project models:

- the `Broker` class;
- the dictionary and event objects it works on;
- the body check and decode fallback that guard publishing.

It is split into these modules:

- `Listeners` (listeners.dfy): the table as a value. There is one function per broker
  call (`Register`, `RemoveListener`, `AddTransaction`), plus `Step`/`Run`, which fold a
  sequence of calls. The lemmas are about any sequence of calls: how often a waiter can
  be released, isolation between keys, and independence from the published payload.
- `Remote` (remote.dfy): the objects.
  - `Event` is an event reduced to its flag.
  - `Dict` is a Python dictionary object, so that `snapshot` can return the broker's own
    dictionary.
  - `Broker` has methods whose `ensures` tie the dictionary's new contents to the
    `Listeners` functions. Their `modifies` clauses name the only event each call may
    set.
  - `Post` is the decision in `PublishHandler.post`: answer 400 with the error object,
    or hand the fields to the broker.
- `Validation` (validation.dfy): `__validateBody` and `__decodeJson` as functions.
- `Scenarios` (scenarios.dfy): short client runs of the `Broker` class.
- `Wrappers` (wrappers.dfy): `Option`.

Tornado runs every handler on one event loop, so each broker call runs to completion
without interleaving. A call is therefore modelled as one atomic step.

## Behaviour of the code worth knowing

- `remove_listener` calls `dict.pop` with no default. Removing an absent key raises
  `KeyError` and leaves the table unchanged. It is not an idempotent no-op, and a second
  cancel raises (`SecondRemoveRaises`, `Scenarios.CancelTwice`).
- `snapshot` returns the live dictionary, not a copy. Writing into what it returns
  changes the broker's table (`Scenarios.SnapshotIsLive`).
- A publish carries no payload to the waiter. `encryptedPin` and `transaction` are never
  read. A released subscriber cannot tell a publish from a cancel: both only set the
  event.
- A second subscribe on a key overwrites the first waiter without setting it. That first
  waiter is then never released (`EvictedWaiterNeverReleased`). When the first
  subscriber's connection closes, `on_connection_close` calls `remove_listener(k)`. This
  sets the event of whichever subscriber now holds `k`
  (`OverwriteReleasesNewest`, `Scenarios.EvictedSubscriberCloses`).

## Model

| member | source | states |
|---|---|---|
| Listeners.Register | remote.py:20-23 | after `listen_for_public_key(k, e)` the entry for `k` is `e` and every other key's entry is unchanged |
| Listeners.RemoveListener | remote.py:25-29 | `KeyError` exactly when `k` is absent; otherwise the event released is the one stored under `k`, `k` is gone and every other entry is unchanged |
| Listeners.AddTransaction | remote.py:34-36 | with `k` present it is exactly `remove_listener(k)`; with `k` absent the table is unchanged and no event is set |
| Listeners.Step | remote.py:20-36 | one broker call: a snapshot, and a remove of an absent key (the `KeyError` stays with the caller, as in `on_connection_close`), leave the table as it was; a call changes no key other than its own; an event is released only by a remove or publish, and it is the one stored under that call's key; every entry afterwards was there before or is the registered event |
| Listeners.Run | remote.py:20-36 | a sequence of calls, applied in order, releases at most one event per call, and every released event was in the table at the start or registered by one of the calls |
| Listeners.ListenThenPublish | remote.py:20-36 | register then publish on `k` releases exactly that waiter, once, and leaves the table without `k` |
| Listeners.SecondPublishIsNoOp | remote.py:34-36 | a publish on a present key sets its waiter; a second publish with no register in between changes nothing and sets nothing |
| Listeners.SecondRemoveRaises | remote.py:28 | removing the same key twice raises `KeyError` the second time |
| Listeners.OverwriteReleasesNewest | remote.py:23-29 | after two registers on `k`, a remove or a publish on `k` releases the second waiter and empties the slot |
| Listeners.StepReleaseBound | remote.py:20-36 | in one call, releasing `e` uses up a key held by `e`, and only registering `e` can add one |
| Listeners.ReleaseBound | remote.py:20-36 | over any run, the releases of `e` plus the keys `e` still holds are at most the keys it held at the start plus the times it was registered |
| Listeners.FreshWaiterReleasedAtMostOnce | remote.py:79-84 | an event absent from the table and registered at most once, like each subscriber's own event, is released at most once in any run |
| Listeners.EvictedWaiterNeverReleased | remote.py:23 | a waiter overwritten by a second register, and not registered again, is never released in any continuation |
| Listeners.StepElsewhere | remote.py:20-36 | a call on another key leaves the entry for `k` unchanged |
| Listeners.StepHere | remote.py:20-36 | a call on `k` gives the same entry for `k` and the same release from any two tables that agree on `k` |
| Listeners.RunHere | remote.py:20-36 | a run of calls on `k` depends only on the table's entry for `k` |
| Listeners.KeyIsolation | remote.py:20-36 | after any run, the entry for `k` is what the calls that name `k` would have made it on their own |
| Listeners.PayloadIgnored | remote.py:34-36 | blanking every pin and transaction in a run changes neither the final table nor the releases |
| Validation.ValidateBody | remote.py:60-68 | returns `{}` iff all three fields are present; otherwise exactly `{error: m}`, where `m` is the message of the first missing field in the order publicKey, encryptedPin, transaction |
| Validation.DecodeJson | remote.py:70-74 | a decoder failure gives the empty object; a decoded object is returned as it is |
| Validation.ErrorIffMissing | remote.py:49-68 | the check has an `error` entry exactly when one of the three fields is missing |
| Validation.FirstMissingUnique | remote.py:60-68 | the first missing field is unique, so the error message is determined |
| Validation.UndecodableBodyRejected | remote.py:60-74 | a body that does not decode is rejected with the publicKey message |
| Validation.MissingPublicKeyFirst | remote.py:61-62 | a body without publicKey gets the publicKey message, whatever else is missing |
| Remote.Event.constructor | remote.py:79 | a new event is not set |
| Remote.Event.Set | remote.py:29 | after `set()` the event is set |
| Remote.Dict.constructor | remote.py:18 | the literal `{}` is a dictionary with no entries |
| Remote.Dict.SetItem | remote.py:23 | `d[k] = v` updates the entry for `k` and nothing else |
| Remote.Dict.Pop | remote.py:28 | `pop(k)` returns the value under `k` and removes it, or raises `KeyError` and changes nothing |
| Remote.Broker.constructor | remote.py:17-18 | a new broker has a fresh, empty listener dictionary |
| Remote.Broker.ListenForPublicKey | remote.py:20-23 | the dictionary becomes `Register(old, k, e)`; only the dictionary is modified, so no event, including the evicted one, is set |
| Remote.Broker.RemoveListener | remote.py:25-29 | reports `KeyError` exactly when the key is absent, with the dictionary unchanged; otherwise the dictionary loses `k` and the popped event is set; only that event may change |
| Remote.Broker.Snapshot | remote.py:31-32 | returns the broker's own dictionary object and modifies nothing |
| Remote.Broker.AddTransaction | remote.py:34-36 | the dictionary becomes `AddTransaction(old, k)` and the released event, if any, is set; pin and transaction play no part; only the waiter under `k` may change |
| Remote.PublishTarget | remote.py:47-56 | a request reaches the broker exactly when its decoded body has all of publicKey, encryptedPin and transaction; an undecodable body never does; the key used is the body's publicKey |
| Remote.Post | remote.py:47-58 | a failing body gets status 400 and its error object with the table unchanged; a passing body gets status 200 and the broker's `add_transaction` effect on the body's publicKey |
| Scenarios.PublishReleasesWaiter | remote.py:20-36 | register then publish sets the waiter and empties the table |
| Scenarios.OverwriteOrphansFirstWaiter | remote.py:20-36 | with two subscribers on one key, a publish sets only the second event |
| Scenarios.PublishWithoutListener | remote.py:34-36 | a publish on a key with no waiter sets nothing and leaves the table unchanged |
| Scenarios.CancelTwice | remote.py:25-29 | the first remove sets the event and empties the table; the second raises `KeyError` |
| Scenarios.EvictedSubscriberCloses | remote.py:89-90 | the evicted subscriber's close handler sets the second subscriber's event, and its own stays unset |
| Scenarios.SnapshotIsLive | remote.py:31-32 | a write into the dictionary returned by `snapshot` is a write into the broker's table |

## Left out

- The Tornado HTTP layer is not modelled: request handlers, routing, `set_status`/`write`/`finish`, `app.listen` and the IOLoop (remote.py:41-58, 76-109). `Post` keeps only the decision and returns the status and error object. The JSON encoding of the error object is not modelled.
- The suspension in `SubscribeHandler.get` (`await self.event.wait()`) and Tornado's `Event` internals are not modelled. An event is an object with a flag, because the wait is scheduling, not state.
- `on_connection_close` is not modelled as an asynchronous event. It is a `remove_listener` call, and the scenarios use it that way.
- `tornado.escape.json_decode` is not modelled. `DecodeJson` takes the decoder's result as a parameter, with `None` for a raised exception. JSON that decodes to a non-object (a list, a string) is not modelled. There, `in` means something else.
- Field values are modelled as strings. A `publicKey` that is a JSON number would key the dictionary by a number, which is not modelled. A `publicKey` that is a JSON object or array decodes to an unhashable `dict` or `list`. Then `publicKey in self.listeners` (remote.py:35) raises `TypeError` after validation has passed, and that error path is not modelled.
- The `print` logging is not modelled, because it is output only.
- Concurrency under a multi-threaded scheduler is not modelled, because the program runs on a single-threaded event loop.
