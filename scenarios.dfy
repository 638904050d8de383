/**
 * Short client runs against the Broker class, like the handlers drive it.
 * Each one is proved from the method contracts alone.
 */
module Scenarios {
  import opened Remote

  /** Register then publish: the waiter is set and the table is empty again. */
  method PublishReleasesWaiter() returns (b: Broker, h: Event)
    ensures h.IsSet() && b.listeners.items == map[]
  {
    b := new Broker();
    h := new Event();
    b.ListenForPublicKey("K1", h);
    b.AddTransaction("K1", "pin", "tx1");
    assert b.listeners.items == map["K1" := h] - {"K1"};
  }

  /** A second subscriber on the same key evicts the first: a publish sets only the second. */
  method OverwriteOrphansFirstWaiter() returns (b: Broker, h1: Event, h2: Event)
    ensures !h1.IsSet() && h2.IsSet()
    ensures b.listeners.items == map[]
  {
    b := new Broker();
    h1 := new Event();
    h2 := new Event();
    b.ListenForPublicKey("K1", h1);
    b.ListenForPublicKey("K1", h2);
    assert b.listeners.items == map["K1" := h2];
    b.AddTransaction("K1", "pin", "tx1");
    assert b.listeners.items == map["K1" := h2] - {"K1"};
  }

  /** Publishing with nobody listening changes nothing. */
  method PublishWithoutListener() returns (b: Broker, h: Event)
    ensures !h.IsSet()
    ensures b.listeners.items == map["K1" := h]
  {
    b := new Broker();
    h := new Event();
    b.ListenForPublicKey("K1", h);
    b.AddTransaction("K2", "pin", "tx2");
  }

  /** Cancelling sets the waiter like a publish would; cancelling again raises `KeyError`. */
  method CancelTwice() returns (b: Broker, h: Event, first: bool, second: bool)
    ensures h.IsSet() && b.listeners.items == map[]
    ensures !first && second
  {
    b := new Broker();
    h := new Event();
    b.ListenForPublicKey("K3", h);
    first := b.RemoveListener("K3");
    assert b.listeners.items == map["K3" := h] - {"K3"};
    second := b.RemoveListener("K3");
  }

  /**
   * The first subscriber's connection closes after a second one took its
   * key: its `remove_listener(k)` sets the second subscriber's event,
   * while its own stays unset.
   */
  method EvictedSubscriberCloses() returns (b: Broker, h1: Event, h2: Event)
    ensures !h1.IsSet() && h2.IsSet()
  {
    b := new Broker();
    h1 := new Event();
    h2 := new Event();
    b.ListenForPublicKey("K1", h1);
    b.ListenForPublicKey("K1", h2);
    assert b.listeners.items == map["K1" := h2];
    var keyError := b.RemoveListener("K1");
  }

  /** Writing into the dictionary `snapshot` returned changes the broker's own table. */
  method SnapshotIsLive() returns (b: Broker, h: Event)
    ensures b.listeners.items == map["K1" := h]
  {
    b := new Broker();
    h := new Event();
    var d := b.Snapshot();
    d.SetItem("K1", h);
  }
}
