/** The in-process event bus: the EventEmitter's subscriber registry and the payloads the
    services put on it. Handlers are opaque ids; emitting returns the deliveries it makes
    instead of running closures. */
module Events {
  import opened Catalog

  /** Stands for a subscribed callback function. */
  type HandlerId = nat

  /** One payload alternative per event name. */
  datatype Payload =
    | PollingResult(items: seq<Media>)
    | MediaListUpdated(cache: map<MediaId, Media>)
    | IntervalSeconds(seconds: int)

  /** What a service hands to `eventEmitter.emit(name, payload)`. */
  datatype Event = Event(name: string, payload: Payload)

  /** One call of a subscriber with the emitted payload. */
  datatype Delivery<P> = Delivery(handler: HandlerId, payload: P)

  class EventEmitter<P> {
    /** `onSubscribers`: the subscribers of each event key, in registration order. */
    var onSubscribers: map<string, seq<HandlerId>>

    constructor ()
      ensures onSubscribers == map[]
    {
      onSubscribers := map[];
    }

    /** The subscribers registered under `key`; none when the key was never used. */
    function SubscribersOf(key: string): seq<HandlerId>
      reads this
    {
      if key in onSubscribers then onSubscribers[key] else []
    }

    /** `on(key, handler)`: creates the key's list when it has none, then appends the handler,
        also when it is registered already. Other keys keep their lists. */
    method On(key: string, handler: HandlerId)
      modifies this
      ensures onSubscribers.Keys == old(onSubscribers.Keys) + {key}
      ensures SubscribersOf(key) == old(SubscribersOf(key)) + [handler]
      ensures forall k :: k in old(onSubscribers) && k != key ==> onSubscribers[k] == old(onSubscribers[k])
    {
      if key !in onSubscribers {
        onSubscribers := onSubscribers[key := []];
      }
      onSubscribers := onSubscribers[key := onSubscribers[key] + [handler]];
    }

    /** `emit(key, payload)`: calls every subscriber of `key` with `payload`, in registration
        order; a key without subscribers delivers nothing. */
    method Emit(key: string, payload: P) returns (deliveries: seq<Delivery<P>>)
      ensures |deliveries| == |SubscribersOf(key)|
      ensures forall i :: 0 <= i < |deliveries| ==>
        deliveries[i] == Delivery(SubscribersOf(key)[i], payload)
    {
      deliveries := [];
      if key !in onSubscribers {
        return;
      }
      var subscribers := onSubscribers[key];
      for i := 0 to |subscribers|
        invariant |deliveries| == i
        invariant forall j :: 0 <= j < i ==> deliveries[j] == Delivery(subscribers[j], payload)
      {
        deliveries := deliveries + [Delivery(subscribers[i], payload)];
      }
    }
  }

  /** A first `on` for a key creates its list with one subscriber; a second `on` with the same
      handler does not deduplicate and leaves two. */
  method OnAppendsScenario<P>(key: string, handler: HandlerId) returns (afterFirst: nat, afterSecond: nat)
    ensures afterFirst == 1 && afterSecond == 2
  {
    var emitter := new EventEmitter<P>();
    emitter.On(key, handler);
    afterFirst := |emitter.SubscribersOf(key)|;
    emitter.On(key, handler);
    afterSecond := |emitter.SubscribersOf(key)|;
  }

  /** Emitting on a key with one subscriber calls it once with the payload. */
  method EmitCallsSubscriberScenario<P>(key: string, handler: HandlerId, payload: P)
    returns (deliveries: seq<Delivery<P>>)
    ensures deliveries == [Delivery(handler, payload)]
  {
    var emitter := new EventEmitter<P>();
    emitter.On(key, handler);
    deliveries := emitter.Emit(key, payload);
  }

  /** Emitting on a key nobody subscribed to delivers nothing, even when other keys have subscribers. */
  method EmitWithoutSubscribersScenario<P>(key: string, other: string, handler: HandlerId, payload: P)
    returns (deliveries: seq<Delivery<P>>)
    requires other != key
    ensures deliveries == []
  {
    var emitter := new EventEmitter<P>();
    emitter.On(other, handler);
    deliveries := emitter.Emit(key, payload);
  }
}
