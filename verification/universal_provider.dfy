/**
 * The universal-hooks provider: one cache of the last value of every
 * lifecycle signal and one event emitter, created once per provider; `emit`
 * writes the cache and then calls the signal's listeners; the host events
 * `onLoad`, `onShow` and `onHide` are wired to `emit`.
 */
module UniversalLifecycle {
  import opened Optional

  /** `UniversalLifecycleName` */
  type LifecycleName = string

  const LoadOptionsSignal: LifecycleName := "loadOptions"
  const VisibilitySignal: LifecycleName := "visibility"

  /** The data emitted with a signal: the page's load options, or the visibility flag. */
  datatype Payload<O> = LoadOptions(options: O) | Visibility(visible: bool)

  /** A listener registered with the emitter, by identity. */
  type ListenerId = nat

  /**
   * One call of a listener: who was called, for which signal, with which
   * data, and the cache as that listener reads it through the context.
   */
  datatype Delivery<O> = Delivery(listener: ListenerId, name: LifecycleName, data: Payload<O>,
                                  cache: map<LifecycleName, Payload<O>>)

  /** The calls `events.emit(name, data)` makes: every listener of the list, in order, once. */
  function Notifications<O>(listeners: seq<ListenerId>, name: LifecycleName, data: Payload<O>,
                            cache: map<LifecycleName, Payload<O>>): (ds: seq<Delivery<O>>)
    ensures |ds| == |listeners|
    ensures forall k :: 0 <= k < |ds| ==>
      ds[k].listener == listeners[k] && ds[k].name == name && ds[k].data == data && ds[k].cache == cache
  {
    if listeners == [] then []
    else Notifications(listeners[..|listeners| - 1], name, data, cache)
         + [Delivery(listeners[|listeners| - 1], name, data, cache)]
  }

  /** The provider's `cache`: a map from signal name to the last value emitted. */
  class LifecycleCache<O> {
    var entries: map<LifecycleName, Payload<O>>

    constructor()
      ensures entries == map[]
    {
      entries := map[];
    }

    /** `cache.set(name, data)` */
    method Set(name: LifecycleName, data: Payload<O>)
      modifies this
      ensures entries == old(entries)[name := data]
    {
      entries := entries[name := data];
    }
  }

  /** The provider's `events`: per signal name, its listeners in registration order. */
  class EventEmitter<O> {
    var listeners: map<LifecycleName, seq<ListenerId>>
    /** Every listener call made so far, oldest first. */
    var delivered: seq<Delivery<O>>

    constructor()
      ensures listeners == map[] && delivered == []
    {
      listeners := map[];
      delivered := [];
    }

    function ListenersOf(name: LifecycleName): seq<ListenerId>
      reads this
    {
      if name in listeners then listeners[name] else []
    }

    /** `events.on(name, listener)`: appends a listener for `name`. */
    method On(name: LifecycleName, listener: ListenerId)
      modifies this
      ensures listeners == old(listeners)[name := old(ListenersOf(name)) + [listener]]
      ensures delivered == old(delivered)
    {
      listeners := listeners[name := ListenersOf(name) + [listener]];
    }

    /**
     * `events.emit(name, data)`: calls the listeners of `name`, and only those,
     * synchronously and in registration order; each reads `cache`.
     */
    method Emit(name: LifecycleName, data: Payload<O>, cache: LifecycleCache<O>)
      modifies this
      ensures listeners == old(listeners)
      ensures delivered == old(delivered) + Notifications(ListenersOf(name), name, data, cache.entries)
    {
      var current := ListenersOf(name);
      var i := 0;
      while i < |current|
        invariant 0 <= i <= |current|
        invariant listeners == old(listeners)
        invariant delivered == old(delivered) + Notifications(current[..i], name, data, cache.entries)
      {
        assert current[..i + 1][..i] == current[..i];
        delivered := delivered + [Delivery(current[i], name, data, cache.entries)];
        i := i + 1;
      }
      assert current[..i] == current;
    }
  }

  /** A host-runtime event the provider subscribes to. */
  datatype HostEvent<O> = OnLoad(options: O) | OnShow | OnHide

  class UniversalHooksProvider<O> {
    /** Both are made once, when the provider is created, and never replaced. */
    const cache: LifecycleCache<O>
    const events: EventEmitter<O>

    constructor()
      ensures fresh(cache) && fresh(events)
      ensures cache.entries == map[]
      ensures events.listeners == map[] && events.delivered == []
    {
      cache := new LifecycleCache();
      events := new EventEmitter();
    }

    /**
     * `emit(name, data)`: the cache holds `data` for `name` and nothing else
     * changes in it; then the listeners of `name` are called, each seeing the
     * new cached value.
     */
    method Emit(name: LifecycleName, data: Payload<O>)
      modifies cache, events
      ensures cache.entries == old(cache.entries)[name := data]
      ensures events.listeners == old(events.listeners)
      ensures events.delivered == old(events.delivered) + Notifications(events.ListenersOf(name), name, data, cache.entries)
      ensures forall k :: |old(events.delivered)| <= k < |events.delivered| ==>
        name in events.delivered[k].cache && events.delivered[k].cache[name] == data
    {
      cache.Set(name, data);
      events.Emit(name, data, cache);
    }

    /** The `onLoad` handler: `emit('loadOptions', options)`. */
    method OnLoad(options: O)
      modifies cache, events
      ensures cache.entries == old(cache.entries)[LoadOptionsSignal := LoadOptions(options)]
      ensures events.listeners == old(events.listeners)
      ensures events.delivered == old(events.delivered)
        + Notifications(events.ListenersOf(LoadOptionsSignal), LoadOptionsSignal, LoadOptions(options), cache.entries)
    {
      Emit(LoadOptionsSignal, LoadOptions(options));
    }

    /** The `onShow` handler: `emit('visibility', true)`. */
    method OnShow()
      modifies cache, events
      ensures cache.entries == old(cache.entries)[VisibilitySignal := Visibility(true)]
      ensures events.listeners == old(events.listeners)
      ensures events.delivered == old(events.delivered)
        + Notifications(events.ListenersOf(VisibilitySignal), VisibilitySignal, Visibility(true), cache.entries)
    {
      Emit(VisibilitySignal, Visibility(true));
    }

    /** The `onHide` handler: `emit('visibility', false)`. */
    method OnHide()
      modifies cache, events
      ensures cache.entries == old(cache.entries)[VisibilitySignal := Visibility(false)]
      ensures events.listeners == old(events.listeners)
      ensures events.delivered == old(events.delivered)
        + Notifications(events.ListenersOf(VisibilitySignal), VisibilitySignal, Visibility(false), cache.entries)
    {
      Emit(VisibilitySignal, Visibility(false));
    }

    /** Dispatches a host event to its handler. */
    method Handle(event: HostEvent<O>)
      modifies cache, events
      ensures cache.entries == old(cache.entries)[SignalOf(event) := PayloadOf(event)]
      ensures events.listeners == old(events.listeners)
      ensures events.delivered == old(events.delivered)
        + Notifications(events.ListenersOf(SignalOf(event)), SignalOf(event), PayloadOf(event), cache.entries)
    {
      match event
      case OnLoad(options) => OnLoad(options);
      case OnShow => OnShow();
      case OnHide => OnHide();
    }
  }

  /** The signal a host event is emitted as. */
  function SignalOf<O>(event: HostEvent<O>): (name: LifecycleName)
    ensures event.OnLoad? <==> name == LoadOptionsSignal
    ensures !event.OnLoad? <==> name == VisibilitySignal
  {
    if event.OnLoad? then LoadOptionsSignal else VisibilitySignal
  }

  /** The data a host event is emitted with. */
  function PayloadOf<O>(event: HostEvent<O>): Payload<O> {
    match event
    case OnLoad(options) => LoadOptions(options)
    case OnShow => Visibility(true)
    case OnHide => Visibility(false)
  }

  /** The visibility of the most recent show or hide, if any. */
  function LastVisibility<O>(events: seq<HostEvent<O>>): Option<bool> {
    if events == [] then None
    else
      match events[|events| - 1]
      case OnShow => Some(true)
      case OnHide => Some(false)
      case OnLoad(_) => LastVisibility(events[..|events| - 1])
  }

  /** The options of the most recent load, if any. */
  function LastLoadOptions<O>(events: seq<HostEvent<O>>): Option<O> {
    if events == [] then None
    else
      match events[|events| - 1]
      case OnLoad(options) => Some(options)
      case _ => LastLoadOptions(events[..|events| - 1])
  }

  /** What a reader of the cache finds for `visibility`. */
  function CachedVisibility<O>(entries: map<LifecycleName, Payload<O>>): Option<bool> {
    if VisibilitySignal in entries && entries[VisibilitySignal].Visibility?
    then Some(entries[VisibilitySignal].visible) else None
  }

  /** What a reader of the cache finds for `loadOptions`. */
  function CachedLoadOptions<O>(entries: map<LifecycleName, Payload<O>>): Option<O> {
    if LoadOptionsSignal in entries && entries[LoadOptionsSignal].LoadOptions?
    then Some(entries[LoadOptionsSignal].options) else None
  }

  /** The flags of the show and hide events, in order. */
  function VisibilityFlags<O>(events: seq<HostEvent<O>>): (flags: seq<bool>)
    ensures |flags| <= |events|
  {
    if events == [] then []
    else
      var e := events[|events| - 1];
      VisibilityFlags(events[..|events| - 1]) + (if e.OnLoad? then [] else [e.OnShow?])
  }

  /**
   * A log of listener calls that holds one call per flag, in order, each to
   * `listener`, for `visibility`, with that flag as its data.
   */
  ghost predicate CallsCarry<O>(ds: seq<Delivery<O>>, listener: ListenerId, flags: seq<bool>) {
    && |ds| == |flags|
    && forall k :: 0 <= k < |ds| ==>
         ds[k].listener == listener && ds[k].name == VisibilitySignal && ds[k].data == Visibility(flags[k])
  }

  /** The last visibility is the last flag of the show and hide events. */
  lemma {:induction false} LastVisibilityIsLastFlag<O>(events: seq<HostEvent<O>>)
    ensures LastVisibility(events).None? <==> VisibilityFlags(events) == []
    ensures VisibilityFlags(events) != [] ==>
      LastVisibility(events) == Some(VisibilityFlags(events)[|VisibilityFlags(events)| - 1])
  {
    if events != [] {
      LastVisibilityIsLastFlag(events[..|events| - 1]);
    }
  }

  /** What one host event adds to the flags a lone `visibility` listener has seen. */
  /** What one host event adds to the calls of a lone `visibility` listener. */
  lemma CallsCarryStep<O>(before: seq<Delivery<O>>, event: HostEvent<O>, listener: ListenerId,
                          flags: seq<bool>, cache: map<LifecycleName, Payload<O>>)
    requires CallsCarry(before, listener, flags)
    ensures CallsCarry(before + Notifications(if event.OnLoad? then [] else [listener],
                                              SignalOf(event), PayloadOf(event), cache),
                       listener, flags + (if event.OnLoad? then [] else [event.OnShow?]))
  {
  }


  /** What a provider with one `visibility` listener holds after the first `i` host events. */
  ghost predicate FedWith<O>(provider: UniversalHooksProvider<O>, listener: ListenerId,
                       hostEvents: seq<HostEvent<O>>, i: nat)
    requires i <= |hostEvents|
    reads provider.cache, provider.events
  {
    && provider.events.listeners == map[VisibilitySignal := [listener]]
    && CachedVisibility(provider.cache.entries) == LastVisibility(hostEvents[..i])
    && CachedLoadOptions(provider.cache.entries) == LastLoadOptions(hostEvents[..i])
    && CallsCarry(provider.events.delivered, listener, VisibilityFlags(hostEvents[..i]))
  }

  /** Hands the provider its next host event. */
  method FeedOne<O>(provider: UniversalHooksProvider<O>, listener: ListenerId,
                    hostEvents: seq<HostEvent<O>>, i: nat)
    requires i < |hostEvents|
    requires FedWith(provider, listener, hostEvents, i)
    modifies provider.cache, provider.events
    ensures FedWith(provider, listener, hostEvents, i + 1)
  {
    assert hostEvents[..i + 1][..i] == hostEvents[..i];
    var event := hostEvents[i];
    assert provider.events.ListenersOf(SignalOf(event)) == if event.OnLoad? then [] else [listener];
    CallsCarryStep(provider.events.delivered, event, listener, VisibilityFlags(hostEvents[..i]),
                   provider.cache.entries[SignalOf(event) := PayloadOf(event)]);
    provider.Handle(event);
  }

  /**
   * Creates a provider, registers one listener for `visibility` with `on`, feeds it
   * a sequence of host events and reads the cache back: the last value wins, for
   * each signal separately. The calls made are exactly one per show or hide, in
   * order, each to that listener, for `visibility`, with the event's flag; a load
   * calls nobody.
   */
  method FeedHostEvents<O>(hostEvents: seq<HostEvent<O>>, listener: ListenerId)
    returns (visibility: Option<bool>, options: Option<O>, calls: seq<Delivery<O>>)
    ensures visibility == LastVisibility(hostEvents)
    ensures options == LastLoadOptions(hostEvents)
    ensures |calls| == |VisibilityFlags(hostEvents)|
    ensures forall k :: 0 <= k < |calls| ==>
      && calls[k].listener == listener
      && calls[k].name == VisibilitySignal
      && calls[k].data == Visibility(VisibilityFlags(hostEvents)[k])
  {
    var provider := new UniversalHooksProvider<O>();
    assert provider.events.ListenersOf(VisibilitySignal) == [];
    provider.events.On(VisibilitySignal, listener);
    assert [] + [listener] == [listener];
    var i := 0;
    while i < |hostEvents|
      invariant 0 <= i <= |hostEvents|
      invariant fresh(provider.cache) && fresh(provider.events)
      invariant FedWith(provider, listener, hostEvents, i)
    {
      FeedOne(provider, listener, hostEvents, i);
      i := i + 1;
    }
    assert hostEvents[..i] == hostEvents;
    visibility := CachedVisibility(provider.cache.entries);
    options := CachedLoadOptions(provider.cache.entries);
    calls := provider.events.delivered;
  }
}
