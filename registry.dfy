/**
 * The serializer registry of a producer configuration, as a value.
 *
 * A configuration holds three lifecycle callbacks with fixed signatures
 * (delivery report, partitioner, queue full), one type-erased key serializer,
 * one type-erased payload serializer and a map from header name to a
 * type-erased header serializer. Each setter overwrites exactly one of these
 * slots; the typed getters read a slot back and recover the callable.
 */
module Registry {
  import opened Wrappers

  /** The name of a C++ value type, as a serializer holder is specialised on it. */
  type TypeTag = string

  /**
   * One declared parameter of a callable: its type and whether it is taken by
   * reference. `byReference` is what `std::remove_reference` discards, so a
   * by-value and a by-reference parameter of one type deduce the same tag.
   */
  datatype Param = Param(base: TypeTag, byReference: bool)

  /**
   * A caller-supplied callable: an identity standing for the function object
   * and the parameter list of its call signature, from which the setters
   * deduce the value type.
   */
  datatype Callable = Callable(id: nat, params: seq<Param>)

  /**
   * The type of the callable's k-th parameter with any reference removed,
   * as `std::remove_reference<decltype(argType<k>(callback))>::type`.
   */
  function ArgType(f: Callable, k: nat): TypeTag
    requires k < |f.params|
  {
    f.params[k].base
  }

  /**
   * A type-erased serializer handle: the holder was specialised on `tag`, wraps
   * `callable`, and is the headers-aware holder when `withHeaders` holds.
   */
  datatype Handle = Handle(tag: TypeTag, callable: Callable, withHeaders: bool)

  /**
   * The state of one producer configuration's callbacks and serializers. A
   * lifecycle field is a `std::function`, which may be empty (`None`); a
   * serializer slot is a `shared_ptr`, which may be null (`None`).
   */
  datatype Registry = Registry(
    deliveryReportCallback: Option<Callable>,
    partitionerCallback: Option<Callable>,
    queueFullCallback: Option<Callable>,
    keySerializer: Option<Handle>,
    payloadSerializer: Option<Handle>,
    headerSerializers: map<string, Handle>)

  /** Nothing registered: empty callbacks, null serializer handles, no header entries. */
  function Empty(): (r: Registry)
    ensures forall s: Slot :: s.Key? || s.Payload? || s.Header? ==> Read(r, s) == None
    ensures forall s: Slot :: s.DeliveryReport? || s.Partitioner? || s.QueueFull? ==> Read(r, s) == Some(Plain(None))
  {
    Registry(None, None, None, None, None, map[])
  }

  /** The error `getHeaderCallback` throws. */
  datatype RuntimeError = RuntimeError(message: string)

  const InvalidHeaderName: RuntimeError := RuntimeError("Invalid header name")

  // ---------------------------------------------------------------------------
  // Uniform view: every storage location of the configuration is a slot.
  // ---------------------------------------------------------------------------

  datatype Slot = DeliveryReport | Partitioner | QueueFull | Key | Payload | Header(name: string)

  /**
   * What a slot holds: a lifecycle `std::function` (always present, possibly
   * empty), or a type-erased serializer handle.
   */
  datatype Entry = Plain(stored: Option<Callable>) | Erased(handle: Handle)

  function Read(r: Registry, s: Slot): Option<Entry>
  {
    match s
    case DeliveryReport =>
      Some(Plain(r.deliveryReportCallback))
    case Partitioner =>
      Some(Plain(r.partitionerCallback))
    case QueueFull =>
      Some(Plain(r.queueFullCallback))
    case Key =>
      if r.keySerializer.Some? then Some(Erased(r.keySerializer.value)) else None
    case Payload =>
      if r.payloadSerializer.Some? then Some(Erased(r.payloadSerializer.value)) else None
    case Header(name) =>
      if name in r.headerSerializers then Some(Erased(r.headerSerializers[name])) else None
  }

  // ---------------------------------------------------------------------------
  // Setters
  // ---------------------------------------------------------------------------

  /**
   * One call of a setter of the configuration. A lifecycle setter takes a
   * `std::function` by value, and an empty one (`None`) is a legal argument.
   */
  datatype Call =
    | SetDeliveryReport(lifecycle: Option<Callable>)
    | SetPartitioner(lifecycle: Option<Callable>)
    | SetQueueFull(lifecycle: Option<Callable>)
    | SetKey(callback: Callable)
    | SetPayload(callback: Callable)
    | SetHeader(name: string, callback: Callable)

  /**
   * The call instantiates: the key and header setters read the first
   * parameter's type, the payload setter the second one.
   */
  predicate Compiles(c: Call)
  {
    match c
    case SetKey(f) => 1 <= |f.params|
    case SetPayload(f) => 2 <= |f.params|
    case SetHeader(_, f) => 1 <= |f.params|
    case _ => true
  }

  predicate AllCompile(cs: seq<Call>)
  {
    forall j :: 0 <= j < |cs| ==> Compiles(cs[j])
  }

  /** The slot a call writes. */
  function Target(c: Call): Slot
  {
    match c
    case SetDeliveryReport(_) => DeliveryReport
    case SetPartitioner(_) => Partitioner
    case SetQueueFull(_) => QueueFull
    case SetKey(_) => Key
    case SetPayload(_) => Payload
    case SetHeader(name, _) => Header(name)
  }

  predicate SetsSerializer(c: Call)
  {
    c.SetKey? || c.SetPayload? || c.SetHeader?
  }

  /**
   * The holder a serializer setter builds: for the key and a header, a plain
   * holder specialised on the first parameter's type; for the payload, a
   * headers-aware holder specialised on the second parameter's type.
   */
  function Holder(c: Call): Handle
    requires Compiles(c) && SetsSerializer(c)
  {
    match c
    case SetKey(f) => Handle(ArgType(f, 0), f, false)
    case SetPayload(f) => Handle(ArgType(f, 1), f, true)
    case SetHeader(_, f) => Handle(ArgType(f, 0), f, false)
  }

  /** What a call stores: a lifecycle function as given, a serializer in its holder. */
  function Written(c: Call): Entry
    requires Compiles(c)
  {
    if SetsSerializer(c) then Erased(Holder(c)) else Plain(c.lifecycle)
  }

  /**
   * The effect of one setter call: its target slot now holds what it wrote,
   * whatever was there before, and every other slot reads as it did.
   */
  function Apply(r: Registry, c: Call): (r': Registry)
    requires Compiles(c)
    ensures Read(r', Target(c)) == Some(Written(c))
    ensures forall s :: s != Target(c) ==> Read(r', s) == Read(r, s)
  {
    match c
    case SetDeliveryReport(f) => r.(deliveryReportCallback := f)
    case SetPartitioner(f) => r.(partitionerCallback := f)
    case SetQueueFull(f) => r.(queueFullCallback := f)
    case SetKey(_) => r.(keySerializer := Some(Holder(c)))
    case SetPayload(_) => r.(payloadSerializer := Some(Holder(c)))
    case SetHeader(name, _) => r.(headerSerializers := r.headerSerializers[name := Holder(c)])
  }

  /** The registry after a sequence of setter calls, in order. */
  function Replay(r: Registry, cs: seq<Call>): Registry
    requires AllCompile(cs)
    decreases |cs|
  {
    if cs == [] then r
    else Apply(Replay(r, cs[..|cs| - 1]), cs[|cs| - 1])
  }

  // ---------------------------------------------------------------------------
  // Typed getters
  // ---------------------------------------------------------------------------

  /**
   * `getKeyCallback<T>()`: the stored handle is cast to the holder for `t`
   * without a check, so the handle must be there and specialised on `t`.
   */
  function KeyCallback(r: Registry, t: TypeTag): (f: Callable)
    requires r.keySerializer.Some? && r.keySerializer.value.tag == t
    ensures Read(r, Key) == Some(Erased(Handle(t, f, r.keySerializer.value.withHeaders)))
  {
    r.keySerializer.value.callable
  }

  /** `getPayloadCallback<T>()`, with the same unchecked cast as the key getter. */
  function PayloadCallback(r: Registry, t: TypeTag): (f: Callable)
    requires r.payloadSerializer.Some? && r.payloadSerializer.value.tag == t
    ensures Read(r, Payload) == Some(Erased(Handle(t, f, r.payloadSerializer.value.withHeaders)))
  {
    r.payloadSerializer.value.callable
  }

  /**
   * `getHeaderCallback<T>(name)`: an unknown name throws "Invalid header name";
   * a known one is cast to the holder for `t` without a check.
   */
  function HeaderCallback(r: Registry, name: string, t: TypeTag): (res: Result<Callable, RuntimeError>)
    requires name in r.headerSerializers ==> r.headerSerializers[name].tag == t
    ensures res.Failure? <==> Read(r, Header(name)) == None
    ensures res.Failure? ==> res.error == InvalidHeaderName
    ensures res.Success? ==>
      Read(r, Header(name)) == Some(Erased(Handle(t, res.value, r.headerSerializers[name].withHeaders)))
  {
    if name !in r.headerSerializers then Failure(InvalidHeaderName)
    else Success(r.headerSerializers[name].callable)
  }

  // ---------------------------------------------------------------------------
  // The invariant of type erasure
  // ---------------------------------------------------------------------------

  /**
   * Every stored handle is specialised on the type the setter deduced from its
   * callable, and is the holder kind that setter builds.
   */
  ghost predicate WellFormed(r: Registry)
  {
    && (r.keySerializer.Some? ==>
          var h := r.keySerializer.value;
          !h.withHeaders && 1 <= |h.callable.params| && h.tag == ArgType(h.callable, 0))
    && (r.payloadSerializer.Some? ==>
          var h := r.payloadSerializer.value;
          h.withHeaders && 2 <= |h.callable.params| && h.tag == ArgType(h.callable, 1))
    && (forall name :: name in r.headerSerializers ==> HeaderHandleWellFormed(r.headerSerializers[name]))
  }

  ghost predicate HeaderHandleWellFormed(h: Handle)
  {
    !h.withHeaders && 1 <= |h.callable.params| && h.tag == ArgType(h.callable, 0)
  }
}
