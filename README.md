# corokafka producer configuration: serializer registry

This project models the callback and serializer registry of corokafka's
`ProducerConfiguration`. A producer configuration for one topic holds:

- three lifecycle callbacks with fixed signatures: delivery report, partitioner and queue full;
- one type-erased key serializer handle;
- one type-erased payload serializer handle;
- a map from header name to a type-erased header serializer handle.

Each setter overwrites exactly one of these slots. The key and header setters
deduce the value type from the callback's first parameter. The payload setter
deduces it from the callback's second parameter and builds a headers-aware
holder. The typed getters cast the stored handle back to the holder for the
requested type. Only the header getter checks anything: an unknown name throws
`runtime_error("Invalid header name")`.

Files:

- `wrappers.dfy`: `Option` and `Result`.
- `registry.dfy` (module `Registry`): the state as a value (`Registry`, `Handle`, `Callable`).
  It also holds one setter call as `Call` with its effect `Apply`, a history of calls `Replay`,
  the typed getters as functions, a uniform slot view `Read`, and the type-erasure invariant `WellFormed`.
- `registry_properties.dfy` (module `RegistryProperties`): lemmas over single calls and over
  arbitrary histories of calls.
- `producer_configuration.dfy` (module `ProducerConfigurations`): class `ProducerConfiguration`.
  Its six fields are updated in place by the setters and read by the const getters.
  Each setter's contract ties the new state to `Apply` on the old state.
  Each typed serializer getter's contract ties its result to the getter function of `Registry`.
  Each lifecycle getter's contract ties its result to what `Read` shows in that slot.

Modelling choices:

- A C++ callable is a `Callable`: an identity plus the parameter list of its signature.
  `ArgType(f, k)` is `std::remove_reference<decltype(argType<k>(f))>::type`: the k-th parameter's type without reference.
  Template argument deduction then becomes reading the parameter list.
  The arity the template needs to instantiate is a `requires`; the compiler demands it of the caller.
- A template type argument `T` of a getter is an explicit `TypeTag` argument.
- A null `shared_ptr` is `None`, and so is an empty `std::function`.
  The lifecycle setters take an `Option<Callable>` and store it as given.
  Passing an empty function therefore gives the same state as never setting one.
- `static_pointer_cast` is unchecked in the source. Calling `getKeyCallback<T>` or `getPayloadCallback<T>`
  on an unset slot or with a `T` other than the stored one is undefined behaviour.
  The model states both as `requires`, and does the same for the tag of a known header name.
  It does not turn the unchecked cast into a reported error.
- The payload type is the callback's second parameter (`argType<1>`); the first one receives the headers.
- `getPayloadCallback<T>` casts to `ConcreteSerializer<T>`, but `setPayloadCallback` stores a
  `ConcreteSerializerWithHeaders<Payload>`. Whether that cast is sound depends on how the two holder classes
  are related, which corokafka_utils.h decides. That file is not part of this model.
  The model lets the payload getter recover the callable from either holder kind, and records the holder kind in `Handle.withHeaders`.

## Model

| member | source | states |
|---|---|---|
| `Registry.Empty` | corokafka/corokafka/corokafka_producer_configuration.h:162-167 | a configuration with nothing registered has null key, payload and header slots and empty lifecycle functions |
| `Registry.Apply` | corokafka/corokafka/impl/corokafka_producer_configuration_impl.h:8-27 | a setter call leaves its target slot holding what it wrote, whatever was there, and every other slot (other header names included) as it was |
| `Registry.KeyCallback` | corokafka/corokafka/impl/corokafka_producer_configuration_impl.h:29-33 | with the key handle set and specialised on `T`, the result is the callable inside the stored key handle |
| `Registry.PayloadCallback` | corokafka/corokafka/impl/corokafka_producer_configuration_impl.h:35-39 | with the payload handle set and specialised on `T`, the result is the callable inside the stored payload handle |
| `Registry.HeaderCallback` | corokafka/corokafka/impl/corokafka_producer_configuration_impl.h:41-49 | fails exactly when the name has no entry, and then with "Invalid header name"; otherwise returns the callable of that name's handle |
| `RegistryProperties.ReadDeterminesRegistry` | corokafka/corokafka/corokafka_producer_configuration.h:162-167 | the configuration is exactly its slots: two states that agree on every slot are equal |
| `RegistryProperties.OverwriteDiscards` | corokafka/corokafka/impl/corokafka_producer_configuration_impl.h:8-27 | `reset` keeps nothing of the old handle: two writes to one slot equal the second write alone, with no type-consistency check |
| `RegistryProperties.DistinctSlotsCommute` | corokafka/corokafka/corokafka_producer_configuration.h:162-167 | writes to different slots, or to different header names, commute |
| `RegistryProperties.EmptyLifecycleIsDefault` | corokafka/corokafka/corokafka_producer_configuration.h:67-98 | passing an empty function to a lifecycle setter of a fresh configuration leaves it equal to the fresh configuration |
| `RegistryProperties.HeaderCountOnSet` | corokafka/corokafka/impl/corokafka_producer_configuration_impl.h:22-27 | setting a header adds an entry only for a new name, so the map holds at most one handle per name |
| `RegistryProperties.ReplayUntouched` | corokafka/corokafka/corokafka_producer_configuration.h:162-167 | a slot that no call of a history writes reads after the history as before it |
| `RegistryProperties.ReplayLastWriteWins` | corokafka/corokafka/impl/corokafka_producer_configuration_impl.h:8-27 | after any history, a slot holds what its last writer wrote, lifecycle callbacks included |
| `RegistryProperties.ReplayHeaderNames` | corokafka/corokafka/impl/corokafka_producer_configuration_impl.h:22-27 | the header names after a history are the initial names plus every name some call registered |
| `RegistryProperties.ApplyWellFormed` | corokafka/corokafka/impl/corokafka_producer_configuration_impl.h:8-27 | each setter keeps every handle specialised on the type deduced from its own callable, in the holder kind its setter builds |
| `RegistryProperties.ReplayWellFormed` | corokafka/corokafka/impl/corokafka_producer_configuration_impl.h:8-27 | any history of setter calls keeps that type-erasure invariant |
| `RegistryProperties.KeyRoundTrip` | corokafka/corokafka/impl/corokafka_producer_configuration_impl.h:8-33 | after a history whose last key write is `f`, the key handle is specialised on `f`'s first parameter type and `getKeyCallback` with that type returns `f` |
| `RegistryProperties.PayloadRoundTrip` | corokafka/corokafka/impl/corokafka_producer_configuration_impl.h:15-39 | after a history whose last payload write is `f`, the handle is specialised on `f`'s second parameter type and `getPayloadCallback` with that type returns `f` |
| `RegistryProperties.HeaderRoundTrip` | corokafka/corokafka/impl/corokafka_producer_configuration_impl.h:22-49 | after a history whose last write of `name` is `f`, `getHeaderCallback` with `f`'s first parameter type returns `f`, whatever other names were written |
| `RegistryProperties.MissingHeaderFails` | corokafka/corokafka/impl/corokafka_producer_configuration_impl.h:44-47 | from an empty configuration, a name is present exactly when some call registered it; otherwise the getter throws "Invalid header name" for every type |
| `ProducerConfigurations.ProducerConfiguration.SetDeliveryReportCallback` | corokafka/corokafka/corokafka_producer_configuration.h:67 | the delivery report field holds the function as given, empty or not; the new state is `Apply` of the call, so nothing else changes |
| `ProducerConfigurations.ProducerConfiguration.GetDeliveryReportCallback` | corokafka/corokafka/corokafka_producer_configuration.h:73 | returns what the delivery report slot holds, changing nothing |
| `ProducerConfigurations.ProducerConfiguration.SetPartitionerCallback` | corokafka/corokafka/corokafka_producer_configuration.h:80 | the partitioner field holds the function as given, empty or not; nothing else changes |
| `ProducerConfigurations.ProducerConfiguration.GetPartitionerCallback` | corokafka/corokafka/corokafka_producer_configuration.h:86 | returns what the partitioner slot holds, changing nothing |
| `ProducerConfigurations.ProducerConfiguration.SetQueueFullCallback` | corokafka/corokafka/corokafka_producer_configuration.h:92 | the queue-full field holds the function as given, empty or not; nothing else changes |
| `ProducerConfigurations.ProducerConfiguration.GetQueueFullCallback` | corokafka/corokafka/corokafka_producer_configuration.h:98 | returns what the queue-full slot holds, changing nothing |
| `ProducerConfigurations.ProducerConfiguration.SetKeyCallback` | corokafka/corokafka/impl/corokafka_producer_configuration_impl.h:8-13 | the key field holds a plain holder on the first parameter's type wrapping the callback; payload, headers and lifecycle fields unchanged; the invariant is kept |
| `ProducerConfigurations.ProducerConfiguration.SetPayloadCallback` | corokafka/corokafka/impl/corokafka_producer_configuration_impl.h:15-20 | the payload field holds a headers-aware holder on the second parameter's type; key, headers and lifecycle fields unchanged; the invariant is kept |
| `ProducerConfigurations.ProducerConfiguration.SetHeaderCallback` | corokafka/corokafka/impl/corokafka_producer_configuration_impl.h:22-27 | the entry `name` is inserted or overwritten with a plain holder on the first parameter's type; every other name reads as before |
| `ProducerConfigurations.ProducerConfiguration.GetKeyCallback` | corokafka/corokafka/impl/corokafka_producer_configuration_impl.h:29-33 | const: returns `KeyCallback` of the current state, under the unchecked-cast precondition |
| `ProducerConfigurations.ProducerConfiguration.GetPayloadCallback` | corokafka/corokafka/impl/corokafka_producer_configuration_impl.h:35-39 | const: returns `PayloadCallback` of the current state, under the unchecked-cast precondition |
| `ProducerConfigurations.ProducerConfiguration.GetHeaderCallback` | corokafka/corokafka/impl/corokafka_producer_configuration_impl.h:41-49 | const: returns `HeaderCallback` of the current state, the "Invalid header name" failure included |

## Left out

- The constructors from `Options` and initializer lists, the `metadata.broker.list` check, and the
  static internal-option sets (corokafka_producer_configuration.h:48-61, :168-170). They live in the
  `Configuration` base and .cpp files that are not part of this model. The class's unnamed constructor only gives
  the default-initialised fields.
- The bodies of `setDeliveryReportCallback`, `getDeliveryReportCallback`, `setPartitionerCallback`,
  `getPartitionerCallback`, `setQueueFullCallback` and `getQueueFullCallback` are inferred from their
  declarations (corokafka_producer_configuration.h:67-98): their definitions are not part of this model.
  The model takes each setter to assign its field and each getter to return it.
- ProducerConfigurations.ProducerConfiguration.SetHeaderCallback: a registration of a new name that throws is not modelled.
  `_headerSerializers[name]` inserts a null `shared_ptr` before the holder is allocated
  (corokafka_producer_configuration_impl.h:26). If the allocation, or the copy or move of the callable,
  throws, the map keeps a null entry for `name`. A later `getHeaderCallback` then finds the name and
  dereferences null instead of throwing "Invalid header name". Setters are modelled as never failing, so
  `MissingHeaderFails` and `ReplayHeaderNames` speak of histories of calls that returned normally.
  A throwing key or payload `reset` leaves its slot as it was, so those setters lose nothing.
- `getKeySerializer`, `getPayloadSerializer`, `getHeaderSerializer` (corokafka_producer_configuration.h:155-157):
  they are declared only and their definitions are not part of this model.
- What a serializer does to bytes (`ConcreteSerializer`, `ConcreteSerializerWithHeaders`, `Serializer`, `argType`):
  defined in files not part of this model. Callables are opaque identities with a parameter list.
- cv-qualifiers of parameter types: `remove_reference` keeps `const`. The model keeps whatever the type name says
  and does not split qualifiers off.
- `shared_ptr` ownership and reference counting: memory management, not behaviour.
- The default hash partitioner (corokafka_producer_configuration.h:78) and the Kafka client itself: message
  sending, partition selection, queue-full handling, and concurrent access.
