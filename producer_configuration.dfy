/**
 * The producer configuration object: its callback and serializer fields are
 * updated in place by the setters and read back by the const getters.
 */
module ProducerConfigurations {
  import opened Wrappers
  import opened Registry
  import RegistryProperties

  class ProducerConfiguration {
    var deliveryReportCallback: Option<Callable>
    var partitionerCallback: Option<Callable>
    var queueFullCallback: Option<Callable>
    var keySerializer: Option<Handle>
    var payloadSerializer: Option<Handle>
    var headerSerializers: map<string, Handle>

    /** The fields as a registry value. */
    function Model(): Registry
      reads this
    {
      Registry(deliveryReportCallback, partitionerCallback, queueFullCallback,
               keySerializer, payloadSerializer, headerSerializers)
    }

    /** A configuration with nothing registered yet. */
    constructor ()
      ensures Model() == Empty()
      ensures WellFormed(Model())
    {
      deliveryReportCallback, partitionerCallback, queueFullCallback := None, None, None;
      keySerializer, payloadSerializer := None, None;
      headerSerializers := map[];
    }

    method SetDeliveryReportCallback(callback: Option<Callable>)
      modifies this
      ensures deliveryReportCallback == callback
      ensures Model() == Apply(old(Model()), SetDeliveryReport(callback))
      ensures old(WellFormed(Model())) ==> WellFormed(Model())
    {
      deliveryReportCallback := callback;
      RegistryProperties.ApplyWellFormed(old(Model()), SetDeliveryReport(callback));
    }

    method GetDeliveryReportCallback() returns (callback: Option<Callable>)
      ensures Read(Model(), DeliveryReport) == Some(Plain(callback))
    {
      callback := deliveryReportCallback;
    }

    method SetPartitionerCallback(callback: Option<Callable>)
      modifies this
      ensures partitionerCallback == callback
      ensures Model() == Apply(old(Model()), SetPartitioner(callback))
      ensures old(WellFormed(Model())) ==> WellFormed(Model())
    {
      partitionerCallback := callback;
      RegistryProperties.ApplyWellFormed(old(Model()), SetPartitioner(callback));
    }

    method GetPartitionerCallback() returns (callback: Option<Callable>)
      ensures Read(Model(), Partitioner) == Some(Plain(callback))
    {
      callback := partitionerCallback;
    }

    method SetQueueFullCallback(callback: Option<Callable>)
      modifies this
      ensures queueFullCallback == callback
      ensures Model() == Apply(old(Model()), SetQueueFull(callback))
      ensures old(WellFormed(Model())) ==> WellFormed(Model())
    {
      queueFullCallback := callback;
      RegistryProperties.ApplyWellFormed(old(Model()), SetQueueFull(callback));
    }

    method GetQueueFullCallback() returns (callback: Option<Callable>)
      ensures Read(Model(), QueueFull) == Some(Plain(callback))
    {
      callback := queueFullCallback;
    }

    /** Stores the callback in a plain holder specialised on its first parameter's type. */
    method SetKeyCallback(callback: Callable)
      requires 1 <= |callback.params|
      modifies this
      ensures keySerializer == Some(Handle(ArgType(callback, 0), callback, false))
      ensures Model() == Apply(old(Model()), SetKey(callback))
      ensures old(WellFormed(Model())) ==> WellFormed(Model())
    {
      keySerializer := Some(Holder(SetKey(callback)));
      RegistryProperties.ApplyWellFormed(old(Model()), SetKey(callback));
    }

    /** Stores the callback in a headers-aware holder specialised on its second parameter's type. */
    method SetPayloadCallback(callback: Callable)
      requires 2 <= |callback.params|
      modifies this
      ensures payloadSerializer == Some(Handle(ArgType(callback, 1), callback, true))
      ensures Model() == Apply(old(Model()), SetPayload(callback))
      ensures old(WellFormed(Model())) ==> WellFormed(Model())
    {
      payloadSerializer := Some(Holder(SetPayload(callback)));
      RegistryProperties.ApplyWellFormed(old(Model()), SetPayload(callback));
    }

    /** Inserts or overwrites the entry `name` only, with a plain holder on the first parameter's type. */
    method SetHeaderCallback(name: string, callback: Callable)
      requires 1 <= |callback.params|
      modifies this
      ensures name in headerSerializers
      ensures headerSerializers[name] == Handle(ArgType(callback, 0), callback, false)
      ensures forall n :: n != name ==> Read(Model(), Header(n)) == Read(old(Model()), Header(n))
      ensures Model() == Apply(old(Model()), SetHeader(name, callback))
      ensures old(WellFormed(Model())) ==> WellFormed(Model())
    {
      headerSerializers := headerSerializers[name := Holder(SetHeader(name, callback))];
      RegistryProperties.ApplyWellFormed(old(Model()), SetHeader(name, callback));
    }

    /** `getKeyCallback<T>()`: the handle must be set and specialised on `keyType`. */
    method GetKeyCallback(keyType: TypeTag) returns (callback: Callable)
      requires keySerializer.Some? && keySerializer.value.tag == keyType
      ensures callback == KeyCallback(Model(), keyType)
    {
      callback := keySerializer.value.callable;
    }

    /** `getPayloadCallback<T>()`: the handle must be set and specialised on `payloadType`. */
    method GetPayloadCallback(payloadType: TypeTag) returns (callback: Callable)
      requires payloadSerializer.Some? && payloadSerializer.value.tag == payloadType
      ensures callback == PayloadCallback(Model(), payloadType)
    {
      callback := payloadSerializer.value.callable;
    }

    /** `getHeaderCallback<T>(name)`: throws "Invalid header name" for an unknown name. */
    method GetHeaderCallback(name: string, headerType: TypeTag) returns (res: Result<Callable, RuntimeError>)
      requires name in headerSerializers ==> headerSerializers[name].tag == headerType
      ensures res == HeaderCallback(Model(), name, headerType)
    {
      if name !in headerSerializers {
        return Failure(InvalidHeaderName);
      }
      return Success(headerSerializers[name].callable);
    }
  }
}
