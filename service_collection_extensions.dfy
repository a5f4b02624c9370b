/**
 * `ServiceCollectionServiceExtensions`: the `AddTransient`, `AddScoped` and `AddSingleton` overloads that
 * append one `ServiceDescriptor` to an `IServiceCollection` and hand the same collection back.
 *
 * Every overload is a method here. A `services` argument may be null (`ServiceCollection?`); the other
 * reference arguments are `Option`s, and the `typeof(T)` of a generic overload is a plain `TypeId` since it
 * is never null. A thrown `ArgumentNullException` is a `Failure` result.
 */
module ServiceCollectionServiceExtensions {
  import opened Wrappers
  import opened ServiceModel

  /** An `IServiceCollection`: an ordered, growable list of service descriptors. */
  class ServiceCollection {
    var descriptors: seq<ServiceDescriptor>

    constructor ()
      ensures descriptors == []
    {
      descriptors := [];
    }

    /** `IList<ServiceDescriptor>.Add`: appends at the end and keeps everything already there. */
    method Add(descriptor: ServiceDescriptor)
      modifies this
      ensures descriptors == old(descriptors) + [descriptor]
    {
      descriptors := descriptors + [descriptor];
    }
  }

  /**
   * What an overload returns, given its guard clauses: the ArgumentNullException of the first null argument,
   * or, when none is null, the very collection it was given.
   */
  predicate Guarded(r: Result<ServiceCollection, Error>, services: ServiceCollection?, checks: Checks)
  {
    match FirstNull(checks)
    case None => r.Success? && r.value == services
    case Some(p) => r == Failure(ArgumentNull(p))
  }

  /** The private `Add(collection, serviceType, implementationType, lifetime)`. */
  method AddWithType(collection: ServiceCollection, serviceType: TypeId, implementationType: TypeId,
                     lifetime: ServiceLifetime)
    returns (r: ServiceCollection)
    modifies collection
    ensures r == collection
    ensures collection.descriptors == old(collection.descriptors) + [OfType(serviceType, implementationType, lifetime)]
  {
    var descriptor := OfType(serviceType, implementationType, lifetime);
    collection.Add(descriptor);
    return collection;
  }

  /** The private `Add(collection, serviceType, implementationFactory, lifetime)`. */
  method AddWithFactory(collection: ServiceCollection, serviceType: TypeId, implementationFactory: FactoryId,
                        lifetime: ServiceLifetime)
    returns (r: ServiceCollection)
    modifies collection
    ensures r == collection
    ensures collection.descriptors == old(collection.descriptors) + [OfFactory(serviceType, implementationFactory, lifetime)]
  {
    var descriptor := OfFactory(serviceType, implementationFactory, lifetime);
    collection.Add(descriptor);
    return collection;
  }

  // ---- Transient registrations ----

  /** `AddTransient(services, serviceType, implementationType)`: registers `implementationType` for `serviceType`. */
  method AddTransientType(services: ServiceCollection?, serviceType: Option<TypeId>, implementationType: Option<TypeId>)
    returns (r: Result<ServiceCollection, Error>)
    modifies services
    ensures r.Success? <==> services != null && serviceType.Some? && implementationType.Some?
    ensures Guarded(r, services, 
      Check(Services, services != null, Check(ServiceType, serviceType.Some?, Check(ImplementationType, implementationType.Some?, Passed))))
    ensures services != null ==>
              services.descriptors == old(services.descriptors) + if r.Success? then [OfType(serviceType.value, implementationType.value, Transient)] else []
  {
    if services == null {
      return Failure(ArgumentNull(Services));
    }
    if serviceType.None? {
      return Failure(ArgumentNull(ServiceType));
    }
    if implementationType.None? {
      return Failure(ArgumentNull(ImplementationType));
    }
    var collection := AddWithType(services, serviceType.value, implementationType.value, Transient);
    return Success(collection);
  }

  /** `AddTransient(services, serviceType, implementationFactory)`: registers a factory for `serviceType`. */
  method AddTransientFactory(services: ServiceCollection?, serviceType: Option<TypeId>, implementationFactory: Option<FactoryId>)
    returns (r: Result<ServiceCollection, Error>)
    modifies services
    ensures r.Success? <==> services != null && serviceType.Some? && implementationFactory.Some?
    ensures Guarded(r, services, 
      Check(Services, services != null, Check(ServiceType, serviceType.Some?, Check(ImplementationFactory, implementationFactory.Some?, Passed))))
    ensures services != null ==>
              services.descriptors == old(services.descriptors) + if r.Success? then [OfFactory(serviceType.value, implementationFactory.value, Transient)] else []
  {
    if services == null {
      return Failure(ArgumentNull(Services));
    }
    if serviceType.None? {
      return Failure(ArgumentNull(ServiceType));
    }
    if implementationFactory.None? {
      return Failure(ArgumentNull(ImplementationFactory));
    }
    var collection := AddWithFactory(services, serviceType.value, implementationFactory.value, Transient);
    return Success(collection);
  }

  /** `AddTransient<TService, TImplementation>(services)`: registers `typeof(TImplementation)` for `typeof(TService)`. */
  method AddTransientGeneric(services: ServiceCollection?, tService: TypeId, tImplementation: TypeId)
    returns (r: Result<ServiceCollection, Error>)
    modifies services
    ensures r.Success? <==> services != null
    ensures Guarded(r, services, Check(Services, services != null, Passed))
    ensures services != null ==>
              services.descriptors == old(services.descriptors) + if r.Success? then [OfType(tService, tImplementation, Transient)] else []
  {
    if services == null {
      return Failure(ArgumentNull(Services));
    }
    r := AddTransientType(services, Some(tService), Some(tImplementation));
  }

  /** `AddTransient(services, serviceType)`: registers `serviceType` as its own implementation type. */
  method AddTransientSelf(services: ServiceCollection?, serviceType: Option<TypeId>)
    returns (r: Result<ServiceCollection, Error>)
    modifies services
    ensures r.Success? <==> services != null && serviceType.Some?
    ensures Guarded(r, services, Check(Services, services != null, Check(ServiceType, serviceType.Some?, Passed)))
    ensures services != null ==>
              services.descriptors == old(services.descriptors) + if r.Success? then [OfType(serviceType.value, serviceType.value, Transient)] else []
  {
    if services == null {
      return Failure(ArgumentNull(Services));
    }
    if serviceType.None? {
      return Failure(ArgumentNull(ServiceType));
    }
    r := AddTransientType(services, serviceType, serviceType);
  }

  /** `AddTransient<TService>(services)`: registers `typeof(TService)` as its own implementation type. */
  method AddTransientGenericSelf(services: ServiceCollection?, tService: TypeId)
    returns (r: Result<ServiceCollection, Error>)
    modifies services
    ensures r.Success? <==> services != null
    ensures Guarded(r, services, Check(Services, services != null, Passed))
    ensures services != null ==>
              services.descriptors == old(services.descriptors) + if r.Success? then [OfType(tService, tService, Transient)] else []
  {
    if services == null {
      return Failure(ArgumentNull(Services));
    }
    r := AddTransientSelf(services, Some(tService));
  }

  /** `AddTransient<TService>(services, implementationFactory)`: registers a factory for `typeof(TService)`. */
  method AddTransientGenericFactory(services: ServiceCollection?, tService: TypeId, implementationFactory: Option<FactoryId>)
    returns (r: Result<ServiceCollection, Error>)
    modifies services
    ensures r.Success? <==> services != null && implementationFactory.Some?
    ensures Guarded(r, services, Check(Services, services != null, Check(ImplementationFactory, implementationFactory.Some?, Passed)))
    ensures services != null ==>
              services.descriptors == old(services.descriptors) + if r.Success? then [OfFactory(tService, implementationFactory.value, Transient)] else []
  {
    if services == null {
      return Failure(ArgumentNull(Services));
    }
    if implementationFactory.None? {
      return Failure(ArgumentNull(ImplementationFactory));
    }
    r := AddTransientFactory(services, Some(tService), implementationFactory);
  }

  /**
   * `AddTransient<TService, TImplementation>(services, implementationFactory)`: registers a factory under
   * `typeof(TService)`; `TImplementation` only types the factory and is not recorded.
   */
  method AddTransientGenericImplementationFactory(services: ServiceCollection?, tService: TypeId, tImplementation: TypeId,
                                  implementationFactory: Option<FactoryId>)
    returns (r: Result<ServiceCollection, Error>)
    modifies services
    ensures r.Success? <==> services != null && implementationFactory.Some?
    ensures Guarded(r, services, Check(Services, services != null, Check(ImplementationFactory, implementationFactory.Some?, Passed)))
    ensures services != null ==>
              services.descriptors == old(services.descriptors) + if r.Success? then [OfFactory(tService, implementationFactory.value, Transient)] else []
  {
    if services == null {
      return Failure(ArgumentNull(Services));
    }
    if implementationFactory.None? {
      return Failure(ArgumentNull(ImplementationFactory));
    }
    r := AddTransientFactory(services, Some(tService), implementationFactory);
  }
  // ---- Scoped registrations ----

  /** `AddScoped(services, serviceType, implementationType)`: registers `implementationType` for `serviceType`. */
  method AddScopedType(services: ServiceCollection?, serviceType: Option<TypeId>, implementationType: Option<TypeId>)
    returns (r: Result<ServiceCollection, Error>)
    modifies services
    ensures r.Success? <==> services != null && serviceType.Some? && implementationType.Some?
    ensures Guarded(r, services, 
      Check(Services, services != null, Check(ServiceType, serviceType.Some?, Check(ImplementationType, implementationType.Some?, Passed))))
    ensures services != null ==>
              services.descriptors == old(services.descriptors) + if r.Success? then [OfType(serviceType.value, implementationType.value, Scoped)] else []
  {
    if services == null {
      return Failure(ArgumentNull(Services));
    }
    if serviceType.None? {
      return Failure(ArgumentNull(ServiceType));
    }
    if implementationType.None? {
      return Failure(ArgumentNull(ImplementationType));
    }
    var collection := AddWithType(services, serviceType.value, implementationType.value, Scoped);
    return Success(collection);
  }

  /** `AddScoped(services, serviceType, implementationFactory)`: registers a factory for `serviceType`. */
  method AddScopedFactory(services: ServiceCollection?, serviceType: Option<TypeId>, implementationFactory: Option<FactoryId>)
    returns (r: Result<ServiceCollection, Error>)
    modifies services
    ensures r.Success? <==> services != null && serviceType.Some? && implementationFactory.Some?
    ensures Guarded(r, services, 
      Check(Services, services != null, Check(ServiceType, serviceType.Some?, Check(ImplementationFactory, implementationFactory.Some?, Passed))))
    ensures services != null ==>
              services.descriptors == old(services.descriptors) + if r.Success? then [OfFactory(serviceType.value, implementationFactory.value, Scoped)] else []
  {
    if services == null {
      return Failure(ArgumentNull(Services));
    }
    if serviceType.None? {
      return Failure(ArgumentNull(ServiceType));
    }
    if implementationFactory.None? {
      return Failure(ArgumentNull(ImplementationFactory));
    }
    var collection := AddWithFactory(services, serviceType.value, implementationFactory.value, Scoped);
    return Success(collection);
  }

  /** `AddScoped<TService, TImplementation>(services)`: registers `typeof(TImplementation)` for `typeof(TService)`. */
  method AddScopedGeneric(services: ServiceCollection?, tService: TypeId, tImplementation: TypeId)
    returns (r: Result<ServiceCollection, Error>)
    modifies services
    ensures r.Success? <==> services != null
    ensures Guarded(r, services, Check(Services, services != null, Passed))
    ensures services != null ==>
              services.descriptors == old(services.descriptors) + if r.Success? then [OfType(tService, tImplementation, Scoped)] else []
  {
    if services == null {
      return Failure(ArgumentNull(Services));
    }
    r := AddScopedType(services, Some(tService), Some(tImplementation));
  }

  /** `AddScoped(services, serviceType)`: registers `serviceType` as its own implementation type. */
  method AddScopedSelf(services: ServiceCollection?, serviceType: Option<TypeId>)
    returns (r: Result<ServiceCollection, Error>)
    modifies services
    ensures r.Success? <==> services != null && serviceType.Some?
    ensures Guarded(r, services, Check(Services, services != null, Check(ServiceType, serviceType.Some?, Passed)))
    ensures services != null ==>
              services.descriptors == old(services.descriptors) + if r.Success? then [OfType(serviceType.value, serviceType.value, Scoped)] else []
  {
    if services == null {
      return Failure(ArgumentNull(Services));
    }
    if serviceType.None? {
      return Failure(ArgumentNull(ServiceType));
    }
    r := AddScopedType(services, serviceType, serviceType);
  }

  /** `AddScoped<TService>(services)`: registers `typeof(TService)` as its own implementation type. */
  method AddScopedGenericSelf(services: ServiceCollection?, tService: TypeId)
    returns (r: Result<ServiceCollection, Error>)
    modifies services
    ensures r.Success? <==> services != null
    ensures Guarded(r, services, Check(Services, services != null, Passed))
    ensures services != null ==>
              services.descriptors == old(services.descriptors) + if r.Success? then [OfType(tService, tService, Scoped)] else []
  {
    if services == null {
      return Failure(ArgumentNull(Services));
    }
    r := AddScopedSelf(services, Some(tService));
  }

  /** `AddScoped<TService>(services, implementationFactory)`: registers a factory for `typeof(TService)`. */
  method AddScopedGenericFactory(services: ServiceCollection?, tService: TypeId, implementationFactory: Option<FactoryId>)
    returns (r: Result<ServiceCollection, Error>)
    modifies services
    ensures r.Success? <==> services != null && implementationFactory.Some?
    ensures Guarded(r, services, Check(Services, services != null, Check(ImplementationFactory, implementationFactory.Some?, Passed)))
    ensures services != null ==>
              services.descriptors == old(services.descriptors) + if r.Success? then [OfFactory(tService, implementationFactory.value, Scoped)] else []
  {
    if services == null {
      return Failure(ArgumentNull(Services));
    }
    if implementationFactory.None? {
      return Failure(ArgumentNull(ImplementationFactory));
    }
    r := AddScopedFactory(services, Some(tService), implementationFactory);
  }

  /**
   * `AddScoped<TService, TImplementation>(services, implementationFactory)`: registers a factory under
   * `typeof(TService)`; `TImplementation` only types the factory and is not recorded.
   */
  method AddScopedGenericImplementationFactory(services: ServiceCollection?, tService: TypeId, tImplementation: TypeId,
                                  implementationFactory: Option<FactoryId>)
    returns (r: Result<ServiceCollection, Error>)
    modifies services
    ensures r.Success? <==> services != null && implementationFactory.Some?
    ensures Guarded(r, services, Check(Services, services != null, Check(ImplementationFactory, implementationFactory.Some?, Passed)))
    ensures services != null ==>
              services.descriptors == old(services.descriptors) + if r.Success? then [OfFactory(tService, implementationFactory.value, Scoped)] else []
  {
    if services == null {
      return Failure(ArgumentNull(Services));
    }
    if implementationFactory.None? {
      return Failure(ArgumentNull(ImplementationFactory));
    }
    r := AddScopedFactory(services, Some(tService), implementationFactory);
  }
  // ---- Singleton registrations ----

  /** `AddSingleton(services, serviceType, implementationType)`: registers `implementationType` for `serviceType`. */
  method AddSingletonType(services: ServiceCollection?, serviceType: Option<TypeId>, implementationType: Option<TypeId>)
    returns (r: Result<ServiceCollection, Error>)
    modifies services
    ensures r.Success? <==> services != null && serviceType.Some? && implementationType.Some?
    ensures Guarded(r, services, 
      Check(Services, services != null, Check(ServiceType, serviceType.Some?, Check(ImplementationType, implementationType.Some?, Passed))))
    ensures services != null ==>
              services.descriptors == old(services.descriptors) + if r.Success? then [OfType(serviceType.value, implementationType.value, Singleton)] else []
  {
    if services == null {
      return Failure(ArgumentNull(Services));
    }
    if serviceType.None? {
      return Failure(ArgumentNull(ServiceType));
    }
    if implementationType.None? {
      return Failure(ArgumentNull(ImplementationType));
    }
    var collection := AddWithType(services, serviceType.value, implementationType.value, Singleton);
    return Success(collection);
  }

  /** `AddSingleton(services, serviceType, implementationFactory)`: registers a factory for `serviceType`. */
  method AddSingletonFactory(services: ServiceCollection?, serviceType: Option<TypeId>, implementationFactory: Option<FactoryId>)
    returns (r: Result<ServiceCollection, Error>)
    modifies services
    ensures r.Success? <==> services != null && serviceType.Some? && implementationFactory.Some?
    ensures Guarded(r, services, 
      Check(Services, services != null, Check(ServiceType, serviceType.Some?, Check(ImplementationFactory, implementationFactory.Some?, Passed))))
    ensures services != null ==>
              services.descriptors == old(services.descriptors) + if r.Success? then [OfFactory(serviceType.value, implementationFactory.value, Singleton)] else []
  {
    if services == null {
      return Failure(ArgumentNull(Services));
    }
    if serviceType.None? {
      return Failure(ArgumentNull(ServiceType));
    }
    if implementationFactory.None? {
      return Failure(ArgumentNull(ImplementationFactory));
    }
    var collection := AddWithFactory(services, serviceType.value, implementationFactory.value, Singleton);
    return Success(collection);
  }

  /** `AddSingleton<TService, TImplementation>(services)`: registers `typeof(TImplementation)` for `typeof(TService)`. */
  method AddSingletonGeneric(services: ServiceCollection?, tService: TypeId, tImplementation: TypeId)
    returns (r: Result<ServiceCollection, Error>)
    modifies services
    ensures r.Success? <==> services != null
    ensures Guarded(r, services, Check(Services, services != null, Passed))
    ensures services != null ==>
              services.descriptors == old(services.descriptors) + if r.Success? then [OfType(tService, tImplementation, Singleton)] else []
  {
    if services == null {
      return Failure(ArgumentNull(Services));
    }
    r := AddSingletonType(services, Some(tService), Some(tImplementation));
  }

  /** `AddSingleton(services, serviceType)`: registers `serviceType` as its own implementation type. */
  method AddSingletonSelf(services: ServiceCollection?, serviceType: Option<TypeId>)
    returns (r: Result<ServiceCollection, Error>)
    modifies services
    ensures r.Success? <==> services != null && serviceType.Some?
    ensures Guarded(r, services, Check(Services, services != null, Check(ServiceType, serviceType.Some?, Passed)))
    ensures services != null ==>
              services.descriptors == old(services.descriptors) + if r.Success? then [OfType(serviceType.value, serviceType.value, Singleton)] else []
  {
    if services == null {
      return Failure(ArgumentNull(Services));
    }
    if serviceType.None? {
      return Failure(ArgumentNull(ServiceType));
    }
    r := AddSingletonType(services, serviceType, serviceType);
  }

  /** `AddSingleton<TService>(services)`: registers `typeof(TService)` as its own implementation type. */
  method AddSingletonGenericSelf(services: ServiceCollection?, tService: TypeId)
    returns (r: Result<ServiceCollection, Error>)
    modifies services
    ensures r.Success? <==> services != null
    ensures Guarded(r, services, Check(Services, services != null, Passed))
    ensures services != null ==>
              services.descriptors == old(services.descriptors) + if r.Success? then [OfType(tService, tService, Singleton)] else []
  {
    if services == null {
      return Failure(ArgumentNull(Services));
    }
    r := AddSingletonSelf(services, Some(tService));
  }

  /** `AddSingleton<TService>(services, implementationFactory)`: registers a factory for `typeof(TService)`. */
  method AddSingletonGenericFactory(services: ServiceCollection?, tService: TypeId, implementationFactory: Option<FactoryId>)
    returns (r: Result<ServiceCollection, Error>)
    modifies services
    ensures r.Success? <==> services != null && implementationFactory.Some?
    ensures Guarded(r, services, Check(Services, services != null, Check(ImplementationFactory, implementationFactory.Some?, Passed)))
    ensures services != null ==>
              services.descriptors == old(services.descriptors) + if r.Success? then [OfFactory(tService, implementationFactory.value, Singleton)] else []
  {
    if services == null {
      return Failure(ArgumentNull(Services));
    }
    if implementationFactory.None? {
      return Failure(ArgumentNull(ImplementationFactory));
    }
    r := AddSingletonFactory(services, Some(tService), implementationFactory);
  }

  /**
   * `AddSingleton<TService, TImplementation>(services, implementationFactory)`: registers a factory under
   * `typeof(TService)`; `TImplementation` only types the factory and is not recorded.
   */
  method AddSingletonGenericImplementationFactory(services: ServiceCollection?, tService: TypeId, tImplementation: TypeId,
                                  implementationFactory: Option<FactoryId>)
    returns (r: Result<ServiceCollection, Error>)
    modifies services
    ensures r.Success? <==> services != null && implementationFactory.Some?
    ensures Guarded(r, services, Check(Services, services != null, Check(ImplementationFactory, implementationFactory.Some?, Passed)))
    ensures services != null ==>
              services.descriptors == old(services.descriptors) + if r.Success? then [OfFactory(tService, implementationFactory.value, Singleton)] else []
  {
    if services == null {
      return Failure(ArgumentNull(Services));
    }
    if implementationFactory.None? {
      return Failure(ArgumentNull(ImplementationFactory));
    }
    r := AddSingletonFactory(services, Some(tService), implementationFactory);
  }

  /** `AddSingleton(services, serviceType, implementationInstance)`: registers a ready-made instance. */
  method AddSingletonInstance(services: ServiceCollection?, serviceType: Option<TypeId>, implementationInstance: Option<ObjId>)
    returns (r: Result<ServiceCollection, Error>)
    modifies services
    ensures r.Success? <==> services != null && serviceType.Some? && implementationInstance.Some?
    ensures Guarded(r, services, 
      Check(Services, services != null, Check(ServiceType, serviceType.Some?, Check(ImplementationInstance, implementationInstance.Some?, Passed))))
    ensures services != null ==>
              services.descriptors == old(services.descriptors) + if r.Success? then [OfInstance(serviceType.value, implementationInstance.value)] else []
  {
    if services == null {
      return Failure(ArgumentNull(Services));
    }
    if serviceType.None? {
      return Failure(ArgumentNull(ServiceType));
    }
    if implementationInstance.None? {
      return Failure(ArgumentNull(ImplementationInstance));
    }
    var descriptor := OfInstance(serviceType.value, implementationInstance.value);
    services.Add(descriptor);
    return Success(services);
  }

  /** `AddSingleton<TService>(services, implementationInstance)`: registers an instance under `typeof(TService)`. */
  method AddSingletonGenericInstance(services: ServiceCollection?, tService: TypeId, implementationInstance: Option<ObjId>)
    returns (r: Result<ServiceCollection, Error>)
    modifies services
    ensures r.Success? <==> services != null && implementationInstance.Some?
    ensures Guarded(r, services, Check(Services, services != null, Check(ImplementationInstance, implementationInstance.Some?, Passed)))
    ensures services != null ==>
              services.descriptors == old(services.descriptors) + if r.Success? then [OfInstance(tService, implementationInstance.value)] else []
  {
    if services == null {
      return Failure(ArgumentNull(Services));
    }
    if implementationInstance.None? {
      return Failure(ArgumentNull(ImplementationInstance));
    }
    r := AddSingletonInstance(services, Some(tService), implementationInstance);
  }

  // ---- What the registrations leave in the collection ----

  /** The descriptors registered for `serviceType`, in registration order. */
  function DescriptorsFor(descriptors: seq<ServiceDescriptor>, serviceType: TypeId): (r: seq<ServiceDescriptor>)
    ensures |r| <= |descriptors|
    ensures forall d | d in r :: d in descriptors && d.serviceType == serviceType
    ensures forall d | d in descriptors && d.serviceType == serviceType :: d in r
  {
    if descriptors == [] then []
    else if descriptors[0].serviceType == serviceType then [descriptors[0]] + DescriptorsFor(descriptors[1..], serviceType)
    else DescriptorsFor(descriptors[1..], serviceType)
  }

  /**
   * `DescriptorsFor` counts duplicates: each descriptor of the service type occurs in it as often as in the
   * collection, and no other descriptor occurs at all.
   */
  lemma {:induction false} DescriptorsForCounts(descriptors: seq<ServiceDescriptor>, serviceType: TypeId)
    ensures forall d :: multiset(DescriptorsFor(descriptors, serviceType))[d] ==
                        if d.serviceType == serviceType then multiset(descriptors)[d] else 0
  {
    if descriptors != [] {
      assert descriptors == [descriptors[0]] + descriptors[1..];
      DescriptorsForCounts(descriptors[1..], serviceType);
    }
  }

  /**
   * Appending a descriptor adds it at the end of the registrations for its own service type and leaves the
   * registrations of every other service type as they were.
   */
  lemma {:induction false} DescriptorsForAppend(descriptors: seq<ServiceDescriptor>, d: ServiceDescriptor, serviceType: TypeId)
    ensures DescriptorsFor(descriptors + [d], serviceType) ==
            DescriptorsFor(descriptors, serviceType) + if d.serviceType == serviceType then [d] else []
  {
    if descriptors == [] {
      assert descriptors + [d] == [d];
    } else {
      assert (descriptors + [d])[1..] == descriptors[1..] + [d];
      DescriptorsForAppend(descriptors[1..], d, serviceType);
    }
  }

  /**
   * There is no duplicate check: registering two descriptors for the same service type keeps both, after the
   * earlier registrations and in the order they were added.
   */
  lemma {:induction false} DuplicatesKept(descriptors: seq<ServiceDescriptor>, first: ServiceDescriptor, second: ServiceDescriptor)
    requires first.serviceType == second.serviceType
    ensures DescriptorsFor(descriptors + [first] + [second], first.serviceType) ==
            DescriptorsFor(descriptors, first.serviceType) + [first, second]
  {
    DescriptorsForAppend(descriptors, first, first.serviceType);
    DescriptorsForAppend(descriptors + [first], second, first.serviceType);
  }

  /**
   * A client of the overloads: registering the same service type twice, by `AddTransient(services, serviceType,
   * implementationType)`, leaves two descriptors for it, in insertion order.
   */
  method RegisterTwice(services: ServiceCollection, serviceType: TypeId, firstImplementation: TypeId, secondImplementation: TypeId)
    modifies services
    ensures DescriptorsFor(services.descriptors, serviceType) ==
            DescriptorsFor(old(services.descriptors), serviceType) +
            [OfType(serviceType, firstImplementation, Transient), OfType(serviceType, secondImplementation, Transient)]
  {
    ghost var before := services.descriptors;
    var r := AddTransientType(services, Some(serviceType), Some(firstImplementation));
    r := AddTransientType(services, Some(serviceType), Some(secondImplementation));
    DuplicatesKept(before, OfType(serviceType, firstImplementation, Transient), OfType(serviceType, secondImplementation, Transient));
  }
}
