/**
 * `ServiceProviderServiceExtensions`: optional and required lookup of a service over an `IServiceProvider`,
 * the enumerable lookup built on the required one, and scope creation.
 *
 * The provider is abstract: what it returns for a type is a function given with it. A null provider or
 * type argument is `None`; a thrown exception is a `Failure` result.
 */
module ServiceProviderServiceExtensions {
  import opened Wrappers
  import opened ServiceModel

  /** A reference that may be null, as `object GetService(Type)` returns it. */
  type Reference = Option<ObjId>

  /** What a call into the provider gives for a type: a reference, possibly null, or a thrown exception. */
  type Lookup = TypeId -> Result<Reference, Error>

  /**
   * An `IServiceProvider`, seen only through what the extension methods ask of it: `GetService`, and, when
   * the provider also implements `ISupportRequiredService`, that interface's `GetRequiredService`. Either may
   * return a reference, null included, or throw.
   */
  datatype ServiceProvider =
    | Plain(getService: Lookup)
    | SupportsRequired(getService: Lookup, getRequiredService: Lookup)

  /**
   * `GetService<T>(provider)`: the optional lookup. It rejects a null provider and otherwise passes on the
   * provider's answer for `typeof(T)` unchanged: null when no service is found, and any exception the
   * provider throws.
   */
  function GetService(provider: Option<ServiceProvider>, t: TypeId): (r: Result<Reference, Error>)
    ensures provider.None? ==> r == Failure(ArgumentNull(Provider))
    ensures provider.Some? ==> r == provider.value.getService(t)
  {
    if provider.None? then Failure(ArgumentNull(Provider))
    else provider.value.getService(t)
  }

  /**
   * `GetRequiredService(provider, serviceType)`: the required lookup. After the two null checks it delegates
   * to `ISupportRequiredService` when the provider has it; otherwise it passes on an exception of
   * `GetService`, turns its null answer into an `InvalidOperationException` and returns its non-null one, so a
   * plain provider's success is never null.
   */
  function GetRequiredService(provider: Option<ServiceProvider>, serviceType: Option<TypeId>): (r: Result<Reference, Error>)
    ensures provider.None? ==> r == Failure(ArgumentNull(Provider))
    ensures provider.Some? && serviceType.None? ==> r == Failure(ArgumentNull(ServiceType))
    ensures provider.Some? && serviceType.Some? && provider.value.SupportsRequired? ==>
              r == provider.value.getRequiredService(serviceType.value)
    ensures provider.Some? && serviceType.Some? && provider.value.Plain? ==>
              var found := GetService(provider, serviceType.value);
              && (found.Failure? ==> r == found)
              && (found == Success(None) ==> r == Failure(NoServiceRegistered(serviceType.value)))
              && (found.Success? && found.value.Some? ==> r == found)
              && (r.Success? ==> r.value.Some?)
  {
    if provider.None? then Failure(ArgumentNull(Provider))
    else if serviceType.None? then Failure(ArgumentNull(ServiceType))
    else match provider.value
      case SupportsRequired(_, getRequiredService) => getRequiredService(serviceType.value)
      case Plain(getService) =>
        match getService(serviceType.value)
        case Failure(e) => Failure(e)
        case Success(None) => Failure(NoServiceRegistered(serviceType.value))
        case Success(service) => Success(service)
  }

  /**
   * `GetRequiredService<T>(provider)`: checks the provider itself and then calls the non-generic overload
   * with `typeof(T)`, so it agrees with that overload on every provider, null included.
   */
  function GetRequiredServiceGeneric(provider: Option<ServiceProvider>, t: TypeId): (r: Result<Reference, Error>)
    ensures r == GetRequiredService(provider, Some(t))
  {
    if provider.None? then Failure(ArgumentNull(Provider))
    else GetRequiredService(provider, Some(t))
  }

  /** `GetServices<T>(provider)`: the required lookup of `IEnumerable<T>`. */
  function GetServicesGeneric(provider: Option<ServiceProvider>, t: TypeId): (r: Result<Reference, Error>)
    ensures r == GetRequiredService(provider, Some(EnumerableOf(t)))
  {
    if provider.None? then Failure(ArgumentNull(Provider))
    else GetRequiredServiceGeneric(provider, EnumerableOf(t))
  }

  /**
   * `GetServices(provider, serviceType)`: checks both arguments and then does the required lookup of
   * `IEnumerable<serviceType>`. With the `(IEnumerable<object>)` cast left out of the model, it agrees with
   * the generic overload whenever the type is given.
   */
  function GetServices(provider: Option<ServiceProvider>, serviceType: Option<TypeId>): (r: Result<Reference, Error>)
    ensures provider.None? ==> r == Failure(ArgumentNull(Provider))
    ensures provider.Some? && serviceType.None? ==> r == Failure(ArgumentNull(ServiceType))
    ensures serviceType.Some? ==> r == GetServicesGeneric(provider, serviceType.value)
  {
    if provider.None? then Failure(ArgumentNull(Provider))
    else if serviceType.None? then Failure(ArgumentNull(ServiceType))
    else GetRequiredService(provider, Some(EnumerableOf(serviceType.value)))
  }

  /**
   * `CreateScope(provider)`: resolves `IServiceScopeFactory` through the required path and asks the factory
   * for a scope. `createScope` is the factory's own `CreateScope`, which is not part of this model: it may
   * return a scope, return null or throw, and its answer is passed on as it is. A null factory handed back by
   * an `ISupportRequiredService` provider is dereferenced and throws.
   */
  function CreateScope(provider: Option<ServiceProvider>, createScope: ObjId -> Result<Reference, Error>)
    : (r: Result<Reference, Error>)
    ensures var factory := GetRequiredServiceGeneric(provider, ServiceScopeFactory);
            && (factory.Failure? ==> r == Failure(factory.error))
            && (factory == Success(None) ==> r == Failure(NullReference))
            && (factory.Success? && factory.value.Some? ==> r == createScope(factory.value.value))
  {
    match GetRequiredServiceGeneric(provider, ServiceScopeFactory)
    case Failure(e) => Failure(e)
    case Success(None) => Failure(NullReference)
    case Success(Some(factory)) => createScope(factory)
  }

  // ---- How the lookups relate ----

  /**
   * On a plain provider the required lookup refines the optional one: it fails exactly when `GetService`
   * throws or finds nothing, and otherwise returns the same non-null reference.
   */
  lemma RequiredRefinesOptional(getService: Lookup, t: TypeId)
    ensures GetRequiredService(Some(Plain(getService)), Some(t)).Failure? <==>
            GetService(Some(Plain(getService)), t).Failure? || GetService(Some(Plain(getService)), t) == Success(None)
    ensures GetRequiredService(Some(Plain(getService)), Some(t)).Success? ==>
            GetRequiredService(Some(Plain(getService)), Some(t)) == GetService(Some(Plain(getService)), t) &&
            GetRequiredService(Some(Plain(getService)), Some(t)).value.Some?
  {
  }

  /**
   * When the provider implements `ISupportRequiredService`, `GetService` is not consulted: two such providers
   * that differ only in `GetService` give the same required answer.
   */
  lemma RequiredIgnoresGetService(getService1: Lookup, getService2: Lookup, getRequiredService: Lookup,
                                  serviceType: Option<TypeId>)
    ensures GetRequiredService(Some(SupportsRequired(getService1, getRequiredService)), serviceType) ==
            GetRequiredService(Some(SupportsRequired(getService2, getRequiredService)), serviceType)
  {
  }

  /** `GetServices` fails in exactly the cases the required lookup of the enumerable type fails. */
  lemma GetServicesFailsWithRequired(provider: Option<ServiceProvider>, t: TypeId)
    ensures GetServices(provider, Some(t)).Failure? <==> GetRequiredService(provider, Some(EnumerableOf(t))).Failure?
    ensures GetServicesGeneric(provider, t) == GetServices(provider, Some(t))
  {
  }

  /**
   * On a plain provider, `CreateScope` passes on an exception of the provider's `GetService`, fails with
   * `InvalidOperationException` for `IServiceScopeFactory` when no factory is found, and otherwise gives
   * exactly what the found factory's own `CreateScope` gives.
   */
  lemma CreateScopeOnPlainProvider(getService: Lookup, createScope: ObjId -> Result<Reference, Error>)
    ensures getService(ServiceScopeFactory).Failure? ==>
              CreateScope(Some(Plain(getService)), createScope) == Failure(getService(ServiceScopeFactory).error)
    ensures getService(ServiceScopeFactory) == Success(None) ==>
              CreateScope(Some(Plain(getService)), createScope) == Failure(NoServiceRegistered(ServiceScopeFactory))
    ensures forall factory :: getService(ServiceScopeFactory) == Success(Some(factory)) ==>
              CreateScope(Some(Plain(getService)), createScope) == createScope(factory)
  {
  }
}
