# Service registration and service lookup extensions

A model, in Dafny, of the two extension-method classes of a dependency-injection library's abstractions
assembly:

- `ServiceCollectionServiceExtensions`: every `AddTransient`, `AddScoped` and `AddSingleton` overload. Each
  rejects null arguments with `ArgumentNullException`, builds one `ServiceDescriptor` (a service type plus an
  implementation type, a factory or an instance, and a lifetime), appends it to the `IServiceCollection` in
  place and returns that same collection.
- `ServiceProviderServiceExtensions`: `GetService<T>`, both `GetRequiredService` overloads, both
  `GetServices` overloads and `CreateScope`, over an abstract `IServiceProvider`.

Files:

- `wrappers.dfy`: `Option` (a null or non-null reference) and `Result` (a return or a thrown exception).
- `service_model.dfy`: type tokens (with `IEnumerable<T>` and `IServiceScopeFactory` spelled out), opaque
  factories and objects, `ServiceLifetime`, `ServiceDescriptor`, the exceptions as tags, and the guard
  clauses (`Checks`, `FirstNull`) every overload starts with.
- `service_collection_extensions.dfy`: the collection as a class with a `seq<ServiceDescriptor>` field that
  its `Add` reassigns, the two private `Add` helpers and the 23 public overloads as methods with `modifies`
  clauses, and lemmas about which descriptors a service type has after appends.
- `service_provider_extensions.dfy`: the lookups as functions returning `Result`, over a provider that is
  either plain (only `GetService`) or also implements `ISupportRequiredService`, and lemmas relating them.

C# overloads share a name; here each has its own, after its parameters: `Type` (service and implementation
type), `Factory`, `Self` (service type only), `Generic` (type arguments), `Instance`. A `typeof(T)` is a
`TypeId` that is never null; other reference arguments that the source checks for null are `Option`s, and the
collection argument is a `ServiceCollection?`.

The descriptor built from an instance records no lifetime, so the model does not say that an instance
descriptor is a Singleton: the `ServiceDescriptor(Type, object)` constructor that sets its lifetime is not part
of this model. Every overload checks `services` for null before it checks the service type and the
implementation.

## Model

| member | source | states |
|---|---|---|
| `ServiceModel.FirstNull` | src/Microsoft.Extensions.DependencyInjection.Abstractions/ServiceCollectionServiceExtensions.cs:28-41 | the guard clauses run in order: the result is None exactly when every argument is non-null, otherwise it names a null argument; a null argument stops the checks and a non-null one hands over to the next |
| `ServiceCollectionServiceExtensions.ServiceCollection.constructor` | src/Microsoft.Extensions.DependencyInjection.Abstractions/IServiceCollection.cs:11 | a new collection holds no descriptors |
| `ServiceCollectionServiceExtensions.ServiceCollection.Add` | src/Microsoft.Extensions.DependencyInjection.Abstractions/IServiceCollection.cs:11 | `IList.Add` appends the descriptor at the end and keeps every earlier descriptor |
| `ServiceCollectionServiceExtensions.AddWithType` | src/Microsoft.Extensions.DependencyInjection.Abstractions/ServiceCollectionServiceExtensions.cs:652-661 | appends exactly one type descriptor with the given service type, implementation type and lifetime, and returns the collection it was given |
| `ServiceCollectionServiceExtensions.AddWithFactory` | src/Microsoft.Extensions.DependencyInjection.Abstractions/ServiceCollectionServiceExtensions.cs:663-672 | appends exactly one factory descriptor with the given service type, factory and lifetime, and returns the collection it was given |
| `ServiceCollectionServiceExtensions.AddTransientType` | src/Microsoft.Extensions.DependencyInjection.Abstractions/ServiceCollectionServiceExtensions.cs:23-44 | success exactly when services, serviceType and implementationType are non-null; then one `Transient` descriptor (serviceType, implementationType) is appended after the unchanged earlier ones; a null argument fails with ArgumentNullException naming the first null one in the source's check order and leaves the collection unchanged; success returns the same collection |
| `ServiceCollectionServiceExtensions.AddTransientFactory` | src/Microsoft.Extensions.DependencyInjection.Abstractions/ServiceCollectionServiceExtensions.cs:56-77 | success exactly when services, serviceType and implementationFactory are non-null; then one `Transient` factory descriptor is appended after the unchanged earlier ones; a null argument fails with ArgumentNullException naming the first null one in the source's check order and leaves the collection unchanged; success returns the same collection |
| `ServiceCollectionServiceExtensions.AddTransientGeneric` | src/Microsoft.Extensions.DependencyInjection.Abstractions/ServiceCollectionServiceExtensions.cs:89-99 | success exactly when services is non-null; then one `Transient` descriptor (TService, TImplementation) is appended; a null argument fails with ArgumentNullException naming the first null one in the source's check order and leaves the collection unchanged; success returns the same collection |
| `ServiceCollectionServiceExtensions.AddTransientSelf` | src/Microsoft.Extensions.DependencyInjection.Abstractions/ServiceCollectionServiceExtensions.cs:109-124 | success exactly when services and serviceType are non-null; then one `Transient` descriptor with serviceType as its own implementation type is appended; a null argument fails with ArgumentNullException naming the first null one in the source's check order and leaves the collection unchanged; success returns the same collection |
| `ServiceCollectionServiceExtensions.AddTransientGenericSelf` | src/Microsoft.Extensions.DependencyInjection.Abstractions/ServiceCollectionServiceExtensions.cs:134-143 | success exactly when services is non-null; then one `Transient` descriptor (TService, TService) is appended; a null argument fails with ArgumentNullException naming the first null one in the source's check order and leaves the collection unchanged; success returns the same collection |
| `ServiceCollectionServiceExtensions.AddTransientGenericFactory` | src/Microsoft.Extensions.DependencyInjection.Abstractions/ServiceCollectionServiceExtensions.cs:155-171 | success exactly when services and the factory are non-null; then one `Transient` factory descriptor under TService is appended; a null argument fails with ArgumentNullException naming the first null one in the source's check order and leaves the collection unchanged; success returns the same collection |
| `ServiceCollectionServiceExtensions.AddTransientGenericImplementationFactory` | src/Microsoft.Extensions.DependencyInjection.Abstractions/ServiceCollectionServiceExtensions.cs:185-202 | success exactly when services and the factory are non-null; then one `Transient` factory descriptor registered under TService, not TImplementation, is appended; a null argument fails with ArgumentNullException naming the first null one in the source's check order and leaves the collection unchanged; success returns the same collection |
| `ServiceCollectionServiceExtensions.AddScopedType` | src/Microsoft.Extensions.DependencyInjection.Abstractions/ServiceCollectionServiceExtensions.cs:216-237 | success exactly when services, serviceType and implementationType are non-null; then one `Scoped` descriptor (serviceType, implementationType) is appended after the unchanged earlier ones; a null argument fails with ArgumentNullException naming the first null one in the source's check order and leaves the collection unchanged; success returns the same collection |
| `ServiceCollectionServiceExtensions.AddScopedFactory` | src/Microsoft.Extensions.DependencyInjection.Abstractions/ServiceCollectionServiceExtensions.cs:249-270 | success exactly when services, serviceType and implementationFactory are non-null; then one `Scoped` factory descriptor is appended after the unchanged earlier ones; a null argument fails with ArgumentNullException naming the first null one in the source's check order and leaves the collection unchanged; success returns the same collection |
| `ServiceCollectionServiceExtensions.AddScopedGeneric` | src/Microsoft.Extensions.DependencyInjection.Abstractions/ServiceCollectionServiceExtensions.cs:282-292 | success exactly when services is non-null; then one `Scoped` descriptor (TService, TImplementation) is appended; a null argument fails with ArgumentNullException naming the first null one in the source's check order and leaves the collection unchanged; success returns the same collection |
| `ServiceCollectionServiceExtensions.AddScopedSelf` | src/Microsoft.Extensions.DependencyInjection.Abstractions/ServiceCollectionServiceExtensions.cs:302-317 | success exactly when services and serviceType are non-null; then one `Scoped` descriptor with serviceType as its own implementation type is appended; a null argument fails with ArgumentNullException naming the first null one in the source's check order and leaves the collection unchanged; success returns the same collection |
| `ServiceCollectionServiceExtensions.AddScopedGenericSelf` | src/Microsoft.Extensions.DependencyInjection.Abstractions/ServiceCollectionServiceExtensions.cs:327-336 | success exactly when services is non-null; then one `Scoped` descriptor (TService, TService) is appended; a null argument fails with ArgumentNullException naming the first null one in the source's check order and leaves the collection unchanged; success returns the same collection |
| `ServiceCollectionServiceExtensions.AddScopedGenericFactory` | src/Microsoft.Extensions.DependencyInjection.Abstractions/ServiceCollectionServiceExtensions.cs:348-364 | success exactly when services and the factory are non-null; then one `Scoped` factory descriptor under TService is appended; a null argument fails with ArgumentNullException naming the first null one in the source's check order and leaves the collection unchanged; success returns the same collection |
| `ServiceCollectionServiceExtensions.AddScopedGenericImplementationFactory` | src/Microsoft.Extensions.DependencyInjection.Abstractions/ServiceCollectionServiceExtensions.cs:378-395 | success exactly when services and the factory are non-null; then one `Scoped` factory descriptor registered under TService, not TImplementation, is appended; a null argument fails with ArgumentNullException naming the first null one in the source's check order and leaves the collection unchanged; success returns the same collection |
| `ServiceCollectionServiceExtensions.AddSingletonType` | src/Microsoft.Extensions.DependencyInjection.Abstractions/ServiceCollectionServiceExtensions.cs:408-429 | success exactly when services, serviceType and implementationType are non-null; then one `Singleton` descriptor (serviceType, implementationType) is appended after the unchanged earlier ones; a null argument fails with ArgumentNullException naming the first null one in the source's check order and leaves the collection unchanged; success returns the same collection |
| `ServiceCollectionServiceExtensions.AddSingletonFactory` | src/Microsoft.Extensions.DependencyInjection.Abstractions/ServiceCollectionServiceExtensions.cs:441-462 | success exactly when services, serviceType and implementationFactory are non-null; then one `Singleton` factory descriptor is appended after the unchanged earlier ones; a null argument fails with ArgumentNullException naming the first null one in the source's check order and leaves the collection unchanged; success returns the same collection |
| `ServiceCollectionServiceExtensions.AddSingletonGeneric` | src/Microsoft.Extensions.DependencyInjection.Abstractions/ServiceCollectionServiceExtensions.cs:474-484 | success exactly when services is non-null; then one `Singleton` descriptor (TService, TImplementation) is appended; a null argument fails with ArgumentNullException naming the first null one in the source's check order and leaves the collection unchanged; success returns the same collection |
| `ServiceCollectionServiceExtensions.AddSingletonSelf` | src/Microsoft.Extensions.DependencyInjection.Abstractions/ServiceCollectionServiceExtensions.cs:494-509 | success exactly when services and serviceType are non-null; then one `Singleton` descriptor with serviceType as its own implementation type is appended; a null argument fails with ArgumentNullException naming the first null one in the source's check order and leaves the collection unchanged; success returns the same collection |
| `ServiceCollectionServiceExtensions.AddSingletonGenericSelf` | src/Microsoft.Extensions.DependencyInjection.Abstractions/ServiceCollectionServiceExtensions.cs:519-528 | success exactly when services is non-null; then one `Singleton` descriptor (TService, TService) is appended; a null argument fails with ArgumentNullException naming the first null one in the source's check order and leaves the collection unchanged; success returns the same collection |
| `ServiceCollectionServiceExtensions.AddSingletonGenericFactory` | src/Microsoft.Extensions.DependencyInjection.Abstractions/ServiceCollectionServiceExtensions.cs:540-556 | success exactly when services and the factory are non-null; then one `Singleton` factory descriptor under TService is appended; a null argument fails with ArgumentNullException naming the first null one in the source's check order and leaves the collection unchanged; success returns the same collection |
| `ServiceCollectionServiceExtensions.AddSingletonGenericImplementationFactory` | src/Microsoft.Extensions.DependencyInjection.Abstractions/ServiceCollectionServiceExtensions.cs:570-587 | success exactly when services and the factory are non-null; then one `Singleton` factory descriptor registered under TService, not TImplementation, is appended; a null argument fails with ArgumentNullException naming the first null one in the source's check order and leaves the collection unchanged; success returns the same collection |
| `ServiceCollectionServiceExtensions.AddSingletonInstance` | src/Microsoft.Extensions.DependencyInjection.Abstractions/ServiceCollectionServiceExtensions.cs:599-622 | success exactly when services, serviceType and implementationInstance are non-null; then one instance descriptor carrying that instance is appended after the unchanged earlier ones; a null argument fails with ArgumentNullException naming the first null one in the source's check order and leaves the collection unchanged; success returns the same collection |
| `ServiceCollectionServiceExtensions.AddSingletonGenericInstance` | src/Microsoft.Extensions.DependencyInjection.Abstractions/ServiceCollectionServiceExtensions.cs:634-650 | success exactly when services and implementationInstance are non-null; then one instance descriptor under TService is appended; a null argument fails with ArgumentNullException naming the first null one in the source's check order and leaves the collection unchanged; success returns the same collection |
| `ServiceCollectionServiceExtensions.DescriptorsFor` | src/Microsoft.Extensions.DependencyInjection.Abstractions/ServiceCollectionServiceExtensions.cs:658-659 | the registrations for one service type: no longer than the collection, only descriptors of that type, and every descriptor of that type |
| `ServiceCollectionServiceExtensions.DescriptorsForCounts` | src/Microsoft.Extensions.DependencyInjection.Abstractions/ServiceCollectionServiceExtensions.cs:658-659 | the registrations for one service type keep duplicates: each descriptor of that type occurs as often as in the collection, and no other descriptor occurs |
| `ServiceCollectionServiceExtensions.DescriptorsForAppend` | src/Microsoft.Extensions.DependencyInjection.Abstractions/ServiceCollectionServiceExtensions.cs:658-659 | an append adds the descriptor at the end of the registrations of its own service type and changes no other service type's registrations |
| `ServiceCollectionServiceExtensions.DuplicatesKept` | src/Microsoft.Extensions.DependencyInjection.Abstractions/ServiceCollectionServiceExtensions.cs:669-670 | no duplicate check: two descriptors for one service type are both kept, after the earlier ones, in insertion order |
| `ServiceCollectionServiceExtensions.RegisterTwice` | src/Microsoft.Extensions.DependencyInjection.Abstractions/ServiceCollectionServiceExtensions.cs:23-44 | two `AddTransient(services, serviceType, implementationType)` calls for one service type leave both descriptors for it, in call order |
| `ServiceProviderServiceExtensions.GetService` | src/Microsoft.Extensions.DependencyInjection.Abstractions/ServiceProviderServiceExtensions.cs:21-29 | fails with ArgumentNullException(provider) when the provider is null; otherwise it is the provider's own answer unchanged: a reference, null when nothing is found, or the exception the provider throws |
| `ServiceProviderServiceExtensions.GetRequiredService` | src/Microsoft.Extensions.DependencyInjection.Abstractions/ServiceProviderServiceExtensions.cs:38-63 | null provider, then null serviceType, fail with ArgumentNullException; an ISupportRequiredService provider's answer is passed on unchanged; for a plain provider an exception of GetService is passed on, a null answer becomes InvalidOperationException, a non-null one is returned, so success is never null |
| `ServiceProviderServiceExtensions.GetRequiredServiceGeneric` | src/Microsoft.Extensions.DependencyInjection.Abstractions/ServiceProviderServiceExtensions.cs:72-80 | agrees with the non-generic GetRequiredService for typeof(T) on every provider, null included |
| `ServiceProviderServiceExtensions.GetServicesGeneric` | src/Microsoft.Extensions.DependencyInjection.Abstractions/ServiceProviderServiceExtensions.cs:88-96 | equals the required lookup of IEnumerable<T> |
| `ServiceProviderServiceExtensions.GetServices` | src/Microsoft.Extensions.DependencyInjection.Abstractions/ServiceProviderServiceExtensions.cs:104-118 | null provider, then null serviceType, fail with ArgumentNullException; otherwise, with the `(IEnumerable<object>)` cast not represented, equals GetServices<T> for that type |
| `ServiceProviderServiceExtensions.CreateScope` | src/Microsoft.Extensions.DependencyInjection.Abstractions/ServiceProviderServiceExtensions.cs:125-128 | a failed required lookup of IServiceScopeFactory passes its exception on; a null factory fails with a null dereference; a non-null factory's own CreateScope result, scope, null or exception, is returned as it is |
| `ServiceProviderServiceExtensions.RequiredRefinesOptional` | src/Microsoft.Extensions.DependencyInjection.Abstractions/ServiceProviderServiceExtensions.cs:56-62 | on a plain provider the required lookup fails exactly when GetService throws or gives null, and on success equals GetService's non-null result |
| `ServiceProviderServiceExtensions.RequiredIgnoresGetService` | src/Microsoft.Extensions.DependencyInjection.Abstractions/ServiceProviderServiceExtensions.cs:50-54 | with ISupportRequiredService, GetService is not consulted: providers differing only in it give the same required answer |
| `ServiceProviderServiceExtensions.GetServicesFailsWithRequired` | src/Microsoft.Extensions.DependencyInjection.Abstractions/ServiceProviderServiceExtensions.cs:104-118 | GetServices fails exactly when the required lookup of the enumerable type fails, and, with the casts not represented, the generic and non-generic overloads agree |
| `ServiceProviderServiceExtensions.CreateScopeOnPlainProvider` | src/Microsoft.Extensions.DependencyInjection.Abstractions/ServiceProviderServiceExtensions.cs:125-128 | on a plain provider CreateScope passes on an exception of GetService, fails with InvalidOperationException for IServiceScopeFactory when no factory is found, and otherwise gives exactly the found factory's CreateScope result |

## Left out

- The resolution engine (`ServiceProvider`, scopes, lifetime stores, cycle detection, disposal) is not part of this model; `GetService` and `GetRequiredService` of a provider are abstract functions given with the provider, each of which may return a reference, return null or throw.
- `BuildServiceProvider` in `ServiceCollectionContainerBuilderExtensions.cs` only constructs a `ServiceProvider`, which is not part of this model.
- The lifetime the `ServiceDescriptor(Type, object)` constructor assigns, and any validation inside the `ServiceDescriptor` constructors, are not part of this model.
- The casts `(T)` and `(IEnumerable<object>)` in the lookups, and the `InvalidCastException` they could throw, are not modelled: references are untyped. So is the `NullReferenceException` of `(T)null` when `T` is a value type and the provider answers null: the model's null answer holds for reference types.
- `MakeGenericType` is modelled as the constructor `EnumerableOf(t)`; reflection is not modelled.
- The generic constraints `where TService : class` and `where TImplementation : class, TService` are compile-time checks and are not modelled.
- Factories are opaque tokens: none of these methods invokes one.
- Exception message texts (`Resources.FormatNoServiceRegistered`) are not modelled; exceptions are tags.
- Of `IList<ServiceDescriptor>`, only `Add` is modelled, the one operation the extension methods use.
- The `IServiceScopeFactory.CreateScope` call is a function parameter of `CreateScope` that may return a scope, return null or throw: the scope factory's code is not part of this model.
- ServiceCollection.Add models a list-backed collection whose `IList.Add` always appends; an `IServiceCollection` whose `Add` throws (a read-only list's `NotSupportedException`) is not modelled, so every overload's "succeeds exactly when its arguments are non-null" holds only for such a collection.
