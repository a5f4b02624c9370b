/**
 * The values the registration and lookup extension methods work with: type tokens, opaque factories and
 * objects, service lifetimes, service descriptors, and the exceptions the extension methods throw.
 */
module ServiceModel {
  import opened Wrappers

  /**
   * A runtime type token (`System.Type`). Types are opaque identifiers; the two constructed types the
   * extension methods mention are spelled out: `IEnumerable<T>` and `IServiceScopeFactory`.
   */
  datatype TypeId =
    | Named(id: nat)
    | EnumerableOf(element: TypeId)
    | ServiceScopeFactory

  /** An implementation factory (`Func<IServiceProvider, object>`); it is stored, never invoked, here. */
  datatype FactoryId = Factory(id: nat)

  /** A non-null object reference. A reference that may be null is an `Option<ObjId>`. */
  datatype ObjId = Obj(id: nat)

  /** `ServiceLifetime`, in the order of its declaration. */
  datatype ServiceLifetime = Singleton | Scoped | Transient

  /**
   * A `ServiceDescriptor`, one per constructor the registration helpers call: by implementation type, by
   * implementation factory (both with an explicit lifetime), and by implementation instance. The instance
   * constructor chooses the lifetime itself, in code that is not part of this model, so that variant does not
   * record one.
   */
  datatype ServiceDescriptor =
    | OfType(serviceType: TypeId, implementationType: TypeId, lifetime: ServiceLifetime)
    | OfFactory(serviceType: TypeId, implementationFactory: FactoryId, lifetime: ServiceLifetime)
    | OfInstance(serviceType: TypeId, implementationInstance: ObjId)

  /** The parameter names (`nameof(...)`) an `ArgumentNullException` can carry. */
  datatype ParamName =
    | Services
    | ServiceType
    | ImplementationType
    | ImplementationFactory
    | ImplementationInstance
    | Provider

  /** The exceptions the extension methods raise, as tags; message texts are not modelled. */
  datatype Error =
    | ArgumentNull(paramName: ParamName)
    | NoServiceRegistered(serviceType: TypeId)
    | NullReference
    | Raised(id: nat)

  /**
   * The guard clauses at the head of an extension method, in the order the method runs them: each
   * `Check(name, present, next)` stands for `if (name == null) throw new ArgumentNullException(nameof(name));`
   * followed by the checks `next`.
   */
  datatype Checks = Passed | Check(name: ParamName, present: bool, next: Checks)

  /** Whether every argument the checks test is non-null. */
  predicate AllPresent(checks: Checks)
  {
    match checks
    case Passed => true
    case Check(_, present, next) => present && AllPresent(next)
  }

  /** Whether `checks` test an argument called `name` that is null. */
  predicate Tests(checks: Checks, name: ParamName)
  {
    match checks
    case Passed => false
    case Check(n, present, next) => (n == name && !present) || Tests(next, name)
  }

  /**
   * The parameter named by the first guard clause that fires, or `None` when every argument is non-null and
   * the method goes on to its work.
   */
  function FirstNull(checks: Checks): (r: Option<ParamName>)
    ensures r.None? <==> AllPresent(checks)
    ensures r.Some? ==> Tests(checks, r.value)
    ensures checks.Check? && !checks.present ==> r == Some(checks.name)
    ensures checks.Check? && checks.present ==> r == FirstNull(checks.next)
  {
    match checks
    case Passed => None
    case Check(name, present, next) => if !present then Some(name) else FirstNull(next)
  }
}
