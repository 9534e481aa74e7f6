/**
 * Mezzio's MiddlewareContainer: a read-only adapter over a PSR-11 container
 * that turns an identifier into a PSR-15 middleware. It consults the origin
 * container first, falls back to instantiating a class of that name with no
 * arguments, and decorates a request handler that is not middleware.
 */
module MiddlewareResolution {
  import opened Wrappers
  import opened Exceptions
  import opened Psr15
  import opened InMemory

  /** `has`: the origin holds `id`, or a class named `id` exists. Capabilities play no part. */
  function Known(services: map<string, Value>, classes: ClassTable, id: string): (b: bool)
    ensures b <==> id in services.Keys + classes.Keys
  {
    id in services || id in classes
  }

  /** The object `get` inspects: the origin's entry, else a fresh instance of the named class. */
  function Candidate(services: map<string, Value>, classes: ClassTable, id: string): (c: Option<Value>)
    ensures c.None? <==> !Known(services, classes, id)
    ensures id in services ==> c == Some(services[id])
    ensures id !in services && id in classes ==> c == Some(Instance(id, classes[id]))
  {
    if id in services then Some(services[id])
    else if id in classes then Some(Instance(id, classes[id]))
    else None
  }

  /**
   * The capability check applied to a candidate: middleware passes through
   * unchanged, a handler that is not middleware is decorated, anything else
   * is rejected.
   */
  function Classify(id: string, candidate: Value): (r: Result<Value, Error>)
    ensures r.Success? <==> IsMiddleware(CapOf(candidate)) || IsHandler(CapOf(candidate))
    ensures r.Success? ==> IsMiddleware(CapOf(r.value))
    ensures IsMiddleware(CapOf(candidate)) ==> r == Success(candidate)
    ensures r.Success? && r.value != candidate ==> r.value == RequestHandlerMiddleware(candidate)
    ensures r.Success? && r.value != candidate <==> CapOf(candidate) == HandlerOnly
    ensures r.Failure? ==> r.error == InvalidMiddleware(id)
  {
    match CapOf(candidate)
    case MiddlewareOnly => Success(candidate)
    case Both => Success(candidate)
    case HandlerOnly => Success(RequestHandlerMiddleware(candidate))
    case Neither => Failure(InvalidMiddleware(id))
  }

  /** `get`: resolves `id` to middleware or raises. */
  function Resolve(services: map<string, Value>, classes: ClassTable, id: string): (r: Result<Value, Error>)
    ensures r == Failure(MissingDependency(id)) <==> !Known(services, classes, id)
    ensures r.Success? ==> IsMiddleware(CapOf(r.value))
    ensures id in services ==> r == Classify(id, services[id])
    ensures id !in services && id in classes ==> r == Classify(id, Instance(id, classes[id]))
  {
    match Candidate(services, classes, id)
    case None => Failure(MissingDependency(id))
    case Some(c) => Classify(id, c)
  }

  class MiddlewareContainer {
    const origin: InMemoryContainer

    constructor (origin: InMemoryContainer)
      ensures this.origin == origin
    {
      this.origin := origin;
    }

    /** The classes that exist are a parameter: they are the PHP runtime's, not this object's. */
    function Has(classes: ClassTable, id: string): (b: bool)
      reads origin
      ensures b == Known(origin.services, classes, id)
    {
      Known(origin.services, classes, id)
    }

    function Get(classes: ClassTable, id: string): (r: Result<Value, Error>)
      reads origin
      ensures r == Resolve(origin.services, classes, id)
      ensures r == Failure(MissingDependency(id)) <==> !Has(classes, id)
      ensures r.Success? ==> IsMiddleware(CapOf(r.value))
    {
      Resolve(origin.services, classes, id)
    }
  }

  /** `has` is true for any registered entry, even one `get` rejects. */
  lemma HasIgnoresCapabilities(services: map<string, Value>, classes: ClassTable, id: string, v: Value)
    ensures Known(services[id := v], classes, id)
    ensures CapOf(v) == Neither ==> Resolve(services[id := v], classes, id) == Failure(InvalidMiddleware(id))
  {
  }

  /** `has` falls back to class existence. */
  lemma HasFallsBackToClasses(services: map<string, Value>, classes: ClassTable, id: string)
    requires id !in services && id in classes
    ensures Known(services, classes, id)
  {
  }

  /** An identifier that is neither registered nor a class is unknown to both `has` and `get`. */
  lemma UnknownIdentifier(services: map<string, Value>, classes: ClassTable, id: string)
    requires id !in services && id !in classes
    ensures !Known(services, classes, id)
    ensures Resolve(services, classes, id) == Failure(MissingDependency(id))
  {
  }

  /** A candidate with neither capability is rejected, on the origin path and on the fallback path. */
  lemma NeitherIsInvalid(services: map<string, Value>, classes: ClassTable, id: string)
    requires id in services ==> CapOf(services[id]) == Neither
    requires id !in services ==> id in classes && classes[id] == Neither
    ensures Resolve(services, classes, id) == Failure(InvalidMiddleware(id))
  {
  }

  /** Middleware from the origin comes back identical, whether or not it is also a handler. */
  lemma RegisteredMiddlewareReturnedAsIs(services: map<string, Value>, classes: ClassTable, id: string)
    requires id in services && IsMiddleware(CapOf(services[id]))
    ensures Resolve(services, classes, id) == Success(services[id])
  {
  }

  /** A class whose instances are middleware, not registered in the origin, is instantiated. */
  lemma MiddlewareClassInstantiated(services: map<string, Value>, classes: ClassTable, id: string)
    requires id !in services && id in classes && IsMiddleware(classes[id])
    ensures Resolve(services, classes, id) == Success(Instance(id, classes[id]))
  {
  }

  /** A handler that is not middleware is decorated: equal to the decorator around it, never the raw handler. */
  lemma HandlerDecorated(services: map<string, Value>, classes: ClassTable, id: string)
    requires id in services && CapOf(services[id]) == HandlerOnly
    ensures Resolve(services, classes, id) == Success(RequestHandlerMiddleware(services[id]))
    ensures Resolve(services, classes, id) != Success(services[id])
  {
  }

  /**
   * No double wrap: whatever `get` returned resolves to itself when it is
   * registered again, under any identifier.
   */
  lemma ResolvedIsStable(services: map<string, Value>, classes: ClassTable, id: string, id': string)
    requires Resolve(services, classes, id).Success?
    ensures Resolve(services[id' := Resolve(services, classes, id).value], classes, id')
         == Resolve(services, classes, id)
  {
  }
}
