/**
 * The two PSR-15 capabilities an object may have, and the objects the
 * middleware container deals in.
 */
module Psr15 {

  /** What `instanceof MiddlewareInterface` / `instanceof RequestHandlerInterface` say of an object. */
  datatype Cap = MiddlewareOnly | HandlerOnly | Both | Neither

  predicate IsMiddleware(c: Cap) {
    c == MiddlewareOnly || c == Both
  }

  predicate IsHandler(c: Cap) {
    c == HandlerOnly || c == Both
  }

  /** The classes that exist (class_exists) and what an instance of each implements. */
  type ClassTable = map<string, Cap>

  /**
   * An object. Equality of values is structural; for `Object` the handle
   * stands for the object's identity, so an `Object` value compares as PHP's
   * `===` would, and a decorator compares by the handler it wraps.
   */
  datatype Value =
    | Object(handle: nat, cap: Cap)            // an object built elsewhere (a mock, a stdClass, a test case)
    | Instance(cls: string, cap: Cap)          // the object `new cls()` of an existing class
    | RequestHandlerMiddleware(handler: Value) // Stratigility's decorator around a request handler

  /** The capabilities of an object; the decorator implements both interfaces. */
  function CapOf(v: Value): Cap {
    match v
    case RequestHandlerMiddleware(_) => Both
    case Object(_, c) => c
    case Instance(_, c) => c
  }
}
