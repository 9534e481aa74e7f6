# Mezzio middleware resolution and application factory

A model of two decision procedures of the Mezzio PHP middleware framework.

- **`Mezzio\MiddlewareContainer`** is a read-only adapter over a PSR-11 container (the *origin*).
  - `has(id)` reports whether the origin holds `id` or a class named `id` exists. It never looks at capabilities.
  - `get(id)` takes the origin's entry, or else a fresh instance of the class named `id`. It checks that object against the two PSR-15 interfaces:
    - middleware, including an object that is also a request handler, is returned unchanged;
    - a request handler that is not middleware is wrapped in `RequestHandlerMiddleware`;
    - an object with neither capability raises `InvalidMiddlewareException`;
    - an unknown identifier raises `MissingDependencyException`.
- **`AppFactory::create`** runs two guards, in order. Each raises `MissingDependencyException`:
  - no container was given and `ServiceManager` is not installed;
  - no router was given and `FastRouteRouter` is not installed.

  It then fills in the missing collaborators and builds `Application(router, container, null, emitterStack)`. The emitter stack is new and holds exactly one `SapiEmitter`.

The resolver's own source file is not part of this model. Its behaviour is taken from what `test/MiddlewareContainerTest.php` asserts. The test suite's `InMemoryContainer` is modelled as a class with a `map` field and a `Set` method. Each PHPUnit test method is modelled as a method that:
1. performs `setUp`;
2. makes the test's `set` calls;
3. returns what the test asserts on, with the assertion as its postcondition.

Layout:
- `wrappers.dfy`: `Option`, `Result`.
- `exceptions.dfy`: the two exception kinds.
- `psr15.dfy`: capabilities and objects.
- `in_memory_container.dfy`: the origin container and the contents a sequence of `set` calls leaves.
- `middleware_container.dfy`: `has`/`get` and their properties.
- `middleware_container_test.dfy`: the test methods.
- `app_factory.dfy`: `create`.

PHP reflection becomes parameters:
- `class_exists` plus the capabilities of `new $id()` become a class table (`map<string, Cap>`) passed to `has` and `get`.
- For the factory, `class_exists` becomes a `set<string>` of installed classes.
- Objects built outside the model (mocks, `new stdClass()`, `$this`) are handles passed in as parameters.

## Model

| member | source | states |
|---|---|---|
| `InMemory.InMemoryContainer.constructor` | test/MiddlewareContainerTest.php:32 | a new origin container holds no services |
| `InMemory.InMemoryContainer.Set` | test/MiddlewareContainerTest.php:38 | `set(id, service)` registers `service` under `id` and changes no other entry |
| `InMemory.RegisteredKeys` | test/MiddlewareContainerTest.php:30-38 | in the origin's contents after setUp and a sequence of `set` calls (`Registered`, which `SetUpAndSet` produces), an identifier is present exactly when some call registered it |
| `InMemory.RegisteredLastWins` | test/MiddlewareContainerTest.php:30-38 | in those contents, an identifier maps to the service of the last call for it |
| `MiddlewareResolution.MiddlewareContainer.constructor` | test/MiddlewareContainerTest.php:33 | the container adapts exactly the origin it was given |
| `MiddlewareResolution.Known` | test/MiddlewareContainerTest.php:36-51 | `has(id)` holds iff `id` is a key of the origin or the name of an existing class; capabilities are not consulted |
| `MiddlewareResolution.MiddlewareContainer.Has` | test/MiddlewareContainerTest.php:36-51 | the adapter's `has` is `Known` over its origin's current services |
| `MiddlewareResolution.MiddlewareContainer.Get` | test/MiddlewareContainerTest.php:53-109 | the adapter's `get` is `Resolve` over its origin's current services; it raises MissingDependency iff `has` is false, and returns only middleware |
| `MiddlewareResolution.Candidate` | test/MiddlewareContainerTest.php:43-71 | `get` finds no object to inspect exactly when `has` is false; the origin is consulted before the class table |
| `MiddlewareResolution.Classify` | test/MiddlewareContainerTest.php:59-109 | an object is accepted iff it is middleware or a handler; what is accepted is middleware; middleware comes back identical; the result differs from the object exactly when it is a handler-only object, and is then the decorator around it; a rejection is InvalidMiddleware naming the identifier |
| `MiddlewareResolution.Resolve` | test/MiddlewareContainerTest.php:48-109 | `get` raises MissingDependency iff `has` is false; every successful result is middleware; an origin entry is classified before any class of that name; otherwise a fresh instance of the named class is classified |
| `MiddlewareResolution.HasIgnoresCapabilities` | test/MiddlewareContainerTest.php:36-41 | `has` is true for any registered entry, even one with neither capability, which `get` then rejects |
| `MiddlewareResolution.HasFallsBackToClasses` | test/MiddlewareContainerTest.php:43-46 | `has` is true for an unregistered identifier that names an existing class |
| `MiddlewareResolution.UnknownIdentifier` | test/MiddlewareContainerTest.php:48-57 | for an identifier that is neither registered nor a class, `has` is false and `get` raises MissingDependency |
| `MiddlewareResolution.NeitherIsInvalid` | test/MiddlewareContainerTest.php:59-71 | a candidate with neither capability raises InvalidMiddleware, on the origin path and on the class-instantiation path |
| `MiddlewareResolution.RegisteredMiddlewareReturnedAsIs` | test/MiddlewareContainerTest.php:73-80 | a registered middleware object is returned identical |
| `MiddlewareResolution.MiddlewareClassInstantiated` | test/MiddlewareContainerTest.php:82-86 | an unregistered class whose instances are middleware resolves to a fresh instance of that class |
| `MiddlewareResolution.HandlerDecorated` | test/MiddlewareContainerTest.php:88-97 | a registered handler-only object resolves to a value equal to `RequestHandlerMiddleware(handler)` and not to the raw handler |
| `MiddlewareResolution.ResolvedIsStable` | test/MiddlewareContainerTest.php:99-109 | whatever `get` returns resolves to itself when registered again, so no result is wrapped twice |
| `MiddlewareContainerTest.SetUp` | test/MiddlewareContainerTest.php:30-34 | setUp yields a fresh, empty origin and a container over it |
| `MiddlewareContainerTest.SetUpAndSet` | test/MiddlewareContainerTest.php:30-38 | setUp followed by any sequence of `set` calls on the origin leaves it holding exactly `Registered(calls)` |
| `MiddlewareContainerTest.TestHasReturnsTrueIfOriginContainerHasService` | test/MiddlewareContainerTest.php:36-41 | after registering a plain `stdClass` as `foo`, `has('foo')` is true |
| `MiddlewareContainerTest.TestHasReturnsTrueIfOriginContainerDoesNotHaveServiceButClassExists` | test/MiddlewareContainerTest.php:43-46 | `has` of the test case's own class name is true with an empty origin |
| `MiddlewareContainerTest.TestHasReturnsFalseIfOriginContainerDoesNotHaveServiceAndClassDoesNotExist` | test/MiddlewareContainerTest.php:48-51 | `has('not-a-class')` is false |
| `MiddlewareContainerTest.TestGetRaisesExceptionIfServiceIsUnknown` | test/MiddlewareContainerTest.php:53-57 | `get('not-a-service')` raises MissingDependency |
| `MiddlewareContainerTest.TestGetRaisesExceptionIfServiceSpecifiedDoesNotImplementMiddlewareInterface` | test/MiddlewareContainerTest.php:59-65 | `get` of a registered test case object raises InvalidMiddleware, whatever classes exist |
| `MiddlewareContainerTest.TestGetRaisesExceptionIfClassSpecifiedDoesNotImplementMiddlewareInterface` | test/MiddlewareContainerTest.php:67-71 | `get` of the test case's class name, instantiated by fallback, raises InvalidMiddleware |
| `MiddlewareContainerTest.TestGetReturnsServiceFromOriginContainer` | test/MiddlewareContainerTest.php:73-80 | `get('middleware-service')` returns the very middleware mock registered |
| `MiddlewareContainerTest.TestGetReturnsInstantiatedClass` | test/MiddlewareContainerTest.php:82-86 | `get(DispatchMiddleware::class)` returns an instance of DispatchMiddleware |
| `MiddlewareContainerTest.TestGetWillDecorateARequestHandlerAsMiddleware` | test/MiddlewareContainerTest.php:88-97 | `get('AHandlerNotMiddleware')` equals `RequestHandlerMiddleware` around the registered handler mock |
| `MiddlewareContainerTest.TestGetDoesNotCastMiddlewareImplementingRequestHandlerToRequestHandlerMiddleware` | test/MiddlewareContainerTest.php:99-109 | `get('pipeline')` returns the registered middleware-and-handler mock itself, undecorated |
| `MiddlewareContainerTest.HasAfterSets` | test/MiddlewareContainerTest.php:30-51 | after setUp and any sequence of `set` calls, `has(id)` holds exactly when some call registered `id` or a class named `id` exists |
| `MiddlewareContainerTest.GetAfterSets` | test/MiddlewareContainerTest.php:59-109 | after setUp and any sequence of `set` calls, `get(id)` is the classification of the last service registered under `id`, whatever classes exist |
| `AppFactory.EmitterStack.constructor` | src/AppFactory.php:71 | a new emitter stack is empty |
| `AppFactory.EmitterStack.Push` | src/AppFactory.php:72 | `push` puts the emitter on top and keeps the rest |
| `AppFactory.Wire` | src/AppFactory.php:53-70 | the guards and defaulting: every failure is MissingDependency naming ServiceManager or FastRouteRouter, and only when that collaborator was not supplied and its class is not installed; on success a supplied container or router is kept |
| `AppFactory.Create` | src/AppFactory.php:49-75 | `create` is built from `Wire`: it raises exactly `Wire`'s error; otherwise it returns `Application(router, container, null, emitter)` in that order, with the defaulted router and container and a freshly created emitter stack holding exactly one SapiEmitter |
| `AppFactory.MissingContainerFailsFirst` | src/AppFactory.php:53-59 | with no container and no ServiceManager, `create` raises MissingDependency naming ServiceManager, whatever the router, so the container check runs first |
| `AppFactory.MissingRouterFails` | src/AppFactory.php:61-67 | once the container check passes, with no router and no FastRouteRouter, `create` raises MissingDependency naming FastRouteRouter |
| `AppFactory.FailsOnlyOnGuards` | src/AppFactory.php:44-67 | `create` fails iff one of the two guard conditions holds |
| `AppFactory.BothSuppliedNeverFails` | src/AppFactory.php:53-70 | with a container and a router supplied, `create` succeeds with exactly those, whatever classes are installed |
| `AppFactory.DefaultsOnlyWhenMissing` | src/AppFactory.php:69-70 | a supplied container or router is used as-is; a missing one becomes a new ServiceManager or FastRouteRouter |

## Left out

- The resolver's own source file is not part of this model. Its behaviour is modelled from the test's assertions only. There is no caching, no wrapping of exceptions raised by the origin container, and no error-message text beyond the identifier or class the message names.
- A class that exists but cannot be constructed with no arguments is not modelled. The class table says only which classes exist and what their instances implement.
- Object identity of fresh instances: `Instance(cls, cap)` stands for `new cls()`. Two resolutions of the same class name therefore give equal values, where PHP gives distinct objects.
- The capability of `RequestHandlerMiddleware` is taken to be both interfaces, as in Stratigility. Its class is not part of this model, and the resolver looks only at its Middleware capability.
- Request and response handling is not modelled: `RequestHandlerMiddleware::process`, the pipeline, and emitting a response to the SAPI. Decoration is only a wrapper value.
- `ServiceManager`, `FastRouteRouter`, `SapiEmitter` and `Application` are opaque tokens. So are the containers and routers the caller supplies. Iterating `EmitterStack` is not modelled.
- PHPUnit mock generation is not modelled. A mock is an object handle with the capabilities of the interface it mocks.
- PHP's `! $container` and `?:` on an object argument are modelled as "not supplied" (`None`). An object is always truthy.
