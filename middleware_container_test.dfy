/**
 * MiddlewareContainerTest: each test method as a method that performs setUp
 * (a fresh in-memory origin behind a fresh MiddlewareContainer), the test's
 * `set` calls, and the call under test; its postcondition is the test's
 * assertion. Freshly created objects (`new stdClass()`, `$this`, mocks) are
 * passed in as handles, and `classes` is the runtime's set of classes.
 */
module MiddlewareContainerTest {
  import opened Wrappers
  import opened Exceptions
  import opened Psr15
  import opened InMemory
  import opened MiddlewareResolution

  const TestCaseClass := "MezzioTest\\MiddlewareContainerTest"
  const DispatchMiddlewareClass := "Mezzio\\Router\\Middleware\\DispatchMiddleware"

  method SetUp() returns (origin: InMemoryContainer, container: MiddlewareContainer)
    ensures fresh(origin) && origin.services == map[]
    ensures container.origin == origin
  {
    origin := new InMemoryContainer();
    container := new MiddlewareContainer(origin);
  }

  /** setUp followed by `set(calls[0])`, ..., `set(calls[|calls| - 1])` on the origin, in that order. */
  method SetUpAndSet(calls: seq<(string, Value)>) returns (origin: InMemoryContainer, container: MiddlewareContainer)
    ensures fresh(origin) && origin.services == Registered(calls)
    ensures container.origin == origin
  {
    origin, container := SetUp();
    var k := 0;
    while k < |calls|
      invariant 0 <= k <= |calls|
      invariant origin.services == Registered(calls[..k])
    {
      assert calls[..k + 1][..k] == calls[..k];
      origin.Set(calls[k].0, calls[k].1);
      k := k + 1;
    }
    assert calls[..|calls|] == calls;
  }

  method TestHasReturnsTrueIfOriginContainerHasService(classes: ClassTable, stdClass: nat) returns (has: bool)
    ensures has
  {
    var origin, container := SetUp();
    origin.Set("foo", Object(stdClass, Neither));
    has := container.Has(classes, "foo");
  }

  method TestHasReturnsTrueIfOriginContainerDoesNotHaveServiceButClassExists(classes: ClassTable) returns (has: bool)
    requires TestCaseClass in classes
    ensures has
  {
    var origin, container := SetUp();
    has := container.Has(classes, TestCaseClass);
  }

  method TestHasReturnsFalseIfOriginContainerDoesNotHaveServiceAndClassDoesNotExist(classes: ClassTable) returns (has: bool)
    requires "not-a-class" !in classes
    ensures !has
  {
    var origin, container := SetUp();
    has := container.Has(classes, "not-a-class");
  }

  method TestGetRaisesExceptionIfServiceIsUnknown(classes: ClassTable) returns (r: Result<Value, Error>)
    requires "not-a-service" !in classes
    ensures r.Failure? && r.error.MissingDependency?
  {
    var origin, container := SetUp();
    r := container.Get(classes, "not-a-service");
  }

  /** The origin entry is checked even though a class of that name exists. */
  method TestGetRaisesExceptionIfServiceSpecifiedDoesNotImplementMiddlewareInterface(classes: ClassTable, testCase: nat)
    returns (r: Result<Value, Error>)
    ensures r.Failure? && r.error.InvalidMiddleware?
  {
    var origin, container := SetUp();
    origin.Set(TestCaseClass, Object(testCase, Neither));
    r := container.Get(classes, TestCaseClass);
  }

  /** The fallback instance is checked too. */
  method TestGetRaisesExceptionIfClassSpecifiedDoesNotImplementMiddlewareInterface(classes: ClassTable)
    returns (r: Result<Value, Error>)
    requires TestCaseClass in classes && classes[TestCaseClass] == Neither
    ensures r.Failure? && r.error.InvalidMiddleware?
  {
    var origin, container := SetUp();
    r := container.Get(classes, TestCaseClass);
  }

  method TestGetReturnsServiceFromOriginContainer(classes: ClassTable, mock: nat) returns (r: Result<Value, Error>)
    ensures r == Success(Object(mock, MiddlewareOnly))
  {
    var origin, container := SetUp();
    var middleware := Object(mock, MiddlewareOnly);
    origin.Set("middleware-service", middleware);
    r := container.Get(classes, "middleware-service");
  }

  method TestGetReturnsInstantiatedClass(classes: ClassTable) returns (r: Result<Value, Error>)
    requires DispatchMiddlewareClass in classes && IsMiddleware(classes[DispatchMiddlewareClass])
    ensures r.Success? && r.value.Instance? && r.value.cls == DispatchMiddlewareClass
  {
    var origin, container := SetUp();
    r := container.Get(classes, DispatchMiddlewareClass);
  }

  method TestGetWillDecorateARequestHandlerAsMiddleware(classes: ClassTable, mock: nat) returns (r: Result<Value, Error>)
    ensures r == Success(RequestHandlerMiddleware(Object(mock, HandlerOnly)))
  {
    var origin, container := SetUp();
    var handler := Object(mock, HandlerOnly);
    origin.Set("AHandlerNotMiddleware", handler);
    r := container.Get(classes, "AHandlerNotMiddleware");
  }

  /** Regression: an object that is both middleware and a handler is not wrapped. */
  method TestGetDoesNotCastMiddlewareImplementingRequestHandlerToRequestHandlerMiddleware(classes: ClassTable, mock: nat)
    returns (r: Result<Value, Error>)
    ensures r == Success(Object(mock, Both))
  {
    var origin, container := SetUp();
    var pipeline := Object(mock, Both);
    origin.Set("pipeline", pipeline);
    r := container.Get(classes, "pipeline");
  }

  /**
   * After setUp and any sequence of `set` calls, `has(id)` holds exactly when
   * some call registered `id` or a class named `id` exists.
   */
  lemma {:induction false} HasAfterSets(calls: seq<(string, Value)>, classes: ClassTable, id: string)
    ensures Known(Registered(calls), classes, id)
        <==> (exists i :: 0 <= i < |calls| && calls[i].0 == id) || id in classes
  {
    RegisteredKeys(calls, id);
  }

  /**
   * After setUp and any sequence of `set` calls, `get(id)` is decided by the
   * last call for `id` alone: the class table does not matter.
   */
  lemma {:induction false} GetAfterSets(calls: seq<(string, Value)>, classes: ClassTable, i: nat)
    requires i < |calls|
    requires forall j :: i < j < |calls| ==> calls[j].0 != calls[i].0
    ensures Resolve(Registered(calls), classes, calls[i].0) == Classify(calls[i].0, calls[i].1)
  {
    RegisteredLastWins(calls, i);
  }
}
