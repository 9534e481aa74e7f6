/**
 * AppFactory::create: checks that defaults exist for the collaborators that
 * were not supplied, fills them in, and builds the Application with an
 * emitter stack holding one SapiEmitter. Containers, routers, emitters and
 * delegates are opaque tokens; `classes` is the set of installed classes.
 */
module AppFactory {
  import opened Wrappers
  import opened Exceptions

  const ServiceManagerClass := "Laminas\\ServiceManager\\ServiceManager"
  const FastRouteRouterClass := "Mezzio\\Router\\FastRouteRouter"

  /** A PSR-11 container: one the caller supplied, or the `new ServiceManager()` made here. */
  datatype Container = ContainerObject(handle: nat) | NewServiceManager

  /** A router: one the caller supplied, or the `new FastRouteRouter()` made here. */
  datatype Router = RouterObject(handle: nat) | NewFastRouteRouter

  datatype Delegate = Delegate(handle: nat)

  datatype Emitter = SapiEmitter

  /** Emitter\EmitterStack; the last element is the top of the stack. */
  class EmitterStack {
    var emitters: seq<Emitter>

    constructor ()
      ensures emitters == []
    {
      emitters := [];
    }

    method Push(e: Emitter)
      modifies this
      ensures emitters == old(emitters) + [e]
    {
      emitters := emitters + [e];
    }
  }

  /** `new Application($router, $container, $defaultDelegate, $emitter)`. */
  datatype Application = Application(router: Router, container: Container, defaultDelegate: Option<Delegate>, emitter: EmitterStack)

  datatype Collaborators = Collaborators(router: Router, container: Container)

  /** The guards and defaulting of `create`, without the emitter stack. */
  function Wire(container: Option<Container>, router: Option<Router>, classes: set<string>): (r: Result<Collaborators, Error>)
    ensures r.Failure? ==> r.error.MissingDependency? && r.error.subject in {ServiceManagerClass, FastRouteRouterClass}
    ensures r.Failure? && r.error.subject == ServiceManagerClass ==> container.None? && ServiceManagerClass !in classes
    ensures r.Failure? && r.error.subject == FastRouteRouterClass ==> router.None? && FastRouteRouterClass !in classes
    ensures r.Success? && container.Some? ==> r.value.container == container.value
    ensures r.Success? && router.Some? ==> r.value.router == router.value
  {
    if container.None? && ServiceManagerClass !in classes then
      Failure(MissingDependency(ServiceManagerClass))
    else if router.None? && FastRouteRouterClass !in classes then
      Failure(MissingDependency(FastRouteRouterClass))
    else
      Success(Collaborators(
        if router.Some? then router.value else NewFastRouteRouter,
        if container.Some? then container.value else NewServiceManager))
  }

  method Create(container: Option<Container>, router: Option<Router>, classes: set<string>) returns (r: Result<Application, Error>)
    ensures Wire(container, router, classes).Failure? ==> r == Failure(Wire(container, router, classes).error)
    ensures Wire(container, router, classes).Success? ==>
      && r.Success?
      && r.value.router == Wire(container, router, classes).value.router
      && r.value.container == Wire(container, router, classes).value.container
      && r.value.defaultDelegate == None
      && fresh(r.value.emitter)
      && r.value.emitter.emitters == [SapiEmitter]
  {
    var wired := Wire(container, router, classes);
    if wired.Failure? {
      return Failure(wired.error);
    }
    var emitter := new EmitterStack();
    emitter.Push(SapiEmitter);
    r := Success(Application(wired.value.router, wired.value.container, None, emitter));
  }

  /** Without a container and without ServiceManager, `create` raises, whatever the router. */
  lemma MissingContainerFailsFirst(router: Option<Router>, classes: set<string>)
    requires ServiceManagerClass !in classes
    ensures Wire(None, router, classes) == Failure(MissingDependency(ServiceManagerClass))
  {
  }

  /** Without a router and without FastRouteRouter, `create` raises once the container check passes. */
  lemma MissingRouterFails(container: Option<Container>, classes: set<string>)
    requires container.Some? || ServiceManagerClass in classes
    requires FastRouteRouterClass !in classes
    ensures Wire(container, None, classes) == Failure(MissingDependency(FastRouteRouterClass))
  {
  }

  /** The two guards are the only ways `create` fails. */
  lemma FailsOnlyOnGuards(container: Option<Container>, router: Option<Router>, classes: set<string>)
    ensures Wire(container, router, classes).Failure?
        <==> (container.None? && ServiceManagerClass !in classes) || (router.None? && FastRouteRouterClass !in classes)
  {
  }

  /** Supplying both a container and a router never fails, whatever is installed. */
  lemma BothSuppliedNeverFails(container: Container, router: Router, classes: set<string>)
    ensures Wire(Some(container), Some(router), classes) == Success(Collaborators(router, container))
  {
  }

  /** A supplied collaborator is used as-is; a missing one is replaced by the default. */
  lemma DefaultsOnlyWhenMissing(container: Option<Container>, router: Option<Router>, classes: set<string>)
    requires Wire(container, router, classes).Success?
    ensures Wire(container, router, classes).value.container == (if container.Some? then container.value else NewServiceManager)
    ensures Wire(container, router, classes).value.router == (if router.Some? then router.value else NewFastRouteRouter)
  {
  }
}
