/**
 * The test suite's in-memory PSR-11 container: a mutable registry of
 * services. Its `has` is key membership and its `get` is lookup.
 */
module InMemory {
  import opened Psr15

  class InMemoryContainer {
    var services: map<string, Value>

    constructor ()
      ensures services == map[]
    {
      services := map[];
    }

    /** Registers `service` under `id`, replacing any earlier entry. */
    method Set(id: string, service: Value)
      modifies this
      ensures services == old(services)[id := service]
    {
      services := services[id := service];
    }
  }

  /**
   * The services of a fresh container after `Set(calls[0])`, ..., `Set(calls[|calls| - 1])`,
   * in that order.
   */
  ghost function Registered(calls: seq<(string, Value)>): map<string, Value>
    decreases |calls|
  {
    if calls == [] then map[]
    else
      var last := calls[|calls| - 1];
      Registered(calls[..|calls| - 1])[last.0 := last.1]
  }

  /** An identifier is registered exactly when some call registered it. */
  lemma {:induction false} RegisteredKeys(calls: seq<(string, Value)>, id: string)
    ensures id in Registered(calls) <==> exists i :: 0 <= i < |calls| && calls[i].0 == id
    decreases |calls|
  {
    if calls != [] {
      var init := calls[..|calls| - 1];
      RegisteredKeys(init, id);
      if id in Registered(init) {
        var i :| 0 <= i < |init| && init[i].0 == id;
        assert calls[i] == init[i];
      }
      if exists i :: 0 <= i < |calls| && calls[i].0 == id {
        var i :| 0 <= i < |calls| && calls[i].0 == id;
        if i < |init| {
          assert init[i] == calls[i];
        }
      }
    }
  }

  /** The last call for an identifier decides what it maps to. */
  lemma {:induction false} RegisteredLastWins(calls: seq<(string, Value)>, i: nat)
    requires i < |calls|
    requires forall j :: i < j < |calls| ==> calls[j].0 != calls[i].0
    ensures calls[i].0 in Registered(calls) && Registered(calls)[calls[i].0] == calls[i].1
    decreases |calls|
  {
    if i < |calls| - 1 {
      var init := calls[..|calls| - 1];
      assert init[i] == calls[i];
      forall j | i < j < |init| ensures init[j].0 != init[i].0 {
        assert init[j] == calls[j];
      }
      RegisteredLastWins(init, i);
    }
  }
}
