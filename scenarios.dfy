/** Client runs of the registry that exercise the documented behaviour end to
    end, proved from the registry's contracts and the pass lemmas. */
module Scenarios {
  import opened Integration
  import opened Registry
  import Factory

  /** The only enumeration of a single id is that id alone. */
  lemma SingletonEnumeration(order: seq<IntegrationId>, id: IntegrationId)
    requires Enumerates(order, {id})
    ensures order == [id]
  {
    EnumerationLength(order, {id});
    assert order[0] in order;
  }

  /** Loading a `dummy` integration as "d1", running both passes and pushing a
      device state to it succeeds at every step when its handler accepts every
      call, and the handler receives `register`, `start` and the state push
      exactly once each, in that order. */
  method DummyEndToEnd(sender: EventSender, config: Config, attributes: string,
                       construct: Constructor, backend: Backend)
    returns (loaded: Outcome, registered: Outcome, started: Outcome, applied: Outcome,
             ghost log: seq<Invocation>)
    requires construct(Dummy, "d1", config, sender).Ok?
    requires forall call: Call ::
               backend(Handler(Dummy, construct(Dummy, "d1", config, sender).value), call) == Done
    ensures loaded == Done && registered == Done && started == Done && applied == Done
    ensures log == [Invocation("d1", Register), Invocation("d1", Start),
                    Invocation("d1", SetDeviceState(Device("d1", attributes)))]
  {
    var registry := new Integrations(sender);
    loaded := registry.LoadIntegration("dummy", "d1", config, construct);
    assert registry.integrations.Keys == {"d1"};
    ghost var order;
    registered, order := registry.RunRegisterPass(backend);
    SingletonEnumeration(order, "d1");
    started, order := registry.RunStartPass(backend);
    SingletonEnumeration(order, "d1");
    applied := registry.SetIntegrationDeviceState(Device("d1", attributes), backend);
    log := registry.log;
  }

  /** An action for "missing" on an empty registry is a not-found error whose
      message names "missing", and no handler is called. */
  method MissingAction(sender: EventSender, payload: ActionPayload, backend: Backend)
    returns (result: Outcome, ghost log: seq<Invocation>)
    ensures result == Fail(NotFound("missing"))
    ensures Mentions(Message(result.error), "missing")
    ensures log == []
  {
    var registry := new Integrations(sender);
    result := registry.RunIntegrationAction("missing", payload, backend);
    log := registry.log;
  }

  /** Two loads under the same id "x" with different kinds leave exactly one
      entry at "x", holding the handler of the second load. */
  method LoadTwiceSameId(sender: EventSender, first: Config, second: Config, construct: Constructor)
    returns (entries: nat, holder: Handler)
    requires construct(Lifx, "x", first, sender).Ok?
    requires construct(Hue, "x", second, sender).Ok?
    ensures entries == 1
    ensures holder == Handler(Hue, construct(Hue, "x", second, sender).value)
  {
    var registry := new Integrations(sender);
    var r := registry.LoadIntegration("lifx", "x", first, construct);
    r := registry.LoadIntegration("hue", "x", second, construct);
    assert registry.integrations.Keys == {"x"};
    entries := |registry.integrations|;
    holder := registry.integrations["x"];
  }

  /** Loading a module name that is not one of the seven kinds fails with an
      unknown-module error naming it, and the table keeps what it held. */
  method LoadUnknownModule(sender: EventSender, config: Config, moduleName: string,
                           construct: Constructor)
    returns (result: Outcome, table: map<IntegrationId, Handler>)
    requires forall kind: Kind :: Factory.ModuleName(kind) != moduleName
    requires construct(Dummy, "d1", config, sender).Ok?
    ensures result == Fail(UnknownModule(moduleName))
    ensures Mentions(Message(result.error), moduleName)
    ensures table == map["d1" := Handler(Dummy, construct(Dummy, "d1", config, sender).value)]
  {
    var registry := new Integrations(sender);
    var r := registry.LoadIntegration("dummy", "d1", config, construct);
    result := registry.LoadIntegration(moduleName, "d2", config, construct);
    table := registry.integrations;
  }

  /** With two integrations "a" and "b" where only "a" fails to register, the
      register pass returns "a"'s error; "a" is registered exactly once, and
      "b" at most once (only if the table happened to hand it out first). */
  method RegisterPassAborts(sender: EventSender, config: Config, construct: Constructor,
                            backend: Backend, failure: Error)
    returns (result: Outcome, ghost log: seq<Invocation>)
    requires construct(Dummy, "a", config, sender).Ok?
    requires construct(Dummy, "b", config, sender).Ok?
    requires backend(Handler(Dummy, construct(Dummy, "a", config, sender).value), Register)
               == Fail(failure)
    requires backend(Handler(Dummy, construct(Dummy, "b", config, sender).value), Register) == Done
    ensures result == Fail(failure)
    ensures Times(log, "a", Register) == 1
    ensures Times(log, "b", Register) <= 1
  {
    var registry := new Integrations(sender);
    var r := registry.LoadIntegration("dummy", "a", config, construct);
    r := registry.LoadIntegration("dummy", "b", config, construct);
    ghost var table := registry.integrations;
    assert table.Keys == {"a", "b"};
    ghost var order;
    result, order := registry.RunRegisterPass(backend);
    log := registry.log;
    EnumerationLength(order, table.Keys);
    assert order[0] in order && order[1] in order;
    var k := if order[0] == "a" then 0 else 1;
    assert order[k] == "a";
    AbortedPass(order, table, Register, backend, k);
    assert "b" in order && "b" == order[1 - k];
  }
}
