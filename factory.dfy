/** The handler factory: a module-name string selects one of the seven handler
    kinds, whose constructor is then asked for the handler. */
module Factory {
  import opened Integration

  /** The module name under which each kind is configured. */
  function ModuleName(kind: Kind): string
  {
    match kind
    case Circadian => "circadian"
    case Random => "random"
    case Dummy => "dummy"
    case Lifx => "lifx"
    case Hue => "hue"
    case Neato => "neato"
    case WakeOnLan => "wake_on_lan"
  }

  /** No two kinds share a module name. */
  lemma ModuleNameInjective()
    ensures forall a: Kind, b: Kind :: ModuleName(a) == ModuleName(b) ==> a == b
  {
  }

  /** The result of running `kind`'s constructor: the handler it built, or the
      constructor's own error, unchanged. */
  function Construct(kind: Kind, id: IntegrationId, config: Config, eventTx: EventSender,
                     construct: Constructor): Result<Handler>
  {
    match construct(kind, id, config, eventTx)
    case Ok(instance) => Ok(Handler(kind, instance))
    case Err(e) => Err(e)
  }

  /** Builds the handler a configuration entry asks for. A known module name
      yields exactly what that kind's constructor yields; any other name is an
      unknown-module error naming the string. */
  function LoadIntegration(moduleName: string, id: IntegrationId, config: Config,
                           eventTx: EventSender, construct: Constructor): (r: Result<Handler>)
    ensures forall kind: Kind :: ModuleName(kind) == moduleName ==>
              && (r.Ok? <==> construct(kind, id, config, eventTx).Ok?)
              && (r.Ok? ==> r.value == Handler(kind, construct(kind, id, config, eventTx).value))
              && (r.Err? ==> r.error == construct(kind, id, config, eventTx).error)
    ensures (forall kind: Kind :: ModuleName(kind) != moduleName) ==>
              r == Err(UnknownModule(moduleName))
    ensures r.Ok? ==> ModuleName(r.value.kind) == moduleName
  {
    ModuleNameInjective();
    match moduleName
    case "circadian" => Construct(Circadian, id, config, eventTx, construct)
    case "random" => Construct(Random, id, config, eventTx, construct)
    case "dummy" => Construct(Dummy, id, config, eventTx, construct)
    case "lifx" => Construct(Lifx, id, config, eventTx, construct)
    case "hue" => Construct(Hue, id, config, eventTx, construct)
    case "neato" => Construct(Neato, id, config, eventTx, construct)
    case "wake_on_lan" => Construct(WakeOnLan, id, config, eventTx, construct)
    case _ => Err(UnknownModule(moduleName))
  }
}
