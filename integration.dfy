/** Value types shared by the integration registry and its handlers: identifiers,
    errors, the closed set of handler kinds, handler instances, the calls a handler
    accepts, and the two oracles that stand for the foreign handler code
    (its constructors and its capability methods). */
module Integration {

  /** Opaque name of one configured handler instance. */
  type IntegrationId = string

  /** Every error the registry can return. Errors raised by foreign code (a
      handler constructor or a handler method) are carried as `Foreign` and are
      passed through unchanged. */
  datatype Error =
    | UnknownModule(moduleName: string)
    | NotFound(id: IntegrationId)
    | Foreign(detail: string)

  /** A fallible result carrying a value. */
  datatype Result<T> = Ok(value: T) | Err(error: Error)

  /** A fallible result without a value (`Result<()>`): `Done` is `Ok(())`. */
  datatype Outcome = Done | Fail(error: Error)

  /** The configuration document handed, unparsed, to a handler constructor. */
  datatype Config = Config(raw: string)

  /** The send side of the event channel every constructor receives. */
  datatype EventSender = EventSender(channel: nat)

  /** A device whose desired state is pushed to the integration owning it; the
      backend-specific fields are opaque here. */
  datatype Device = Device(integrationId: IntegrationId, attributes: string)

  /** An opaque, backend-interpreted action invocation. */
  datatype ActionPayload = ActionPayload(raw: string)

  /** The closed set of handler kinds. */
  datatype Kind = Circadian | Random | Dummy | Lifx | Hue | Neato | WakeOnLan

  /** A constructed handler: its kind and the identity of the foreign object the
      kind's constructor returned. */
  datatype Handler = Handler(kind: Kind, instance: nat)

  /** The four methods of the capability contract the registry calls. */
  datatype Call =
    | Register
    | Start
    | SetDeviceState(device: Device)
    | RunAction(payload: ActionPayload)

  /** One entry of the registry's ghost log: the handler stored under `id`
      received `call`. */
  datatype Invocation = Invocation(id: IntegrationId, call: Call)

  /** What each kind's constructor (`Circadian::new`, `Hue::new`, ...) answers
      for an id, a configuration and an event sender: the new object's identity
      or the error it raised. */
  type Constructor = (Kind, IntegrationId, Config, EventSender) -> Result<nat>

  /** What a handler answers to one call of its capability contract. */
  type Backend = (Handler, Call) -> Outcome

  /** `text` contains `s` as a contiguous piece. */
  ghost predicate Mentions(text: string, s: string)
  {
    exists prefix, suffix :: text == prefix + s + suffix
  }

  /** The human-readable message of an error: the two errors the registry
      raises itself name the string or the id they are about. */
  function Message(e: Error): (m: string)
    ensures e.UnknownModule? ==> Mentions(m, e.moduleName)
    ensures e.NotFound? ==> Mentions(m, e.id)
    ensures e.Foreign? ==> m == e.detail
  {
    match e
    case UnknownModule(name) => "Unknown module name " + name + "!"
    case NotFound(id) =>
      var m := "Expected to find integration by id " + id;
      assert m == "Expected to find integration by id " + id + "";
      m
    case Foreign(detail) => detail
  }
}
