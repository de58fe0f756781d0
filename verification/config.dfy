/** The route table: the services the proxy fronts and the global readiness timeout.
    Durations are natural numbers of milliseconds. The document reaches this model
    already parsed into a `RawConfig` whose fields still hold the text tags and the
    unchecked integers that the deserializer validates. */
module RouteConfig {
  import opened Wrappers
  import opened Numerals

  /** The default readiness timeout: 30 seconds. */
  const DEFAULT_TIMEOUT_MS: nat := 30_000

  /** The kind of workload behind a route. */
  datatype ServiceType = Deployment | Statefulset

  /** One route: requests whose Host header equals `host` go to `serviceName:servicePort`
      once the workload `namespace/name` of kind `ty` has a ready replica. */
  datatype Service = Service(
    host: string,
    ty: ServiceType,
    namespace: string,
    name: string,
    serviceName: string,
    servicePort: u16,
    timeout: Option<nat>)

  /** The whole route table, in declaration order. */
  datatype Config = Config(services: seq<Service>, timeout: nat)

  /** A route as written in the document, before the tag and port are validated. */
  datatype RawService = RawService(
    host: string,
    tag: string,
    namespace: string,
    name: string,
    serviceName: string,
    port: int,
    timeout: Option<nat>)

  datatype RawConfig = RawConfig(services: seq<RawService>, timeout: Option<nat>)

  datatype ConfigError = UnknownVariant(tag: string) | PortOutOfRange(port: int)

  /** The canonical tag a workload type is written with. */
  function TypeTag(ty: ServiceType): string {
    match ty
    case Deployment => "deployment"
    case Statefulset => "statefulset"
  }

  /** Reads a type tag: each variant has its canonical tag and one short alias;
      every other tag is rejected. */
  function ParseServiceType(tag: string): (r: Option<ServiceType>)
    ensures r == Some(Deployment) <==> tag == "deployment" || tag == "deploy"
    ensures r == Some(Statefulset) <==> tag == "statefulset" || tag == "sts"
    ensures r.None? <==> tag !in {"deployment", "deploy", "statefulset", "sts"}
  {
    if tag == "deployment" || tag == "deploy" then Some(Deployment)
    else if tag == "statefulset" || tag == "sts" then Some(Statefulset)
    else None
  }

  /** The canonical tag of every workload type reads back as that type. */
  lemma TypeTagRoundTrip(ty: ServiceType)
    ensures ParseServiceType(TypeTag(ty)) == Some(ty)
  {
  }

  /** Validates one route: the tag must name a workload type and the port must fit in
      16 bits. Every other field is copied as written, and an absent per-route timeout
      stays absent. */
  function DecodeService(raw: RawService): (r: Result<Service, ConfigError>)
    ensures r.Ok? <==> ParseServiceType(raw.tag).Some? && 0 <= raw.port < 0x1_0000
    ensures r.Ok? ==> (
      && r.value.host == raw.host && r.value.namespace == raw.namespace
      && r.value.name == raw.name && r.value.serviceName == raw.serviceName
      && r.value.servicePort == raw.port && r.value.timeout == raw.timeout
      && Some(r.value.ty) == ParseServiceType(raw.tag))
  {
    match ParseServiceType(raw.tag)
    case None => Err(UnknownVariant(raw.tag))
    case Some(ty) =>
      if 0 <= raw.port < 0x1_0000 then
        Ok(Service(raw.host, ty, raw.namespace, raw.name, raw.serviceName, raw.port, raw.timeout))
      else
        Err(PortOutOfRange(raw.port))
  }

  /** Validates the routes in order; the first invalid one rejects the whole list. */
  function DecodeServices(raws: seq<RawService>): (r: Result<seq<Service>, ConfigError>)
    ensures r.Ok? <==> forall i :: 0 <= i < |raws| ==> DecodeService(raws[i]).Ok?
    ensures r.Ok? ==> |r.value| == |raws|
    ensures r.Ok? ==> forall i :: 0 <= i < |raws| ==> DecodeService(raws[i]) == Ok(r.value[i])
  {
    if |raws| == 0 then Ok([])
    else
      match DecodeService(raws[0])
      case Err(e) => Err(e)
      case Ok(first) =>
        match DecodeServices(raws[1..])
        case Err(e) => Err(e)
        case Ok(rest) =>
          assert forall i :: 1 <= i < |raws| ==> raws[i] == raws[1..][i - 1];
          Ok([first] + rest)
  }

  /** Validates a whole document; an absent top-level timeout becomes the 30-second default. */
  function DecodeConfig(raw: RawConfig): (r: Result<Config, ConfigError>)
    ensures r.Ok? <==> forall i :: 0 <= i < |raw.services| ==> DecodeService(raw.services[i]).Ok?
    ensures r.Ok? ==> |r.value.services| == |raw.services|
    ensures r.Ok? ==> forall i :: 0 <= i < |raw.services| ==> DecodeService(raw.services[i]) == Ok(r.value.services[i])
    ensures r.Ok? && raw.timeout.None? ==> r.value.timeout == DEFAULT_TIMEOUT_MS
    ensures r.Ok? && raw.timeout.Some? ==> r.value.timeout == raw.timeout.value
  {
    match DecodeServices(raw.services)
    case Err(e) => Err(e)
    case Ok(services) =>
      Ok(Config(services, if raw.timeout.Some? then raw.timeout.value else DEFAULT_TIMEOUT_MS))
  }

  /** Decoding keeps routes in declaration order and does not merge routes sharing a host. */
  lemma DecodeKeepsDuplicateHosts(raw: RawConfig, i: nat, j: nat)
    requires i < j < |raw.services|
    requires raw.services[i].host == raw.services[j].host
    requires DecodeConfig(raw).Ok?
    ensures DecodeConfig(raw).value.services[i].host == DecodeConfig(raw).value.services[j].host
    ensures DecodeConfig(raw).value.services[i].host == raw.services[i].host
  {
    assert DecodeService(raw.services[i]).Ok?;
  }
}
