/**
 * The driver's view of the Waldur REST API. Each call is represented only by
 * its outcome: either a transport-level error or an HTTP status code with the
 * response body and, for the resource fetch, the decoded resource.
 */
module Api {
  import opened Wrappers

  /** The errors the driver hands back to the host. */
  datatype DriverError =
    | Transport(detail: string)   // from the HTTP client or client construction; passed on unchanged
    | InvalidUuid(text: string)   // the configured resource identifier does not parse as a UUID
    | Failure(message: string)    // composed by the driver itself

  datatype Reply<+T> =
    | TransportError(cause: DriverError)
    | Response(status: int, body: string, payload: T)

  /** The call reached the backend and came back with exactly `code`. */
  predicate Answered<T>(reply: Reply<T>, code: int) {
    reply.Response? && reply.status == code
  }

  /** The two fields of a marketplace resource the driver reads. */
  datatype Resource = Resource(resourceUuid: string, runtimeState: string)

  /** The only request type the driver ever sends. */
  datatype RequestType = Create

  /** The `attributes` object of a marketplace order for an OpenStack instance. */
  datatype Attributes = Attributes(
    name: string,
    flavor: string,
    image: string,
    systemVolumeSize: int,                    // MB
    systemVolumeType: string,
    dataVolumeType: string,
    ports: seq<map<string, string>>,          // one {"subnet": uri} per subnet
    securityGroups: seq<map<string, string>>) // {"url": uri} entries

  /** A marketplace order request body. */
  datatype Order = Order(
    acceptingTermsOfService: bool,
    attributes: Attributes,
    limits: map<string, int>,
    offering: string,
    project: string,
    requestType: RequestType)

  /**
   * What the backend does, as far as the driver can observe it: whether an API
   * client can be built at all, and the reply to each call given its argument.
   */
  datatype Backend = Backend(
    connect: Option<DriverError>,
    submitOrder: Order -> Reply<()>,
    retrieve: string -> Reply<Resource>,
    startInstance: string -> Reply<()>,
    stopInstance: string -> Reply<()>,
    restartInstance: string -> Reply<()>)
}
