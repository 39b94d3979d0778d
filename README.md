# Waldur node driver — a Dafny model

The Waldur node driver is a docker-machine / Rancher plugin. It provisions
virtual machines through the Waldur marketplace REST API. The host hands it
a set of creation options. The driver:

- checks those options;
- submits a marketplace order that describes an OpenStack instance;
- answers state queries by fetching the marketplace resource and translating
  its runtime state;
- relays start, stop and restart to the backend.

This project models the driver's decision layer, all of it in
`driver/driver.go`, and proves what that layer promises.

- `Api` holds the driver's view of the remote API. Every call is represented
  only by its outcome: a transport error, or a status code with a body and a
  payload. The backend is an input to each operation (`Api.Backend`). It gives
  whether an API client can be built at all, and the reply to each call as a
  function of the call's argument. That makes it observable which order is
  submitted and which identifier an action is addressed to.
- `Config` holds the creation options, the fixed order in which the required
  options are checked, and the message that names a missing option.
- `Uris` holds resource addresses of the form `<api url>/api/<kind>/<uuid>/`,
  with the inverse that reads the identifier back.
- `States` holds the total translation of a backend runtime state into the
  host's six machine states.
- `Responses` holds the status guards, one success code per call: 200 OK for
  the fetch, 201 Created for the order and 202 Accepted for the actions
  (sections 15.3.1 to 15.3.3 of RFC 9110). It also holds the error messages,
  which name the machine, the configured resource identifier and the code.
- `Text` models Go's `%d` formatting, its read-back, and substring
  containment.
- `Uuids` holds the textual UUID form the driver insists on before a fetch
  (section 4 of RFC 9562).
- `WaldurDriver.Driver` is a class, because `SetConfigFromFlags` updates the
  driver in place. The creation options are held as one `Config.Options`
  record field. Beside it are the machine name, the store path and the
  resource identifier.

The operations that only read the driver are methods without a `modifies`
clause, so they provably change nothing. `Create` builds the subnet port
list in a preallocated array filled by index, as the source does.

Where the code and its own wording disagree, the model follows the code.
The error message for the volume size says "to be greater than 5 GB". The
code rejects only a size of exactly 0, so a negative size or a size of 1 GB
passes validation (`Config.SizeAloneDecides`).

## Model

| member | source | states |
|---|---|---|
| WaldurDriver.Driver.constructor | driver/driver.go:40-47 | a new driver has the given machine name and store path, every option at its zero value (a nil subnet list) and no resource identifier |
| WaldurDriver.Driver.SetConfigFromFlags | driver/driver.go:112-163 | every option is stored as given; the result is exactly the validation of the given options; only on success does a nil subnet list become the empty list, so on success the list is never nil and a non-nil list is kept unchanged; the machine name, store path and resource identifier do not change |
| WaldurDriver.Driver.CheckRequired | driver/driver.go:125-157 | the chain of ten checks with early returns yields exactly `Config.Validation` of the options |
| Config.ValidationReportsFirstMissing | driver/driver.go:125-157 | validation succeeds if and only if none of the ten required options is unset; when it fails, the error is the one for an unset option and every option before it in check order is set |
| Config.FirstMissingFromNone | driver/driver.go:125-157 | from any position of the check order on, nothing is reported if and only if every later option is set |
| Config.FirstMissingFromIsFirst | driver/driver.go:125-157 | from any position on, a reported error belongs to the first unset option from there |
| Config.SizeAloneDecides | driver/driver.go:146-148 | with every other option set, validation fails if and only if the volume size is exactly 0, and then with the volume-size message; a negative size passes |
| Config.MissingOptionNamesFlag | driver/driver.go:126-156 | the error for a missing option contains the name of the command-line flag that sets it |
| WaldurDriver.Driver.BuildOrder | driver/driver.go:210-260 | the order built satisfies `IsOrderFor`: every address is `<api url>/api/<kind>/<uuid>/` with the fixed kind per field; the volume size is the configured size times 1024; there is one port entry per subnet, in list order, each `{"subnet": address}`; there is exactly one security group `{"url": address}`; the limits are empty; the terms are accepted; the type is create |
| WaldurDriver.Driver.OrderDetermined | driver/driver.go:210-260 | at most one order body fits a configuration |
| WaldurDriver.Driver.Create | driver/driver.go:207-279 | a client-construction error is returned unchanged; otherwise the order submitted is the one for this configuration and the result is the 201 guard applied to its reply; the driver is not modified, so the resource identifier is not set |
| Responses.CheckCreated | driver/driver.go:263-275 | a transport error passes through unchanged; a reply is accepted if and only if its status is 201; any other status gives the message naming the machine and the status |
| Responses.CreateFailureMentions | driver/driver.go:273 | a rejected order's message contains the machine name and the printed status code |
| Responses.CreateFailureIdentifiesStatus | driver/driver.go:273 | a rejected order's message determines the status code |
| WaldurDriver.Driver.PreCreateCheck | driver/driver.go:282-287 | never fails and changes nothing |
| WaldurDriver.Driver.GetURL | driver/driver.go:290-293 | returns `<api url>/api/marketplace-resources/<resource uuid>/`, from which the identifier reads back, and never an error |
| WaldurDriver.Driver.GetWaldurResource | driver/driver.go:182-204 | an identifier that is not a UUID fails before any call; otherwise the fetch succeeds if and only if it answers 200, and then yields the payload unchanged; a transport error passes through; another status gives the fetch message |
| Responses.CheckFetched | driver/driver.go:191-203 | a transport error passes through; a reply is accepted if and only if its status is 200, and the payload is returned unchanged; any other status gives the message naming the machine, the resource and the status |
| Responses.FetchFailureMentions | driver/driver.go:199 | a failed fetch's message contains the machine name, the resource identifier and the printed status code |
| Responses.FetchFailureIdentifiesStatus | driver/driver.go:199 | a failed fetch's message determines the status code |
| WaldurDriver.Driver.GetState | driver/driver.go:296-333 | a client or fetch error gives state None with that error; a fetched resource gives no error and the translation of its runtime state; there is no error if and only if the client is built, the identifier is a UUID and the fetch answers 200 |
| States.Translate | driver/driver.go:308-332 | the empty string gives None; a key of the table gives its entry; any other string gives None |
| States.TranslatePreimages | driver/driver.go:315-332 | in both directions: Running exactly for ACTIVE; Starting exactly for BUILDING, HARD_REBOOT, REBOOT and REBUILD; Stopped exactly for DELETED, SOFT_DELETED, SHUTOFF and STOPPED; Error exactly for ERROR; Paused exactly for PAUSED and SUSPENDED; None for everything else |
| WaldurDriver.Driver.Start | driver/driver.go:336-367 | client and fetch errors pass through; the start call is addressed to the fetched resource's own identifier; the result is the 202 guard on its reply, with the configured identifier in the message; it succeeds if and only if every step succeeds and the start call answers 202 |
| WaldurDriver.Driver.Stop | driver/driver.go:370-402 | the same as `Start` for the stop call, with the call's error checked before the reply is read |
| WaldurDriver.Driver.StopAsWritten | driver/driver.go:383-390 | as the source orders it: a transport error on the stop call crashes the plugin instead of being returned; otherwise the same outcome as `Stop` |
| WaldurDriver.StopTransportFailure | driver/driver.go:384-390 | for a valid identifier, a successful fetch and a stop call that fails in transport, the source as written crashes and the corrected `Stop` returns the transport error |
| WaldurDriver.Driver.Restart | driver/driver.go:405-436 | the same as `Start` for the restart call |
| Responses.CheckAccepted | driver/driver.go:352-362 | a transport error passes through; an action reply is accepted if and only if its status is 202; any other status gives the message naming the action, the machine, the resource and the status |
| Responses.ActionFailureMentions | driver/driver.go:357-361 | a rejected action's message contains the action's verb, the machine name, the resource identifier and the printed status code |
| Responses.ActionFailureIdentifiesStatus | driver/driver.go:357-361 | a rejected action's message determines the status code |
| Responses.BodyNeverInErrors | driver/driver.go:270-274 | the response body only goes to the log: two replies that differ only in body give the same result, for the order, the fetch and the actions |
| WaldurDriver.Driver.Kill | driver/driver.go:439-443 | never fails and changes nothing |
| WaldurDriver.Driver.Remove | driver/driver.go:446-450 | never fails and changes nothing |
| WaldurDriver.Driver.DriverName | driver/driver.go:457-459 | the driver's name is "waldur" |
| Uris.UriRoundTrip | driver/driver.go:210-217 | the identifier reads back out of every address built from it |
| Uris.UriOfId | driver/driver.go:210-217 | every address from which an identifier reads back is the one built from that identifier |
| Uris.UriInjective | driver/driver.go:210-217 | within one collection, distinct identifiers give distinct addresses |
| Text.FormatIntRoundTrip | driver/driver.go:273 | the `%d` rendering of any integer, including a negative one, reads back as that integer |
| Text.FormatIntInjective | driver/driver.go:273 | distinct integers print differently |

## Left out

- The HTTP client and token authentication (driver/driver.go:165-180) come from a foreign library. The model keeps only their outcome: `Backend.connect` is either a transport error or nothing.
- The generated Waldur REST client and JSON encoding and decoding. Each call is modelled by its reply: a transport error, or a status, a body and a decoded payload.
- Logging. It has no effect on results. The one place where it does, the log line in `Stop`, is listed under Findings.
- `GetCreateFlags` (driver/driver.go:51-109) is a static list of flags for the host's command line and holds no logic. The flag names appear only in `Config.FlagName`.
- `GetSSHHostname` (driver/driver.go:452-454) delegates to the host's base driver, which is not part of this model.
- `main.go` only registers the plugin with the host process.
- WaldurDriver.Driver.GetWaldurResource: `Uuids.ValidUuid` accepts only the canonical hyphenated 36-character form. The UUID library the driver calls also accepts a `urn:uuid:` prefix, braces and the 32-digit form without hyphens; those spellings are rejected here.
- WaldurDriver.Driver.BuildOrder: the volume size in MB is `size * 1024` on unbounded integers. Go's 64-bit `int` would wrap for sizes above 2^53 GB; that is not modelled.
- WaldurDriver.Driver.GetState: the payload's runtime state and resource identifier are assumed present. The source dereferences optional fields of the decoded JSON (driver/driver.go:308, 350, 384, 419), which would crash on a payload that lacks them.
- `States.HostState` lists only the six states the driver can report, not every state of the host's enumeration.
- Nothing links a submitted order to the driver's `resourceUuid`. The source never sets it, and the model does not invent it.
- `Create` builds the order before it asks for a client, as the source does. Because building the order has no visible effect, the model does not distinguish that order from the reverse.

## Findings

| source | as written | input that shows it | evidently intended | confidence | as-written member | corrected member |
|---|---|---|---|---|---|---|
| driver/driver.go:384-390 | `Stop` logs the request address of the reply before it checks the call's error; on a transport error there is no reply, so the log line dereferences nil and the plugin crashes | a valid resource identifier, a fetch that answers 200, and a stop call that fails in transport (`StopTransportFailure`) | check the error first and return the transport error, as `Start` and `Restart` do | not executed | WaldurDriver.Driver.StopAsWritten | WaldurDriver.Driver.Stop |
