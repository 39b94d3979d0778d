/**
 * The Waldur node driver: the configuration the host hands it, the order it
 * submits to create a machine, and the lifecycle calls it relays to the
 * backend. The backend is an input (`Api.Backend`); the driver keeps no
 * state beyond its configuration and re-fetches the resource on every query.
 */
module WaldurDriver {
  import opened Wrappers
  import opened Api
  import opened Uris
  import opened Uuids
  import opened Config
  import States
  import Responses

  const DriverNameValue := "waldur"

  /** What a call does when it may also crash the plugin. */
  datatype Outcome = Returned(err: Option<DriverError>) | Panicked

  class Driver {
    // from the host's base driver
    var machineName: string
    var storePath: string
    // the creation options, one record
    var options: Options
    // the backend resource this machine stands for
    var resourceUuid: string

    /** A driver for `hostName` with every option at its zero value. */
    constructor (hostName: string, storePath: string)
      ensures machineName == hostName && this.storePath == storePath
      ensures options == Options("", "", "", "", "", "", 0, "", "", "", None)
      ensures resourceUuid == ""
    {
      machineName, this.storePath := hostName, storePath;
      options := Options("", "", "", "", "", "", 0, "", "", "", None);
      resourceUuid := "";
    }

    /**
     * Copies every option into the driver, then reports the first required
     * option that is missing. Only on success is a nil subnet list replaced
     * by an empty one.
     */
    method SetConfigFromFlags(flags: Options) returns (err: Option<DriverError>)
      modifies this
      ensures err == Validation(flags)
      ensures options == if err.None? && flags.subnetUuids.None? then flags.(subnetUuids := Some([])) else flags
      ensures err.None? ==> options.subnetUuids.Some? && (flags.subnetUuids.Some? ==> options.subnetUuids == flags.subnetUuids)
      ensures machineName == old(machineName) && storePath == old(storePath) && resourceUuid == old(resourceUuid)
    {
      options := flags;
      err := CheckRequired(options);
      if err.None? && options.subnetUuids == None {
        options := options.(subnetUuids := Some([]));
      }
    }

    /**
     * The required-option checks, in order; the first one that fails is
     * reported. They run on the options just stored, so they see exactly `o`.
     */
    static method CheckRequired(o: Options) returns (err: Option<DriverError>)
      ensures err == Validation(o)
    {
      if o.apiUrl == "" { return Some(MissingOption(ApiUrl)); }
      if o.apiToken == "" { return Some(MissingOption(ApiToken)); }
      if o.projectUuid == "" { return Some(MissingOption(ProjectUuid)); }
      if o.offeringUuid == "" { return Some(MissingOption(OfferingUuid)); }
      if o.flavorUuid == "" { return Some(MissingOption(FlavorUuid)); }
      if o.imageUuid == "" { return Some(MissingOption(ImageUuid)); }
      if o.systemVolumeSize == 0 { return Some(MissingOption(SystemVolumeSize)); }
      if o.systemVolumeTypeUuid == "" { return Some(MissingOption(SystemVolumeTypeUuid)); }
      if o.dataVolumeTypeUuid == "" { return Some(MissingOption(DataVolumeTypeUuid)); }
      if o.securityGroupUuid == "" { return Some(MissingOption(SecurityGroupUuid)); }
      return None;
    }

    /** The subnets as the order sees them: ranging over a nil list visits nothing. */
    function Subnets(): seq<string>
      reads this
    {
      match options.subnetUuids
      case None => []
      case Some(ids) => ids
    }

    /** The order body `Create` submits for this configuration. */
    predicate IsOrderFor(order: Order)
      reads this
    {
      var attrs := order.attributes;
      order.project == ResourceUri(options.apiUrl, ProjectsKind, options.projectUuid) &&
      order.offering == ResourceUri(options.apiUrl, OfferingsKind, options.offeringUuid) &&
      attrs.name == machineName &&
      attrs.flavor == ResourceUri(options.apiUrl, FlavorsKind, options.flavorUuid) &&
      attrs.image == ResourceUri(options.apiUrl, ImagesKind, options.imageUuid) &&
      attrs.systemVolumeSize == options.systemVolumeSize * 1024 &&
      attrs.systemVolumeType == ResourceUri(options.apiUrl, VolumeTypesKind, options.systemVolumeTypeUuid) &&
      attrs.dataVolumeType == ResourceUri(options.apiUrl, VolumeTypesKind, options.dataVolumeTypeUuid) &&
      |attrs.ports| == |Subnets()| &&
      (forall i :: 0 <= i < |attrs.ports| ==>
        attrs.ports[i] == map["subnet" := ResourceUri(options.apiUrl, SubnetsKind, Subnets()[i])]) &&
      attrs.securityGroups == [map["url" := ResourceUri(options.apiUrl, SecurityGroupsKind, options.securityGroupUuid)]] &&
      order.limits == map[] &&
      order.acceptingTermsOfService &&
      order.requestType == RequestType.Create
    }

    /** Only one order body fits a configuration. */
    lemma OrderDetermined(a: Order, b: Order)
      requires IsOrderFor(a) && IsOrderFor(b)
      ensures a == b
    {
    }

    /** Builds the order body, one port entry per subnet in list order. */
    method BuildOrder() returns (order: Order)
      ensures IsOrderFor(order)
    {
      var subnets := Subnets();
      var ports := new map<string, string>[|subnets|];
      for i := 0 to |subnets|
        invariant forall k :: 0 <= k < i ==> ports[k] == map["subnet" := ResourceUri(options.apiUrl, SubnetsKind, subnets[k])]
      {
        ports[i] := map["subnet" := ResourceUri(options.apiUrl, SubnetsKind, subnets[i])];
      }
      var attributes := Attributes(
        name := machineName,
        flavor := ResourceUri(options.apiUrl, FlavorsKind, options.flavorUuid),
        image := ResourceUri(options.apiUrl, ImagesKind, options.imageUuid),
        systemVolumeSize := options.systemVolumeSize * 1024,
        systemVolumeType := ResourceUri(options.apiUrl, VolumeTypesKind, options.systemVolumeTypeUuid),
        dataVolumeType := ResourceUri(options.apiUrl, VolumeTypesKind, options.dataVolumeTypeUuid),
        ports := ports[..],
        securityGroups := [map["url" := ResourceUri(options.apiUrl, SecurityGroupsKind, options.securityGroupUuid)]]);
      order := Order(
        acceptingTermsOfService := true,
        attributes := attributes,
        limits := map[],
        offering := ResourceUri(options.apiUrl, OfferingsKind, options.offeringUuid),
        project := ResourceUri(options.apiUrl, ProjectsKind, options.projectUuid),
        requestType := RequestType.Create);
    }

    /**
     * Submits the order. Succeeds exactly when the backend answers 201;
     * changes no field of the driver, so in particular it does not learn the
     * identifier of the resource the order will create.
     */
    method Create(backend: Backend) returns (err: Option<DriverError>)
      ensures backend.connect.Some? ==> err == backend.connect
      ensures backend.connect.None? ==>
        exists order :: IsOrderFor(order) && err == Responses.CheckCreated(machineName, backend.submitOrder(order))
    {
      var order := BuildOrder();
      if backend.connect.Some? {
        return backend.connect;
      }
      var reply := backend.submitOrder(order);
      err := Responses.CheckCreated(machineName, reply);
    }

    method PreCreateCheck() returns (err: Option<DriverError>)
      ensures err.None?
    {
      return None;
    }

    /** The address of the machine's marketplace resource. */
    method GetURL() returns (url: string, err: Option<DriverError>)
      ensures err.None?
      ensures url == ResourceUri(options.apiUrl, ResourcesKind, resourceUuid)
      ensures IdOfUri(url, options.apiUrl, ResourcesKind) == Some(resourceUuid)
    {
      url := ResourceUri(options.apiUrl, ResourcesKind, resourceUuid);
      UriRoundTrip(options.apiUrl, ResourcesKind, resourceUuid);
      return url, None;
    }

    /** Fetches the resource named by `resourceUuid`; nothing is asked of the backend unless it is a UUID. */
    function GetWaldurResource(backend: Backend): (r: Result<Resource, DriverError>)
      reads this
      ensures !ValidUuid(resourceUuid) ==> r == Fail(InvalidUuid(resourceUuid))
      ensures r.Ok? <==> ValidUuid(resourceUuid) && Answered(backend.retrieve(resourceUuid), Responses.OkCode)
      ensures r.Ok? ==> r.value == backend.retrieve(resourceUuid).payload
      ensures ValidUuid(resourceUuid) && backend.retrieve(resourceUuid).TransportError? ==>
        r == Fail(backend.retrieve(resourceUuid).cause)
      ensures ValidUuid(resourceUuid) && backend.retrieve(resourceUuid).Response? && r.Fail? ==>
        r.error == Failure(Responses.FetchFailure(machineName, resourceUuid, backend.retrieve(resourceUuid).status))
    {
      if !ValidUuid(resourceUuid) then Fail(InvalidUuid(resourceUuid))
      else Responses.CheckFetched(machineName, resourceUuid, backend.retrieve(resourceUuid))
    }

    /** The machine's state, read afresh from the backend. A fetched resource never makes this fail. */
    method GetState(backend: Backend) returns (s: States.HostState, err: Option<DriverError>)
      ensures backend.connect.Some? ==> s == States.None && err == backend.connect
      ensures backend.connect.None? && GetWaldurResource(backend).Fail? ==>
        s == States.None && err == Some(GetWaldurResource(backend).error)
      ensures backend.connect.None? && GetWaldurResource(backend).Ok? ==>
        err.None? && s == States.Translate(GetWaldurResource(backend).value.runtimeState)
      ensures err.None? <==>
        backend.connect.None? && ValidUuid(resourceUuid) && Answered(backend.retrieve(resourceUuid), Responses.OkCode)
    {
      if backend.connect.Some? {
        return States.None, backend.connect;
      }
      var resource := GetWaldurResource(backend);
      if resource.Fail? {
        return States.None, Some(resource.error);
      }
      s := States.Translate(resource.value.runtimeState);
      err := None;
    }

    /**
     * Asks the backend to start the instance. The action is addressed by the
     * fetched resource's own identifier; the error names the configured one.
     */
    method Start(backend: Backend) returns (err: Option<DriverError>)
      ensures backend.connect.Some? ==> err == backend.connect
      ensures backend.connect.None? && GetWaldurResource(backend).Fail? ==> err == Some(GetWaldurResource(backend).error)
      ensures backend.connect.None? && GetWaldurResource(backend).Ok? ==>
        err == Responses.CheckAccepted(Responses.Start, machineName, resourceUuid,
                                       backend.startInstance(GetWaldurResource(backend).value.resourceUuid))
      ensures err.None? <==>
        backend.connect.None? && GetWaldurResource(backend).Ok? &&
        Answered(backend.startInstance(GetWaldurResource(backend).value.resourceUuid), Responses.AcceptedCode)
    {
      if backend.connect.Some? {
        return backend.connect;
      }
      var resource := GetWaldurResource(backend);
      if resource.Fail? {
        return Some(resource.error);
      }
      var reply := backend.startInstance(resource.value.resourceUuid);
      err := Responses.CheckAccepted(Responses.Start, machineName, resourceUuid, reply);
    }

    /** Asks the backend to stop the instance; the reply's error is looked at before the reply. */
    method Stop(backend: Backend) returns (err: Option<DriverError>)
      ensures backend.connect.Some? ==> err == backend.connect
      ensures backend.connect.None? && GetWaldurResource(backend).Fail? ==> err == Some(GetWaldurResource(backend).error)
      ensures backend.connect.None? && GetWaldurResource(backend).Ok? ==>
        err == Responses.CheckAccepted(Responses.Stop, machineName, resourceUuid,
                                       backend.stopInstance(GetWaldurResource(backend).value.resourceUuid))
      ensures err.None? <==>
        backend.connect.None? && GetWaldurResource(backend).Ok? &&
        Answered(backend.stopInstance(GetWaldurResource(backend).value.resourceUuid), Responses.AcceptedCode)
    {
      if backend.connect.Some? {
        return backend.connect;
      }
      var resource := GetWaldurResource(backend);
      if resource.Fail? {
        return Some(resource.error);
      }
      var reply := backend.stopInstance(resource.value.resourceUuid);
      err := Responses.CheckAccepted(Responses.Stop, machineName, resourceUuid, reply);
    }

    /**
     * `Stop` as the source orders it: the request URL of the reply is logged
     * before the call's error is checked, so a transport error, which comes
     * with no reply, crashes the plugin instead of being returned.
     */
    method StopAsWritten(backend: Backend) returns (o: Outcome)
      ensures backend.connect.Some? ==> o == Returned(backend.connect)
      ensures backend.connect.None? && GetWaldurResource(backend).Fail? ==> o == Returned(Some(GetWaldurResource(backend).error))
      ensures backend.connect.None? && GetWaldurResource(backend).Ok? ==>
        var reply := backend.stopInstance(GetWaldurResource(backend).value.resourceUuid);
        if reply.TransportError? then o == Panicked
        else o == Returned(Responses.CheckAccepted(Responses.Stop, machineName, resourceUuid, reply))
    {
      if backend.connect.Some? {
        return Returned(backend.connect);
      }
      var resource := GetWaldurResource(backend);
      if resource.Fail? {
        return Returned(Some(resource.error));
      }
      var reply := backend.stopInstance(resource.value.resourceUuid);
      if reply.TransportError? {
        // the log line reads the request of a reply that does not exist
        return Panicked;
      }
      return Returned(Responses.CheckAccepted(Responses.Stop, machineName, resourceUuid, reply));
    }

    /** Asks the backend to restart the instance. */
    method Restart(backend: Backend) returns (err: Option<DriverError>)
      ensures backend.connect.Some? ==> err == backend.connect
      ensures backend.connect.None? && GetWaldurResource(backend).Fail? ==> err == Some(GetWaldurResource(backend).error)
      ensures backend.connect.None? && GetWaldurResource(backend).Ok? ==>
        err == Responses.CheckAccepted(Responses.Restart, machineName, resourceUuid,
                                       backend.restartInstance(GetWaldurResource(backend).value.resourceUuid))
      ensures err.None? <==>
        backend.connect.None? && GetWaldurResource(backend).Ok? &&
        Answered(backend.restartInstance(GetWaldurResource(backend).value.resourceUuid), Responses.AcceptedCode)
    {
      if backend.connect.Some? {
        return backend.connect;
      }
      var resource := GetWaldurResource(backend);
      if resource.Fail? {
        return Some(resource.error);
      }
      var reply := backend.restartInstance(resource.value.resourceUuid);
      err := Responses.CheckAccepted(Responses.Restart, machineName, resourceUuid, reply);
    }

    /** Force-stopping is not implemented: nothing is asked of the backend and nothing changes. */
    method Kill() returns (err: Option<DriverError>)
      ensures err.None?
    {
      return None;
    }

    /** Removal is not implemented: nothing is asked of the backend and nothing changes. */
    method Remove() returns (err: Option<DriverError>)
      ensures err.None?
    {
      return None;
    }

    function DriverName(): (name: string)
      ensures name == "waldur"
    {
      DriverNameValue
    }
  }

  /**
   * A stop whose transport fails: the source as written crashes, the
   * corrected `Stop` hands the transport error back.
   */
  method StopTransportFailure() returns (asWritten: Outcome, corrected: Option<DriverError>)
    ensures asWritten == Panicked
    ensures corrected == Some(Transport("connection reset"))
  {
    var d := new Driver("node-1", "/store");
    d.resourceUuid := "123e4567-e89b-12d3-a456-426614174000";
    assert ValidUuid(d.resourceUuid);
    var found := Resource("123e4567-e89b-12d3-a456-426614174000", "ACTIVE");
    var backend := Backend(
      None,
      _ => Response(201, "", ()),
      _ => Response(200, "", found),
      _ => Response(202, "", ()),
      _ => TransportError(Transport("connection reset")),
      _ => Response(202, "", ()));
    asWritten := d.StopAsWritten(backend);
    corrected := d.Stop(backend);
  }
}
