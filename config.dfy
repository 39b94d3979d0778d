/**
 * The driver's creation options and the rules `SetConfigFromFlags` applies
 * to them: which options are required, in which order they are checked, and
 * the message that names a missing one.
 */
module Config {
  import opened Wrappers
  import opened Text
  import opened Api

  /** The option values the host hands over; unset string options read as "" and unset ints as 0. */
  datatype Options = Options(
    apiUrl: string,
    apiToken: string,
    projectUuid: string,
    offeringUuid: string,
    flavorUuid: string,
    imageUuid: string,
    systemVolumeSize: int,                 // GB
    systemVolumeTypeUuid: string,
    dataVolumeTypeUuid: string,
    securityGroupUuid: string,
    subnetUuids: Option<seq<string>>)      // None: the option list was nil

  /** The required options. */
  datatype Setting =
    | ApiUrl | ApiToken | ProjectUuid | OfferingUuid | FlavorUuid | ImageUuid
    | SystemVolumeSize | SystemVolumeTypeUuid | DataVolumeTypeUuid | SecurityGroupUuid

  /** The order in which the required options are checked. */
  const CheckOrder: seq<Setting> := [
    ApiUrl, ApiToken, ProjectUuid, OfferingUuid, FlavorUuid, ImageUuid,
    SystemVolumeSize, SystemVolumeTypeUuid, DataVolumeTypeUuid, SecurityGroupUuid
  ]

  /** The command-line flag that sets each required option. */
  function FlagName(k: Setting): string {
    match k
    case ApiUrl => "waldur-api-url"
    case ApiToken => "waldur-api-token"
    case ProjectUuid => "waldur-proj-uuid"
    case OfferingUuid => "waldur-offering-uuid"
    case FlavorUuid => "waldur-flavor-uuid"
    case ImageUuid => "waldur-image-uuid"
    case SystemVolumeSize => "waldur-sys-volume-size"
    case SystemVolumeTypeUuid => "waldur-sys-volume-type-uuid"
    case DataVolumeTypeUuid => "waldur-data-volume-type-uuid"
    case SecurityGroupUuid => "waldur-sec-group-uuid"
  }

  /** The option counts as missing: an empty string, or a volume size of exactly zero. */
  predicate Unset(o: Options, k: Setting) {
    match k
    case ApiUrl => o.apiUrl == ""
    case ApiToken => o.apiToken == ""
    case ProjectUuid => o.projectUuid == ""
    case OfferingUuid => o.offeringUuid == ""
    case FlavorUuid => o.flavorUuid == ""
    case ImageUuid => o.imageUuid == ""
    case SystemVolumeSize => o.systemVolumeSize == 0
    case SystemVolumeTypeUuid => o.systemVolumeTypeUuid == ""
    case DataVolumeTypeUuid => o.dataVolumeTypeUuid == ""
    case SecurityGroupUuid => o.securityGroupUuid == ""
  }

  /** The error reported for a missing option. */
  function MissingOption(k: Setting): DriverError {
    var tail := if k == SystemVolumeSize then " to be greater than 5 GB" else " option";
    Failure("Waldur requires the --" + FlagName(k) + tail)
  }

  /** The error for a missing option names the flag that sets it. */
  lemma MissingOptionNamesFlag(k: Setting)
    ensures MissingOption(k).Failure? && Contains(MissingOption(k).message, FlagName(k))
  {
    var tail := if k == SystemVolumeSize then " to be greater than 5 GB" else " option";
    ContainsMiddle("Waldur requires the --", FlagName(k), tail);
  }

  /** The error for the first missing option at or after position `i` of the check order, if any. */
  function FirstMissingFrom(o: Options, i: nat): Option<DriverError>
    requires i <= |CheckOrder|
    decreases |CheckOrder| - i
  {
    if i == |CheckOrder| then None
    else if Unset(o, CheckOrder[i]) then Some(MissingOption(CheckOrder[i]))
    else FirstMissingFrom(o, i + 1)
  }

  /** Validating the options, in check order. */
  function Validation(o: Options): Option<DriverError> {
    FirstMissingFrom(o, 0)
  }

  /** Nothing is reported from position `i` on exactly when every option from there on is set. */
  lemma {:induction false} FirstMissingFromNone(o: Options, i: nat)
    requires i <= |CheckOrder|
    ensures FirstMissingFrom(o, i).None? <==> forall j :: i <= j < |CheckOrder| ==> !Unset(o, CheckOrder[j])
    decreases |CheckOrder| - i
  {
    if i < |CheckOrder| && !Unset(o, CheckOrder[i]) {
      FirstMissingFromNone(o, i + 1);
    }
  }

  /** What is reported from position `i` on is the error for the first unset option from there. */
  lemma {:induction false} FirstMissingFromIsFirst(o: Options, i: nat)
    requires i <= |CheckOrder| && FirstMissingFrom(o, i).Some?
    ensures exists j :: i <= j < |CheckOrder| && Unset(o, CheckOrder[j]) &&
                        FirstMissingFrom(o, i) == Some(MissingOption(CheckOrder[j])) &&
                        forall m :: i <= m < j ==> !Unset(o, CheckOrder[m])
    decreases |CheckOrder| - i
  {
    if !Unset(o, CheckOrder[i]) {
      FirstMissingFromIsFirst(o, i + 1);
      var j :| i + 1 <= j < |CheckOrder| && Unset(o, CheckOrder[j]) &&
        FirstMissingFrom(o, i + 1) == Some(MissingOption(CheckOrder[j])) &&
        forall m :: i + 1 <= m < j ==> !Unset(o, CheckOrder[m]);
      assert forall m :: i <= m < j ==> !Unset(o, CheckOrder[m]);
    }
  }

  /**
   * Validation fails exactly when some required option is missing, and then
   * with the error naming the first missing one in check order.
   */
  lemma ValidationReportsFirstMissing(o: Options)
    ensures Validation(o).None? <==> forall j :: 0 <= j < |CheckOrder| ==> !Unset(o, CheckOrder[j])
    ensures Validation(o).Some? ==>
      exists j :: 0 <= j < |CheckOrder| && Unset(o, CheckOrder[j]) &&
        Validation(o) == Some(MissingOption(CheckOrder[j])) &&
        forall m :: 0 <= m < j ==> !Unset(o, CheckOrder[m])
  {
    FirstMissingFromNone(o, 0);
    if Validation(o).Some? {
      FirstMissingFromIsFirst(o, 0);
    }
  }

  /**
   * With every other option set, the volume size alone decides validation,
   * and only a size of exactly zero is rejected: a negative size passes.
   */
  lemma SizeAloneDecides(o: Options)
    requires forall k :: k != SystemVolumeSize ==> !Unset(o, k)
    ensures Validation(o).Some? <==> o.systemVolumeSize == 0
    ensures o.systemVolumeSize == 0 ==> Validation(o) == Some(MissingOption(SystemVolumeSize))
  {
  }
}
