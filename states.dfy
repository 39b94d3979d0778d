/**
 * Translation of the backend's free-text runtime state into the host's
 * machine-state enumeration.
 */
module States {

  /** The host states this driver can report. */
  datatype HostState = None | Running | Paused | Stopped | Starting | Error

  /** The driver's lookup table; keys absent from it read as the zero value `None`. */
  const RuntimeStates: map<string, HostState> := map[
    "ACTIVE" := Running,
    "BUILDING" := Starting,
    "DELETED" := Stopped,
    "SOFT_DELETED" := Stopped,
    "ERROR" := Error,
    "UNKNOWN" := None,
    "HARD_REBOOT" := Starting,
    "REBOOT" := Starting,
    "REBUILD" := Starting,
    "PAUSED" := Paused,
    "SHUTOFF" := Stopped,
    "STOPPED" := Stopped,
    "SUSPENDED" := Paused
  ]

  /** The state `GetState` reports for a fetched runtime state. Total: no string is an error. */
  function Translate(runtimeState: string): (s: HostState)
    ensures runtimeState == "" ==> s == None
    ensures runtimeState in RuntimeStates ==> s == RuntimeStates[runtimeState]
    ensures runtimeState !in RuntimeStates ==> s == None
  {
    if runtimeState == "" then None
    else if runtimeState in RuntimeStates then RuntimeStates[runtimeState]
    else None
  }

  const StartingStates: set<string> := {"BUILDING", "HARD_REBOOT", "REBOOT", "REBUILD"}
  const StoppedStates: set<string> := {"DELETED", "SOFT_DELETED", "SHUTOFF", "STOPPED"}
  const PausedStates: set<string> := {"PAUSED", "SUSPENDED"}

  /** The runtime states that are reported as something other than `None`. */
  const KnownStates: set<string> := {"ACTIVE", "ERROR"} + StartingStates + StoppedStates + PausedStates

  /** The preimage of every host state, in both directions. */
  lemma TranslatePreimages(r: string)
    ensures Translate(r) == Running <==> r == "ACTIVE"
    ensures Translate(r) == Starting <==> r in StartingStates
    ensures Translate(r) == Stopped <==> r in StoppedStates
    ensures Translate(r) == Error <==> r == "ERROR"
    ensures Translate(r) == Paused <==> r in PausedStates
    ensures Translate(r) == None <==> r !in KnownStates
  {
  }
}
