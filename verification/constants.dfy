/** The top-level string constants of the constants module. */
module Constants {

  const K8S_API_VERSION_V1: string := "v1"
  const K8S_API_VERSION_V1_BETA1: string := "extensions/v1beta1"
  const K8S_PERSISTENT_VOLUME_KIND: string := "PersistentVolume"
  const K8S_PERSISTENT_VOLUME_CLAIM_KIND: string := "PersistentVolumeClaim"
  const K8S_CONFIG_MAP_KIND: string := "ConfigMap"
  const K8S_POD_KIND: string := "Pod"
  const K8S_POD_TEMPLATE_KIND: string := "PodTemplate"
  const K8S_DEPLOYMENT_KIND: string := "Deployment"
  const K8S_SERVICE_KIND: string := "Service"
  const K8S_INGRESS_KIND: string := "Ingress"

  const UNKNOWN: string := "UNKNOWN"

  /** The string-valued names the module defines at top level, by name. Looking up
      a name that is not a key here (`constants.X` in the manager) raises an
      AttributeError. */
  const ATTRIBUTES: map<string, string> := map[
    "K8S_API_VERSION_V1" := K8S_API_VERSION_V1,
    "K8S_API_VERSION_V1_BETA1" := K8S_API_VERSION_V1_BETA1,
    "K8S_PERSISTENT_VOLUME_KIND" := K8S_PERSISTENT_VOLUME_KIND,
    "K8S_PERSISTENT_VOLUME_CLAIM_KIND" := K8S_PERSISTENT_VOLUME_CLAIM_KIND,
    "K8S_CONFIG_MAP_KIND" := K8S_CONFIG_MAP_KIND,
    "K8S_POD_KIND" := K8S_POD_KIND,
    "K8S_POD_TEMPLATE_KIND" := K8S_POD_TEMPLATE_KIND,
    "K8S_DEPLOYMENT_KIND" := K8S_DEPLOYMENT_KIND,
    "K8S_SERVICE_KIND" := K8S_SERVICE_KIND,
    "K8S_INGRESS_KIND" := K8S_INGRESS_KIND,
    "UNKNOWN" := UNKNOWN
  ]
}

/** The phases a pod reports, and the choice table offered for them. */
module PodLifeCycle {
  import Constants

  const RUNNING: string := "Running"
  const PENDING: string := "Pending"
  const CONTAINER_CREATING: string := "ContainerCreating"
  const SUCCEEDED: string := "Succeeded"
  const FAILED: string := "Failed"
  const UNKNOWN: string := Constants.UNKNOWN

  /** (value, label) pairs; UNKNOWN is deliberately not offered. */
  const CHOICES: seq<(string, string)> := [
    (RUNNING, RUNNING),
    (PENDING, PENDING),
    (CONTAINER_CREATING, CONTAINER_CREATING),
    (SUCCEEDED, SUCCEEDED),
    (FAILED, FAILED)
  ]

  /** The closed pod vocabulary as an enumeration. */
  datatype PodStatus = Running | Pending | ContainerCreating | Succeeded | Failed | Unknown

  /** The string constant that spells each status. */
  function Value(s: PodStatus): string {
    match s
    case Running => RUNNING
    case Pending => PENDING
    case ContainerCreating => CONTAINER_CREATING
    case Succeeded => SUCCEEDED
    case Failed => FAILED
    case Unknown => UNKNOWN
  }

  /** Distinct statuses are spelled differently. */
  lemma ValueInjective(a: PodStatus, b: PodStatus)
    ensures Value(a) == Value(b) ==> a == b
  {
  }

  /** CHOICES offers every pod status except Unknown, each once, with label equal to value. */
  lemma ChoicesOmitOnlyUnknown()
    ensures |CHOICES| == 5
    ensures forall i :: 0 <= i < |CHOICES| ==> CHOICES[i].0 == CHOICES[i].1
    ensures forall i, k :: 0 <= i < k < |CHOICES| ==> CHOICES[i] != CHOICES[k]
    ensures forall s :: (Value(s), Value(s)) in CHOICES <==> s != Unknown
    ensures forall c :: c in CHOICES ==> c.0 != UNKNOWN
  {
  }
}

/** The statuses a job reports, and the three predicates that classify them. */
module JobLifeCycle {
  import opened Wrappers
  import Constants

  const CREATED: string := "Created"
  const BUILDING: string := "Building"
  const PENDING: string := "Pending"
  const RUNNING: string := "Running"
  const PAUSING: string := "Pausing"
  const SUCCEEDED: string := "Succeeded"
  const FAILED: string := "Failed"
  const DELETED: string := "Deleted"
  const UNKNOWN: string := Constants.UNKNOWN

  /** (value, label) pairs, one per status. */
  const CHOICES: seq<(string, string)> := [
    (CREATED, CREATED),
    (BUILDING, BUILDING),
    (PENDING, PENDING),
    (RUNNING, RUNNING),
    (PAUSING, PAUSING),
    (SUCCEEDED, SUCCEEDED),
    (FAILED, FAILED),
    (DELETED, DELETED),
    (UNKNOWN, UNKNOWN)
  ]

  const RUNNING_STATUS: seq<string> := [BUILDING, PENDING, RUNNING]
  const DONE_STATUS: seq<string> := [FAILED, DELETED, SUCCEEDED]

  /** The closed job vocabulary as an enumeration. */
  datatype JobStatus = Created | Building | Pending | Running | Pausing | Succeeded | Failed | Deleted | Unknown

  /** The string constant that spells each status. */
  function Value(j: JobStatus): string {
    match j
    case Created => CREATED
    case Building => BUILDING
    case Pending => PENDING
    case Running => RUNNING
    case Pausing => PAUSING
    case Succeeded => SUCCEEDED
    case Failed => FAILED
    case Deleted => DELETED
    case Unknown => UNKNOWN
  }

  /** Recognises a status string; None for anything outside the vocabulary. */
  function Parse(s: string): (r: Option<JobStatus>)
    ensures r.Some? ==> Value(r.value) == s
    ensures r.None? ==> forall j :: Value(j) != s
  {
    if s == CREATED then Some(Created)
    else if s == BUILDING then Some(Building)
    else if s == PENDING then Some(Pending)
    else if s == RUNNING then Some(Running)
    else if s == PAUSING then Some(Pausing)
    else if s == SUCCEEDED then Some(Succeeded)
    else if s == FAILED then Some(Failed)
    else if s == DELETED then Some(Deleted)
    else if s == UNKNOWN then Some(Unknown)
    else None
  }

  /** An independent, per-constructor reading of what each status means:
      work not started or paused, work in progress, or work finished. */
  datatype Phase = Idle | Active | Terminal

  function PhaseOf(j: JobStatus): Phase {
    match j
    case Created | Pausing | Unknown => Idle
    case Building | Pending | Running => Active
    case Succeeded | Failed | Deleted => Terminal
  }

  /** A status string names a job of the given phase. */
  predicate InPhase(status: string, p: Phase) {
    Parse(status).Some? && PhaseOf(Parse(status).value) == p
  }

  predicate IsRunning(status: string)
    ensures IsRunning(status) <==> InPhase(status, Active)
  {
    status in RUNNING_STATUS
  }

  predicate IsDeletable(status: string)
    ensures IsDeletable(status) <==> !InPhase(status, Terminal)
  {
    !IsDone(status)
  }

  predicate IsDone(status: string)
    ensures IsDone(status) <==> InPhase(status, Terminal)
  {
    status in DONE_STATUS
  }

  /** Spelling a status and recognising the spelling gives the status back. */
  lemma ParseValue(j: JobStatus)
    ensures Parse(Value(j)) == Some(j)
  {
  }

  /** No status is both running and done. */
  lemma RunningAndDoneDisjoint(status: string)
    ensures !(IsRunning(status) && IsDone(status))
  {
  }

  /** Deletable means exactly not done, for every string. */
  lemma DeletableIsNotDone(status: string)
    ensures IsDeletable(status) <==> !IsDone(status)
  {
  }

  /** Created, Pausing and UNKNOWN are neither running nor done, so they are deletable. */
  lemma IdleStatusesAreDeletable()
    ensures forall s :: s in [CREATED, PAUSING, UNKNOWN] ==> !IsRunning(s) && !IsDone(s) && IsDeletable(s)
    ensures forall j :: PhaseOf(j) == Idle <==> Value(j) in [CREATED, PAUSING, UNKNOWN]
  {
  }

  /** A string outside the vocabulary falls through: not running, not done, deletable. */
  lemma OutsideVocabularyIsDeletable(status: string)
    requires forall j :: Value(j) != status
    ensures !IsRunning(status) && !IsDone(status) && IsDeletable(status)
  {
  }

  /** CHOICES lists each of the nine statuses exactly once, as (value, value). */
  lemma ChoicesListEachStatusOnce()
    ensures |CHOICES| == 9
    ensures forall i :: 0 <= i < |CHOICES| ==> CHOICES[i].0 == CHOICES[i].1 && Parse(CHOICES[i].0).Some?
    ensures forall i, k :: 0 <= i < k < |CHOICES| ==> CHOICES[i].0 != CHOICES[k].0
    ensures forall j :: (Value(j), Value(j)) in CHOICES
  {
  }
}
