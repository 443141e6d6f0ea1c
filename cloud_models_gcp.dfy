/**
 * GCP resources. The pydantic base class GcpResource (id, name, zone,
 * project) is inlined into Instance, its only subclass here.
 */
module GcpModels {
  import opened Wrappers

  /** The lifecycle states of a Compute Engine instance, a `str` enum. */
  datatype InstanceState = Provisioning | Staging | Running | Stopping | Terminated | Suspending | Suspended
  {
    /** The string value of the enum member. */
    function Value(): string
    {
      match this
      case Provisioning => "PROVISIONING"
      case Staging => "STAGING"
      case Running => "RUNNING"
      case Stopping => "STOPPING"
      case Terminated => "TERMINATED"
      case Suspending => "SUSPENDING"
      case Suspended => "SUSPENDED"
    }
  }

  /** Every member, in declaration order. */
  const AllInstanceStates: seq<InstanceState> :=
    [Provisioning, Staging, Running, Stopping, Terminated, Suspending, Suspended]

  /** Converting a raw status into the enum, as pydantic validates the `state` field. */
  function ParseInstanceState(s: string): (r: Option<InstanceState>)
    ensures r.Some? ==> r.value.Value() == s
    ensures r.None? ==> forall st: InstanceState :: st.Value() != s
  {
    if s == "PROVISIONING" then Some(Provisioning)
    else if s == "STAGING" then Some(Staging)
    else if s == "RUNNING" then Some(Running)
    else if s == "STOPPING" then Some(Stopping)
    else if s == "TERMINATED" then Some(Terminated)
    else if s == "SUSPENDING" then Some(Suspending)
    else if s == "SUSPENDED" then Some(Suspended)
    else None
  }

  /**
   * The enum is a closed set of exactly seven members with seven distinct
   * values, and each value parses back to its member.
   */
  lemma InstanceStatesClosed()
    ensures |AllInstanceStates| == 7
    ensures forall st: InstanceState :: st in AllInstanceStates
    ensures forall i, j :: 0 <= i < j < |AllInstanceStates| ==> AllInstanceStates[i].Value() != AllInstanceStates[j].Value()
    ensures forall st: InstanceState :: ParseInstanceState(st.Value()) == Some(st)
  {
    forall st: InstanceState ensures st in AllInstanceStates {
      match st
      case Provisioning => assert AllInstanceStates[0] == st;
      case Staging => assert AllInstanceStates[1] == st;
      case Running => assert AllInstanceStates[2] == st;
      case Stopping => assert AllInstanceStates[3] == st;
      case Terminated => assert AllInstanceStates[4] == st;
      case Suspending => assert AllInstanceStates[5] == st;
      case Suspended => assert AllInstanceStates[6] == st;
    }
  }

  /** A Compute Engine instance: the fields of GcpResource plus its state. */
  datatype Instance = Instance(id: string, name: string, zone: string, project: string, state: InstanceState)

  /** A GCP project, compared field by field. */
  datatype Project = Project(id: string, name: string)
}
