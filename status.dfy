/**
 The device status vocabulary of the cloud API (evnex/status.py): a string enumeration of
 ten members and the table of human-readable connector descriptions. The nine members other
 than OFFLINE mirror the ChargePointStatus values of OCPP 1.6 (section 7.7 of the OCPP 1.6
 specification); OFFLINE is the cloud API's own addition.
 */
module Status {
  import opened Wrappers

  /** `DeviceStatus(StrEnum)`, members in declaration order. */
  datatype DeviceStatus =
    | Offline
    | Available
    | Preparing
    | Charging
    | SuspendedEvse
    | SuspendedEv
    | Finishing
    | Reserved
    | Unavailable
    | Faulted

  /** The members in the order the enumeration declares them (what iterating it yields). */
  const Members: seq<DeviceStatus> :=
    [Offline, Available, Preparing, Charging, SuspendedEvse, SuspendedEv,
     Finishing, Reserved, Unavailable, Faulted]

  /** The string value of a member; for every member it is the member's own name. */
  function Value(s: DeviceStatus): string
  {
    match s
    case Offline => "OFFLINE"
    case Available => "AVAILABLE"
    case Preparing => "PREPARING"
    case Charging => "CHARGING"
    case SuspendedEvse => "SUSPENDED_EVSE"
    case SuspendedEv => "SUSPENDED_EV"
    case Finishing => "FINISHING"
    case Reserved => "RESERVED"
    case Unavailable => "UNAVAILABLE"
    case Faulted => "FAULTED"
  }

  /** The first of `ms` whose value is `v`, if any. */
  function FindByValue(ms: seq<DeviceStatus>, v: string): (r: Option<DeviceStatus>)
    ensures r.Some? ==> r.value in ms && Value(r.value) == v
    ensures r.None? ==> forall i :: 0 <= i < |ms| ==> Value(ms[i]) != v
  {
    if ms == [] then None
    else if Value(ms[0]) == v then Some(ms[0])
    else FindByValue(ms[1..], v)
  }

  /** `DeviceStatus(v)`: the member whose value is `v`; `None` stands for the ValueError. */
  function FromValue(v: string): (r: Option<DeviceStatus>)
    ensures r.Some? ==> Value(r.value) == v
  {
    FindByValue(Members, v)
  }

  /** `ConnectorOcppStatus`: the description shown for each status. */
  const ConnectorOcppStatus: map<DeviceStatus, string> := map[
    Available := "Available",
    Charging := "Charging",
    Faulted := "Faulted",
    Finishing := "Finished charging - unplug charge point",
    Preparing := "Preparing to charge",
    Reserved := "Reserved",
    SuspendedEv := "The vehicle is not currently requesting energy",
    SuspendedEvse := "Charging has been paused by the charge point",
    Unavailable := "Disabled",
    Offline := "Offline"
  ]

  /** The enumeration has exactly ten members, listed once each. */
  lemma MembersAreExactlyTen()
    ensures |Members| == 10
    ensures forall s: DeviceStatus :: s in Members
    ensures forall i, j :: 0 <= i < j < |Members| ==> Members[i] != Members[j]
  {
    forall s: DeviceStatus ensures s in Members {
      match s
      case Offline => assert Members[0] == s;
      case Available => assert Members[1] == s;
      case Preparing => assert Members[2] == s;
      case Charging => assert Members[3] == s;
      case SuspendedEvse => assert Members[4] == s;
      case SuspendedEv => assert Members[5] == s;
      case Finishing => assert Members[6] == s;
      case Reserved => assert Members[7] == s;
      case Unavailable => assert Members[8] == s;
      case Faulted => assert Members[9] == s;
    }
  }

  /** No two members share a string value. */
  lemma ValueInjective(s: DeviceStatus, t: DeviceStatus)
    requires Value(s) == Value(t)
    ensures s == t
  {
    var u, w := Value(s), Value(t);
    assert |u| == |w| && (|u| > 0 ==> u[0] == w[0]) && (|u| > 1 ==> u[1] == w[1]);
    assert |u| > 10 ==> u[10] == w[10];
  }

  /** A member listed in `ms` is found by its value. */
  lemma {:induction false} FindByValueFinds(ms: seq<DeviceStatus>, s: DeviceStatus)
    requires s in ms
    ensures FindByValue(ms, Value(s)).Some?
  {
    if ms[0] != s && Value(ms[0]) != Value(s) {
      assert s in ms[1..];
      FindByValueFinds(ms[1..], s);
    }
  }

  /** Converting a member to its value and parsing it back yields the member. */
  lemma FromValueOfValue(s: DeviceStatus)
    ensures FromValue(Value(s)) == Some(s)
  {
    MembersAreExactlyTen();
    FindByValueFinds(Members, s);
    ValueInjective(FromValue(Value(s)).value, s);
  }

  /** Only the ten value strings parse. */
  lemma FromValueOnlyValues(v: string)
    ensures FromValue(v).Some? <==> exists s: DeviceStatus :: Value(s) == v
  {
    if s: DeviceStatus :| Value(s) == v {
      FromValueOfValue(s);
    }
  }

  /** The description table is total: every member has a description. */
  lemma OcppTableTotal()
    ensures forall s: DeviceStatus :: s in ConnectorOcppStatus
  {
    forall s: DeviceStatus ensures s in ConnectorOcppStatus {
      match s
      case Offline =>
      case Available =>
      case Preparing =>
      case Charging =>
      case SuspendedEvse =>
      case SuspendedEv =>
      case Finishing =>
      case Reserved =>
      case Unavailable =>
      case Faulted =>
    }
  }

  /** The ten descriptions are pairwise distinct. */
  lemma OcppTableInjective(s: DeviceStatus, t: DeviceStatus)
    requires s in ConnectorOcppStatus && t in ConnectorOcppStatus
    requires ConnectorOcppStatus[s] == ConnectorOcppStatus[t]
    ensures s == t
  {
    var u, w := ConnectorOcppStatus[s], ConnectorOcppStatus[t];
    assert |u| == |w| && (|u| > 0 ==> u[0] == w[0]) && (|u| > 1 ==> u[1] == w[1]);
  }

  /** UNAVAILABLE is described as "Disabled" and OFFLINE as "Offline". */
  lemma OcppTableSpecialEntries()
    ensures ConnectorOcppStatus[Unavailable] == "Disabled"
    ensures ConnectorOcppStatus[Offline] == "Offline"
    ensures forall s :: s in ConnectorOcppStatus && ConnectorOcppStatus[s] == "Disabled" ==> s == Unavailable
  {
    forall s | s in ConnectorOcppStatus && ConnectorOcppStatus[s] == "Disabled" ensures s == Unavailable {
      OcppTableInjective(s, Unavailable);
    }
  }
}
