/** Strategic state: posture, path memory, trajectories, and the events that record changes to them. */
module Strategy {
  import opened Base

  datatype Mode = Tactical | Balanced | Strategic

  datatype Posture = Posture(
    engagementPolicy: seq<string>, riskTolerance: real, confidenceBaseline: real,
    persistenceFactor: real, mode: Mode)

  /** `outcome_classification`; NoOutcome is the "none" of a path nobody has tried. */
  datatype Outcome = NoOutcome | Success | Blocked | HostileEnv | Unstable | Partial | Unknown

  datatype Abandonment = NoAbandonment | Soft | Hard

  datatype PathStatus = PathStatus(
    failureCount: int, lastOutcome: Outcome, abandonment: Abandonment,
    lastUpdated: Time, cooldownUntil: Option<Time>)

  type PathKey = seq<string>
  type Paths = map<PathKey, PathStatus>

  datatype Status = Active | Stalled | Abandoned

  datatype Trajectory = Trajectory(id: string, status: Status, weight: real, createdAt: Time, lastUpdated: Time)

  type Trajectories = map<string, Trajectory>

  datatype Signals = Signals(
    outcome: Outcome, confidenceDelta: real, riskReassessment: real, persistenceBias: real)

  /** `datetime.min`, from which times are counted. */
  const MIN_TIME: Time := 0

  const UNTRIED: PathStatus := PathStatus(0, NoOutcome, NoAbandonment, MIN_TIME, None)

  const DEFAULT_POSTURE: Posture := Posture([], 0.5, 0.5, 1.0, Balanced)

  function GetStatus(paths: Paths, key: PathKey): PathStatus {
    if key in paths then paths[key] else UNTRIED
  }

  /** Every trajectory is stored under its own id. */
  ghost predicate WellKeyed(ts: Trajectories) {
    forall k :: k in ts ==> ts[k].id == k
  }

  ghost predicate UnitWeights(ts: Trajectories) {
    forall k :: k in ts ==> 0.0 <= ts[k].weight <= 1.0
  }

  // ---------------------------------------------------------------- events

  /** The event types on the replay engine's allow-list; everything else is Disallowed. */
  datatype EventType =
    | StrategyAdaptation
    | HorizonShift
    | TrajectoryUpdate
    | PathAbandonment
    | Rebinding
    | Reflection
    | Disallowed(name: string)

  /** One entry of an event's details: missing, present but unreadable, or a value. */
  datatype Field<+T> = Absent | Malformed | Present(value: T)

  datatype Details = Details(
    postureAfter: Field<Posture>,
    pathKey: Field<PathKey>, pathStatusAfter: Field<PathStatus>,
    trajectoryId: Field<string>, trajectoryAfter: Field<Trajectory>,
    sourceAfter: Field<Trajectory>, targetAfter: Field<Trajectory>,
    hasOther: bool)

  const NO_DETAILS: Details := Details(Absent, Absent, Absent, Absent, Absent, Absent, Absent, false)

  datatype StrategicEvent = StrategicEvent(id: Id, timestamp: Time, eventType: EventType, details: Details)

  datatype Bundle = Bundle(
    posture: Posture, paths: Paths, trajectories: Trajectories,
    lastSnapshot: Option<Id>, lastEventId: Option<Id>, version: string)

  const DEFAULT_BUNDLE: Bundle := Bundle(DEFAULT_POSTURE, map[], map[], None, None, "1.1")
}
