/** The server's session state machine and the snapshot a registering client copies. */
module Sessions {
  import opened Types

  datatype State = IDLE | WAITING_CLIENTS | READY | RUNNING | PAUSED | DEGRADED | STOPPING | STOPPED | ABORTED

  datatype Snapshot = Snapshot(sessionId: Option<string>, state: State, trialId: Option<string>,
                               phase: Option<string>, parameterVersion: int)

  const INITIAL := Snapshot(None, IDLE, None, None, 0)

  /** The calls that change a session. */
  datatype Op =
    | Create(sessionId: string)
    | MarkReady
    | Start
    | Pause
    | Stop
    | Abort
    | ArmTrial(trialId: string)
    | StartTrial(trialId: string)
    | EndTrial(trialId: string)

  function Apply(s: Snapshot, op: Op): Snapshot {
    match op
    case Create(id) => s.(sessionId := Some(id), state := WAITING_CLIENTS, trialId := None, phase := None)
    case MarkReady => s.(state := READY)
    case Start => s.(state := RUNNING)
    case Pause => s.(state := PAUSED)
    case Stop => s.(state := STOPPED)
    case Abort => s.(state := ABORTED)
    case ArmTrial(t) => s.(trialId := Some(t), phase := Some("armed"))
    case StartTrial(t) => s.(trialId := Some(t), phase := Some("running"))
    case EndTrial(t) => if s.trialId == Some(t) then s.(phase := Some("ended")) else s
  }

  // ---------- what a history of calls determines ----------

  function After(ops: seq<Op>): Snapshot {
    if ops == [] then INITIAL else Apply(After(ops[..|ops| - 1]), ops[|ops| - 1])
  }

  /** The last call that set or cleared the current trial. */
  function LastSetting(ops: seq<Op>): Option<Op> {
    if ops == [] then None
    else
      var last := ops[|ops| - 1];
      if last.Create? || last.ArmTrial? || last.StartTrial? then Some(last) else LastSetting(ops[..|ops| - 1])
  }

  function TrialSet(setting: Option<Op>): Option<string> {
    match setting
    case Some(ArmTrial(t)) => Some(t)
    case Some(StartTrial(t)) => Some(t)
    case _ => None
  }

  /** The current trial has been ended since it was last armed or started. */
  predicate EndedSince(ops: seq<Op>) {
    && ops != []
    && var last := ops[|ops| - 1];
       && !last.Create? && !last.ArmTrial? && !last.StartTrial?
       && ((last.EndTrial? && TrialSet(LastSetting(ops)) == Some(last.trialId)) || EndedSince(ops[..|ops| - 1]))
  }

  /** Whatever the order of calls: the trial is the one last armed or started since the session
      was created, a phase is shown exactly while there is a trial, and it is "ended" exactly when
      that trial was ended since. */
  lemma {:induction false} TrialFollowsCalls(ops: seq<Op>)
    ensures var s, setting := After(ops), LastSetting(ops);
      && s.trialId == TrialSet(setting)
      && s.phase == (if s.trialId.None? then None
                     else if EndedSince(ops) then Some("ended")
                     else if setting.value.ArmTrial? then Some("armed")
                     else Some("running"))
      && s.parameterVersion == 0
  {
    if ops != [] {
      TrialFollowsCalls(ops[..|ops| - 1]);
    }
  }

  /** The last call that named a state: any but those about trials. */
  function LastNaming(ops: seq<Op>): Option<Op> {
    if ops == [] then None
    else
      var last := ops[|ops| - 1];
      if last.ArmTrial? || last.StartTrial? || last.EndTrial? then LastNaming(ops[..|ops| - 1]) else Some(last)
  }

  predicate Names(naming: Option<Op>, state: State) {
    match naming
    case None => state == IDLE
    case Some(Create(_)) => state == WAITING_CLIENTS
    case Some(MarkReady) => state == READY
    case Some(Start) => state == RUNNING
    case Some(Pause) => state == PAUSED
    case Some(Stop) => state == STOPPED
    case Some(Abort) => state == ABORTED
    case Some(_) => false
  }

  /** The id of the last session created. */
  function LastCreated(ops: seq<Op>): Option<string> {
    if ops == [] then None
    else if ops[|ops| - 1].Create? then Some(ops[|ops| - 1].sessionId)
    else LastCreated(ops[..|ops| - 1])
  }

  /** Whatever the order of calls: the state is the one the last call named that is not about a
      trial, and the id that of the session created last. */
  lemma {:induction false} StateFollowsCalls(ops: seq<Op>)
    ensures Names(LastNaming(ops), After(ops).state) && After(ops).sessionId == LastCreated(ops)
  {
    if ops != [] {
      StateFollowsCalls(ops[..|ops| - 1]);
    }
  }

  class SessionManager {
    var sessionId: Option<string>
    var state: State
    var currentTrialId: Option<string>
    var currentPhase: Option<string>
    var parameterVersion: int

    constructor ()
      ensures View() == INITIAL
    {
      sessionId, state, currentTrialId, currentPhase, parameterVersion := None, IDLE, None, None, 0;
    }

    function View(): Snapshot
      reads this
    {
      Snapshot(sessionId, state, currentTrialId, currentPhase, parameterVersion)
    }

    method Perform(op: Op)
      modifies this
      ensures View() == Apply(old(View()), op)
    {
      match op
      case Create(id) =>
        sessionId, state := Some(id), WAITING_CLIENTS;
        currentTrialId, currentPhase := None, None;
      case MarkReady => state := READY;
      case Start => state := RUNNING;
      case Pause => state := PAUSED;
      case Stop => state := STOPPED;
      case Abort => state := ABORTED;
      case ArmTrial(t) => currentTrialId, currentPhase := Some(t), Some("armed");
      case StartTrial(t) => currentTrialId, currentPhase := Some(t), Some("running");
      case EndTrial(t) =>
        if currentTrialId == Some(t) {
          currentPhase := Some("ended");
        }
    }

    method ApplySnapshot(snapshot: Snapshot)
      modifies this
      ensures View() == snapshot
    {
      sessionId := snapshot.sessionId;
      state := snapshot.state;
      currentTrialId := snapshot.trialId;
      currentPhase := snapshot.phase;
      parameterVersion := snapshot.parameterVersion;
    }
  }
}
