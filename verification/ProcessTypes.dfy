/** The values that travel through a workflow: state dicts, the eight process variants and the
    overall status of a process. */
module ProcessTypes {

  /** The keys of a state dict. Every key the engine itself reads or writes has its own constructor,
      any other key is a `Field`. */
  datatype Key =
    | SubStep            // "__sub_step"
    | StepGroup          // "__step_group"
    | StepNameOverride   // "__step_name_override"
    | ReplaceLastState   // "__replace_last_state"
    | RemoveKeys         // "__remove_keys"
    | StartedAt          // "__last_step_started_at"
    | ErrorText          // "error"
    | ErrorDetails       // "details"
    | ErrorClass         // "class"
    | ErrorStatusCode    // "status_code"
    | Traceback          // "traceback"
    | Retries            // "retries"
    | CompletedAt        // "completed_at"
    | CallbackToken      // "__callback_token"
    | CallbackResultKey  // "__callback_result_key"
    | CallbackProgress   // "callback_progress"
    | Field(name: string)

  /** The values of a state dict. `Name` and `Names` are strings and lists of strings that are used
      as keys; `Live` is any object that JSON cannot hold as it is. */
  datatype Val =
    | Null
    | Flag(b: bool)
    | Num(n: int)
    | Text(text: string)
    | Name(key: Key)
    | Names(keys: seq<Key>)
    | Stamps(times: seq<nat>)
    | Obj(fields: map<Key, Val>)
    | Live(id: nat)

  type State = map<Key, Val>

  /** `s.get(k)` */
  function Get(s: State, k: Key): Val {
    if k in s then s[k] else Null
  }

  /** Python truth value. */
  predicate Truthy(v: Val) {
    match v
    case Null => false
    case Flag(b) => b
    case Num(n) => n != 0
    case Text(t) => t != ""
    case Name(_) => true
    case Names(ks) => ks != []
    case Stamps(ts) => ts != []
    case Obj(fs) => fs != map[]
    case Live(_) => true
  }

  datatype StepStatus =
    Success | Skipped | Suspend | Waiting | AwaitingCallback | Abort | Failed | Complete
  {
    /** Only after these two does the step loop go on to the next step. */
    predicate Runs() {
      this == Success || this == Skipped
    }

    predicate Errs() {
      this == Failed || this == Waiting
    }

    predicate Halts() {
      this == Suspend || this == AwaitingCallback
    }

    predicate Ends() {
      this == Abort || this == Complete
    }

    predicate Cleared() {
      !(this == Failed || this == Suspend || this == Waiting || this == AwaitingCallback)
    }
  }

  datatype ProcessStatus =
    | Created | Running | Suspended | OnWaiting | OnAwaitingCallback | Aborted | HasFailed
    | ApiUnavailable | InconsistentData | Completed | Resumed

  function Overall(s: StepStatus): ProcessStatus {
    match s
    case Success => Running
    case Skipped => Running
    case Suspend => Suspended
    case Waiting => OnWaiting
    case AwaitingCallback => OnAwaitingCallback
    case Abort => Aborted
    case Failed => HasFailed
    case Complete => Completed
  }

  predicate CanBeResumed(s: ProcessStatus) {
    s in {Suspended, OnWaiting, OnAwaitingCallback, HasFailed, ApiUnavailable, InconsistentData, Resumed}
  }

  /** A process: one of eight variants around a state. */
  datatype Process = Process(status: StepStatus, s: State) {

    /** The variant that `abort` moves to. */
    function Aborting(): Process {
      if status == Complete then this else Process(Abort, s)
    }

    /** The variant that `resume` moves to, before a suspended step is logged. */
    function Resuming(): Process {
      if status.Ends() then this else Process(Success, s)
    }

    /** `self.map(lambda s: s | extra)` */
    function With(extra: State): Process {
      Process(status, s + extra)
    }
  }
}
