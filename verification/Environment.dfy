// What surrounds a run: the model, the sandboxed sessions, the clock and the patch policy. All are
// arbitrary; each is asked by tick, so that every sequence of replies is some environment.
module Environments {
  import opened Wrappers
  import opened Checks
  import opened Supervision

  datatype Session = Work | Replay

  /** What a foreign call can raise. */
  datatype Fault =
    | Cancellation | OsError | SandboxFault | ToolFault(denied: bool) | ModelLost | InvalidOutput | SnapshotRejected
    | OtherFault

  datatype Foreign<+T> = Got(value: T) | Fails(fault: Fault)

  datatype Action =
    | ToolAction(tool: string, arguments: string)
    | PatchAction(diff: string)
    | CompletionAction(evidence: seq<string>)

  /** What a session is told to do through its tools. */
  datatype Command = CallTool(tool: string, arguments: string) | ProposePatch(diff: string) | CurrentDiff

  const MODEL_HIDDEN_TOOLS: set<string> := {"propose_patch"}

  datatype Environment = Environment(
    health: Foreign<bool>,
    snapshot: Foreign<()>,
    tools: Foreign<set<string>>,
    baselineSha: string,
    inspectPatch: string -> Option<string>,
    sha256: string -> string,
    enter: (nat, Session) -> Foreign<()>,
    leave: (nat, Session) -> Option<Fault>,
    action: nat -> Foreign<Action>,
    call: (nat, Session, Command) -> Foreign<string>,
    check: (nat, Session, CheckName) -> Foreign<CheckResult>,
    clock: nat -> real)
  {
    /** The tools that the model gets to see. */
    function ModelTools(): set<string> {
      if tools.Got? then tools.value - MODEL_HIDDEN_TOOLS else {}
    }

    /** The model is well and the source accepted: a run may open sessions. */
    predicate Admits() {
      health == Got(true) && snapshot.Got?
    }

    /** A question put at this tick raises the fault. */
    ghost predicate RaisesAt(t: nat, fault: Fault) {
      || action(t) == Fails(fault)
      || (exists s: Session :: enter(t, s) == Fails(fault) || leave(t, s) == Some(fault))
      || (exists s: Session, c: Command :: call(t, s, c) == Fails(fault))
      || (exists s: Session, name: CheckName :: check(t, s, name) == Fails(fault))
    }

    /** Some question raises the fault. */
    ghost predicate CanRaise(fault: Fault) {
      || health == Fails(fault) || snapshot == Fails(fault) || tools == Fails(fault)
      || exists t: nat :: RaisesAt(t, fault)
    }

    /** What an action does, without the model's prose. */
    function KeyOf(action: Action): ActionKey {
      match action
      case ToolAction(tool, arguments) => ToolKey(tool, arguments)
      case PatchAction(diff) => PatchKey(sha256(diff))
      case CompletionAction(evidence) => CompletionKey(evidence)
    }
  }
}
