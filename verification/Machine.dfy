/** Any number of processes over one work directory. A client runs one program; its steps are
    taking a file lock (and reading what the section reads), each single file write, leaving the
    section, a step without a store call, being granted an operation lock, and dying. */
module Machine {
  import opened Records
  import opened Store
  import opened Engine

  /** An open lock section: what was on disk when the lock was granted, and how many of the
      section's writes have been made. */
  datatype OpenSection = OpenSection(snap: Disk, done: nat)

  datatype Client = Client(prog: Program, sec: Option<OpenSection>, crashed: bool)

  /** `used` are the uuids drawn so far. */
  datatype State = State(disk: Disk, clients: seq<Client>, used: set<Id>)

  datatype Action = Enter | WriteNext | Leave(inp: Input) | Local(inp: Input) | TakeOp | Crash

  predicate Live(cl: Client) { !cl.crashed && !cl.prog.Halted? }

  /** File locks are held from entering a section to leaving it, and fall with the process. */
  predicate HoldsLock(cl: Client, l: Lock) {
    !cl.crashed && cl.sec.Some? && CallOf(cl.prog).Some? && LockOf(CallOf(cl.prog).value) == l
  }

  predicate HoldsOp(cl: Client, o: OpLock) { !cl.crashed && OpHeld(cl.prog) == Some(o) }

  predicate LockFree(s: State, l: Lock) {
    forall j | 0 <= j < |s.clients| :: !HoldsLock(s.clients[j], l)
  }

  predicate OpFree(s: State, o: OpLock) {
    forall j | 0 <= j < |s.clients| :: !HoldsOp(s.clients[j], o)
  }

  /** The section a client has open. */
  function Current(cl: Client): Section
    requires cl.sec.Some? && CallOf(cl.prog).Some?
  {
    SectionOf(CallOf(cl.prog).value, cl.sec.value.snap)
  }

  predicate Can(s: State, i: nat, a: Action) {
    && i < |s.clients|
    && Live(s.clients[i])
    && var cl := s.clients[i];
       match a
       case Enter => cl.sec.None? && CallOf(cl.prog).Some? && LockFree(s, LockOf(CallOf(cl.prog).value))
       case WriteNext => cl.sec.Some? && CallOf(cl.prog).Some? && cl.sec.value.done < |Current(cl).writes|
       case Leave(inp) =>
         cl.sec.Some? && CallOf(cl.prog).Some? && cl.sec.value.done == |Current(cl).writes| && inp.uuid !in s.used
       case Local(inp) => cl.sec.None? && CallOf(cl.prog).None? && OpWanted(cl.prog).None? && inp.uuid !in s.used
       case TakeOp => cl.sec.None? && OpWanted(cl.prog).Some? && OpFree(s, OpWanted(cl.prog).value)
       case Crash => true
  }

  function Do(s: State, i: nat, a: Action): State
    requires Can(s, i, a)
  {
    var cl := s.clients[i];
    match a
    case Enter => s.(clients := s.clients[i := cl.(sec := Some(OpenSection(s.disk, 0)))])
    case WriteNext =>
      s.(disk := Apply(s.disk, Current(cl).writes[cl.sec.value.done]),
         clients := s.clients[i := cl.(sec := Some(cl.sec.value.(done := cl.sec.value.done + 1)))])
    case Leave(inp) =>
      s.(clients := s.clients[i := cl.(prog := Resume(cl.prog, Current(cl).ret, inp), sec := None)],
         used := s.used + {inp.uuid})
    case Local(inp) =>
      s.(clients := s.clients[i := cl.(prog := LocalStep(cl.prog, s.disk, inp))],
         used := s.used + {inp.uuid})
    case TakeOp => s.(clients := s.clients[i := cl.(prog := Granted(cl.prog))])
    case Crash => s.(clients := s.clients[i := cl.(crashed := true)])
  }

  predicate Init(s: State) {
    && s.disk == EMPTY_DISK
    && s.used == {}
    && forall i | 0 <= i < |s.clients| ::
         IsStart(s.clients[i].prog) && s.clients[i].sec.None? && !s.clients[i].crashed
  }

  datatype Move = Move(who: nat, act: Action)

  /** A finite run from an empty work directory: its states and the moves between them. */
  predicate IsTrace(run: seq<State>, moves: seq<Move>) {
    && |run| == |moves| + 1
    && Init(run[0])
    && forall k | 0 <= k < |moves| ::
         Can(run[k], moves[k].who, moves[k].act) && run[k + 1] == Do(run[k], moves[k].who, moves[k].act)
  }

  predicate Steps(s: State, m: Move, t: State) { Can(s, m.who, m.act) && t == Do(s, m.who, m.act) }

  /** Each move of a run leads from its state to the next. */
  lemma StepOf(run: seq<State>, moves: seq<Move>, k: nat)
    requires IsTrace(run, moves) && k < |moves|
    ensures Steps(run[k], moves[k], run[k + 1])
  {
  }
}
