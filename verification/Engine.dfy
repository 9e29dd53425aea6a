/** engine.py and conversations.py as programs over the store: `prepare`, `submit_planner`,
    `submit_final`, `run_automatic`, the progress poller and the session commands. A program
    stands at a point; at most points it has one store call to make, at the others it computes,
    talks to the provider or waits for an operation lock. */
module Engine {
  import opened Records
  import opened ReportValidation
  import opened Store

  /** A `run_automatic` call, or a `prepare` call when `automatic` is false. */
  datatype Run = Run(automatic: bool, request: RawRequest, route: Route, tunnel: Option<Id>)

  datatype Context = Context(run: Run, res: Resolution, rid: Id)

  /** Where a run stands once it has a resolution and a request id. */
  datatype Point =
    | WriteStatus(now: Time)
    | WriteRequest
    | WriteRoute
    | Attach(now: Time)
    | BeginPlanning(now: Time)
    | AwaitPlanner
    | WriteManifest(manifest: Manifest)
    | BuildContext(manifest: Manifest)
    | WritePack(manifest: Manifest, pack: Pack)
    | BeginFinal(manifest: Manifest, now: Time)
    | TakeChat(manifest: Manifest)
    | Reread(manifest: Manifest)
    | CallFinal(manifest: Manifest, target: Option<Id>)
    | AwaitFinal(manifest: Manifest, target: Option<Id>)
    | BindRead(manifest: Manifest, response: Response)
    | BindWrite(manifest: Manifest, response: Response, tunnel: Option<Id>, now: Time)
    | NoteConversation(manifest: Manifest, response: Response, now: Time)
    | Validate(manifest: Manifest, response: Response)
    | WriteResult(response: Response)
    | Finish(response: Response, now: Time)
    | Failing(error: Id, now: Time)

  datatype Submission = PlannerResult(manifest: Manifest) | FinalResult(payload: Report)

  datatype SubmitPoint =
    | TakeRequest
    | Load
    | ReadRequest(status: RequestStatus)
    | ReadRoute(status: RequestStatus, request: RawRequest)
    | StoreManifest(status: RequestStatus, request: RawRequest)
    | Build(status: RequestStatus, request: RawRequest)
    | StorePack(status: RequestStatus, pack: Pack)
    | ReadChat(status: RequestStatus)
    | Advance(now: Time)
    | ReadManifest(request: RawRequest, route: Route)
    | StoreResult
    | Conclude(now: Time)

  datatype Program =
    | Halted(success: bool)
    // ConversationManager.resolve, as the first part of a run
    | Start(run: Run)
    | CheckSession(run: Run)
    | MakeSession(run: Run, now: Time)
    | LoadSession(run: Run)
    | LoadChat(run: Run)
    | PickChat(run: Run, cid: Id, now: Time)
    | BindExplicit(run: Run, cid: Id, now: Time)
    // the rest of the run
    | At(ctx: Context, point: Point)
    // submit_planner and submit_final
    | Submitting(rid: Id, what: Submission, at: SubmitPoint)
    // one update_progress call of a poller thread
    | Polling(rid: Id, text: Id, now: Time)
    // session commands
    | OpenSession(sid: Id, repoRoot: Id, now: Time)
    | EndSession(sid: Id, now: Time)
    | DrawChat(sid: Id, kind: ChatKind, makeActive: bool)
    | AddChat(sid: Id, cid: Id, kind: ChatKind, makeActive: bool, now: Time)
    | Select(sid: Id, cid: Id, now: Time)
    | ArchiveLoadSession(sid: Id, cid: Id)
    | ArchiveLoadChat(sid: Id, cid: Id, active: Option<Id>)
    | ArchiveWrite(sid: Id, cid: Id, now: Time)

  /** What the outside decides at a step: a uuid, the clock, whether the provider, the planner
      checks or the context builder accept, and what they deliver. */
  datatype Input = Input(uuid: Id, now: Time, ok: bool, manifest: Manifest, content: Id, response: Response)

  predicate IsStart(p: Program) {
    || p.Start?
    || (p.Submitting? && p.at.TakeRequest?)
    || p.Polling? || p.OpenSession? || p.EndSession? || p.Select? || p.ArchiveLoadSession?
    || (p.DrawChat? && !p.kind.Main? && (p.kind.Independent? ==> !p.makeActive))
  }

  function NewStatus(c: Context, now: Time): RequestStatus {
    var policy := if c.res.Bound? then c.run.request.policy else TemporaryChat;
    RequestStatus(New, SidOf(c.res), CidOf(c.res), policy, None, None, None, now, None)
  }

  function SidOf(r: Resolution): Option<Id> { if r.Bound? then Some(r.sessionId) else None }

  function CidOf(r: Resolution): Option<Id> { if r.Bound? then Some(r.chatId) else None }

  function Rebinding(conversation: Id, tunnel: Option<Id>): ChatUpdate {
    ChatUpdate(Some(Some(conversation)), Some(tunnel), None)
  }

  function ContextCall(c: Context, p: Point): Option<Call> {
    match p
    case WriteStatus(now) => Some(CreateStatus(c.rid, NewStatus(c, now)))
    case WriteRequest => Some(WriteModel(c.rid, RequestFile(c.run.request)))
    case WriteRoute => Some(WriteModel(c.rid, RouteFile(c.run.route)))
    case Attach(now) => if c.res.Bound? then Some(AppendRequest(c.res.sessionId, c.res.chatId, c.rid, now)) else None
    case BeginPlanning(now) =>
      Some(Transition(c.rid, New, if c.run.automatic then RunningPlanner else WaitingPlanner, None, now))
    case AwaitPlanner => None
    case WriteManifest(m) => Some(WriteModel(c.rid, ManifestFile(m)))
    case BuildContext(_) => None
    case WritePack(_, pack) => Some(WriteModel(c.rid, PackFile(pack)))
    case BeginFinal(_, now) => Some(Transition(c.rid, RunningPlanner, RunningFinal, None, now))
    case TakeChat(_) => None
    case Reread(_) => if c.res.Bound? then Some(GetChat(c.res.sessionId, c.res.chatId)) else None
    case CallFinal(_, _) => None
    case AwaitFinal(_, _) => None
    case BindRead(_, _) => if c.res.Bound? then Some(GetChat(c.res.sessionId, c.res.chatId)) else None
    case BindWrite(_, resp, tunnel, now) =>
      if c.res.Bound? && resp.conversation.Some?
      then Some(UpdateChat(c.res.sessionId, c.res.chatId, Rebinding(resp.conversation.value, tunnel), now))
      else None
    case NoteConversation(_, resp, now) => Some(UpdateStatus(c.rid, resp.conversation, now))
    case Validate(_, _) => None
    case WriteResult(resp) => Some(WriteModel(c.rid, ResultFile(resp.payload)))
    case Finish(resp, now) => Some(Transition(c.rid, RunningFinal, Complete, Some(resp.conversation), now))
    case Failing(error, now) => Some(FailRequest(c.rid, error, now))
  }

  function SubmitCall(rid: Id, what: Submission, at: SubmitPoint): Option<Call> {
    match at
    case TakeRequest => None
    case Load => Some(LoadStatus(rid))
    case ReadRequest(_) => Some(ReadModel(rid, RequestKind))
    case ReadRoute(_, _) => Some(ReadModel(rid, RouteKind))
    case StoreManifest(_, _) => if what.PlannerResult? then Some(WriteModel(rid, ManifestFile(what.manifest))) else None
    case Build(_, _) => None
    case StorePack(_, pack) => Some(WriteModel(rid, PackFile(pack)))
    case ReadChat(st) =>
      if st.sessionId.Some? && st.chatId.Some? then Some(GetChat(st.sessionId.value, st.chatId.value)) else None
    case Advance(now) => Some(Transition(rid, WaitingPlanner, WaitingFinal, None, now))
    case ReadManifest(_, _) => Some(ReadModel(rid, ManifestKind))
    case StoreResult => if what.FinalResult? then Some(WriteModel(rid, ResultFile(what.payload))) else None
    case Conclude(now) => Some(Transition(rid, WaitingFinal, Complete, None, now))
  }

  /** The store call a program makes at its point, if it makes one there. */
  function CallOf(p: Program): Option<Call> {
    match p
    case Halted(_) => None
    case Start(_) => None
    case CheckSession(_) => None
    case MakeSession(run, now) => Some(CreateSession(run.request.session, run.request.repoRoot, now))
    case LoadSession(run) => Some(GetSession(run.request.session))
    case LoadChat(run) => if run.request.chat.Some? then Some(GetChat(run.request.session, run.request.chat.value)) else None
    case PickChat(run, cid, now) =>
      var sid := run.request.session;
      Some(match run.request.policy
           case NewChat => CreateChat(sid, cid, Standard, true, now)
           case IndependentChat => CreateChat(sid, cid, Independent, false, now)
           case _ => MainChat(sid, cid, now))
    case BindExplicit(run, cid, now) =>
      if run.request.conversation.Some?
      then Some(UpdateChat(run.request.session, cid, ChatUpdate(Some(run.request.conversation), None, None), now))
      else None
    case At(c, point) => ContextCall(c, point)
    case Submitting(rid, what, at) => SubmitCall(rid, what, at)
    case Polling(rid, text, now) => Some(UpdateProgress(rid, text, now))
    case OpenSession(sid, root, now) => Some(CreateSession(sid, root, now))
    case EndSession(sid, now) => Some(CloseSession(sid, now))
    case DrawChat(_, _, _) => None
    case AddChat(sid, cid, kind, makeActive, now) => Some(CreateChat(sid, cid, kind, makeActive, now))
    case Select(sid, cid, now) => Some(SelectChat(sid, cid, now))
    case ArchiveLoadSession(sid, _) => Some(GetSession(sid))
    case ArchiveLoadChat(sid, cid, _) => Some(GetChat(sid, cid))
    case ArchiveWrite(sid, cid, now) => Some(UpdateChat(sid, cid, ChatUpdate(None, None, Some(now)), now))
  }

  // ------------------------------------------------------- operation locks

  datatype OpLock = ChatOp(sid: Id, cid: Id) | RequestOp(rid: Id)

  /** The operation lock a program stands waiting for. */
  function OpWanted(p: Program): Option<OpLock> {
    match p
    case At(c, TakeChat(_)) => if c.res.Bound? then Some(ChatOp(c.res.sessionId, c.res.chatId)) else None
    case Submitting(rid, _, TakeRequest) => Some(RequestOp(rid))
    case _ => None
  }

  predicate InChatBlock(p: Point) {
    p.Reread? || p.CallFinal? || p.AwaitFinal? || p.BindRead? || p.BindWrite? || p.NoteConversation?
    || p.Validate? || p.WriteResult? || p.Finish?
  }

  /** The operation lock a program holds. */
  function OpHeld(p: Program): Option<OpLock> {
    match p
    case At(c, point) =>
      if c.res.Bound? && InChatBlock(point) then Some(ChatOp(c.res.sessionId, c.res.chatId)) else None
    case Submitting(rid, _, at) => if at.TakeRequest? then None else Some(RequestOp(rid))
    case _ => None
  }

  /** The program once it has been granted the operation lock it waited for. */
  function Granted(p: Program): Program
    requires OpWanted(p).Some?
  {
    match p
    case At(c, TakeChat(m)) => At(c, Reread(m))
    case Submitting(rid, what, _) => Submitting(rid, what, Load)
  }

  // ------------------------------------------------------------- resolving

  function Resolved(run: Run, cid: Id, chat: ChatRecord, inp: Input): Program {
    At(Context(run, Bound(run.request.session, cid, chat.conversation), inp.uuid), WriteStatus(inp.now))
  }

  /** The explicit conversation id of a request against the chat record just read. */
  function BindOrResolve(run: Run, cid: Id, chat: ChatRecord, inp: Input): Program {
    var wanted := run.request.conversation;
    if wanted.Some? && chat.conversation.Some? && chat.conversation != wanted then Halted(false)
    else if wanted.Some? && chat.conversation.None? then BindExplicit(run, cid, inp.now)
    else Resolved(run, cid, chat, inp)
  }

  function ChooseChat(run: Run, inp: Input): Program {
    if run.request.chat.Some? then LoadChat(run) else PickChat(run, inp.uuid, inp.now)
  }

  // ------------------------------------------------- after a call returned

  /** Inside the `try` of `run_automatic` an exception leads to `fail`; in `prepare` it escapes. */
  function Abort(c: Context, inp: Input): Program {
    if c.run.automatic then At(c, Failing(inp.content, inp.now)) else Halted(false)
  }

  function AfterFinalTurn(c: Context, m: Manifest, inp: Input): Program {
    if c.res.Bound? && inp.response.conversation.Some? then At(c, BindRead(m, inp.response))
    else At(c, NoteConversation(m, inp.response, inp.now))
  }

  function ResumeContext(c: Context, p: Point, ret: Ret, inp: Input): Program {
    match p
    case WriteStatus(_) => if ret.Raised? then Halted(false) else At(c, WriteRequest)
    case WriteRequest => At(c, WriteRoute)
    case WriteRoute => At(c, if c.res.Bound? then Attach(inp.now) else BeginPlanning(inp.now))
    case Attach(_) => if ret.Raised? then Halted(false) else At(c, BeginPlanning(inp.now))
    case BeginPlanning(_) =>
      if ret.Raised? then Abort(c, inp) else if c.run.automatic then At(c, AwaitPlanner) else Halted(true)
    case WriteManifest(m) => At(c, BuildContext(m))
    case WritePack(m, _) => At(c, BeginFinal(m, inp.now))
    case BeginFinal(m, _) =>
      if ret.Raised? then Abort(c, inp)
      else At(c, if c.res.Bound? then TakeChat(m) else CallFinal(m, None))
    case Reread(m) =>
      if !ret.ChatRet? || c.res.Unbound? then Abort(c, inp)
      else At(c, CallFinal(m, if ret.chat.conversation.Some? then ret.chat.conversation else c.res.conversation))
    case BindRead(m, resp) =>
      if !ret.ChatRet? then Abort(c, inp)
      else if ret.chat.conversation.Some? && ret.chat.conversation != resp.conversation then Abort(c, inp)
      else At(c, BindWrite(m, resp, if c.run.tunnel.Some? then c.run.tunnel else ret.chat.tunnel, inp.now))
    case BindWrite(m, resp, _, _) => if ret.Raised? then Abort(c, inp) else At(c, NoteConversation(m, resp, inp.now))
    case NoteConversation(m, resp, _) => if ret.Raised? then Abort(c, inp) else At(c, Validate(m, resp))
    case WriteResult(resp) => At(c, Finish(resp, inp.now))
    case Finish(_, _) => if ret.Raised? then Abort(c, inp) else Halted(true)
    case _ => Halted(false)
  }

  function ResumeSubmit(rid: Id, what: Submission, at: SubmitPoint, ret: Ret, inp: Input): Program {
    if ret.Raised? then Halted(false) else
    match at
    case Load =>
      var wanted := if what.PlannerResult? then WaitingPlanner else WaitingFinal;
      if ret.StatusRet? && ret.status.state == wanted then Submitting(rid, what, ReadRequest(ret.status)) else Halted(false)
    case ReadRequest(st) =>
      if ret.ArtifactRet? && ret.artifact.RequestFile? then Submitting(rid, what, ReadRoute(st, ret.artifact.request))
      else Halted(false)
    case ReadRoute(st, req) =>
      if !(ret.ArtifactRet? && ret.artifact.RouteFile?) then Halted(false)
      else if what.FinalResult? then Submitting(rid, what, ReadManifest(req, ret.artifact.route))
      else if inp.ok then Submitting(rid, what, StoreManifest(st, req))
      else Halted(false)
    case StoreManifest(st, req) => Submitting(rid, what, Build(st, req))
    case StorePack(st, _) =>
      if st.sessionId.Some? && st.chatId.Some? then Submitting(rid, what, ReadChat(st))
      else Submitting(rid, what, Advance(inp.now))
    case ReadChat(_) => Submitting(rid, what, Advance(inp.now))
    case ReadManifest(req, route) =>
      if ret.ArtifactRet? && ret.artifact.ManifestFile? && what.FinalResult?
         && ValidateReport(rid, req, route, ret.artifact.manifest, what.payload).Accepted?
      then Submitting(rid, what, StoreResult)
      else Halted(false)
    case StoreResult => Submitting(rid, what, Conclude(inp.now))
    case _ => Halted(true)
  }

  /** Where a program stands after the store call of its point returned or raised. */
  function Resume(p: Program, ret: Ret, inp: Input): Program {
    match p
    case MakeSession(run, _) =>
      if ret == Raised(InvalidState) then LoadSession(run)
      else if ret.Raised? then Halted(false)
      else ChooseChat(run, inp)
    case LoadSession(run) =>
      if !ret.SessionRet? || ret.session.repoRoot != run.request.repoRoot || ret.session.closedAt.Some?
      then Halted(false)
      else ChooseChat(run, inp)
    case LoadChat(run) =>
      if !ret.ChatRet? || ret.chat.archivedAt.Some? then Halted(false) else BindOrResolve(run, ret.cid, ret.chat, inp)
    case PickChat(run, _, _) => if !ret.ChatRet? then Halted(false) else BindOrResolve(run, ret.cid, ret.chat, inp)
    case BindExplicit(run, _, _) => if !ret.ChatRet? then Halted(false) else Resolved(run, ret.cid, ret.chat, inp)
    case At(c, point) => ResumeContext(c, point, ret, inp)
    case Submitting(rid, what, at) => ResumeSubmit(rid, what, at, ret, inp)
    case ArchiveLoadSession(sid, cid) =>
      if !ret.SessionRet? then Halted(false) else ArchiveLoadChat(sid, cid, ret.session.active)
    case ArchiveLoadChat(sid, cid, active) =>
      if !ret.ChatRet? || active == Some(cid) then Halted(false)
      else if ret.chat.archivedAt.Some? then Halted(true)
      else ArchiveWrite(sid, cid, inp.now)
    case _ => Halted(!ret.Raised?)
  }

  // --------------------------------------------------- steps without calls

  function LocalContext(c: Context, p: Point, inp: Input): Program {
    match p
    case AwaitPlanner => if inp.ok then At(c, WriteManifest(inp.manifest)) else Abort(c, inp)
    case BuildContext(m) =>
      if inp.ok then At(c, WritePack(m, Pack(c.run.request, m, inp.content))) else Abort(c, inp)
    case CallFinal(m, target) => At(c, AwaitFinal(m, target))
    case AwaitFinal(m, _) => if inp.ok then AfterFinalTurn(c, m, inp) else Abort(c, inp)
    case Validate(m, resp) =>
      if inp.ok && ValidateReport(c.rid, c.run.request, c.run.route, m, resp.payload).Accepted?
      then At(c, WriteResult(resp))
      else Abort(c, inp)
    case _ => Halted(false)
  }

  /** A step without a store call. Only the existence test of `ensure_session` looks at the disk. */
  function LocalStep(p: Program, d: Disk, inp: Input): Program {
    match p
    case Start(run) =>
      if run.request.temporary || run.request.policy.TemporaryChat?
      then At(Context(run, Unbound, inp.uuid), WriteStatus(inp.now))
      else CheckSession(run)
    case CheckSession(run) =>
      if DirOf(d, run.request.session).record.Some? then LoadSession(run) else MakeSession(run, inp.now)
    case At(c, point) => LocalContext(c, point, inp)
    case Submitting(rid, what, Build(st, req)) =>
      if inp.ok && what.PlannerResult?
      then Submitting(rid, what, StorePack(st, Pack(req, what.manifest, inp.content)))
      else Halted(false)
    case DrawChat(sid, kind, makeActive) => AddChat(sid, inp.uuid, kind, makeActive, inp.now)
    case _ => Halted(false)
  }
}
