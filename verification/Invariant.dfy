/** What holds in every reachable state, at the granularity of single file writes. */
module Invariant {
  import opened Records
  import opened ReportValidation
  import opened Store
  import opened Engine
  import opened Machine

  predicate Distinct(xs: seq<Id>) {
    forall i, j | 0 <= i < j < |xs| :: xs[i] != xs[j]
  }

  // -------------------------------------------------------- on-disk invariants

  predicate ListsMain(dir: SessionDir, r: SessionRecord, cid: Id) {
    cid in r.chatIds && cid in dir.chats && dir.chats[cid].kind.Main?
  }

  ghost predicate RecordOk(dir: SessionDir, r: SessionRecord) {
    && Distinct(r.chatIds)
    && (forall c | c in r.chatIds :: c in dir.chats)
    && (r.active.Some? ==> r.active.value in r.chatIds)
    && (forall c | ListsMain(dir, r, c) :: r.active.Some?)
    && (forall c, e | ListsMain(dir, r, c) && ListsMain(dir, r, e) :: c == e)
  }

  /** The structure of one session directory. */
  ghost predicate DirOk(sid: Id, dir: SessionDir) {
    && (dir.record.None? ==> dir.chats == map[])
    && (dir.record.Some? ==> RecordOk(dir, dir.record.value))
    && (forall c | c in dir.chats :: dir.chats[c].sessionId == sid && Distinct(dir.chats[c].requestIds))
  }

  /** The context pack was built from the stored request and the stored manifest. */
  predicate PackMatches(f: Folder) {
    f.request.Some? && f.manifest.Some? && f.pack.Some?
    && f.pack.value.request == f.request.value && f.pack.value.manifest == f.manifest.value
  }

  predicate Answered(rid: Id, f: Folder, r: Report) {
    && f.request.Some? && f.route.Some? && f.manifest.Some?
    && ValidateReport(rid, f.request.value, f.route.value, f.manifest.value, r) == Accepted(r)
  }

  /** The state of a request vouches for its artifacts. */
  predicate FolderValid(rid: Id, f: Folder) {
    && (f.status.None? ==> f == EMPTY_FOLDER)
    && (f.status.Some? ==>
          var st := f.status.value.state;
          && (!st.New? && !st.Failed? ==> f.request.Some? && f.route.Some?)
          && (st.WaitingFinal? || st.RunningFinal? || st.Complete? ==> PackMatches(f))
          && (st.Complete? ==> f.result.Some? && Answered(rid, f, f.result.value)))
  }

  /** Every request listed in a chat exists and names that session and chat. */
  predicate Names(f: Folder, sid: Id, cid: Id) {
    f.status.Some? && f.status.value.sessionId == Some(sid) && f.status.value.chatId == Some(cid)
  }

  ghost predicate ChatsOk(d: Disk) {
    forall sid, cid, rid | cid in DirOf(d, sid).chats && rid in DirOf(d, sid).chats[cid].requestIds ::
      Names(FolderOf(d, rid), sid, cid)
  }

  ghost predicate DiskOk(d: Disk) {
    && (forall sid :: DirOk(sid, DirOf(d, sid)))
    && (forall rid :: FolderValid(rid, FolderOf(d, rid)))
    && ChatsOk(d)
  }

  ghost predicate UsedOk(d: Disk, used: set<Id>) {
    && (forall sid, cid | cid in DirOf(d, sid).chats :: cid in used)
    && (forall rid | FolderOf(d, rid) != EMPTY_FOLDER :: rid in used)
  }

  // ------------------------------------------------------------------ clients

  /** The uuid a program has drawn and not yet finished with. */
  function Drawn(p: Program): Option<Id> {
    match p
    case PickChat(_, cid, _) => Some(cid)
    case AddChat(_, cid, _, _, _) => Some(cid)
    case At(c, _) => Some(c.rid)
    case _ => None
  }

  predicate Wrote(cl: Client) { cl.sec.Some? && cl.sec.value.done > 0 }

  /** An open section read a well-formed directory, and the directory it guards is exactly what
      it read with its own first `done` writes applied. */
  ghost predicate SectionOk(d: Disk, cl: Client) {
    cl.sec.Some? ==>
      && CallOf(cl.prog).Some?
      && cl.sec.value.done <= |Current(cl).writes|
      && (CallOf(cl.prog).value.OnSession() ==>
            DirOk(CallOf(cl.prog).value.sid, DirOf(cl.sec.value.snap, CallOf(cl.prog).value.sid)))
      && (!cl.crashed ==>
            Agree(LockOf(CallOf(cl.prog).value), d, AfterWrites(CallOf(cl.prog).value, cl.sec.value.snap, cl.sec.value.done)))
  }

  /** A drawn chat id names no chat until its own client writes it. */
  ghost predicate FreshChatOk(d: Disk, cl: Client) {
    (cl.prog.PickChat? || cl.prog.AddChat?) ==>
      && (!Wrote(cl) ==> forall sid :: cl.prog.cid !in DirOf(d, sid).chats)
      && (cl.sec.Some? && CallOf(cl.prog).Some? && CallOf(cl.prog).value.OnSession() ==>
            cl.prog.cid !in DirOf(cl.sec.value.snap, CallOf(cl.prog).value.sid).chats)
  }

  predicate Exists(d: Disk, sid: Id, cid: Id) { cid in DirOf(d, sid).chats }

  /** The chat a run resolved to exists. */
  predicate ResolutionOk(d: Disk, p: Program) {
    match p
    case At(c, _) => c.res.Bound? ==> Exists(d, c.res.sessionId, c.res.chatId)
    case BindExplicit(run, cid, _) => Exists(d, run.request.session, cid)
    case _ => true
  }

  /** The request a program is the only one to write, besides progress notes. */
  function Owner(cl: Client): Option<Id> {
    if cl.crashed then None else
    match cl.prog
    case At(c, p) =>
      if Wrote(cl) && (p.Finish? || p.Failing? || (p.BeginPlanning? && !c.run.automatic)) then None else Some(c.rid)
    case Submitting(rid, _, at) =>
      if at.TakeRequest? || at.Load? || (Wrote(cl) && (at.Advance? || at.Conclude?)) then None else Some(rid)
    case _ => None
  }

  predicate InState(f: Folder, st: RequestState) { f.status.Some? && f.status.value.state == st }

  predicate OwnStatus(c: Context, f: Folder) {
    && f.status.Some? && f.status.value.sessionId == SidOf(c.res) && f.status.value.chatId == CidOf(c.res)
    && f.status.value.policy == (if c.res.Bound? then c.run.request.policy else TemporaryChat)
  }

  predicate Submitted(c: Context, f: Folder) {
    f.request == Some(c.run.request) && f.route == Some(c.run.route)
  }

  /** The folder of a request nothing was planned for yet. */
  predicate Unplanned(f: Folder) { f.manifest.None? && f.pack.None? && f.result.None? }

  /** What the folder of a run holds at each of its points; `w` says the point's own write is done. */
  predicate RunFolder(c: Context, p: Point, w: bool, f: Folder) {
    match p
    case WriteStatus(_) => if w then OwnStatus(c, f) && InState(f, New) && Unplanned(f) else f == EMPTY_FOLDER
    case WriteRequest => OwnStatus(c, f) && InState(f, New) && Unplanned(f) && (w ==> f.request == Some(c.run.request))
    case WriteRoute =>
      && OwnStatus(c, f) && InState(f, New) && Unplanned(f) && f.request == Some(c.run.request)
      && (w ==> f.route == Some(c.run.route))
    case Attach(_) => OwnStatus(c, f) && InState(f, New) && Submitted(c, f) && Unplanned(f)
    case BeginPlanning(_) =>
      OwnStatus(c, f) && InState(f, if w then RunningPlanner else New) && Submitted(c, f) && Unplanned(f)
    case AwaitPlanner => OwnStatus(c, f) && InState(f, RunningPlanner) && Submitted(c, f) && Unplanned(f)
    case WriteManifest(m) =>
      && OwnStatus(c, f) && InState(f, RunningPlanner) && Submitted(c, f) && f.pack.None? && f.result.None?
      && (w ==> f.manifest == Some(m))
    case BuildContext(m) =>
      && OwnStatus(c, f) && InState(f, RunningPlanner) && Submitted(c, f) && f.manifest == Some(m)
      && f.pack.None? && f.result.None?
    case WritePack(m, pack) =>
      && OwnStatus(c, f) && InState(f, RunningPlanner) && Submitted(c, f) && f.manifest == Some(m) && f.result.None?
      && pack.request == c.run.request && pack.manifest == m
      && (w ==> f.pack == Some(pack))
    case BeginFinal(m, _) =>
      && OwnStatus(c, f) && InState(f, if w then RunningFinal else RunningPlanner)
      && Submitted(c, f) && f.manifest == Some(m) && PackMatches(f) && f.result.None?
    case WriteResult(resp) =>
      && OwnStatus(c, f) && InState(f, RunningFinal) && Submitted(c, f) && Answered(c.rid, f, resp.payload)
      && f.status.value.conversation == resp.conversation
      && f.result == if w then Some(resp.payload) else None
    case Finish(resp, _) =>
      && OwnStatus(c, f) && InState(f, RunningFinal) && Submitted(c, f) && Answered(c.rid, f, resp.payload)
      && f.result == Some(resp.payload)
    case Failing(_, _) =>
      OwnStatus(c, f) && (InState(f, RunningPlanner) || InState(f, RunningFinal)) && Submitted(c, f) && f.result.None?
    case TakeChat(m) => AtFinal(c, m, f)
    case Reread(m) => AtFinal(c, m, f)
    case CallFinal(m, _) => AtFinal(c, m, f)
    case AwaitFinal(m, _) => AtFinal(c, m, f)
    case BindRead(m, _) => AtFinal(c, m, f)
    case BindWrite(m, _, _, _) => AtFinal(c, m, f)
    case NoteConversation(m, resp, _) => AtFinal(c, m, f) && (w ==> f.status.value.conversation == resp.conversation)
    case Validate(m, resp) => AtFinal(c, m, f) && f.status.value.conversation == resp.conversation
  }

  predicate AtFinal(c: Context, m: Manifest, f: Folder) {
    OwnStatus(c, f) && InState(f, RunningFinal) && Submitted(c, f) && f.manifest == Some(m) && f.result.None?
  }

  /** The status a submission read names the chat that the folder's status still names. */
  predicate StillNames(st: RequestStatus, f: Folder) {
    f.status.Some? && f.status.value.sessionId == st.sessionId && f.status.value.chatId == st.chatId
  }

  predicate SubmitFolder(rid: Id, what: Submission, at: SubmitPoint, w: bool, f: Folder) {
    && (if what.PlannerResult?
        then !at.ReadManifest? && !at.StoreResult? && !at.Conclude? && InState(f, WaitingPlanner)
        else !at.StoreManifest? && !at.Build? && !at.StorePack? && !at.ReadChat? && !at.Advance? && InState(f, WaitingFinal))
    && match at
       case ReadRequest(st) => StillNames(st, f)
       case ReadRoute(st, req) => StillNames(st, f) && f.request == Some(req)
       case StoreManifest(st, req) =>
         StillNames(st, f) && f.request == Some(req) && (w ==> f.manifest == Some(what.manifest))
       case Build(st, req) => StillNames(st, f) && f.request == Some(req) && f.manifest == Some(what.manifest)
       case StorePack(st, pack) =>
         && StillNames(st, f)
         && f.request == Some(pack.request) && f.manifest == Some(pack.manifest) && pack.manifest == what.manifest
         && (w ==> f.pack == Some(pack))
       case ReadChat(st) => StillNames(st, f) && PackMatches(f) && f.manifest == Some(what.manifest)
       case Advance(_) => PackMatches(f) && f.manifest == Some(what.manifest)
       case ReadManifest(req, route) => f.request == Some(req) && f.route == Some(route)
       case StoreResult => Answered(rid, f, what.payload) && (w ==> f.result == Some(what.payload))
       case Conclude(_) => Answered(rid, f, what.payload) && f.result == Some(what.payload)
       case _ => true
  }

  /** What the owner of a request knows about its folder. */
  predicate OwnFolder(cl: Client, f: Folder) {
    Owner(cl).Some? ==>
      match cl.prog
      case At(c, p) => RunFolder(c, p, Wrote(cl), f)
      case Submitting(rid, what, at) => SubmitFolder(rid, what, at, Wrote(cl), f)
      case _ => true
  }

  ghost predicate ClientOk(d: Disk, used: set<Id>, cl: Client) {
    && SectionOk(d, cl)
    && FreshChatOk(d, cl)
    && ResolutionOk(d, cl.prog)
    && (Drawn(cl.prog).Some? ==> Drawn(cl.prog).value in used)
    && (cl.prog.DrawChat? || cl.prog.AddChat? ==> !cl.prog.kind.Main?)
    && (Owner(cl).Some? ==> OwnFolder(cl, FolderOf(d, Owner(cl).value)))
  }

  ghost predicate PairOk(a: Client, b: Client) {
    && (Drawn(a.prog).Some? ==> Drawn(a.prog) != Drawn(b.prog))
    && (forall l :: !(HoldsLock(a, l) && HoldsLock(b, l)))
    && (forall o :: !(HoldsOp(a, o) && HoldsOp(b, o)))
  }

  ghost predicate Inv(s: State) {
    && DiskOk(s.disk)
    && UsedOk(s.disk, s.used)
    && (forall i | 0 <= i < |s.clients| :: ClientOk(s.disk, s.used, s.clients[i]))
    && (forall i, j | 0 <= i < |s.clients| && 0 <= j < |s.clients| && i != j :: PairOk(s.clients[i], s.clients[j]))
  }

  lemma InitOk(s: State)
    requires Init(s)
    ensures Inv(s)
  {
  }
}
