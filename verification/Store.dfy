/** store.py as lock sections: what each call of RequestStore and SessionStore reads under its
    file lock, which whole-file writes it then makes, in order, and what it returns or raises. */
module Store {
  import opened Records

  // ------------------------------------------------------------------- disk

  /** One request directory. */
  datatype Folder = Folder(
    status: Option<RequestStatus>,
    request: Option<RawRequest>,
    route: Option<Route>,
    manifest: Option<Manifest>,
    pack: Option<Pack>,
    result: Option<Report>)

  /** One session directory. */
  datatype SessionDir = SessionDir(record: Option<SessionRecord>, chats: map<Id, ChatRecord>)

  datatype Disk = Disk(sessions: map<Id, SessionDir>, requests: map<Id, Folder>)

  const EMPTY_FOLDER := Folder(None, None, None, None, None, None)
  const EMPTY_DIR := SessionDir(None, map[])
  const EMPTY_DISK := Disk(map[], map[])

  function DirOf(d: Disk, sid: Id): SessionDir {
    if sid in d.sessions then d.sessions[sid] else EMPTY_DIR
  }

  function FolderOf(d: Disk, rid: Id): Folder {
    if rid in d.requests then d.requests[rid] else EMPTY_FOLDER
  }

  datatype Artifact =
    | RequestFile(request: RawRequest)
    | RouteFile(route: Route)
    | ManifestFile(manifest: Manifest)
    | PackFile(pack: Pack)
    | ResultFile(report: Report)

  datatype ArtifactKind = RequestKind | RouteKind | ManifestKind | PackKind | ResultKind

  /** One `_atomic_write`. */
  datatype Write =
    | PutSession(sid: Id, record: SessionRecord)
    | PutChat(sid: Id, cid: Id, chat: ChatRecord)
    | PutStatus(rid: Id, status: RequestStatus)
    | PutArtifact(rid: Id, artifact: Artifact)

  function Stored(f: Folder, a: Artifact): Folder {
    match a
    case RequestFile(x) => f.(request := Some(x))
    case RouteFile(x) => f.(route := Some(x))
    case ManifestFile(x) => f.(manifest := Some(x))
    case PackFile(x) => f.(pack := Some(x))
    case ResultFile(x) => f.(result := Some(x))
  }

  function Loaded(f: Folder, k: ArtifactKind): Option<Artifact> {
    match k
    case RequestKind => if f.request.Some? then Some(RequestFile(f.request.value)) else None
    case RouteKind => if f.route.Some? then Some(RouteFile(f.route.value)) else None
    case ManifestKind => if f.manifest.Some? then Some(ManifestFile(f.manifest.value)) else None
    case PackKind => if f.pack.Some? then Some(PackFile(f.pack.value)) else None
    case ResultKind => if f.result.Some? then Some(ResultFile(f.result.value)) else None
  }

  function Apply(d: Disk, w: Write): Disk {
    match w
    case PutSession(sid, r) => d.(sessions := d.sessions[sid := DirOf(d, sid).(record := Some(r))])
    case PutChat(sid, cid, c) =>
      d.(sessions := d.sessions[sid := DirOf(d, sid).(chats := DirOf(d, sid).chats[cid := c])])
    case PutStatus(rid, st) => d.(requests := d.requests[rid := FolderOf(d, rid).(status := Some(st))])
    case PutArtifact(rid, a) => d.(requests := d.requests[rid := Stored(FolderOf(d, rid), a)])
  }

  function ApplyAll(d: Disk, ws: seq<Write>): Disk {
    if ws == [] then d else Apply(ApplyAll(d, ws[..|ws| - 1]), ws[|ws| - 1])
  }

  // ------------------------------------------------------------------ calls

  /** The fields an `update_chat` call overwrites; None leaves the field as it is. */
  datatype ChatUpdate = ChatUpdate(
    conversation: Option<Option<Id>>, tunnel: Option<Option<Id>>, archivedAt: Option<Time>)

  datatype Call =
    | CreateSession(sid: Id, repoRoot: Id, now: Time)
    | GetSession(sid: Id)
    | CloseSession(sid: Id, now: Time)
    | CreateChat(sid: Id, cid: Id, kind: ChatKind, makeActive: bool, now: Time)
    | MainChat(sid: Id, cid: Id, now: Time)
    | GetChat(sid: Id, cid: Id)
    | SelectChat(sid: Id, cid: Id, now: Time)
    | UpdateChat(sid: Id, cid: Id, update: ChatUpdate, now: Time)
    | AppendRequest(sid: Id, cid: Id, rid: Id, now: Time)
    | CreateStatus(rid: Id, status: RequestStatus)
    | LoadStatus(rid: Id)
    | WriteModel(rid: Id, artifact: Artifact)
    | ReadModel(rid: Id, file: ArtifactKind)
    | Transition(rid: Id, expected: RequestState, next: RequestState, rebind: Option<Option<Id>>, now: Time)
    | UpdateProgress(rid: Id, text: Id, now: Time)
    | UpdateStatus(rid: Id, conversation: Option<Id>, now: Time)
    | FailRequest(rid: Id, error: Id, now: Time)
  {
    predicate OnSession() {
      CreateSession? || GetSession? || CloseSession? || CreateChat? || MainChat? || GetChat?
      || SelectChat? || UpdateChat? || AppendRequest?
    }
  }

  datatype Lock = SessionLock(sid: Id) | StateLock(rid: Id)

  /** The file lock under which a call runs. */
  function LockOf(q: Call): Lock {
    if q.OnSession() then SessionLock(q.sid) else StateLock(q.rid)
  }

  datatype StoreError = InvalidState | Unknown | Unreadable

  datatype Ret =
    | Raised(error: StoreError)
    | NoValue
    | SessionRet(session: SessionRecord)
    | ChatRet(cid: Id, chat: ChatRecord)
    | StatusRet(status: RequestStatus)
    | ArtifactRet(artifact: Artifact)

  datatype Section = Section(writes: seq<Write>, ret: Ret)

  function Overwritten(c: ChatRecord, u: ChatUpdate, now: Time): ChatRecord {
    c.(conversation := if u.conversation.Some? then u.conversation.value else c.conversation,
       tunnel := if u.tunnel.Some? then u.tunnel.value else c.tunnel,
       archivedAt := if u.archivedAt.Some? then u.archivedAt else c.archivedAt,
       updatedAt := now)
  }

  function FreshChat(sid: Id, kind: ChatKind, now: Time): ChatRecord {
    ChatRecord(sid, kind, None, None, [], now, None)
  }

  /** The session part of a section: what it does to the directory it locked. */
  function SessionSection(q: Call, dir: SessionDir): Section
    requires q.OnSession()
  {
    var sid := q.sid;
    match q
    case CreateSession(_, root, now) =>
      var r := SessionRecord(root, None, [], now, None);
      if dir.record.Some? then Section([], Raised(InvalidState))
      else Section([PutSession(sid, r)], SessionRet(r))
    case GetSession(_) =>
      if dir.record.None? then Section([], Raised(Unknown))
      else Section([], SessionRet(dir.record.value))
    case CloseSession(_, now) =>
      if dir.record.None? then Section([], Raised(Unreadable))
      else
        var r := dir.record.value.(closedAt := Some(now), updatedAt := now);
        Section([PutSession(sid, r)], SessionRet(r))
    case CreateChat(_, cid, kind, makeActive, now) =>
      if dir.record.None? then Section([], Raised(Unknown))
      else if dir.record.value.closedAt.Some? then Section([], Raised(InvalidState))
      else
        var r := dir.record.value;
        var c := FreshChat(sid, kind, now);
        Section(
          [PutChat(sid, cid, c),
           PutSession(sid, r.(chatIds := r.chatIds + [cid],
                              active := if makeActive then Some(cid) else r.active,
                              updatedAt := now))],
          ChatRet(cid, c))
    case MainChat(_, cid, now) =>
      if dir.record.None? then Section([], Raised(Unreadable))
      else if dir.record.value.closedAt.Some? then Section([], Raised(InvalidState))
      else
        var r := dir.record.value;
        if r.active.Some? then
          if r.active.value in dir.chats then Section([], ChatRet(r.active.value, dir.chats[r.active.value]))
          else Section([], Raised(Unreadable))
        else
          var c := FreshChat(sid, Main, now);
          Section(
            [PutChat(sid, cid, c),
             PutSession(sid, r.(active := Some(cid), chatIds := r.chatIds + [cid], updatedAt := now))],
            ChatRet(cid, c))
    case GetChat(_, cid) =>
      if cid !in dir.chats then Section([], Raised(Unknown))
      else Section([], ChatRet(cid, dir.chats[cid]))
    case SelectChat(_, cid, now) =>
      if dir.record.None? then Section([], Raised(Unreadable))
      else if dir.record.value.closedAt.Some? then Section([], Raised(InvalidState))
      else if cid !in dir.record.value.chatIds || cid !in dir.chats then Section([], Raised(Unknown))
      else if dir.chats[cid].archivedAt.Some? then Section([], Raised(InvalidState))
      else
        var r := dir.record.value.(active := Some(cid), updatedAt := now);
        Section([PutSession(sid, r)], SessionRet(r))
    case UpdateChat(_, cid, u, now) =>
      if cid !in dir.chats then Section([], Raised(Unreadable))
      else
        var c := Overwritten(dir.chats[cid], u, now);
        if dir.record.None? then Section([PutChat(sid, cid, c)], Raised(Unreadable))
        else Section([PutChat(sid, cid, c), PutSession(sid, dir.record.value.(updatedAt := now))], ChatRet(cid, c))
    case AppendRequest(_, cid, rid, now) =>
      if cid !in dir.chats then Section([], Raised(Unreadable))
      else if rid in dir.chats[cid].requestIds then Section([], ChatRet(cid, dir.chats[cid]))
      else
        var c := dir.chats[cid].(requestIds := dir.chats[cid].requestIds + [rid], updatedAt := now);
        Section([PutChat(sid, cid, c)], ChatRet(cid, c))
  }

  /** The request part: what a section does to the request directory it locked. */
  function RequestSection(q: Call, f: Folder): Section
    requires !q.OnSession()
  {
    var rid := q.rid;
    match q
    case CreateStatus(_, st) =>
      if f.status.Some? then Section([], Raised(InvalidState))
      else Section([PutStatus(rid, st)], StatusRet(st))
    case LoadStatus(_) =>
      if f.status.None? then Section([], Raised(Unreadable)) else Section([], StatusRet(f.status.value))
    case WriteModel(_, a) => Section([PutArtifact(rid, a)], NoValue)
    case ReadModel(_, k) =>
      if Loaded(f, k).None? then Section([], Raised(Unreadable)) else Section([], ArtifactRet(Loaded(f, k).value))
    case Transition(_, expected, next, rebind, now) =>
      if f.status.None? then Section([], Raised(Unreadable))
      else if f.status.value.state != expected then Section([], Raised(InvalidState))
      else
        var st := f.status.value.(
          state := next,
          conversation := if rebind.Some? then rebind.value else f.status.value.conversation,
          updatedAt := now);
        Section([PutStatus(rid, st)], StatusRet(st))
    case UpdateProgress(_, text, now) =>
      if f.status.None? then Section([], NoValue)
      else if !f.status.value.state.RunningPlanner? && !f.status.value.state.RunningFinal? then Section([], NoValue)
      else Section([PutStatus(rid, f.status.value.(partialText := Some(text), partialAt := Some(now)))], NoValue)
    case UpdateStatus(_, conversation, now) =>
      if f.status.None? then Section([], Raised(Unreadable))
      else
        var st := f.status.value.(conversation := conversation, updatedAt := now);
        Section([PutStatus(rid, st)], StatusRet(st))
    case FailRequest(_, error, now) =>
      if f.status.None? then Section([], Raised(Unreadable))
      else if f.status.value.state.Complete? then Section([], StatusRet(f.status.value))
      else
        var st := f.status.value.(state := Failed, updatedAt := now, error := Some(error));
        Section([PutStatus(rid, st)], StatusRet(st))
  }

  /** What the one write of a request call makes of its folder. */
  function Written(q: Call, f: Folder): Folder
    requires !q.OnSession() && RequestSection(q, f).writes != []
  {
    var w := RequestSection(q, f).writes[0];
    match w
    case PutStatus(_, st) => f.(status := Some(st))
    case PutArtifact(_, a) => Stored(f, a)
    case _ => f
  }

  function SectionOf(q: Call, d: Disk): Section {
    if q.OnSession() then SessionSection(q, DirOf(d, q.sid)) else RequestSection(q, FolderOf(d, q.rid))
  }

  /** The disk after the first `k` writes of the section that read `d`. */
  function AfterWrites(q: Call, d: Disk, k: nat): Disk
    requires k <= |SectionOf(q, d).writes|
  {
    ApplyAll(d, SectionOf(q, d).writes[..k])
  }

  /** Two disks hold the same files in the directory a lock guards. */
  predicate Agree(l: Lock, d: Disk, e: Disk) {
    match l
    case SessionLock(sid) => DirOf(d, sid) == DirOf(e, sid)
    case StateLock(rid) => FolderOf(d, rid) == FolderOf(e, rid)
  }

  /** The directory a write touches, named by the lock that guards it. */
  function GuardOf(w: Write): Lock {
    if w.PutSession? || w.PutChat? then SessionLock(w.sid) else StateLock(w.rid)
  }

  /** Every write of a section goes to the directory the section locked. */
  lemma WritesAreGuarded(q: Call, d: Disk)
    ensures |SectionOf(q, d).writes| <= 2
    ensures forall k :: 0 <= k < |SectionOf(q, d).writes| ==> GuardOf(SectionOf(q, d).writes[k]) == LockOf(q)
  {
  }

  /** A section reads nothing outside the directory it locked. */
  lemma ReadsAreGuarded(q: Call, d: Disk, e: Disk)
    requires Agree(LockOf(q), d, e)
    ensures SectionOf(q, d) == SectionOf(q, e)
  {
  }

  lemma ApplyFrame(l: Lock, d: Disk, w: Write)
    requires GuardOf(w) != l
    ensures Agree(l, d, Apply(d, w))
  {
  }

  lemma ApplyAgrees(l: Lock, d: Disk, e: Disk, w: Write)
    requires Agree(l, d, e) && GuardOf(w) == l
    ensures Agree(l, Apply(d, w), Apply(e, w))
  {
  }

  lemma AfterWritesStep(q: Call, d: Disk, k: nat)
    requires k < |SectionOf(q, d).writes|
    ensures AfterWrites(q, d, k + 1) == Apply(AfterWrites(q, d, k), SectionOf(q, d).writes[k])
  {
    var ws := SectionOf(q, d).writes[..k + 1];
    assert ws[..|ws| - 1] == SectionOf(q, d).writes[..k];
  }
}
