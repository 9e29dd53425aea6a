/** Every step keeps the invariant. */
module Preservation {
  import opened Records
  import opened Store
  import opened Engine
  import opened Machine
  import opened Invariant

  // ------------------------------------------------ one write of one section

  /** What one write of a call does to a chat record. */
  ghost predicate ChatStep(q: Call, c: Id, a: ChatRecord, b: ChatRecord) {
    && b.kind == a.kind && b.sessionId == a.sessionId
    && (b.requestIds == a.requestIds
        || (q.AppendRequest? && c == q.cid && q.rid !in a.requestIds && b.requestIds == a.requestIds + [q.rid]))
    && (b.conversation == a.conversation
        || (q.UpdateChat? && c == q.cid && q.update.conversation == Some(b.conversation)))
    && (b.archivedAt == a.archivedAt
        || (q.UpdateChat? && c == q.cid && q.update.archivedAt.Some? && b.archivedAt.Some?))
  }

  predicate MakesChat(q: Call) { q.CreateChat? || q.MainChat? }

  /** What one write of a call does to a session record. */
  ghost predicate RecordStep(q: Call, a: SessionRecord, b: SessionRecord) {
    && b.repoRoot == a.repoRoot
    && (b.chatIds == a.chatIds || (MakesChat(q) && b.chatIds == a.chatIds + [q.cid]))
    && (a.closedAt.Some? ==> b.closedAt.Some? && b.chatIds == a.chatIds && b.active == a.active)
    && (a.active.Some? ==> b.active.Some?)
    && (b.active != a.active ==>
          && ((q.CreateChat? && q.makeActive) || (q.MainChat? && a.active.None?) || q.SelectChat?)
          && b.active == Some(q.cid))
  }

  ghost predicate DirStep(q: Call, a: SessionDir, b: SessionDir) {
    && (a.record.Some? ==> b.record.Some? && RecordStep(q, a.record.value, b.record.value))
    && (a.record.Some? && b.record.value.active != a.record.value.active ==>
          q.cid in b.chats && b.chats[q.cid].archivedAt.None?)
    && (a.record.None? && b.record.Some? ==> b.record.value.active.None? && b.record.value.chatIds == [])
    && (forall c | c in a.chats :: c in b.chats && ChatStep(q, c, a.chats[c], b.chats[c]))
    && (forall c | c in b.chats && c !in a.chats :: MakesChat(q) && c == q.cid && b.chats[c].requestIds == [])
  }

  /** A new chat id is new to the directory, and only `get_or_create_main_chat` makes MAIN chats. */
  predicate NewIdOk(q: Call, dir: SessionDir) {
    && (MakesChat(q) ==> q.cid !in dir.chats)
    && (q.CreateChat? ==> !q.kind.Main?)
  }

  lemma AfterNone(q: Call, d: Disk)
    ensures AfterWrites(q, d, 0) == d
  {
  }

  lemma AfterOne(q: Call, d: Disk)
    requires |SectionOf(q, d).writes| > 0
    ensures AfterWrites(q, d, 1) == Apply(d, SectionOf(q, d).writes[0])
  {
    AfterWritesStep(q, d, 0);
  }

  lemma AfterTwo(q: Call, d: Disk)
    requires |SectionOf(q, d).writes| > 1
    ensures AfterWrites(q, d, 2) == Apply(Apply(d, SectionOf(q, d).writes[0]), SectionOf(q, d).writes[1])
  {
    AfterWritesStep(q, d, 0);
    AfterWritesStep(q, d, 1);
  }

  /** Each write of a session section, seen from the directory it changes. */
  lemma SessionWriteStep(q: Call, d: Disk, k: nat)
    requires q.OnSession() && k < |SectionOf(q, d).writes|
    requires NewIdOk(q, DirOf(d, q.sid))
    ensures DirStep(q, DirOf(AfterWrites(q, d, k), q.sid), DirOf(AfterWrites(q, d, k + 1), q.sid))
  {
    WritesAreGuarded(q, d);
    AfterNone(q, d);
    AfterOne(q, d);
    if k == 1 { AfterTwo(q, d); }
  }

  /** A prefix of a section lists the MAIN chats of before, or the one it makes in a session without an active chat. */
  lemma PrefixListsMain(q: Call, d: Disk, k: nat)
    requires q.OnSession() && k <= |SectionOf(q, d).writes|
    requires DirOk(q.sid, DirOf(d, q.sid)) && NewIdOk(q, DirOf(d, q.sid))
    ensures var a, b := DirOf(d, q.sid), DirOf(AfterWrites(q, d, k), q.sid);
            a.record.Some? && b.record.Some? ==>
              && (forall c | ListsMain(b, b.record.value, c) ::
                    ListsMain(a, a.record.value, c) || (q.MainChat? && c == q.cid && a.record.value.active.None?))
              && (forall c, e | ListsMain(b, b.record.value, c) && ListsMain(b, b.record.value, e) :: c == e)
              && (forall c | ListsMain(b, b.record.value, c) :: b.record.value.active.Some?)
  {
    WritesAreGuarded(q, d);
    AfterNone(q, d);
    if k >= 1 { AfterOne(q, d); }
    if k == 2 { AfterTwo(q, d); }
  }

  lemma PrefixListsChats(q: Call, d: Disk, k: nat)
    requires q.OnSession() && k <= |SectionOf(q, d).writes|
    requires DirOk(q.sid, DirOf(d, q.sid)) && NewIdOk(q, DirOf(d, q.sid))
    ensures var b := DirOf(AfterWrites(q, d, k), q.sid);
            && (b.record.None? ==> b.chats == map[])
            && (b.record.Some? ==> Distinct(b.record.value.chatIds) && forall c | c in b.record.value.chatIds :: c in b.chats)
            && (b.record.Some? && b.record.value.active.Some? ==> b.record.value.active.value in b.record.value.chatIds)
            && (forall c | c in b.chats :: b.chats[c].sessionId == q.sid && Distinct(b.chats[c].requestIds))
  {
    WritesAreGuarded(q, d);
    AfterNone(q, d);
    if k >= 1 { AfterOne(q, d); }
    if k == 2 { AfterTwo(q, d); }
  }

  lemma NewRecordListsNothing(q: Call, d: Disk, k: nat)
    requires q.OnSession() && k <= |SectionOf(q, d).writes| && DirOk(q.sid, DirOf(d, q.sid))
    requires DirOf(d, q.sid).record.None? && DirOf(AfterWrites(q, d, k), q.sid).record.Some?
    ensures DirOf(AfterWrites(q, d, k), q.sid).record.value.chatIds == []
  {
    WritesAreGuarded(q, d);
    AfterNone(q, d);
    if k >= 1 { AfterOne(q, d); }
  }

  /** The directory is well formed after every prefix of a section's writes. */
  lemma SessionPrefixOk(q: Call, d: Disk, k: nat)
    requires q.OnSession() && k <= |SectionOf(q, d).writes|
    requires DirOk(q.sid, DirOf(d, q.sid)) && NewIdOk(q, DirOf(d, q.sid))
    ensures DirOk(q.sid, DirOf(AfterWrites(q, d, k), q.sid))
  {
    PrefixListsChats(q, d, k);
    PrefixListsMain(q, d, k);
    if DirOf(d, q.sid).record.None? && DirOf(AfterWrites(q, d, k), q.sid).record.Some? {
      NewRecordListsNothing(q, d, k);
    }
  }

  // ------------------------------------------------------- who owns a folder

  lemma OwnersDistinct(s: State, i: nat, j: nat)
    requires Inv(s) && i < |s.clients| && j < |s.clients| && i != j
    requires Owner(s.clients[i]).Some?
    ensures Owner(s.clients[i]) != Owner(s.clients[j])
  {
    var a, b := s.clients[i], s.clients[j];
    assert PairOk(a, b) && ClientOk(s.disk, s.used, a) && ClientOk(s.disk, s.used, b);
    if Owner(a) == Owner(b) && a.prog.Submitting? && b.prog.Submitting? {
      assert HoldsOp(a, RequestOp(a.prog.rid)) && HoldsOp(b, RequestOp(a.prog.rid));
    }
  }

  /** Two folders that differ at most in the live-monitoring fields of the status. */
  predicate SameButProgress(f: Folder, g: Folder) {
    && f.(status := None) == g.(status := None)
    && f.status.Some? == g.status.Some?
    && (f.status.Some? ==> f.status.value.Erased() == g.status.value.Erased())
  }

  lemma ErasedFields(a: RequestStatus, b: RequestStatus)
    requires a.Erased() == b.Erased()
    ensures a.state == b.state && a.sessionId == b.sessionId && a.chatId == b.chatId
    ensures a.conversation == b.conversation && a.updatedAt == b.updatedAt && a.error == b.error && a.policy == b.policy
  {
    assert a.Erased().state == b.Erased().state;
  }

  lemma ProgressFields(f: Folder, g: Folder)
    requires SameButProgress(f, g)
    ensures f == EMPTY_FOLDER <==> g == EMPTY_FOLDER
    ensures f.request == g.request && f.route == g.route && f.manifest == g.manifest && f.pack == g.pack && f.result == g.result
    ensures f.status.Some? ==>
              var a, b := f.status.value, g.status.value;
              && a.state == b.state && a.sessionId == b.sessionId && a.chatId == b.chatId && a.conversation == b.conversation
              && a.policy == b.policy
  {
    if f.status.Some? { ErasedFields(f.status.value, g.status.value); }
    assert f.(status := None).request == g.(status := None).request;
  }

  lemma ProgressInvisibleToRun(c: Context, p: Point, w: bool, f: Folder, g: Folder)
    requires SameButProgress(f, g) && RunFolder(c, p, w, f)
    ensures RunFolder(c, p, w, g)
  {
    ProgressFields(f, g);
  }

  lemma ProgressInvisibleToSubmission(rid: Id, what: Submission, at: SubmitPoint, w: bool, f: Folder, g: Folder)
    requires SameButProgress(f, g) && SubmitFolder(rid, what, at, w, f)
    ensures SubmitFolder(rid, what, at, w, g)
  {
    ProgressFields(f, g);
  }

  lemma ProgressInvisibleToOwner(cl: Client, f: Folder, g: Folder)
    requires SameButProgress(f, g)
    ensures OwnFolder(cl, f) ==> OwnFolder(cl, g)
  {
    if OwnFolder(cl, f) && Owner(cl).Some? {
      match cl.prog
      case At(c, p) => ProgressInvisibleToRun(c, p, Wrote(cl), f, g);
      case Submitting(rid, what, at) => ProgressInvisibleToSubmission(rid, what, at, Wrote(cl), f, g);
      case _ =>
    }
  }

  lemma ProgressInvisible(rid: Id, f: Folder, g: Folder)
    requires SameButProgress(f, g)
    ensures f == EMPTY_FOLDER <==> g == EMPTY_FOLDER
    ensures FolderValid(rid, f) ==> FolderValid(rid, g)
    ensures forall sid, cid :: Names(f, sid, cid) ==> Names(g, sid, cid)
  {
    if f.status.Some? { ErasedFields(f.status.value, g.status.value); }
    assert f.(status := None).request == g.(status := None).request;
  }

  // ----------------------------------------------------- the write of a step

  /** A client about to write: its section, the write, and the disk it leads to. */
  ghost predicate AtWrite(s: State, i: nat, q: Call, w: Write, t: State) {
    && Inv(s) && Can(s, i, WriteNext) && t == Do(s, i, WriteNext)
    && CallOf(s.clients[i].prog) == Some(q)
    && w == Current(s.clients[i]).writes[s.clients[i].sec.value.done]
  }

  lemma WriteKeepsAgreement(s: State, i: nat, q: Call, w: Write, t: State)
    requires AtWrite(s, i, q, w, t)
    ensures GuardOf(w) == LockOf(q)
    ensures t.disk == Apply(s.disk, w)
    ensures Agree(LockOf(q), s.disk, AfterWrites(q, s.clients[i].sec.value.snap, s.clients[i].sec.value.done))
    ensures Agree(LockOf(q), t.disk, AfterWrites(q, s.clients[i].sec.value.snap, s.clients[i].sec.value.done + 1))
    ensures forall l | l != LockOf(q) :: Agree(l, s.disk, t.disk)
  {
    var cl := s.clients[i];
    var snap, k := cl.sec.value.snap, cl.sec.value.done;
    assert ClientOk(s.disk, s.used, cl);
    WritesAreGuarded(q, snap);
    AfterWritesStep(q, snap, k);
    ApplyAgrees(LockOf(q), s.disk, AfterWrites(q, snap, k), w);
    forall l | l != LockOf(q) ensures Agree(l, s.disk, t.disk) { ApplyFrame(l, s.disk, w); }
  }

  lemma FreshBeforeSection(s: State, i: nat, q: Call)
    requires Inv(s) && i < |s.clients| && s.clients[i].sec.Some? && CallOf(s.clients[i].prog) == Some(q) && q.OnSession()
    ensures NewIdOk(q, DirOf(s.clients[i].sec.value.snap, q.sid))
  {
    assert ClientOk(s.disk, s.used, s.clients[i]);
  }

  /** A write of a session section changes its own directory by one DirStep and keeps it well formed. */
  lemma SessionWriteKept(s: State, i: nat, q: Call, w: Write, t: State)
    requires AtWrite(s, i, q, w, t) && q.OnSession()
    ensures DirStep(q, DirOf(s.disk, q.sid), DirOf(t.disk, q.sid))
    ensures forall sid :: DirOk(sid, DirOf(t.disk, sid))
    ensures forall sid | sid != q.sid :: DirOf(t.disk, sid) == DirOf(s.disk, sid)
    ensures forall rid :: FolderOf(t.disk, rid) == FolderOf(s.disk, rid)
  {
    var snap, k := s.clients[i].sec.value.snap, s.clients[i].sec.value.done;
    assert ClientOk(s.disk, s.used, s.clients[i]);
    WriteKeepsAgreement(s, i, q, w, t);
    FreshBeforeSection(s, i, q);
    SessionWriteStep(q, snap, k);
    SessionPrefixOk(q, snap, k + 1);
    forall sid | sid != q.sid ensures DirOf(t.disk, sid) == DirOf(s.disk, sid) {
      assert Agree(SessionLock(sid), s.disk, t.disk);
    }
    forall rid ensures FolderOf(t.disk, rid) == FolderOf(s.disk, rid) {
      assert Agree(StateLock(rid), s.disk, t.disk);
    }
  }

  /** The request a program attaches is its own, and it names the chat it is attached to. */
  lemma AttachedRequestNames(s: State, i: nat, q: Call)
    requires Inv(s) && i < |s.clients| && !s.clients[i].crashed && CallOf(s.clients[i].prog) == Some(q) && q.AppendRequest?
    ensures Names(FolderOf(s.disk, q.rid), q.sid, q.cid)
  {
    assert ClientOk(s.disk, s.used, s.clients[i]);
  }

  lemma SessionWriteUsedOk(s: State, i: nat, q: Call, w: Write, t: State)
    requires AtWrite(s, i, q, w, t) && q.OnSession()
    ensures UsedOk(t.disk, t.used)
  {
    SessionWriteKept(s, i, q, w, t);
    assert ClientOk(s.disk, s.used, s.clients[i]);
    CreatorDrew(s.clients[i].prog, q);
    forall sid, cid | cid in DirOf(t.disk, sid).chats ensures cid in t.used {
      if sid == q.sid && cid !in DirOf(s.disk, sid).chats { assert Drawn(s.clients[i].prog) == Some(cid); }
    }
  }

  lemma SessionWriteChatsOk(s: State, i: nat, q: Call, w: Write, t: State)
    requires AtWrite(s, i, q, w, t) && q.OnSession()
    ensures ChatsOk(t.disk)
  {
    SessionWriteKept(s, i, q, w, t);
    if q.AppendRequest? { AttachedRequestNames(s, i, q); }
    forall sid, cid, rid | cid in DirOf(t.disk, sid).chats && rid in DirOf(t.disk, sid).chats[cid].requestIds
      ensures Names(FolderOf(t.disk, rid), sid, cid)
    {
      if sid == q.sid && cid in DirOf(s.disk, sid).chats {
        assert ChatStep(q, cid, DirOf(s.disk, sid).chats[cid], DirOf(t.disk, sid).chats[cid]);
      }
    }
  }

  lemma SessionWriteDiskOk(s: State, i: nat, q: Call, w: Write, t: State)
    requires AtWrite(s, i, q, w, t) && q.OnSession()
    ensures DiskOk(t.disk) && UsedOk(t.disk, t.used)
  {
    SessionWriteKept(s, i, q, w, t);
    SessionWriteUsedOk(s, i, q, w, t);
    SessionWriteChatsOk(s, i, q, w, t);
  }

  /** What a write of a request section does to its folder, by who makes it. */
  lemma RequestWriteKept(s: State, i: nat, q: Call, w: Write, t: State)
    requires AtWrite(s, i, q, w, t) && !q.OnSession()
    ensures forall sid :: DirOf(t.disk, sid) == DirOf(s.disk, sid)
    ensures forall rid | rid != q.rid :: FolderOf(t.disk, rid) == FolderOf(s.disk, rid)
    ensures FolderOf(t.disk, q.rid) == FolderOf(Apply(s.disk, w), q.rid)
    ensures s.clients[i].sec.value.done == 0
    ensures FolderOf(s.disk, q.rid) == FolderOf(s.clients[i].sec.value.snap, q.rid)
  {
    var snap := s.clients[i].sec.value.snap;
    WriteKeepsAgreement(s, i, q, w, t);
    AfterNone(q, snap);
    forall sid ensures DirOf(t.disk, sid) == DirOf(s.disk, sid) {
      assert Agree(SessionLock(sid), s.disk, t.disk);
    }
    forall rid | rid != q.rid ensures FolderOf(t.disk, rid) == FolderOf(s.disk, rid) {
      assert Agree(StateLock(rid), s.disk, t.disk);
    }
  }

  /** A request write is a progress note, or it is made by the owner of the request. */
  lemma RequestWriter(s: State, i: nat, q: Call, w: Write, t: State)
    requires AtWrite(s, i, q, w, t) && !q.OnSession()
    ensures q.UpdateProgress? || Owner(s.clients[i]) == Some(q.rid)
    ensures q.UpdateProgress? ==> SameButProgress(FolderOf(s.disk, q.rid), FolderOf(t.disk, q.rid))
    ensures q.UpdateProgress? ==> FolderOf(s.disk, q.rid).status.Some?
  {
    RequestWriteKept(s, i, q, w, t);
  }

  /** The owner's write takes the folder from before the write to after it. */
  lemma OwnedWrite(p: Program, q: Call, snap: Disk, f: Folder)
    requires CallOf(p) == Some(q) && !q.OnSession() && !q.UpdateProgress? && RequestSection(q, f).writes != []
    requires Owner(Client(p, Some(OpenSection(snap, 0)), false)) == Some(q.rid)
    requires OwnFolder(Client(p, Some(OpenSection(snap, 0)), false), f) && FolderValid(q.rid, f)
    ensures OwnFolder(Client(p, Some(OpenSection(snap, 1)), false), Written(q, f))
    ensures FolderValid(q.rid, Written(q, f))
    ensures forall sid, cid :: Names(f, sid, cid) ==> Names(Written(q, f), sid, cid)
    ensures f.status.None? ==> Drawn(p) == Some(q.rid)
  {
  }

  /** What the owner knows of its folder when it writes. */
  lemma OwnerAtWrite(s: State, i: nat, q: Call, w: Write, t: State)
    requires AtWrite(s, i, q, w, t) && !q.OnSession() && !q.UpdateProgress?
    ensures var cl, f := s.clients[i], FolderOf(s.disk, q.rid);
            && cl == Client(cl.prog, Some(OpenSection(cl.sec.value.snap, 0)), false)
            && Owner(cl) == Some(q.rid) && OwnFolder(cl, f) && FolderValid(q.rid, f)
            && Current(cl) == RequestSection(q, f) && RequestSection(q, f).writes != [] && w == RequestSection(q, f).writes[0]
  {
    RequestWriteKept(s, i, q, w, t);
    RequestWriter(s, i, q, w, t);
    assert ClientOk(s.disk, s.used, s.clients[i]) && FolderValid(q.rid, FolderOf(s.disk, q.rid));
  }

  lemma OwnerWriteKept(s: State, i: nat, q: Call, w: Write, t: State)
    requires AtWrite(s, i, q, w, t) && !q.OnSession() && !q.UpdateProgress?
    ensures OwnFolder(t.clients[i], FolderOf(t.disk, q.rid))
    ensures FolderValid(q.rid, FolderOf(t.disk, q.rid))
    ensures forall sid, cid :: Names(FolderOf(s.disk, q.rid), sid, cid) ==> Names(FolderOf(t.disk, q.rid), sid, cid)
    ensures FolderOf(s.disk, q.rid).status.None? ==> Drawn(s.clients[i].prog) == Some(q.rid)
    ensures RequestSection(q, FolderOf(s.disk, q.rid)).writes != []
    ensures FolderOf(t.disk, q.rid) == Written(q, FolderOf(s.disk, q.rid))
  {
    OwnerAtWrite(s, i, q, w, t);
    RequestWriteKept(s, i, q, w, t);
    var cl := s.clients[i];
    OwnedWrite(cl.prog, q, cl.sec.value.snap, FolderOf(s.disk, q.rid));
  }

  lemma RequestWriteDiskOk(s: State, i: nat, q: Call, w: Write, t: State)
    requires AtWrite(s, i, q, w, t) && !q.OnSession()
    ensures DiskOk(t.disk) && UsedOk(t.disk, t.used)
    ensures forall sid, cid :: Names(FolderOf(s.disk, q.rid), sid, cid) ==> Names(FolderOf(t.disk, q.rid), sid, cid)
  {
    RequestWriteKept(s, i, q, w, t);
    RequestWriter(s, i, q, w, t);
    assert ClientOk(s.disk, s.used, s.clients[i]);
    if q.UpdateProgress? {
      ProgressInvisible(q.rid, FolderOf(s.disk, q.rid), FolderOf(t.disk, q.rid));
    } else {
      OwnerWriteKept(s, i, q, w, t);
    }
    assert FolderValid(q.rid, FolderOf(t.disk, q.rid));
    forall sid, cid, rid | cid in DirOf(t.disk, sid).chats && rid in DirOf(t.disk, sid).chats[cid].requestIds
      ensures Names(FolderOf(t.disk, rid), sid, cid)
    {
      assert DirOf(t.disk, sid) == DirOf(s.disk, sid);
      assert Names(FolderOf(s.disk, rid), sid, cid);
    }
    forall rid | FolderOf(t.disk, rid) != EMPTY_FOLDER ensures rid in t.used {
      if rid == q.rid && FolderOf(s.disk, rid) == EMPTY_FOLDER {
        assert Drawn(s.clients[i].prog) == Some(q.rid);
      }
    }
  }

  lemma OtherSectionKept(s: State, i: nat, q: Call, w: Write, t: State, j: nat)
    requires AtWrite(s, i, q, w, t) && j < |s.clients| && j != i
    ensures SectionOk(t.disk, s.clients[j])
  {
    var a, b := s.clients[i], s.clients[j];
    assert PairOk(a, b) && ClientOk(s.disk, s.used, b);
    if b.sec.Some? && !b.crashed {
      WriteKeepsAgreement(s, i, q, w, t);
      var l := LockOf(CallOf(b.prog).value);
      assert HoldsLock(b, l) && HoldsLock(a, LockOf(q));
      assert Agree(l, s.disk, t.disk);
    }
  }

  /** Chats are never removed, and a new one carries an id its writer has drawn. */
  lemma ChatsGrow(s: State, i: nat, q: Call, w: Write, t: State)
    requires AtWrite(s, i, q, w, t)
    ensures forall sid, cid | Exists(s.disk, sid, cid) :: Exists(t.disk, sid, cid)
    ensures forall sid, cid | Exists(t.disk, sid, cid) ::
              Exists(s.disk, sid, cid) || (Drawn(s.clients[i].prog) == Some(cid) && !q.AppendRequest?)
  {
    if q.OnSession() {
      SessionWriteKept(s, i, q, w, t);
      CreatorDrew(s.clients[i].prog, q);
      forall sid, cid | Exists(t.disk, sid, cid)
        ensures Exists(s.disk, sid, cid) || (Drawn(s.clients[i].prog) == Some(cid) && !q.AppendRequest?)
      {
        if sid != q.sid { assert DirOf(t.disk, sid) == DirOf(s.disk, sid); }
      }
    } else {
      RequestWriteKept(s, i, q, w, t);
    }
  }

  lemma CreatorDrew(p: Program, q: Call)
    requires CallOf(p) == Some(q)
    ensures MakesChat(q) ==> Drawn(p) == Some(q.cid)
  {
  }

  lemma ChatKnowledgeKept(d: Disk, e: Disk, cl: Client, id: Option<Id>)
    requires FreshChatOk(d, cl) && ResolutionOk(d, cl.prog)
    requires forall sid, cid | Exists(d, sid, cid) :: Exists(e, sid, cid)
    requires forall sid, cid | Exists(e, sid, cid) :: Exists(d, sid, cid) || id == Some(cid)
    requires Drawn(cl.prog).Some? ==> Drawn(cl.prog) != id
    ensures FreshChatOk(e, cl) && ResolutionOk(e, cl.prog)
  {
    if (cl.prog.PickChat? || cl.prog.AddChat?) && !Wrote(cl) {
      forall sid ensures cl.prog.cid !in DirOf(e, sid).chats {
        assert !Exists(d, sid, cl.prog.cid);
        assert !Exists(e, sid, cl.prog.cid);
      }
    }
  }

  lemma OtherChatsKept(s: State, i: nat, q: Call, w: Write, t: State, j: nat)
    requires AtWrite(s, i, q, w, t) && j < |s.clients| && j != i
    ensures FreshChatOk(t.disk, s.clients[j]) && ResolutionOk(t.disk, s.clients[j].prog)
  {
    assert PairOk(s.clients[j], s.clients[i]) && ClientOk(s.disk, s.used, s.clients[j]);
    ChatsGrow(s, i, q, w, t);
    ChatKnowledgeKept(s.disk, t.disk, s.clients[j], Drawn(s.clients[i].prog));
  }

  lemma OtherFolderKept(s: State, i: nat, q: Call, w: Write, t: State, j: nat)
    requires AtWrite(s, i, q, w, t) && j < |s.clients| && j != i && Owner(s.clients[j]).Some?
    ensures OwnFolder(s.clients[j], FolderOf(t.disk, Owner(s.clients[j]).value))
  {
    var b := s.clients[j];
    assert ClientOk(s.disk, s.used, b);
    if q.OnSession() {
      SessionWriteKept(s, i, q, w, t);
    } else {
      RequestWriteKept(s, i, q, w, t);
      RequestWriter(s, i, q, w, t);
      if Owner(b) == Some(q.rid) {
        OwnersDistinct(s, j, i);
        ProgressInvisibleToOwner(b, FolderOf(s.disk, q.rid), FolderOf(t.disk, q.rid));
      }
    }
  }

  /** Another client's knowledge survives the write. */
  lemma OtherClientKept(s: State, i: nat, q: Call, w: Write, t: State, j: nat)
    requires AtWrite(s, i, q, w, t) && j < |s.clients| && j != i
    ensures ClientOk(t.disk, t.used, t.clients[j])
  {
    assert t.clients[j] == s.clients[j] && ClientOk(s.disk, s.used, s.clients[j]);
    OtherSectionKept(s, i, q, w, t, j);
    OtherChatsKept(s, i, q, w, t, j);
    if Owner(s.clients[j]).Some? { OtherFolderKept(s, i, q, w, t, j); }
  }

  lemma SessionWriterKept(s: State, i: nat, q: Call, w: Write, t: State)
    requires AtWrite(s, i, q, w, t) && q.OnSession()
    ensures ClientOk(t.disk, t.used, t.clients[i])
  {
    WriteKeepsAgreement(s, i, q, w, t);
    SessionWriteKept(s, i, q, w, t);
    SessionWriterKnows(s, i, q, w, t);
    if Owner(t.clients[i]).Some? { SessionWriterOwns(s, i, q, w, t); }
    assert SectionOk(t.disk, t.clients[i]) && FreshChatOk(t.disk, t.clients[i]) by {
      assert ClientOk(s.disk, s.used, s.clients[i]);
    }
  }

  /** The part of the writer's knowledge that its own section does not touch. */
  lemma SessionWriterKnows(s: State, i: nat, q: Call, w: Write, t: State)
    requires AtWrite(s, i, q, w, t) && q.OnSession()
    ensures var cl := t.clients[i];
            && ResolutionOk(t.disk, cl.prog) && (Drawn(cl.prog).Some? ==> Drawn(cl.prog).value in t.used)
            && (cl.prog.DrawChat? || cl.prog.AddChat? ==> !cl.prog.kind.Main?)
  {
    assert ClientOk(s.disk, s.used, s.clients[i]);
    SessionWriteKept(s, i, q, w, t);
  }

  /** A session call writes no folder, so its client's own folder is as it knew it. */
  lemma SessionWriterOwns(s: State, i: nat, q: Call, w: Write, t: State)
    requires AtWrite(s, i, q, w, t) && q.OnSession() && Owner(t.clients[i]).Some?
    ensures OwnFolder(t.clients[i], FolderOf(t.disk, Owner(t.clients[i]).value))
  {
    assert FolderOf(t.disk, Owner(t.clients[i]).value) == FolderOf(s.disk, Owner(t.clients[i]).value) by {
      SessionWriteKept(s, i, q, w, t);
    }
    OwnerKnows(s, i);
    OwnedThroughSession(s.clients[i], t.clients[i], q, FolderOf(s.disk, Owner(t.clients[i]).value));
  }

  lemma OwnerKnows(s: State, i: nat)
    requires Inv(s) && i < |s.clients|
    ensures Owner(s.clients[i]).Some? ==> OwnFolder(s.clients[i], FolderOf(s.disk, Owner(s.clients[i]).value))
  {
    assert ClientOk(s.disk, s.used, s.clients[i]);
  }

  lemma OwnedThroughSession(a: Client, b: Client, q: Call, f: Folder)
    requires CallOf(a.prog) == Some(q) && q.OnSession() && b.prog == a.prog && b.crashed == a.crashed
    requires OwnFolder(a, f)
    ensures Owner(b) == Owner(a) && OwnFolder(b, f)
  {
  }

  lemma RequestWriterKept(s: State, i: nat, q: Call, w: Write, t: State)
    requires AtWrite(s, i, q, w, t) && !q.OnSession()
    ensures ClientOk(t.disk, t.used, t.clients[i])
  {
    assert ClientOk(s.disk, s.used, s.clients[i]);
    WriteKeepsAgreement(s, i, q, w, t);
    RequestWriteKept(s, i, q, w, t);
    RequestWriter(s, i, q, w, t);
    if !q.UpdateProgress? { OwnerWriteKept(s, i, q, w, t); }
  }

  /** The writer's own knowledge moves on by one write. */
  lemma WriterKept(s: State, i: nat, q: Call, w: Write, t: State)
    requires AtWrite(s, i, q, w, t)
    ensures ClientOk(t.disk, t.used, t.clients[i])
  {
    if q.OnSession() { SessionWriterKept(s, i, q, w, t); } else { RequestWriterKept(s, i, q, w, t); }
  }

  lemma PairsKept(s: State, i: nat, t: State)
    requires Inv(s) && i < |s.clients| && |t.clients| == |s.clients|
    requires forall j | 0 <= j < |s.clients| && j != i :: t.clients[j] == s.clients[j]
    requires forall j | 0 <= j < |s.clients| && j != i :: PairOk(t.clients[i], s.clients[j]) && PairOk(s.clients[j], t.clients[i])
    ensures forall j, k | 0 <= j < |t.clients| && 0 <= k < |t.clients| && j != k :: PairOk(t.clients[j], t.clients[k])
  {
  }

  lemma WriteKept(s: State, i: nat, t: State)
    requires Inv(s) && Can(s, i, WriteNext) && t == Do(s, i, WriteNext)
    ensures Inv(t)
  {
    var q := CallOf(s.clients[i].prog).value;
    var w := Current(s.clients[i]).writes[s.clients[i].sec.value.done];
    if q.OnSession() { SessionWriteDiskOk(s, i, q, w, t); } else { RequestWriteDiskOk(s, i, q, w, t); }
    WriterKept(s, i, q, w, t);
    forall j | 0 <= j < |t.clients| ensures ClientOk(t.disk, t.used, t.clients[j]) {
      if j != i { OtherClientKept(s, i, q, w, t, j); }
    }
    forall j | 0 <= j < |s.clients| && j != i
      ensures PairOk(t.clients[i], s.clients[j]) && PairOk(s.clients[j], t.clients[i])
    {
      assert PairOk(s.clients[i], s.clients[j]) && PairOk(s.clients[j], s.clients[i]);
      SameHoldings(s.clients[i], t.clients[i]);
    }
    PairsKept(s, i, t);
  }

  lemma SameHoldings(a: Client, b: Client)
    requires b.prog == a.prog && b.crashed == a.crashed && b.sec.Some? == a.sec.Some?
    ensures forall l :: HoldsLock(a, l) == HoldsLock(b, l)
    ensures forall o :: HoldsOp(a, o) == HoldsOp(b, o)
  {
  }

  // -------------------------------------------------------- the other steps

  lemma EnterKept(s: State, i: nat, t: State)
    requires Inv(s) && Can(s, i, Enter) && t == Do(s, i, Enter)
    ensures Inv(t)
  {
    var q := CallOf(s.clients[i].prog).value;
    assert ClientOk(s.disk, s.used, s.clients[i]);
    AfterNone(q, s.disk);
    assert DirOk(if q.OnSession() then q.sid else 0, DirOf(s.disk, if q.OnSession() then q.sid else 0));
    forall j | 0 <= j < |s.clients| && j != i
      ensures PairOk(t.clients[i], s.clients[j]) && PairOk(s.clients[j], t.clients[i])
    {
      assert PairOk(s.clients[i], s.clients[j]) && PairOk(s.clients[j], s.clients[i]);
      assert !HoldsLock(s.clients[j], LockOf(q));
      forall o ensures HoldsOp(t.clients[i], o) == HoldsOp(s.clients[i], o) {}
    }
    PairsKept(s, i, t);
  }

  lemma TakeOpKept(s: State, i: nat, t: State)
    requires Inv(s) && Can(s, i, TakeOp) && t == Do(s, i, TakeOp)
    ensures Inv(t)
  {
    var o := OpWanted(s.clients[i].prog).value;
    assert ClientOk(s.disk, s.used, s.clients[i]);
    assert ClientOk(t.disk, t.used, t.clients[i]);
    forall j | 0 <= j < |s.clients| && j != i
      ensures PairOk(t.clients[i], s.clients[j]) && PairOk(s.clients[j], t.clients[i])
    {
      assert PairOk(s.clients[i], s.clients[j]) && PairOk(s.clients[j], s.clients[i]);
      assert !HoldsOp(s.clients[j], o);
      assert OpHeld(t.clients[i].prog) == Some(o);
    }
    PairsKept(s, i, t);
  }

  lemma CrashKept(s: State, i: nat, t: State)
    requires Inv(s) && Can(s, i, Crash) && t == Do(s, i, Crash)
    ensures Inv(t)
  {
    assert ClientOk(s.disk, s.used, s.clients[i]);
    forall j | 0 <= j < |s.clients| && j != i
      ensures PairOk(t.clients[i], s.clients[j]) && PairOk(s.clients[j], t.clients[i])
    {
      assert PairOk(s.clients[i], s.clients[j]) && PairOk(s.clients[j], s.clients[i]);
    }
    PairsKept(s, i, t);
  }

  /** A move of one program that leaves the disk alone. */
  ghost predicate Moves(s: State, i: nat, inp: Input, t: State) {
    && Inv(s) && i < |s.clients| == |t.clients| && Live(s.clients[i])
    && t.disk == s.disk && t.used == s.used + {inp.uuid} && inp.uuid !in s.used
    && t.clients == s.clients[i := t.clients[i]]
    && t.clients[i].sec.None? && !t.clients[i].crashed
  }

  /** An operation lock is only ever gained through TakeOp. */
  predicate KeepsOps(p: Program, p': Program) {
    OpHeld(p').Some? ==> OpHeld(p') == OpHeld(p)
  }

  /** A program's next drawn id is the one it had or the fresh one. */
  predicate DrawsFresh(p: Program, p': Program, inp: Input) {
    Drawn(p').Some? ==> Drawn(p') == Drawn(p) || Drawn(p') == Some(inp.uuid)
  }

  lemma MoveKept(s: State, i: nat, inp: Input, t: State)
    requires Moves(s, i, inp, t)
    requires KeepsOps(s.clients[i].prog, t.clients[i].prog) && DrawsFresh(s.clients[i].prog, t.clients[i].prog, inp)
    requires ClientOk(t.disk, t.used, t.clients[i])
    ensures Inv(t)
  {
    forall j | 0 <= j < |t.clients| ensures ClientOk(t.disk, t.used, t.clients[j]) {
      if j != i { assert t.clients[j] == s.clients[j] && ClientOk(s.disk, s.used, s.clients[j]); }
    }
    forall j | 0 <= j < |s.clients| && j != i
      ensures PairOk(t.clients[i], s.clients[j]) && PairOk(s.clients[j], t.clients[i])
    {
      assert PairOk(s.clients[i], s.clients[j]) && PairOk(s.clients[j], s.clients[i]);
      assert ClientOk(s.disk, s.used, s.clients[j]);
    }
    PairsKept(s, i, t);
  }

  /** Nothing on disk carries an id not yet drawn. */
  lemma FreshId(s: State, id: Id)
    requires Inv(s) && id !in s.used
    ensures FolderOf(s.disk, id) == EMPTY_FOLDER
    ensures forall sid :: id !in DirOf(s.disk, sid).chats
  {
  }

  /** A program between two sections. */
  function Idle(p: Program): Client { Client(p, None, false) }

  lemma LocalContextFolder(c: Context, pt: Point, inp: Input, f: Folder)
    requires OwnFolder(Idle(At(c, pt)), f) && ContextCall(c, pt).None?
    ensures var p := LocalContext(c, pt, inp);
            Owner(Idle(p)).Some? ==> Owner(Idle(p)) == Some(c.rid) && OwnFolder(Idle(p), f)
  {
  }

  lemma LocalFolder(s: State, i: nat, inp: Input, p: Program)
    requires Inv(s) && Can(s, i, Local(inp)) && p == LocalStep(s.clients[i].prog, s.disk, inp)
    requires Owner(Idle(p)).Some?
    ensures OwnFolder(Idle(p), FolderOf(s.disk, Owner(Idle(p)).value))
  {
    OwnerKnows(s, i);
    FreshId(s, inp.uuid);
    var was := s.clients[i].prog;
    if was.At? { LocalContextFolder(was.ctx, was.point, inp, FolderOf(s.disk, was.ctx.rid)); }
  }

  lemma LocalKept(s: State, i: nat, inp: Input, t: State)
    requires Inv(s) && Can(s, i, Local(inp)) && t == Do(s, i, Local(inp))
    ensures Inv(t)
  {
    LocalClientOk(s, i, inp, t);
    MoveKept(s, i, inp, t);
  }

  lemma LocalClientOk(s: State, i: nat, inp: Input, t: State)
    requires Inv(s) && Can(s, i, Local(inp)) && t == Do(s, i, Local(inp))
    ensures t.clients[i] == Idle(t.clients[i].prog) && ClientOk(t.disk, t.used, t.clients[i])
    ensures KeepsOps(s.clients[i].prog, t.clients[i].prog) && DrawsFresh(s.clients[i].prog, t.clients[i].prog, inp)
  {
    var p := t.clients[i].prog;
    LocalKnows(s, i, inp, t);
    if Owner(Idle(p)).Some? { LocalFolder(s, i, inp, p); }
  }

  lemma LocalKnows(s: State, i: nat, inp: Input, t: State)
    requires Inv(s) && Can(s, i, Local(inp)) && t == Do(s, i, Local(inp))
    ensures var cl := t.clients[i];
            && cl == Idle(cl.prog) && SectionOk(t.disk, cl) && FreshChatOk(t.disk, cl) && ResolutionOk(t.disk, cl.prog)
            && (Drawn(cl.prog).Some? ==> Drawn(cl.prog).value in t.used)
            && (cl.prog.DrawChat? || cl.prog.AddChat? ==> !cl.prog.kind.Main?)
            && KeepsOps(s.clients[i].prog, cl.prog) && DrawsFresh(s.clients[i].prog, cl.prog, inp)
  {
    assert ClientOk(s.disk, s.used, s.clients[i]);
    FreshId(s, inp.uuid);
  }

  /** Leaving a section: the disk holds exactly what the section read plus what it wrote. */
  lemma LeaveAgreement(s: State, i: nat, inp: Input, q: Call)
    requires Inv(s) && Can(s, i, Leave(inp)) && CallOf(s.clients[i].prog) == Some(q)
    ensures Agree(LockOf(q), s.disk, AfterWrites(q, s.clients[i].sec.value.snap, |Current(s.clients[i]).writes|))
  {
    assert ClientOk(s.disk, s.used, s.clients[i]);
  }

  /** A chat a section returned is on disk when the section ends. */
  lemma ReturnedChatExists(s: State, i: nat, inp: Input, q: Call)
    requires Inv(s) && Can(s, i, Leave(inp)) && CallOf(s.clients[i].prog) == Some(q) && q.OnSession()
    requires Current(s.clients[i]).ret.ChatRet?
    ensures Exists(s.disk, q.sid, Current(s.clients[i]).ret.cid)
    ensures DirOf(s.disk, q.sid).chats[Current(s.clients[i]).ret.cid] == Current(s.clients[i]).ret.chat
  {
    var snap := s.clients[i].sec.value.snap;
    LeaveAgreement(s, i, inp, q);
    WritesAreGuarded(q, snap);
    AfterNone(q, snap);
    if |SectionOf(q, snap).writes| >= 1 { AfterOne(q, snap); }
    if |SectionOf(q, snap).writes| == 2 { AfterTwo(q, snap); }
  }

  /** What the folder a request section worked on looks like when the section ends. */
  lemma LeaveRequest(s: State, i: nat, inp: Input, q: Call)
    requires Inv(s) && Can(s, i, Leave(inp)) && CallOf(s.clients[i].prog) == Some(q) && !q.OnSession()
    ensures var cl := s.clients[i]; var f := FolderOf(cl.sec.value.snap, q.rid);
            && (!Wrote(cl) ==> FolderOf(s.disk, q.rid) == f && RequestSection(q, f).writes == [])
            && (Wrote(cl) ==> !Current(cl).ret.Raised? && !q.ReadModel? && !q.LoadStatus? && cl.sec.value.done == 1)
  {
    var snap := s.clients[i].sec.value.snap;
    LeaveAgreement(s, i, inp, q);
    WritesAreGuarded(q, snap);
    AfterNone(q, snap);
  }

  /** How a call on a request folder ends: nothing written and the folder as it was read, or
      its one write made and a value returned. */
  predicate Ended(q: Call, ret: Ret, w: bool, f: Folder) {
    !q.OnSession() ==> if w then !ret.Raised? && !q.ReadModel? && !q.LoadStatus? else RequestSection(q, f) == Section([], ret)
  }

  lemma LeaveEnded(s: State, i: nat, inp: Input, q: Call)
    requires Inv(s) && Can(s, i, Leave(inp)) && CallOf(s.clients[i].prog) == Some(q)
    ensures !q.OnSession() ==> Ended(q, Current(s.clients[i]).ret, Wrote(s.clients[i]), FolderOf(s.disk, q.rid))
  {
    if !q.OnSession() { LeaveRequest(s, i, inp, q); }
  }

  lemma SessionPointMoves(c: Context, pt: Point, w: bool, ret: Ret, inp: Input, f: Folder, p: Program)
    requires ContextCall(c, pt).Some? && p == ResumeContext(c, pt, ret, inp) && Owner(Idle(p)).Some?
    requires !(w && (pt.Finish? || pt.Failing? || (pt.BeginPlanning? && !c.run.automatic)))
    requires RunFolder(c, pt, w, f) && ContextCall(c, pt).value.OnSession()
    requires Ended(ContextCall(c, pt).value, ret, if ContextCall(c, pt).value.OnSession() then false else w, f)
    ensures Owner(Idle(p)) == Some(c.rid) && OwnFolder(Idle(p), f)
  {
  }

  lemma RequestPointMoves(c: Context, pt: Point, w: bool, ret: Ret, inp: Input, f: Folder, p: Program)
    requires ContextCall(c, pt).Some? && p == ResumeContext(c, pt, ret, inp) && Owner(Idle(p)).Some?
    requires !(w && (pt.Finish? || pt.Failing? || (pt.BeginPlanning? && !c.run.automatic)))
    requires RunFolder(c, pt, w, f) && !ContextCall(c, pt).value.OnSession()
    requires Ended(ContextCall(c, pt).value, ret, if ContextCall(c, pt).value.OnSession() then false else w, f)
    ensures Owner(Idle(p)) == Some(c.rid) && OwnFolder(Idle(p), f)
  {
  }

  lemma RunFolderMoves(c: Context, pt: Point, w: bool, ret: Ret, inp: Input, f: Folder, p: Program)
    requires ContextCall(c, pt).Some? && p == ResumeContext(c, pt, ret, inp) && Owner(Idle(p)).Some?
    requires !(w && (pt.Finish? || pt.Failing? || (pt.BeginPlanning? && !c.run.automatic)))
    requires RunFolder(c, pt, w, f)
    requires Ended(ContextCall(c, pt).value, ret, if ContextCall(c, pt).value.OnSession() then false else w, f)
    ensures Owner(Idle(p)) == Some(c.rid) && OwnFolder(Idle(p), f)
  {
    if ContextCall(c, pt).value.OnSession() {
      SessionPointMoves(c, pt, w, ret, inp, f, p);
    } else {
      RequestPointMoves(c, pt, w, ret, inp, f, p);
    }
  }

  lemma LeaveContextFolder(s: State, i: nat, inp: Input, c: Context, pt: Point, p: Program)
    requires Inv(s) && Can(s, i, Leave(inp)) && s.clients[i].prog == At(c, pt)
    requires p == Resume(s.clients[i].prog, Current(s.clients[i]).ret, inp) && Owner(Idle(p)).Some?
    ensures OwnFolder(Idle(p), FolderOf(s.disk, Owner(Idle(p)).value))
  {
    var cl := s.clients[i];
    var q := CallOf(cl.prog).value;
    assert ClientOk(s.disk, s.used, cl);
    LeaveEnded(s, i, inp, q);
    RunFolderMoves(c, pt, Wrote(cl), Current(cl).ret, inp, FolderOf(s.disk, c.rid), p);
  }

  lemma SubmitFolderMoves(rid: Id, what: Submission, at: SubmitPoint, w: bool, ret: Ret, inp: Input, f: Folder, p: Program)
    requires SubmitCall(rid, what, at).Some? && p == ResumeSubmit(rid, what, at, ret, inp) && Owner(Idle(p)).Some?
    requires FolderValid(rid, f)
    requires !at.Load? ==> SubmitFolder(rid, what, at, w, f)
    requires Ended(SubmitCall(rid, what, at).value, ret, if SubmitCall(rid, what, at).value.OnSession() then false else w, f)
    ensures Owner(Idle(p)) == Some(rid) && OwnFolder(Idle(p), f)
  {
  }

  lemma LeaveSubmitFolder(s: State, i: nat, inp: Input, rid: Id, what: Submission, at: SubmitPoint, p: Program)
    requires Inv(s) && Can(s, i, Leave(inp)) && s.clients[i].prog == Submitting(rid, what, at)
    requires p == Resume(s.clients[i].prog, Current(s.clients[i]).ret, inp) && Owner(Idle(p)).Some?
    ensures OwnFolder(Idle(p), FolderOf(s.disk, Owner(Idle(p)).value))
  {
    var cl := s.clients[i];
    var q := CallOf(cl.prog).value;
    assert ClientOk(s.disk, s.used, cl);
    assert FolderValid(rid, FolderOf(s.disk, rid));
    LeaveEnded(s, i, inp, q);
    SubmitFolderMoves(rid, what, at, Wrote(cl), Current(cl).ret, inp, FolderOf(s.disk, rid), p);
  }

  /** A program that owned nothing comes to own only the request whose id it just drew. */
  lemma NewOwner(p: Program, ret: Ret, inp: Input)
    requires CallOf(p).Some? && !p.At? && !p.Submitting?
    requires Owner(Idle(Resume(p, ret, inp))).Some?
    ensures Resume(p, ret, inp).At? && Resume(p, ret, inp).point.WriteStatus? && Resume(p, ret, inp).ctx.rid == inp.uuid
  {
  }

  lemma LeaveFolder(s: State, i: nat, inp: Input, p: Program)
    requires Inv(s) && Can(s, i, Leave(inp))
    requires p == Resume(s.clients[i].prog, Current(s.clients[i]).ret, inp) && Owner(Idle(p)).Some?
    ensures OwnFolder(Idle(p), FolderOf(s.disk, Owner(Idle(p)).value))
  {
    if s.clients[i].prog.At? {
      LeaveContextFolder(s, i, inp, s.clients[i].prog.ctx, s.clients[i].prog.point, p);
    } else if s.clients[i].prog.Submitting? {
      LeaveSubmitFolder(s, i, inp, s.clients[i].prog.rid, s.clients[i].prog.what, s.clients[i].prog.at, p);
    } else {
      NewOwner(s.clients[i].prog, Current(s.clients[i]).ret, inp);
      FreshId(s, inp.uuid);
    }
  }

  lemma ResumeShape(p: Program, ret: Ret, inp: Input)
    requires CallOf(p).Some?
    ensures KeepsOps(p, Resume(p, ret, inp)) && DrawsFresh(p, Resume(p, ret, inp), inp)
    ensures !Resume(p, ret, inp).AddChat? && !Resume(p, ret, inp).DrawChat?
    ensures Resume(p, ret, inp).PickChat? ==> Resume(p, ret, inp).cid == inp.uuid
  {
  }

  lemma ResumeResolution(d: Disk, p: Program, ret: Ret, inp: Input)
    requires CallOf(p).Some? && ResolutionOk(d, p)
    requires CallOf(p).value.OnSession() && ret.ChatRet? ==> Exists(d, CallOf(p).value.sid, ret.cid)
    ensures ResolutionOk(d, Resume(p, ret, inp))
  {
  }

  lemma LeaveResolution(s: State, i: nat, inp: Input, p: Program)
    requires Inv(s) && Can(s, i, Leave(inp))
    requires p == Resume(s.clients[i].prog, Current(s.clients[i]).ret, inp)
    ensures ResolutionOk(s.disk, p) && FreshChatOk(s.disk, Idle(p))
    ensures KeepsOps(s.clients[i].prog, p) && DrawsFresh(s.clients[i].prog, p, inp)
    ensures !p.AddChat? && !p.DrawChat?
  {
    var q := CallOf(s.clients[i].prog).value;
    assert ClientOk(s.disk, s.used, s.clients[i]);
    FreshId(s, inp.uuid);
    if q.OnSession() && Current(s.clients[i]).ret.ChatRet? { ReturnedChatExists(s, i, inp, q); }
    ResumeShape(s.clients[i].prog, Current(s.clients[i]).ret, inp);
    ResumeResolution(s.disk, s.clients[i].prog, Current(s.clients[i]).ret, inp);
  }

  lemma LeaveKept(s: State, i: nat, inp: Input, t: State)
    requires Inv(s) && Can(s, i, Leave(inp)) && t == Do(s, i, Leave(inp))
    ensures Inv(t)
  {
    var p := t.clients[i].prog;
    assert t.clients[i] == Idle(p);
    assert ClientOk(s.disk, s.used, s.clients[i]);
    LeaveResolution(s, i, inp, p);
    if Owner(Idle(p)).Some? { LeaveFolder(s, i, inp, p); }
    MoveKept(s, i, inp, t);
  }

  lemma MoveKeepsInv(s: State, i: nat, a: Action, t: State)
    requires Inv(s) && Can(s, i, a) && t == Do(s, i, a)
    ensures Inv(t)
  {
    match a
    case Enter => EnterKept(s, i, t);
    case WriteNext => WriteKept(s, i, t);
    case Leave(inp) => LeaveKept(s, i, inp, t);
    case Local(inp) => LocalKept(s, i, inp, t);
    case TakeOp => TakeOpKept(s, i, t);
    case Crash => CrashKept(s, i, t);
  }

  lemma StepKeepsInv(s: State, m: Move, t: State)
    requires Inv(s) && Steps(s, m, t)
    ensures Inv(t)
  {
    MoveKeepsInv(s, m.who, m.act, t);
  }

  /** Every state of every run satisfies the invariant. */
  lemma {:induction false} TraceOk(run: seq<State>, moves: seq<Move>, k: nat)
    requires IsTrace(run, moves) && k < |run|
    ensures Inv(run[k])
  {
    if k == 0 {
      InitOk(run[0]);
    } else {
      TraceOk(run, moves, k - 1);
      StepOf(run, moves, k - 1);
      StepKeepsInv(run[k - 1], moves[k - 1], run[k]);
    }
  }
}
