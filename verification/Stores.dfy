/** store.py as the objects it is: methods that read a record, check it, and overwrite files.
    Each method is proved to do, as a whole, what its lock section does in the concurrent model. */
module Stores {
  import opened Records
  import opened Store

  /** A call made on disk `d` left disk `e` and result `r`. */
  ghost predicate Did(q: Call, d: Disk, e: Disk, r: Ret) {
    && r == SectionOf(q, d).ret
    && e == AfterWrites(q, d, |SectionOf(q, d).writes|)
  }

  lemma DidNothing(q: Call, d: Disk)
    requires SectionOf(q, d).writes == []
    ensures AfterWrites(q, d, 0) == d
  {
  }

  lemma DidOne(q: Call, d: Disk)
    requires |SectionOf(q, d).writes| == 1
    ensures AfterWrites(q, d, 1) == Apply(d, SectionOf(q, d).writes[0])
  {
    AfterWritesStep(q, d, 0);
  }

  lemma DidTwo(q: Call, d: Disk)
    requires |SectionOf(q, d).writes| == 2
    ensures AfterWrites(q, d, 2) == Apply(Apply(d, SectionOf(q, d).writes[0]), SectionOf(q, d).writes[1])
  {
    AfterWritesStep(q, d, 0);
    AfterWritesStep(q, d, 1);
  }

  class SessionStore {
    var dirs: map<Id, SessionDir>

    function View(): Disk reads this { Disk(dirs, map[]) }

    function Dir(sid: Id): SessionDir reads this { if sid in dirs then dirs[sid] else EMPTY_DIR }

    /** Every other session directory is as it was. */
    twostate predicate OnlyTouched(sid: Id)
      reads this
    {
      forall s | s != sid :: Dir(s) == old(Dir(s))
    }

    constructor ()
      ensures View() == EMPTY_DISK
    {
      dirs := map[];
    }

    method WriteSession(sid: Id, record: SessionRecord)
      modifies this
      ensures View() == Apply(old(View()), PutSession(sid, record))
    {
      dirs := dirs[sid := Dir(sid).(record := Some(record))];
    }

    method WriteChat(sid: Id, cid: Id, chat: ChatRecord)
      modifies this
      ensures View() == Apply(old(View()), PutChat(sid, cid, chat))
    {
      dirs := dirs[sid := Dir(sid).(chats := Dir(sid).chats[cid := chat])];
    }

    method CreateSession(sid: Id, repoRoot: Id, now: Time) returns (r: Ret)
      modifies this
      ensures Did(Call.CreateSession(sid, repoRoot, now), old(View()), View(), r)
      ensures OnlyTouched(sid)
      ensures if old(Dir(sid)).record.Some? then r == Raised(InvalidState) && Dir(sid) == old(Dir(sid))
              else
                && r == SessionRet(SessionRecord(repoRoot, None, [], now, None))
                && Dir(sid) == old(Dir(sid)).(record := Some(r.session))
    {
      ghost var q, d := Call.CreateSession(sid, repoRoot, now), View();
      var record := SessionRecord(repoRoot, None, [], now, None);
      if Dir(sid).record.Some? {
        DidNothing(q, d);
        return Raised(InvalidState);
      }
      DidOne(q, d);
      WriteSession(sid, record);
      r := SessionRet(record);
    }

    method GetSession(sid: Id) returns (r: Ret)
      ensures Did(Call.GetSession(sid), View(), View(), r)
      ensures r == if Dir(sid).record.None? then Raised(Unknown) else SessionRet(Dir(sid).record.value)
    {
      DidNothing(Call.GetSession(sid), View());
      if Dir(sid).record.None? { return Raised(Unknown); }
      r := SessionRet(Dir(sid).record.value);
    }

    method CloseSession(sid: Id, now: Time) returns (r: Ret)
      modifies this
      ensures Did(Call.CloseSession(sid, now), old(View()), View(), r)
      ensures OnlyTouched(sid)
      ensures if old(Dir(sid)).record.None? then r == Raised(Unreadable) && Dir(sid) == old(Dir(sid))
              else
                var was := old(Dir(sid)).record.value;
                && r == SessionRet(SessionRecord(was.repoRoot, was.active, was.chatIds, now, Some(now)))
                && Dir(sid) == old(Dir(sid)).(record := Some(r.session))
    {
      ghost var q, d := Call.CloseSession(sid, now), View();
      if Dir(sid).record.None? {
        DidNothing(q, d);
        return Raised(Unreadable);
      }
      DidOne(q, d);
      var record := Dir(sid).record.value.(closedAt := Some(now), updatedAt := now);
      WriteSession(sid, record);
      r := SessionRet(record);
    }

    method CreateChat(sid: Id, cid: Id, kind: ChatKind, makeActive: bool, now: Time) returns (r: Ret)
      modifies this
      ensures Did(Call.CreateChat(sid, cid, kind, makeActive, now), old(View()), View(), r)
      ensures OnlyTouched(sid)
      ensures var a := old(Dir(sid));
              if a.record.None? then r == Raised(Unknown) && Dir(sid) == a
              else if a.record.value.closedAt.Some? then r == Raised(InvalidState) && Dir(sid) == a
              else
                var was := a.record.value;
                && r == ChatRet(cid, ChatRecord(sid, kind, None, None, [], now, None))
                && Dir(sid) == SessionDir(
                  Some(SessionRecord(was.repoRoot, if makeActive then Some(cid) else was.active, was.chatIds + [cid], now, None)),
                  a.chats[cid := r.chat])
    {
      ghost var q, d := Call.CreateChat(sid, cid, kind, makeActive, now), View();
      if Dir(sid).record.None? || Dir(sid).record.value.closedAt.Some? { DidNothing(q, d); }
      if Dir(sid).record.None? { return Raised(Unknown); }
      var session := Dir(sid).record.value;
      if session.closedAt.Some? { return Raised(InvalidState); }
      DidTwo(q, d);
      var chat := FreshChat(sid, kind, now);
      WriteChat(sid, cid, chat);
      var payload := session.(chatIds := session.chatIds + [cid]);
      if makeActive { payload := payload.(active := Some(cid)); }
      WriteSession(sid, payload.(updatedAt := now));
      r := ChatRet(cid, chat);
    }

    method GetOrCreateMainChat(sid: Id, cid: Id, now: Time) returns (r: Ret)
      modifies this
      ensures Did(MainChat(sid, cid, now), old(View()), View(), r)
      ensures OnlyTouched(sid)
      ensures var a := old(Dir(sid));
              if a.record.None? then r == Raised(Unreadable) && Dir(sid) == a
              else if a.record.value.closedAt.Some? then r == Raised(InvalidState) && Dir(sid) == a
              else if a.record.value.active.Some? then
                && Dir(sid) == a
                && var c := a.record.value.active.value;
                   r == if c in a.chats then ChatRet(c, a.chats[c]) else Raised(Unreadable)
              else
                var was := a.record.value;
                && r == ChatRet(cid, ChatRecord(sid, Main, None, None, [], now, None))
                && Dir(sid) == SessionDir(
                  Some(SessionRecord(was.repoRoot, Some(cid), was.chatIds + [cid], now, None)), a.chats[cid := r.chat])
    {
      ghost var q, d := MainChat(sid, cid, now), View();
      if SectionOf(q, d).writes == [] { DidNothing(q, d); }
      if Dir(sid).record.None? { return Raised(Unreadable); }
      var session := Dir(sid).record.value;
      if session.closedAt.Some? { return Raised(InvalidState); }
      if session.active.Some? {
        if session.active.value !in Dir(sid).chats { return Raised(Unreadable); }
        return ChatRet(session.active.value, Dir(sid).chats[session.active.value]);
      }
      DidTwo(q, d);
      var chat := FreshChat(sid, Main, now);
      WriteChat(sid, cid, chat);
      WriteSession(sid, session.(active := Some(cid), chatIds := session.chatIds + [cid], updatedAt := now));
      r := ChatRet(cid, chat);
    }

    method GetChat(sid: Id, cid: Id) returns (r: Ret)
      ensures Did(Call.GetChat(sid, cid), View(), View(), r)
      ensures r == if cid in Dir(sid).chats then ChatRet(cid, Dir(sid).chats[cid]) else Raised(Unknown)
    {
      DidNothing(Call.GetChat(sid, cid), View());
      if cid !in Dir(sid).chats { return Raised(Unknown); }
      r := ChatRet(cid, Dir(sid).chats[cid]);
    }

    method SelectChat(sid: Id, cid: Id, now: Time) returns (r: Ret)
      modifies this
      ensures Did(Call.SelectChat(sid, cid, now), old(View()), View(), r)
      ensures OnlyTouched(sid)
      ensures var a := old(Dir(sid));
              if a.record.None? then r == Raised(Unreadable) && Dir(sid) == a
              else if a.record.value.closedAt.Some? then r == Raised(InvalidState) && Dir(sid) == a
              else if cid !in a.record.value.chatIds || cid !in a.chats then r == Raised(Unknown) && Dir(sid) == a
              else if a.chats[cid].archivedAt.Some? then r == Raised(InvalidState) && Dir(sid) == a
              else
                var was := a.record.value;
                && r == SessionRet(SessionRecord(was.repoRoot, Some(cid), was.chatIds, now, None))
                && Dir(sid) == a.(record := Some(r.session))
    {
      ghost var q, d := Call.SelectChat(sid, cid, now), View();
      if SectionOf(q, d).writes == [] { DidNothing(q, d); }
      if Dir(sid).record.None? { return Raised(Unreadable); }
      var session := Dir(sid).record.value;
      if session.closedAt.Some? { return Raised(InvalidState); }
      if cid !in session.chatIds || cid !in Dir(sid).chats { return Raised(Unknown); }
      if Dir(sid).chats[cid].archivedAt.Some? { return Raised(InvalidState); }
      DidOne(q, d);
      var updated := session.(active := Some(cid), updatedAt := now);
      WriteSession(sid, updated);
      r := SessionRet(updated);
    }

    method UpdateChat(sid: Id, cid: Id, update: ChatUpdate, now: Time) returns (r: Ret)
      modifies this
      ensures Did(Call.UpdateChat(sid, cid, update, now), old(View()), View(), r)
      ensures OnlyTouched(sid)
      ensures var a, b := old(Dir(sid)), Dir(sid);
              if cid !in a.chats then r == Raised(Unreadable) && b == a
              else
                var c := a.chats[cid];
                && cid in b.chats && b.chats == a.chats[cid := b.chats[cid]]
                && b.chats[cid].conversation == (if update.conversation.Some? then update.conversation.value else c.conversation)
                && b.chats[cid].tunnel == (if update.tunnel.Some? then update.tunnel.value else c.tunnel)
                && b.chats[cid].archivedAt == (if update.archivedAt.Some? then update.archivedAt else c.archivedAt)
                && b.chats[cid].updatedAt == now && b.chats[cid].requestIds == c.requestIds
                && b.chats[cid].kind == c.kind && b.chats[cid].sessionId == c.sessionId
                && r == (if a.record.Some? then ChatRet(cid, b.chats[cid]) else Raised(Unreadable))
                && b.record == if a.record.Some? then Some(a.record.value.(updatedAt := now)) else None
    {
      ghost var q, d := Call.UpdateChat(sid, cid, update, now), View();
      if cid !in Dir(sid).chats {
        DidNothing(q, d);
        return Raised(Unreadable);
      }
      if Dir(sid).record.Some? { DidTwo(q, d); } else { DidOne(q, d); }
      var updated := Overwritten(Dir(sid).chats[cid], update, now);
      WriteChat(sid, cid, updated);
      if Dir(sid).record.None? { return Raised(Unreadable); }
      WriteSession(sid, Dir(sid).record.value.(updatedAt := now));
      r := ChatRet(cid, updated);
    }

    method AppendRequest(sid: Id, cid: Id, rid: Id, now: Time) returns (r: Ret)
      modifies this
      ensures Did(Call.AppendRequest(sid, cid, rid, now), old(View()), View(), r)
      ensures OnlyTouched(sid)
      ensures var a := old(Dir(sid));
              if cid !in a.chats then r == Raised(Unreadable) && Dir(sid) == a
              else if rid in a.chats[cid].requestIds then r == ChatRet(cid, a.chats[cid]) && Dir(sid) == a
              else
                && r == ChatRet(cid, a.chats[cid].(requestIds := a.chats[cid].requestIds + [rid], updatedAt := now))
                && Dir(sid) == a.(chats := a.chats[cid := r.chat])
    {
      ghost var q, d := Call.AppendRequest(sid, cid, rid, now), View();
      if SectionOf(q, d).writes == [] { DidNothing(q, d); }
      if cid !in Dir(sid).chats { return Raised(Unreadable); }
      var current := Dir(sid).chats[cid];
      if rid in current.requestIds { return ChatRet(cid, current); }
      DidOne(q, d);
      var updated := current.(requestIds := current.requestIds + [rid], updatedAt := now);
      WriteChat(sid, cid, updated);
      r := ChatRet(cid, updated);
    }

    /** With nobody in between, `archive_chat` archives exactly a known, inactive chat, and no
        session that had a live active chat is left with an archived one. */
    method ArchiveChat(sid: Id, cid: Id, now: Time) returns (r: Ret)
      modifies this
      ensures var a, b := old(Dir(sid)), Dir(sid);
              && b.record.Some? == a.record.Some?
              && (a.record.Some? ==> b.record.value.active == a.record.value.active)
              && b.chats.Keys == a.chats.Keys
              && (forall c | c in a.chats && c != cid :: b.chats[c] == a.chats[c])
              && (r.ChatRet? <==> a.record.Some? && cid in a.chats && a.record.value.active != Some(cid))
              && (r.ChatRet? ==> r == ChatRet(cid, b.chats[cid]))
              && (r.ChatRet? && a.chats[cid].archivedAt.Some? ==> b == a)
              && (r.ChatRet? && a.chats[cid].archivedAt.None? ==>
                    b.chats[cid] == a.chats[cid].(archivedAt := Some(now), updatedAt := now)
                    && b.record == Some(a.record.value.(updatedAt := now)))
              && (!r.ChatRet? ==> r.Raised? && b == a)
      ensures OnlyTouched(sid)
    {
      var session := GetSession(sid);
      DidNothing(Call.GetSession(sid), View());
      if session.Raised? { return session; }
      r := GetChat(sid, cid);
      DidNothing(Call.GetChat(sid, cid), View());
      if r.Raised? { return; }
      if session.session.active == Some(cid) { return Raised(InvalidState); }
      if r.chat.archivedAt.Some? { return; }
      DidTwo(Call.UpdateChat(sid, cid, ChatUpdate(None, None, Some(now)), now), View());
      r := UpdateChat(sid, cid, ChatUpdate(None, None, Some(now)), now);
    }
  }

  class RequestStore {
    var folders: map<Id, Folder>

    function View(): Disk reads this { Disk(map[], folders) }

    function Files(rid: Id): Folder reads this { if rid in folders then folders[rid] else EMPTY_FOLDER }

    /** Every other request folder is as it was. */
    twostate predicate OnlyTouched(rid: Id)
      reads this
    {
      forall x | x != rid :: Files(x) == old(Files(x))
    }

    constructor ()
      ensures View() == EMPTY_DISK
    {
      folders := map[];
    }

    method WriteStatus(rid: Id, status: RequestStatus)
      modifies this
      ensures View() == Apply(old(View()), PutStatus(rid, status))
    {
      folders := folders[rid := Files(rid).(status := Some(status))];
    }

    method WriteModel(rid: Id, artifact: Artifact)
      modifies this
      ensures Did(Call.WriteModel(rid, artifact), old(View()), View(), NoValue)
      ensures OnlyTouched(rid)
      ensures var a := old(Files(rid));
              Files(rid) == match artifact
                            case RequestFile(x) => a.(request := Some(x))
                            case RouteFile(x) => a.(route := Some(x))
                            case ManifestFile(x) => a.(manifest := Some(x))
                            case PackFile(x) => a.(pack := Some(x))
                            case ResultFile(x) => a.(result := Some(x))
    {
      DidOne(Call.WriteModel(rid, artifact), View());
      folders := folders[rid := Stored(Files(rid), artifact)];
    }

    method ReadModel(rid: Id, kind: ArtifactKind) returns (r: Ret)
      ensures Did(Call.ReadModel(rid, kind), View(), View(), r)
      ensures var f := Files(rid);
              match r
              case Raised(e) =>
                && e == Unreadable
                && (kind.RequestKind? ==> f.request.None?)
                && (kind.RouteKind? ==> f.route.None?)
                && (kind.ManifestKind? ==> f.manifest.None?)
                && (kind.PackKind? ==> f.pack.None?)
                && (kind.ResultKind? ==> f.result.None?)
              case ArtifactRet(x) =>
                && (kind.RequestKind? ==> x.RequestFile? && f.request == Some(x.request))
                && (kind.RouteKind? ==> x.RouteFile? && f.route == Some(x.route))
                && (kind.ManifestKind? ==> x.ManifestFile? && f.manifest == Some(x.manifest))
                && (kind.PackKind? ==> x.PackFile? && f.pack == Some(x.pack))
                && (kind.ResultKind? ==> x.ResultFile? && f.result == Some(x.report))
              case _ => false
    {
      DidNothing(Call.ReadModel(rid, kind), View());
      var found := Loaded(Files(rid), kind);
      r := if found.None? then Raised(Unreadable) else ArtifactRet(found.value);
    }

    method CreateStatus(rid: Id, status: RequestStatus) returns (r: Ret)
      modifies this
      ensures Did(Call.CreateStatus(rid, status), old(View()), View(), r)
      ensures OnlyTouched(rid)
      ensures if old(Files(rid)).status.Some? then r == Raised(InvalidState) && Files(rid) == old(Files(rid))
              else r == StatusRet(status) && Files(rid) == old(Files(rid)).(status := Some(status))
    {
      ghost var q, d := Call.CreateStatus(rid, status), View();
      if Files(rid).status.Some? {
        DidNothing(q, d);
        return Raised(InvalidState);
      }
      DidOne(q, d);
      WriteStatus(rid, status);
      r := StatusRet(status);
    }

    method LoadStatus(rid: Id) returns (r: Ret)
      ensures Did(Call.LoadStatus(rid), View(), View(), r)
      ensures r == if Files(rid).status.None? then Raised(Unreadable) else StatusRet(Files(rid).status.value)
    {
      DidNothing(Call.LoadStatus(rid), View());
      if Files(rid).status.None? { return Raised(Unreadable); }
      r := StatusRet(Files(rid).status.value);
    }

    method Transition(rid: Id, expected: RequestState, next: RequestState, rebind: Option<Option<Id>>, now: Time) returns (r: Ret)
      modifies this
      ensures Did(Call.Transition(rid, expected, next, rebind, now), old(View()), View(), r)
      ensures OnlyTouched(rid)
      ensures var a := old(Files(rid));
              if a.status.None? then r == Raised(Unreadable) && Files(rid) == a
              else if a.status.value.state != expected then r == Raised(InvalidState) && Files(rid) == a
              else
                && r == StatusRet(a.status.value.(
                  state := next, updatedAt := now,
                  conversation := if rebind.Some? then rebind.value else a.status.value.conversation))
                && Files(rid) == a.(status := Some(r.status))
    {
      ghost var q, d := Call.Transition(rid, expected, next, rebind, now), View();
      if SectionOf(q, d).writes == [] { DidNothing(q, d); }
      if Files(rid).status.None? { return Raised(Unreadable); }
      var payload := Files(rid).status.value;
      if payload.state != expected { return Raised(InvalidState); }
      DidOne(q, d);
      if rebind.Some? { payload := payload.(conversation := rebind.value); }
      payload := payload.(state := next);
      payload := payload.(updatedAt := now);
      WriteStatus(rid, payload);
      r := StatusRet(payload);
    }

    method UpdateProgress(rid: Id, text: Id, now: Time)
      modifies this
      ensures Did(Call.UpdateProgress(rid, text, now), old(View()), View(), NoValue)
      ensures OnlyTouched(rid)
      ensures var a := old(Files(rid));
              if a.status.Some? && (a.status.value.state.RunningPlanner? || a.status.value.state.RunningFinal?)
              then Files(rid) == a.(status := Some(a.status.value.(partialText := Some(text), partialAt := Some(now))))
              else Files(rid) == a
    {
      ghost var q, d := Call.UpdateProgress(rid, text, now), View();
      if SectionOf(q, d).writes == [] { DidNothing(q, d); }
      if Files(rid).status.None? { return; }
      var current := Files(rid).status.value;
      if !current.state.RunningPlanner? && !current.state.RunningFinal? { return; }
      DidOne(q, d);
      WriteStatus(rid, current.(partialText := Some(text), partialAt := Some(now)));
    }

    method UpdateStatus(rid: Id, conversation: Option<Id>, now: Time) returns (r: Ret)
      modifies this
      ensures Did(Call.UpdateStatus(rid, conversation, now), old(View()), View(), r)
      ensures OnlyTouched(rid)
      ensures var a := old(Files(rid));
              if a.status.None? then r == Raised(Unreadable) && Files(rid) == a
              else
                && r == StatusRet(a.status.value.(conversation := conversation, updatedAt := now))
                && Files(rid) == a.(status := Some(r.status))
    {
      ghost var q, d := Call.UpdateStatus(rid, conversation, now), View();
      if Files(rid).status.None? {
        DidNothing(q, d);
        return Raised(Unreadable);
      }
      DidOne(q, d);
      var updated := Files(rid).status.value.(conversation := conversation, updatedAt := now);
      WriteStatus(rid, updated);
      r := StatusRet(updated);
    }

    method Fail(rid: Id, error: Id, now: Time) returns (r: Ret)
      modifies this
      ensures Did(FailRequest(rid, error, now), old(View()), View(), r)
      ensures OnlyTouched(rid)
      ensures var a := old(Files(rid));
              if a.status.None? then r == Raised(Unreadable) && Files(rid) == a
              else if a.status.value.state.Complete? then r == StatusRet(a.status.value) && Files(rid) == a
              else
                && r == StatusRet(a.status.value.(state := Failed, updatedAt := now, error := Some(error)))
                && Files(rid) == a.(status := Some(r.status))
    {
      ghost var q, d := FailRequest(rid, error, now), View();
      if SectionOf(q, d).writes == [] { DidNothing(q, d); }
      if Files(rid).status.None? { return Raised(Unreadable); }
      var current := Files(rid).status.value;
      if current.state.Complete? { return StatusRet(current); }
      DidOne(q, d);
      var updated := current.(state := Failed, updatedAt := now, error := Some(error));
      WriteStatus(rid, updated);
      r := StatusRet(updated);
    }
  }
}
