/** conversations.py and the call-at-a-time side of engine.py: what one call means to a caller
    when no other process interferes. */
module Managers {
  import opened Records
  import opened ReportValidation
  import opened Store
  import opened Stores
  import Engine

  /** What a session section made of its directory. */
  lemma SessionDid(q: Call, d: Disk, e: Disk, r: Ret)
    requires Did(q, d, e, r) && q.OnSession()
    ensures var ws := SectionOf(q, d).writes;
            e == if ws == [] then d else if |ws| == 1 then Apply(d, ws[0]) else Apply(Apply(d, ws[0]), ws[1])
  {
    WritesAreGuarded(q, d);
    var ws := SectionOf(q, d).writes;
    if ws == [] { DidNothing(q, d); } else if |ws| == 1 { DidOne(q, d); } else { DidTwo(q, d); }
  }

  /** What a request section made of its folder. */
  lemma RequestDid(q: Call, d: Disk, e: Disk, r: Ret)
    requires Did(q, d, e, r) && !q.OnSession()
    ensures var f := FolderOf(d, q.rid);
            && r == RequestSection(q, f).ret
            && FolderOf(e, q.rid) == if RequestSection(q, f).writes == [] then f else Written(q, f)
    ensures forall rid | rid != q.rid :: FolderOf(e, rid) == FolderOf(d, rid)
  {
    if SectionOf(q, d).writes == [] { DidNothing(q, d); } else { DidOne(q, d); }
  }

  datatype Resolving = Resolved(resolution: Resolution) | Refused

  predicate IsTemporary(req: RawRequest) { req.temporary || req.policy.TemporaryChat? }

  /** The chat an existing session gives to a request, when it does not make a new one. */
  function ChosenChat(req: RawRequest, dir: SessionDir): Option<Id> {
    if req.chat.Some? then req.chat
    else if req.policy.NewChat? || req.policy.IndependentChat? || dir.record.None? then None
    else dir.record.value.active
  }

  function NewKind(req: RawRequest): ChatKind {
    if req.policy.NewChat? then Standard else if req.policy.IndependentChat? then Independent else Main
  }

  /** Two versions of a chat that differ at most in the conversation and the time. */
  predicate SameButBound(a: ChatRecord, b: ChatRecord) {
    b.(conversation := None, updatedAt := 0) == a.(conversation := None, updatedAt := 0)
  }

  /** When `resolve` raises: wrong repository, closed session, unknown or archived explicit chat,
      a lost active chat, or an explicit conversation the chosen chat contradicts. */
  predicate Refuses(req: RawRequest, dir: SessionDir) {
    && !IsTemporary(req)
    && (|| (dir.record.Some? && (dir.record.value.repoRoot != req.repoRoot || dir.record.value.closedAt.Some?))
        || (ChosenChat(req, dir).Some? && ChosenChat(req, dir).value !in dir.chats)
        || (req.chat.Some? && req.chat.value in dir.chats && dir.chats[req.chat.value].archivedAt.Some?)
        || (ChosenChat(req, dir).Some? && ChosenChat(req, dir).value in dir.chats
            && req.conversation.Some? && dir.chats[ChosenChat(req, dir).value].conversation.Some?
            && dir.chats[ChosenChat(req, dir).value].conversation != req.conversation))
  }

  class ConversationManager {
    const store: SessionStore

    constructor (store: SessionStore)
      ensures this.store == store
    {
      this.store := store;
    }

    /** `resolve`: refused exactly in the cases above; otherwise the chosen chat, or a new one
        that becomes active unless it is independent; and an explicit conversation is bound. */
    method Resolve(req: RawRequest, cid: Id, now: Time) returns (r: Resolving)
      requires cid !in store.Dir(req.session).chats && req.chat != Some(cid)
      requires store.Dir(req.session).record.None? ==> store.Dir(req.session).chats == map[]
      modifies store
      ensures r.Refused? <==> Refuses(req, old(store.Dir(req.session)))
      ensures IsTemporary(req) ==> r == Resolved(Unbound) && store.View() == old(store.View())
      ensures !IsTemporary(req) && r.Resolved? ==>
                var a, b := old(store.Dir(req.session)), store.Dir(req.session);
                var pick := if ChosenChat(req, a).Some? then ChosenChat(req, a).value else cid;
                && b.record.Some? && b.record.value.closedAt.None? && b.record.value.repoRoot == req.repoRoot
                && pick in b.chats
                && r.resolution == Bound(req.session, pick, b.chats[pick].conversation)
                && (req.conversation.Some? ==> b.chats[pick].conversation == req.conversation)
                && (req.conversation.None? && pick in a.chats ==> b.chats[pick] == a.chats[pick])
                && (pick in a.chats ==> SameButBound(a.chats[pick], b.chats[pick]))
                && (pick !in a.chats ==> SameButBound(FreshChat(req.session, NewKind(req), now), b.chats[pick]))
                && (forall c | c in a.chats && c != pick :: c in b.chats && b.chats[c] == a.chats[c])
                && (pick !in a.chats ==> b.record.value.chatIds == (if a.record.Some? then a.record.value.chatIds else []) + [pick])
                && (pick !in a.chats && !req.policy.IndependentChat? ==> b.record.value.active == Some(pick))
                && ((pick in a.chats || req.policy.IndependentChat?) ==>
                      b.record.value.active == if a.record.Some? then a.record.value.active else None)
    {
      if req.temporary || req.policy.TemporaryChat? { return Resolved(Unbound); }
      var got := EnsureSession(req.session, req.repoRoot, now);
      if !got { return Refused; }
      var chat := PickChat(req, cid, now);
      if !chat.ChatRet? { return Refused; }
      r := BindExplicit(req, chat.cid, chat.chat, now);
    }

    /** The chat of an open session that the request's chat id and policy select. */
    method PickChat(req: RawRequest, cid: Id, now: Time) returns (chat: Ret)
      requires cid !in store.Dir(req.session).chats
      requires store.Dir(req.session).record.Some? && store.Dir(req.session).record.value.closedAt.None?
      modifies store
      ensures var a, b := old(store.Dir(req.session)), store.Dir(req.session);
              var pick := if ChosenChat(req, a).Some? then ChosenChat(req, a).value else cid;
              && (chat.ChatRet? <==> (ChosenChat(req, a).Some? ==> pick in a.chats)
                                     && (req.chat.Some? ==> pick in a.chats && a.chats[pick].archivedAt.None?))
              && (chat.ChatRet? ==>
                    && chat.cid == pick && pick in b.chats && chat.chat == b.chats[pick]
                    && b.record.Some? && b.record.value.closedAt.None? && b.record.value.repoRoot == a.record.value.repoRoot
                    && (pick in a.chats ==> b == a)
                    && (pick !in a.chats ==>
                          && b.chats == a.chats[pick := FreshChat(req.session, NewKind(req), now)]
                          && b.record.value.chatIds == a.record.value.chatIds + [pick]
                          && b.record.value.active == if req.policy.IndependentChat? then a.record.value.active else Some(pick)))
    {
      var sid := req.session;
      ghost var d := store.View();
      if req.chat.Some? {
        chat := store.GetChat(sid, req.chat.value);
        if chat.ChatRet? && chat.chat.archivedAt.Some? { chat := Raised(InvalidState); }
      } else if req.policy.NewChat? {
        chat := store.CreateChat(sid, cid, Standard, true, now);
        SessionDid(CreateChat(sid, cid, Standard, true, now), d, store.View(), chat);
      } else if req.policy.IndependentChat? {
        chat := store.CreateChat(sid, cid, Independent, false, now);
        SessionDid(CreateChat(sid, cid, Independent, false, now), d, store.View(), chat);
      } else {
        chat := store.GetOrCreateMainChat(sid, cid, now);
        SessionDid(MainChat(sid, cid, now), d, store.View(), chat);
      }
    }

    /** The explicit conversation id of a request against the picked chat. */
    method BindExplicit(req: RawRequest, pick: Id, chat: ChatRecord, now: Time) returns (r: Resolving)
      requires pick in store.Dir(req.session).chats && chat == store.Dir(req.session).chats[pick]
      requires store.Dir(req.session).record.Some?
      modifies store
      ensures var a, b := old(store.Dir(req.session)), store.Dir(req.session);
              && (r.Refused? <==> req.conversation.Some? && chat.conversation.Some? && chat.conversation != req.conversation)
              && (r.Resolved? ==>
                    && b.record.Some? && b.record.value.(updatedAt := 0) == a.record.value.(updatedAt := 0)
                    && pick in b.chats && b.chats == a.chats[pick := b.chats[pick]]
                    && r.resolution == Bound(req.session, pick, b.chats[pick].conversation)
                    && (req.conversation.Some? ==> b.chats[pick].conversation == req.conversation)
                    && SameButBound(a.chats[pick], b.chats[pick])
                    && (req.conversation.None? ==> b == a))
    {
      var wanted := req.conversation;
      if wanted.Some? && chat.conversation.Some? && chat.conversation != wanted { return Refused; }
      if wanted.Some? && chat.conversation.None? {
        ghost var d := store.View();
        var u := ChatUpdate(Some(wanted), None, None);
        var updated := store.UpdateChat(req.session, pick, u, now);
        SessionDid(UpdateChat(req.session, pick, u, now), d, store.View(), updated);
        return Resolved(Bound(req.session, pick, updated.chat.conversation));
      }
      r := Resolved(Bound(req.session, pick, chat.conversation));
    }

    /** `ensure_session`: the session exists afterwards, and it is usable unless it was already
        there for another repository or closed. */
    method EnsureSession(sid: Id, repoRoot: Id, now: Time) returns (ok: bool)
      modifies store
      ensures old(store.Dir(sid).record).None? ==>
                ok && store.Dir(sid) == old(store.Dir(sid)).(record := Some(SessionRecord(repoRoot, None, [], now, None)))
      ensures old(store.Dir(sid).record).Some? ==>
                && store.View() == old(store.View())
                && (ok <==> store.Dir(sid).record.value.repoRoot == repoRoot && store.Dir(sid).record.value.closedAt.None?)
    {
      ghost var d := store.View();
      if store.Dir(sid).record.None? {
        var made := store.CreateSession(sid, repoRoot, now);
        SessionDid(CreateSession(sid, repoRoot, now), d, store.View(), made);
        if !made.Raised? { return true; }
      }
      var got := store.GetSession(sid);
      SessionDid(GetSession(sid), store.View(), store.View(), got);
      ok := got.SessionRet? && got.session.repoRoot == repoRoot && got.session.closedAt.None?;
    }

    /** `bind_conversation`: nothing for an unbound resolution or an id-less response; refused,
        changing nothing, exactly when the chat carries another id; otherwise bound. */
    method BindConversation(res: Resolution, conversation: Option<Id>, tunnel: Option<Id>, now: Time) returns (ok: bool)
      requires res.Bound? ==> res.chatId in store.Dir(res.sessionId).chats && store.Dir(res.sessionId).record.Some?
      modifies store
      ensures res.Unbound? || conversation.None? ==> ok && store.View() == old(store.View())
      ensures res.Bound? && conversation.Some? ==>
                var a, b := old(store.Dir(res.sessionId)), store.Dir(res.sessionId);
                && (ok <==> a.chats[res.chatId].conversation.None? || a.chats[res.chatId].conversation == conversation)
                && (!ok ==> store.View() == old(store.View()))
                && (ok ==>
                      b.chats == a.chats[res.chatId := a.chats[res.chatId].(
                        conversation := conversation,
                        tunnel := if tunnel.Some? then tunnel else a.chats[res.chatId].tunnel,
                        updatedAt := now)])
    {
      if conversation.None? || res.Unbound? { return true; }
      var chat := store.GetChat(res.sessionId, res.chatId);
      SessionDid(GetChat(res.sessionId, res.chatId), store.View(), store.View(), chat);
      if chat.chat.conversation.Some? && chat.chat.conversation != conversation { return false; }
      ghost var d := store.View();
      var u := ChatUpdate(Some(conversation), Some(if tunnel.Some? then tunnel else chat.chat.tunnel), None);
      var updated := store.UpdateChat(res.sessionId, res.chatId, u, now);
      SessionDid(UpdateChat(res.sessionId, res.chatId, u, now), d, store.View(), updated);
      ok := true;
    }
  }

  /** How `run_automatic` ends: refused before there is a request, with an error and the request
      failed, or with a report. */
  datatype RunEnd = NotStarted | RunFailed | Finished(report: Report)

  class ReviewEngine {
    const store: RequestStore
    const conversations: ConversationManager

    constructor (store: RequestStore, conversations: ConversationManager)
      ensures this.store == store && this.conversations == conversations
    {
      this.store, this.conversations := store, conversations;
    }

    // ------------------------------------------------- store calls on a folder

    /** `write_model`, as its caller sees it. */
    method Put(rid: Id, artifact: Artifact)
      modifies store
      ensures store.Files(rid) == Stored(old(store.Files(rid)), artifact)
      ensures forall r | r != rid :: store.Files(r) == old(store.Files(r))
    {
      ghost var d := store.View();
      store.WriteModel(rid, artifact);
      RequestDid(WriteModel(rid, artifact), d, store.View(), NoValue);
      SameFiles(rid);
    }

    /** `transition` from the state the request is in. */
    method Move(rid: Id, expected: RequestState, next: RequestState, rebind: Option<Option<Id>>, now: Time)
      requires store.Files(rid).status.Some? && store.Files(rid).status.value.state == expected
      modifies store
      ensures var f := old(store.Files(rid));
              store.Files(rid) == f.(status := Some(f.status.value.(
                state := next,
                conversation := if rebind.Some? then rebind.value else f.status.value.conversation,
                updatedAt := now)))
      ensures forall r | r != rid :: store.Files(r) == old(store.Files(r))
    {
      ghost var d := store.View();
      var moved := store.Transition(rid, expected, next, rebind, now);
      RequestDid(Transition(rid, expected, next, rebind, now), d, store.View(), moved);
      SameFiles(rid);
    }

    /** `fail` on a request that is not complete. */
    method Abort(rid: Id, error: Id, now: Time)
      requires store.Files(rid).status.Some? && !store.Files(rid).status.value.state.Complete?
      modifies store
      ensures var f := old(store.Files(rid));
              store.Files(rid) == f.(status := Some(f.status.value.(state := Failed, updatedAt := now, error := Some(error))))
      ensures forall r | r != rid :: store.Files(r) == old(store.Files(r))
    {
      ghost var d := store.View();
      var failed := store.Fail(rid, error, now);
      RequestDid(FailRequest(rid, error, now), d, store.View(), failed);
      SameFiles(rid);
    }

    /** The other folders of the disk are the other files of the store. */
    twostate lemma SameFiles(rid: Id)
      requires forall r | r != rid :: FolderOf(store.View(), r) == FolderOf(old(store.View()), r)
      ensures forall r | r != rid :: store.Files(r) == old(store.Files(r))
    {
      forall r | r != rid ensures store.Files(r) == old(store.Files(r)) {
        assert FolderOf(store.View(), r) == FolderOf(old(store.View()), r);
      }
    }

    // ------------------------------------------------------------- submissions

    /** `submit_final`: accepted exactly when the request waits for its final result and the
        payload answers it; then the result is stored and the request complete, and every other
        file is as it was. A refused submission changes nothing. */
    method SubmitFinal(rid: Id, payload: Report, now: Time) returns (ok: bool)
      requires var f := store.Files(rid);
               f.status.Some? && f.status.value.state.WaitingFinal? ==> f.request.Some? && f.route.Some? && f.manifest.Some?
      modifies store
      ensures var f := old(store.Files(rid));
              ok <==> f.status.Some? && f.status.value.state.WaitingFinal?
                      && Answers(rid, f.request.value, f.route.value, f.manifest.value, payload)
      ensures !ok ==> store.View() == old(store.View())
      ensures ok ==> store.Files(rid) == old(store.Files(rid)).(
                result := Some(payload),
                status := Some(old(store.Files(rid)).status.value.(state := Complete, updatedAt := now)))
      ensures forall r | r != rid :: store.Files(r) == old(store.Files(r))
    {
      var status := store.LoadStatus(rid);
      if status.Raised? || status.status.state != WaitingFinal { return false; }
      var request := store.ReadModel(rid, RequestKind);
      var route := store.ReadModel(rid, RouteKind);
      var manifest := store.ReadModel(rid, ManifestKind);
      AcceptedIffAnswers(rid, request.artifact.request, route.artifact.route, manifest.artifact.manifest, payload);
      var checked := ValidateReport(rid, request.artifact.request, route.artifact.route, manifest.artifact.manifest, payload);
      if checked.Rejected? { return false; }
      Put(rid, ResultFile(payload));
      Move(rid, WaitingFinal, Complete, None, now);
      ok := true;
    }

    /** `submit_planner` up to the prompt: accepted exactly when the request waits for its plan
        and the planner check and the context builder accept. The manifest is stored before the
        context is built, so a failed build leaves the new manifest and the old state. */
    method SubmitPlanner(rid: Id, manifest: Manifest, plannerAccepts: bool, content: Option<Id>, now: Time) returns (ok: bool)
      requires var f := store.Files(rid);
               f.status.Some? && f.status.value.state.WaitingPlanner? ==> f.request.Some? && f.route.Some?
      modifies store
      ensures var f := old(store.Files(rid)); var g := store.Files(rid);
              && (ok <==> f.status.Some? && f.status.value.state.WaitingPlanner? && plannerAccepts && content.Some?)
              && (ok ==> g == f.(manifest := Some(manifest), pack := Some(Pack(f.request.value, manifest, content.value)),
                                 status := Some(f.status.value.(state := WaitingFinal, updatedAt := now))))
              && (!ok ==> g == if f.status.Some? && f.status.value.state.WaitingPlanner? && plannerAccepts
                               then f.(manifest := Some(manifest)) else f)
      ensures forall r | r != rid :: store.Files(r) == old(store.Files(r))
    {
      var status := store.LoadStatus(rid);
      if status.Raised? || status.status.state != WaitingPlanner { return false; }
      var request := store.ReadModel(rid, RequestKind);
      var route := store.ReadModel(rid, RouteKind);
      if !plannerAccepts { return false; }
      Put(rid, ManifestFile(manifest));
      if content.None? { return false; }
      Put(rid, PackFile(Pack(request.artifact.request, manifest, content.value)));
      Move(rid, WaitingPlanner, WaitingFinal, None, now);
      ok := true;
    }

    // ------------------------------------------------------------- new requests

    /** `_new_request`: the request's three files, and its place at the end of its chat's list. */
    method NewRequest(run: Engine.Run, res: Resolution, rid: Id, now: Time)
      requires store.Files(rid) == EMPTY_FOLDER
      requires res.Bound? ==> var dir := conversations.store.Dir(res.sessionId);
                              res.chatId in dir.chats && rid !in dir.chats[res.chatId].requestIds
      modifies store, conversations.store
      ensures store.Files(rid) == Folder(
                Some(RequestStatus(
                  New, if res.Bound? then Some(res.sessionId) else None, if res.Bound? then Some(res.chatId) else None,
                  if res.Bound? then run.request.policy else TemporaryChat, None, None, None, now, None)),
                Some(run.request), Some(run.route), None, None, None)
      ensures forall r | r != rid :: store.Files(r) == old(store.Files(r))
      ensures res.Unbound? ==> conversations.store.View() == old(conversations.store.View())
      ensures res.Bound? ==>
                var a, b := old(conversations.store.Dir(res.sessionId)), conversations.store.Dir(res.sessionId);
                b == a.(chats := a.chats[res.chatId := a.chats[res.chatId].(
                          requestIds := a.chats[res.chatId].requestIds + [rid], updatedAt := now)])
    {
      ghost var d := store.View();
      var status := Engine.NewStatus(Engine.Context(run, res, rid), now);
      var made := store.CreateStatus(rid, status);
      RequestDid(CreateStatus(rid, status), d, store.View(), made);
      SameFiles(rid);
      Put(rid, RequestFile(run.request));
      Put(rid, RouteFile(run.route));
      if res.Bound? {
        ghost var s := conversations.store.View();
        var listed := conversations.store.AppendRequest(res.sessionId, res.chatId, rid, now);
        SessionDid(AppendRequest(res.sessionId, res.chatId, rid, now), s, conversations.store.View(), listed);
      }
    }

    /** `prepare` with no other process in between: refused exactly if the resolution is; otherwise the
        request waits for its plan, with nothing but the request and its route stored, and it is the last
        one listed in the chat it was resolved to. */
    method Prepare(run: Engine.Run, rid: Id, cid: Id, now: Time) returns (ok: bool, res: Resolution)
      requires store.Files(rid) == EMPTY_FOLDER
      requires var dir := conversations.store.Dir(run.request.session);
               && cid !in dir.chats && run.request.chat != Some(cid)
               && (dir.record.None? ==> dir.chats == map[])
               && forall c | c in dir.chats :: rid !in dir.chats[c].requestIds
      modifies store, conversations.store
      ensures ok <==> !Refuses(run.request, old(conversations.store.Dir(run.request.session)))
      ensures !ok ==> store.View() == old(store.View())
      ensures var a := old(conversations.store.Dir(run.request.session));
              var pick := if ChosenChat(run.request, a).Some? then ChosenChat(run.request, a).value else cid;
              ok ==> store.Files(rid) == Folder(
                Some(if IsTemporary(run.request)
                     then RequestStatus(WaitingPlanner, None, None, TemporaryChat, None, None, None, now, None)
                     else RequestStatus(WaitingPlanner, Some(run.request.session), Some(pick), run.request.policy, None, None, None, now, None)),
                Some(run.request), Some(run.route), None, None, None)
      ensures ok && !IsTemporary(run.request) ==>
                var a, b := old(conversations.store.Dir(run.request.session)), conversations.store.Dir(run.request.session);
                var pick := if ChosenChat(run.request, a).Some? then ChosenChat(run.request, a).value else cid;
                && res.Bound? && res == Bound(run.request.session, pick, res.conversation) && pick in b.chats
                && b.chats[pick].requestIds == (if pick in a.chats then a.chats[pick].requestIds else []) + [rid]
                && b.chats[pick].conversation == res.conversation
                && (forall c | c in a.chats && c != pick :: c in b.chats && b.chats[c] == a.chats[c])
      ensures forall x | x != rid :: store.Files(x) == old(store.Files(x))
    {
      ok, res := false, Unbound;
      var resolving := conversations.Resolve(run.request, cid, now);
      if resolving.Refused? { return; }
      ok, res := true, resolving.resolution;
      NewRequest(run, res, rid, now);
      Move(rid, New, WaitingPlanner, None, now);
    }

    // ---------------------------------------------------------- automatic runs

    /** From the new request to the final stage: what the provider plans and the context builder
        makes of it come in, none standing for an error. */
    method PlanStage(run: Engine.Run, rid: Id, plan: Option<Manifest>, content: Option<Id>, now: Time) returns (ok: bool)
      requires store.Files(rid).status.Some? && store.Files(rid).status.value.state.New?
      modifies store
      ensures ok <==> plan.Some? && content.Some?
      ensures var f, g := old(store.Files(rid)), store.Files(rid);
              && g.status == Some(f.status.value.(state := if ok then RunningFinal else RunningPlanner, updatedAt := now))
              && g.request == f.request && g.route == f.route && g.result == f.result
              && g.manifest == (if plan.Some? then plan else f.manifest)
              && g.pack == if ok then Some(Pack(run.request, plan.value, content.value)) else f.pack
      ensures forall r | r != rid :: store.Files(r) == old(store.Files(r))
    {
      ok := false;
      Move(rid, New, RunningPlanner, None, now);
      if plan.Some? {
        Put(rid, ManifestFile(plan.value));
        if content.Some? {
          Put(rid, PackFile(Pack(run.request, plan.value, content.value)));
          Move(rid, RunningPlanner, RunningFinal, None, now);
          ok := true;
        }
      }
    }

    /** What a chat's conversation must be for a response to be accepted from it. */
    static predicate Agrees(res: Resolution, dir: SessionDir, response: Response)
      requires res.Bound? ==> res.chatId in dir.chats
    {
      res.Unbound? || response.conversation.None? || dir.chats[res.chatId].conversation.None?
      || dir.chats[res.chatId].conversation == response.conversation
    }

    /** The final stage, under the chat lock: re-read the chat, run the turn, bind the conversation,
        note it, validate, store the result, complete. `sent` is the conversation the turn is asked to
        continue. */
    method FinalStage(run: Engine.Run, rid: Id, res: Resolution, manifest: Manifest, response: Option<Response>, now: Time)
      returns (ok: bool, sent: Option<Id>)
      requires store.Files(rid).status.Some? && store.Files(rid).status.value.state.RunningFinal?
      requires res.Bound? ==> var dir := conversations.store.Dir(res.sessionId); res.chatId in dir.chats && dir.record.Some?
      modifies store, conversations.store
      ensures res.Unbound? ==> sent.None? && conversations.store.View() == old(conversations.store.View())
      ensures res.Bound? ==>
                var a, b := old(conversations.store.Dir(res.sessionId)), conversations.store.Dir(res.sessionId);
                var c := a.chats[res.chatId];
                && sent == (if c.conversation.Some? then c.conversation else res.conversation)
                && b.chats == (if response.Some? && response.value.conversation.Some? && Agrees(res, a, response.value)
                               then a.chats[res.chatId := c.(
                                 conversation := response.value.conversation,
                                 tunnel := if run.tunnel.Some? then run.tunnel else c.tunnel,
                                 updatedAt := now)]
                               else a.chats)
      ensures var a := if res.Bound? then old(conversations.store.Dir(res.sessionId)) else EMPTY_DIR;
              ok <==> response.Some? && Agrees(res, a, response.value)
                      && Answers(rid, run.request, run.route, manifest, response.value.payload)
      ensures var f, g := old(store.Files(rid)), store.Files(rid);
              && g.status.Some?
              && (ok ==> g == f.(result := Some(response.value.payload),
                                 status := Some(f.status.value.(
                                   state := Complete, conversation := response.value.conversation, updatedAt := now))))
              && (!ok ==> g == f.(status := g.status) && g.status.value.state.RunningFinal?
                          && g.status.value.sessionId == f.status.value.sessionId && g.status.value.chatId == f.status.value.chatId)
      ensures forall r | r != rid :: store.Files(r) == old(store.Files(r))
    {
      ok, sent := false, None;
      if res.Bound? {
        var chat := conversations.store.GetChat(res.sessionId, res.chatId);
        SessionDid(GetChat(res.sessionId, res.chatId), conversations.store.View(), conversations.store.View(), chat);
        sent := if chat.chat.conversation.Some? then chat.chat.conversation else res.conversation;
      }
      if response.Some? {
        var bound := conversations.BindConversation(res, response.value.conversation, run.tunnel, now);
        if bound { ok := Settle(run, rid, manifest, response.value, now); }
      }
    }

    /** The part of the final stage after the conversation is bound. */
    method Settle(run: Engine.Run, rid: Id, manifest: Manifest, response: Response, now: Time) returns (ok: bool)
      requires store.Files(rid).status.Some? && store.Files(rid).status.value.state.RunningFinal?
      modifies store
      ensures ok <==> Answers(rid, run.request, run.route, manifest, response.payload)
      ensures var f, g := old(store.Files(rid)), store.Files(rid);
              var noted := f.status.value.(conversation := response.conversation, updatedAt := now);
              g == if ok then f.(result := Some(response.payload), status := Some(noted.(state := Complete)))
                   else f.(status := Some(noted))
      ensures forall r | r != rid :: store.Files(r) == old(store.Files(r))
    {
      ghost var d := store.View();
      var noted := store.UpdateStatus(rid, response.conversation, now);
      RequestDid(UpdateStatus(rid, response.conversation, now), d, store.View(), noted);
      SameFiles(rid);
      AcceptedIffAnswers(rid, run.request, run.route, manifest, response.payload);
      var checked := ValidateReport(rid, run.request, run.route, manifest, response.payload);
      if checked.Rejected? { return false; }
      Put(rid, ResultFile(response.payload));
      Move(rid, RunningFinal, Complete, Some(response.conversation), now);
      ok := true;
    }

    /** A run after its chat is resolved: a report exactly if planning, context, the final turn, its
        conversation and its report are all in order; then everything is stored and the request is
        complete. In every other case the request is failed. */
    method RunResolved(run: Engine.Run, rid: Id, res: Resolution, plan: Option<Manifest>, content: Option<Id>,
        response: Option<Response>, error: Id, now: Time)
      returns (r: RunEnd, sent: Option<Id>)
      requires store.Files(rid) == EMPTY_FOLDER
      requires res.Bound? ==> var dir := conversations.store.Dir(res.sessionId);
                              res.chatId in dir.chats && dir.record.Some? && rid !in dir.chats[res.chatId].requestIds
      modifies store, conversations.store
      ensures !r.NotStarted?
      ensures res.Bound? ==>
                var c := old(conversations.store.Dir(res.sessionId)).chats[res.chatId].conversation;
                plan.Some? && content.Some? ==> sent == if c.Some? then c else res.conversation
      ensures res.Unbound? || plan.None? || content.None? ==> sent.None?
      ensures r.Finished? <==>
                && plan.Some? && content.Some? && response.Some?
                && Agrees(res, if res.Bound? then old(conversations.store.Dir(res.sessionId)) else EMPTY_DIR, response.value)
                && Answers(rid, run.request, run.route, plan.value, response.value.payload)
      ensures r.Finished? ==>
                && r.report == response.value.payload
                && var g := store.Files(rid);
                   && g.status.Some? && g.status.value.state.Complete? && g.request == Some(run.request) && g.route == Some(run.route)
                   && g.manifest == plan && g.pack == Some(Pack(run.request, plan.value, content.value)) && g.result == Some(r.report)
                   && g.status.value.conversation == response.value.conversation
      ensures r.RunFailed? ==>
                var g := store.Files(rid);
                && g.status.Some? && g.status.value.state.Failed? && g.status.value.error == Some(error)
                && g.request == Some(run.request) && g.route == Some(run.route) && g.result.None?
      ensures var g := store.Files(rid).status;
              g.Some? && g.value.sessionId == Engine.SidOf(res) && g.value.chatId == Engine.CidOf(res)
      ensures res.Unbound? ==> conversations.store.View() == old(conversations.store.View())
      ensures res.Bound? ==>
                var a, b := old(conversations.store.Dir(res.sessionId)), conversations.store.Dir(res.sessionId);
                && b.chats.Keys == a.chats.Keys && (forall c | c in a.chats && c != res.chatId :: b.chats[c] == a.chats[c])
                && b.chats[res.chatId].requestIds == a.chats[res.chatId].requestIds + [rid]
                && b.chats[res.chatId].conversation
                   == (if plan.Some? && content.Some? && response.Some? && response.value.conversation.Some?
                          && Agrees(res, a, response.value)
                       then response.value.conversation else a.chats[res.chatId].conversation)
      ensures forall x | x != rid :: store.Files(x) == old(store.Files(x))
    {
      sent := None;
      NewRequest(run, res, rid, now);
      var ok := PlanStage(run, rid, plan, content, now);
      if ok {
        ok, sent := FinalStage(run, rid, res, plan.value, response, now);
      }
      if ok {
        r := Finished(response.value.payload);
      } else {
        Abort(rid, error, now);
        r := RunFailed;
      }
    }

    /** `run_automatic` from end to end with no other process in between. It ends without a request
        exactly if the resolution is refused; otherwise the request is the last one listed in the chat
        it was resolved to, with everything stored and COMPLETE, or failed. The conversation the final
        turn is sent is that of the chat, and a finished run leaves the chat bound to the one it came
        back with. */
    method RunAutomatic(run: Engine.Run, rid: Id, cid: Id, plan: Option<Manifest>, content: Option<Id>,
        response: Option<Response>, error: Id, now: Time)
      returns (r: RunEnd, res: Resolution, sent: Option<Id>)
      requires store.Files(rid) == EMPTY_FOLDER
      requires var dir := conversations.store.Dir(run.request.session);
               && cid !in dir.chats && run.request.chat != Some(cid)
               && (dir.record.None? ==> dir.chats == map[])
               && forall c | c in dir.chats :: rid !in dir.chats[c].requestIds
      modifies store, conversations.store
      ensures r.NotStarted? <==> Refuses(run.request, old(conversations.store.Dir(run.request.session)))
      ensures r.NotStarted? ==> store.View() == old(store.View())
      ensures r.Finished? ==>
                && plan.Some? && content.Some? && response.Some? && r.report == response.value.payload
                && Answers(rid, run.request, run.route, plan.value, r.report)
                && store.Files(rid).status.Some? && store.Files(rid).status.value.state.Complete?
                && store.Files(rid).result == Some(r.report)
      ensures r.RunFailed? ==> store.Files(rid).status.Some? && store.Files(rid).status.value.state.Failed?
      ensures !r.NotStarted? && !IsTemporary(run.request) ==>
                var a, b := old(conversations.store.Dir(run.request.session)), conversations.store.Dir(run.request.session);
                var pick := if ChosenChat(run.request, a).Some? then ChosenChat(run.request, a).value else cid;
                && res.Bound? && res.sessionId == run.request.session && res.chatId == pick
                && pick in b.chats
                && b.chats[pick].requestIds == (if pick in a.chats then a.chats[pick].requestIds else []) + [rid]
                && sent == (if plan.Some? && content.Some? then res.conversation else None)
                && (r.Finished? && response.value.conversation.Some? ==>
                      && b.chats[pick].conversation == response.value.conversation
                      && (res.conversation.Some? ==> res.conversation == response.value.conversation))
      ensures forall x | x != rid :: store.Files(x) == old(store.Files(x))
    {
      res, sent := Unbound, None;
      var resolving := conversations.Resolve(run.request, cid, now);
      if resolving.Refused? { return NotStarted, res, sent; }
      res := resolving.resolution;
      r, sent := RunResolved(run, rid, res, plan, content, response, error, now);
    }
  }
}
