/** How runs and submissions end and what they leave behind, in every run of any number of clients. */
module Outcomes {
  import opened Records
  import opened ReportValidation
  import opened Store
  import opened Engine
  import opened Machine
  import opened Invariant
  import opened Preservation
  import opened Growth
  import opened Atomicity
  import opened Conversation

  // ------------------------------------------------- calls on request folders

  /** The folder after the write, if any, of a request call. */
  function Filed(q: Call, f: Folder): Folder
    requires !q.OnSession()
  {
    if RequestSection(q, f).writes == [] then f else Written(q, f)
  }

  lemma FiledIs(q: Call, d: Disk)
    requires !q.OnSession()
    ensures FolderOf(AfterWrites(q, d, |SectionOf(q, d).writes|), q.rid) == Filed(q, FolderOf(d, q.rid))
  {
    AfterNone(q, d);
    if |SectionOf(q, d).writes| >= 1 { AfterOne(q, d); }
  }

  // ----------------------------------------------- what a program stands for

  predicate Temporary(run: Run) { run.request.temporary || run.request.policy.TemporaryChat? }

  /** Where `prepare` can stand. */
  predicate Early(pt: Point) { pt.WriteStatus? || pt.WriteRequest? || pt.WriteRoute? || pt.Attach? || pt.BeginPlanning? }

  /** A resolution follows the request: none for a temporary one, else the named session, and the
      chat and the conversation it names, if it names them. */
  predicate FollowsRequest(run: Run, res: Resolution) {
    && (res.Unbound? <==> Temporary(run))
    && (res.Bound? ==>
          && res.sessionId == run.request.session
          && (run.request.chat.Some? ==> run.request.chat == Some(res.chatId))
          && (run.request.conversation.Some? ==> res.conversation == run.request.conversation))
  }

  predicate PointFits(c: Context, pt: Point) {
    && (!c.run.automatic ==> Early(pt))
    && (pt.Attach? || pt.TakeChat? || pt.Reread? || pt.BindRead? || pt.BindWrite? ==> c.res.Bound?)
    && (pt.BindRead? || pt.BindWrite? ==> pt.response.conversation.Some?)
    && (pt.CallFinal? && c.res.Unbound? ==> pt.target.None?)
    && (pt.AwaitFinal? && c.res.Unbound? ==> pt.target.None?)
  }

  predicate ProgramFits(p: Program) {
    match p
    case CheckSession(run) => !Temporary(run)
    case MakeSession(run, _) => !Temporary(run)
    case LoadSession(run) => !Temporary(run)
    case LoadChat(run) => !Temporary(run) && run.request.chat.Some?
    case PickChat(run, _, _) => !Temporary(run) && run.request.chat.None?
    case BindExplicit(run, cid, _) =>
      !Temporary(run) && run.request.conversation.Some? && (run.request.chat.Some? ==> run.request.chat == Some(cid))
    case At(c, pt) => FollowsRequest(c.run, c.res) && PointFits(c, pt)
    case _ => true
  }

  lemma PointCallsFit(c: Context, pt: Point, ret: Ret, inp: Input)
    requires FollowsRequest(c.run, c.res) && PointFits(c, pt) && ContextCall(c, pt).Some?
    ensures ProgramFits(ResumeContext(c, pt, ret, inp))
  {
  }

  lemma CallsFit(p: Program, d: Disk, inp: Input)
    requires ProgramFits(p) && CallOf(p).Some?
    ensures ProgramFits(Resume(p, SectionOf(CallOf(p).value, d).ret, inp))
  {
    if p.At? { PointCallsFit(p.ctx, p.point, SectionOf(CallOf(p).value, d).ret, inp); }
  }

  lemma LocalsFit(p: Program, d: Disk, inp: Input)
    requires ProgramFits(p) && CallOf(p).None? && OpWanted(p).None?
    ensures ProgramFits(LocalStep(p, d, inp))
  {
  }

  lemma StepFits(s: State, m: Move, t: State, i: nat)
    requires Steps(s, m, t) && i < |s.clients| && i < |t.clients| && ProgramFits(s.clients[i].prog)
    ensures ProgramFits(t.clients[i].prog)
  {
    if m.who == i {
      if m.act.Leave? { CallsFit(s.clients[i].prog, s.clients[i].sec.value.snap, m.act.inp); }
      if m.act.Local? { LocalsFit(s.clients[i].prog, s.disk, m.act.inp); }
    }
  }

  lemma SameClients(run: seq<State>, moves: seq<Move>, k: nat)
    requires IsTrace(run, moves) && k < |moves|
    ensures |run[k + 1].clients| == |run[k].clients|
  {
    StepOf(run, moves, k);
  }

  lemma {:induction false} TraceFits(run: seq<State>, moves: seq<Move>, n: nat, i: nat)
    requires IsTrace(run, moves) && n < |run| && i < |run[n].clients|
    ensures ProgramFits(run[n].clients[i].prog)
  {
    if n > 0 {
      SameClients(run, moves, n - 1);
      StepOf(run, moves, n - 1);
      TraceFits(run, moves, n - 1, i);
      StepFits(run[n - 1], moves[n - 1], run[n], i);
    }
  }

  /** In every run, a run of the engine that has been resolved follows its request. */
  lemma ResolutionsFollowRequests(run: seq<State>, moves: seq<Move>, n: nat, i: nat)
    requires IsTrace(run, moves) && n < |run| && i < |run[n].clients| && run[n].clients[i].prog.At?
    ensures FollowsRequest(run[n].clients[i].prog.ctx.run, run[n].clients[i].prog.ctx.res)
  {
    TraceFits(run, moves, n, i);
  }

  // ------------------------------------------------------- listed in its chat

  predicate Listed(d: Disk, c: Context) {
    c.res.Bound? ==>
      && Exists(d, c.res.sessionId, c.res.chatId)
      && c.rid in DirOf(d, c.res.sessionId).chats[c.res.chatId].requestIds
  }

  predicate PastAttach(pt: Point) { !pt.WriteStatus? && !pt.WriteRequest? && !pt.WriteRoute? && !pt.Attach? }

  lemma ListedStays(d: Disk, e: Disk, c: Context)
    requires DiskGrows(d, e) && Listed(d, c)
    ensures Listed(e, c)
  {
    if c.res.Bound? {
      assert DirGrows(DirOf(d, c.res.sessionId), DirOf(e, c.res.sessionId));
      assert ChatGrows(DirOf(d, c.res.sessionId).chats[c.res.chatId], DirOf(e, c.res.sessionId).chats[c.res.chatId]);
    }
  }

  lemma AttachLists(q: Call, a: SessionDir)
    requires q.AppendRequest? && q.cid in a.chats
    ensures q.cid in Made(q, a).chats && q.rid in Made(q, a).chats[q.cid].requestIds
    ensures !SessionSection(q, a).ret.Raised?
  {
  }

  lemma ResumePast(c: Context, pt: Point, ret: Ret, inp: Input)
    requires PointFits(c, pt) && ContextCall(c, pt).Some? && ResumeContext(c, pt, ret, inp).At?
    ensures ResumeContext(c, pt, ret, inp).ctx == c
    ensures PastAttach(ResumeContext(c, pt, ret, inp).point) ==> PastAttach(pt) || pt.Attach? || c.res.Unbound?
  {
  }

  lemma LocalPast(p: Program, d: Disk, inp: Input)
    requires ProgramFits(p) && CallOf(p).None? && OpWanted(p).None? && LocalStep(p, d, inp).At?
    ensures p.At? ==> LocalStep(p, d, inp).ctx == p.ctx && (PastAttach(LocalStep(p, d, inp).point) ==> PastAttach(p.point))
    ensures !p.At? ==> !PastAttach(LocalStep(p, d, inp).point)
  {
  }

  lemma NotAtLeaves(p: Program, ret: Ret, inp: Input)
    requires CallOf(p).Some? && !p.At? && Resume(p, ret, inp).At?
    ensures !PastAttach(Resume(p, ret, inp).point)
  {
  }

  lemma LeaveLists(run: seq<State>, moves: seq<Move>, k: nat, i: nat)
    requires IsTrace(run, moves) && k < |moves| && moves[k].who == i < |run[k].clients| && moves[k].act.Leave?
    requires run[k].clients[i].prog.At? && run[k].clients[i].prog.point.Attach?
    ensures Listed(run[k + 1].disk, run[k].clients[i].prog.ctx)
  {
    StepOf(run, moves, k);
    TraceFits(run, moves, k, i);
    var q := CallOf(run[k].clients[i].prog).value;
    var e := CallsAreAtomic(run, moves, k, q);
    TraceOk(run, moves, e);
    assert ClientOk(run[e].disk, run[e].used, run[e].clients[i]);
    MadeIs(q, run[e].disk);
    AttachLists(q, DirOf(run[e].disk, q.sid));
  }

  /** A client that comes past the attaching point has attached, or stays past it. */
  lemma ComesPast(run: seq<State>, moves: seq<Move>, k: nat, i: nat)
    requires IsTrace(run, moves) && k < |moves| && i < |run[k].clients| && i < |run[k + 1].clients|
    requires run[k + 1].clients[i].prog.At? && PastAttach(run[k + 1].clients[i].prog.point)
    ensures run[k].clients[i].prog.At? && run[k + 1].clients[i].prog.ctx == run[k].clients[i].prog.ctx
    ensures PastAttach(run[k].clients[i].prog.point) || run[k].clients[i].prog.ctx.res.Unbound?
            || (moves[k].who == i && moves[k].act.Leave? && run[k].clients[i].prog.point.Attach?)
  {
    StepOf(run, moves, k);
    TraceFits(run, moves, k, i);
    var s, m, p := run[k], moves[k], run[k].clients[i].prog;
    if m.who == i && m.act.Leave? {
      if p.At? {
        ResumePast(p.ctx, p.point, Current(s.clients[i]).ret, m.act.inp);
      } else {
        NotAtLeaves(p, Current(s.clients[i]).ret, m.act.inp);
      }
    } else if m.who == i && m.act.Local? {
      LocalPast(p, s.disk, m.act.inp);
    }
  }

  lemma {:induction false} TraceLists(run: seq<State>, moves: seq<Move>, n: nat, i: nat)
    requires IsTrace(run, moves) && n < |run| && i < |run[n].clients|
    ensures run[n].clients[i].prog.At? && PastAttach(run[n].clients[i].prog.point) ==>
              Listed(run[n].disk, run[n].clients[i].prog.ctx)
  {
    if n > 0 {
      SameClients(run, moves, n - 1);
      StepGrows(run, moves, n - 1);
      TraceLists(run, moves, n - 1, i);
      var p, p' := run[n - 1].clients[i].prog, run[n].clients[i].prog;
      if p'.At? && PastAttach(p'.point) {
        ComesPast(run, moves, n - 1, i);
        if PastAttach(p.point) {
          ListedStays(run[n - 1].disk, run[n].disk, p.ctx);
        } else if p.ctx.res.Bound? {
          LeaveLists(run, moves, n - 1, i);
        }
      }
    }
  }

  // ----------------------------------------------- the conversation was bound

  predicate PastBinding(pt: Point) { pt.NoteConversation? || pt.Validate? || pt.WriteResult? || pt.Finish? }

  /** Some earlier state has the chat of the run bound to this conversation. */
  ghost predicate WasBound(run: seq<State>, n: nat, c: Context, conversation: Option<Id>)
    requires n < |run|
  {
    c.res.Bound? && conversation.Some? ==>
      exists j :: 0 <= j <= n && ConversationOf(run[j].disk, c.res.sessionId, c.res.chatId) == conversation
  }

  lemma WasBoundStays(run: seq<State>, n: nat, c: Context, conversation: Option<Id>)
    requires n + 1 < |run| && WasBound(run, n, c, conversation)
    ensures WasBound(run, n + 1, c, conversation)
  {
    if c.res.Bound? && conversation.Some? {
      var j :| 0 <= j <= n && ConversationOf(run[j].disk, c.res.sessionId, c.res.chatId) == conversation;
      assert 0 <= j <= n + 1;
    }
  }

  lemma BindingBinds(q: Call, a: SessionDir)
    requires q.UpdateChat? && q.update.conversation.Some? && q.cid in a.chats
    ensures q.cid in Made(q, a).chats && Made(q, a).chats[q.cid].conversation == q.update.conversation.value
  {
  }

  lemma ResumePastBinding(c: Context, pt: Point, ret: Ret, inp: Input)
    requires PointFits(c, pt) && ContextCall(c, pt).Some? && ResumeContext(c, pt, ret, inp).At?
    requires PastBinding(ResumeContext(c, pt, ret, inp).point)
    ensures ResumeContext(c, pt, ret, inp).ctx == c && (PastBinding(pt) || pt.BindWrite?)
    ensures ResumeContext(c, pt, ret, inp).point.response == pt.response
  {
  }

  lemma LocalPastBinding(p: Program, d: Disk, inp: Input)
    requires ProgramFits(p) && CallOf(p).None? && OpWanted(p).None? && LocalStep(p, d, inp).At?
    requires PastBinding(LocalStep(p, d, inp).point)
    ensures p.At? && LocalStep(p, d, inp).ctx == p.ctx
    ensures PastBinding(p.point) ==> LocalStep(p, d, inp).point.response == p.point.response
    ensures !PastBinding(p.point) ==> p.ctx.res.Unbound? || LocalStep(p, d, inp).point.response.conversation.None?
  {
  }

  lemma NotAtPasses(p: Program, ret: Ret, inp: Input)
    requires CallOf(p).Some? && !p.At? && Resume(p, ret, inp).At?
    ensures !PastBinding(Resume(p, ret, inp).point)
  {
  }

  lemma LeaveBinds(run: seq<State>, moves: seq<Move>, k: nat, i: nat)
    requires IsTrace(run, moves) && k < |moves| && moves[k].who == i < |run[k].clients| && moves[k].act.Leave?
    requires run[k].clients[i].prog.At? && run[k].clients[i].prog.point.BindWrite?
    ensures WasBound(run, k + 1, run[k].clients[i].prog.ctx, run[k].clients[i].prog.point.response.conversation)
  {
    StepOf(run, moves, k);
    TraceFits(run, moves, k, i);
    var q := CallOf(run[k].clients[i].prog).value;
    var e := CallsAreAtomic(run, moves, k, q);
    TraceOk(run, moves, e);
    assert ClientOk(run[e].disk, run[e].used, run[e].clients[i]);
    MadeIs(q, run[e].disk);
    BindingBinds(q, DirOf(run[e].disk, q.sid));
    var c := run[k].clients[i].prog.ctx;
    assert ConversationOf(run[k + 1].disk, c.res.sessionId, c.res.chatId) == q.update.conversation.value;
  }

  lemma {:induction false} TraceBinds(run: seq<State>, moves: seq<Move>, n: nat, i: nat)
    requires IsTrace(run, moves) && n < |run| && i < |run[n].clients|
    ensures run[n].clients[i].prog.At? && PastBinding(run[n].clients[i].prog.point) ==>
              WasBound(run, n, run[n].clients[i].prog.ctx, run[n].clients[i].prog.point.response.conversation)
  {
    if n > 0 {
      StepOf(run, moves, n - 1);
      TraceBinds(run, moves, n - 1, i);
      TraceFits(run, moves, n - 1, i);
      var s, m, p, p' := run[n - 1], moves[n - 1], run[n - 1].clients[i].prog, run[n].clients[i].prog;
      if p'.At? && PastBinding(p'.point) {
        if m.who == i && m.act.Leave? {
          if !p.At? {
            NotAtPasses(p, Current(s.clients[i]).ret, m.act.inp);
          } else {
            ResumePastBinding(p.ctx, p.point, Current(s.clients[i]).ret, m.act.inp);
            if p.point.BindWrite? { LeaveBinds(run, moves, n - 1, i); }
          }
        } else if m.who == i && m.act.Local? {
          LocalPastBinding(p, s.disk, m.act.inp);
        }
        if p.At? && PastBinding(p.point) { WasBoundStays(run, n - 1, p.ctx, p.point.response.conversation); }
      }
    }
  }
}
