/** In call-at-a-time histories a chat is bound once, explicit conversation ids included. */
module SerialBinding {
  import opened Records
  import opened Store
  import opened Engine
  import opened Machine
  import opened Invariant
  import opened Preservation
  import opened Conversation
  import opened Sessions

  /** Nothing bound, or bound to this. */
  predicate FreeFor(conv: Option<Id>, wanted: Option<Id>) { conv.None? || conv == wanted }

  /** What a binding client has read still holds. */
  predicate ReadHolds(d: Disk, cl: Client) {
    Live(cl) ==>
      match cl.prog
      case BindExplicit(run, cid, _) => FreeFor(ConversationOf(d, run.request.session, cid), run.request.conversation)
      case At(c, BindWrite(_, resp, _, _)) =>
        c.res.Bound? ==> FreeFor(ConversationOf(d, c.res.sessionId, c.res.chatId), resp.conversation)
      case _ => true
  }

  /** The only writes that set a conversation are those of `resolve` and of `bind_conversation`. */
  lemma SettersAre(p: Program, q: Call)
    requires CallOf(p) == Some(q) && q.UpdateChat? && q.update.conversation.Some?
    ensures || (p.BindExplicit? && q.sid == p.run.request.session && q.cid == p.cid
                && q.update.conversation.value == p.run.request.conversation)
            || (p.At? && p.point.BindWrite? && p.ctx.res.Bound? && q.sid == p.ctx.res.sessionId && q.cid == p.ctx.res.chatId
                && q.update.conversation.value == p.point.response.conversation)
  {
  }

  /** A call that leads to a binding write has just read the chat free for it. */
  lemma ReadsBeforeBinding(p: Program, ret: Ret, inp: Input)
    requires CallOf(p).Some?
    ensures var p' := Resume(p, ret, inp);
            p'.BindExplicit? ==>
              && CallOf(p).value.OnSession() && ret.ChatRet? && CallOf(p).value.sid == p'.run.request.session
              && ret.cid == p'.cid && ret.chat.conversation.None?
    ensures var p' := Resume(p, ret, inp);
            p'.At? && p'.point.BindWrite? && p'.ctx.res.Bound? ==>
              && CallOf(p).value.OnSession() && ret.ChatRet? && p.At? && p.ctx == p'.ctx
              && CallOf(p).value == GetChat(p'.ctx.res.sessionId, p'.ctx.res.chatId)
              && FreeFor(ret.chat.conversation, p'.point.response.conversation)
  {
  }

  lemma LeaveReads(s: State, i: nat, inp: Input, t: State)
    requires Inv(s) && Can(s, i, Leave(inp)) && t == Do(s, i, Leave(inp))
    ensures ReadHolds(t.disk, t.clients[i])
  {
    var cl := s.clients[i];
    var q := CallOf(cl.prog).value;
    var ret := Current(cl).ret;
    ReadsBeforeBinding(cl.prog, ret, inp);
    if q.OnSession() && ret.ChatRet? { ReturnedConversation(s, i, inp, q); }
  }

  lemma LocalNeverBinds(p: Program, d: Disk, inp: Input)
    requires CallOf(p).None? && OpWanted(p).None?
    ensures !LocalStep(p, d, inp).BindExplicit?
    ensures LocalStep(p, d, inp).At? ==> !LocalStep(p, d, inp).point.BindWrite?
  {
  }

  /** The binding client's own write leaves the chat bound to what it binds. */
  lemma WriteReads(s: State, i: nat, t: State)
    requires Inv(s) && Can(s, i, WriteNext) && t == Do(s, i, WriteNext) && ReadHolds(s.disk, s.clients[i])
    ensures ReadHolds(t.disk, t.clients[i])
  {
    var cl := s.clients[i];
    var q := CallOf(cl.prog).value;
    var m := Move(i, WriteNext);
    if q.UpdateChat? && q.update.conversation.Some? {
      SettersAre(cl.prog, q);
      if cl.sec.value.done == 0 {
        SetterSets(s, m, t, q.sid, q.cid, q.update.conversation.value);
      } else if ConversationOf(s.disk, q.sid, q.cid).Some? {
        ReboundExactly(s, m, t, q.sid, q.cid);
      } else {
        SecondWriteBindsNothing(s, i, t);
      }
    }
  }

  lemma SecondWriteBindsNothing(s: State, i: nat, t: State)
    requires Inv(s) && Can(s, i, WriteNext) && t == Do(s, i, WriteNext) && s.clients[i].sec.value.done > 0
    requires CallOf(s.clients[i].prog).value.UpdateChat?
    ensures var q := CallOf(s.clients[i].prog).value;
            ConversationOf(t.disk, q.sid, q.cid) == ConversationOf(s.disk, q.sid, q.cid)
  {
    var cl := s.clients[i];
    var q, snap := CallOf(cl.prog).value, cl.sec.value.snap;
    WritesAreGuarded(q, snap);
    assert ClientOk(s.disk, s.used, cl);
    WriteKeepsAgreement(s, i, q, Current(cl).writes[1], t);
    SecondWriteKeepsConversation(q, snap);
  }

  lemma ReadKept(s: State, m: Move, t: State)
    requires Inv(s) && Can(s, m.who, m.act) && t == Do(s, m.who, m.act)
    requires forall j | 0 <= j < |s.clients| && j != m.who :: !InProgress(s.clients[j])
    requires ReadHolds(s.disk, s.clients[m.who])
    ensures forall j | 0 <= j < |t.clients| :: ReadHolds(t.disk, t.clients[j])
  {
    forall j | 0 <= j < |t.clients| ensures ReadHolds(t.disk, t.clients[j]) {
      if j != m.who {
        assert t.clients[j] == s.clients[j] && !InProgress(s.clients[j]);
      } else {
        match m.act
        case Leave(inp) => LeaveReads(s, j, inp, t);
        case WriteNext => WriteReads(s, j, t);
        case Local(inp) => LocalNeverBinds(s.clients[j].prog, s.disk, inp);
        case _ =>
      }
    }
  }

  lemma {:induction false} SerialReads(run: seq<State>, moves: seq<Move>, k: nat)
    requires IsTrace(run, moves) && Serial(run, moves) && k < |run|
    ensures forall j | 0 <= j < |run[k].clients| :: ReadHolds(run[k].disk, run[k].clients[j])
  {
    if k > 0 {
      SerialReads(run, moves, k - 1);
      TraceOk(run, moves, k - 1);
      StepOf(run, moves, k - 1);
      ReadKept(run[k - 1], moves[k - 1], run[k]);
    }
  }

  lemma CheckedBindingIsSafe(s: State, m: Move, sid: Id, cid: Id, y: Option<Id>)
    requires Can(s, m.who, m.act) && ReadHolds(s.disk, s.clients[m.who]) && SetsConversation(s, m, sid, cid, y)
    ensures FreeFor(ConversationOf(s.disk, sid, cid), y)
  {
    SettersAre(s.clients[m.who].prog, CallOf(s.clients[m.who].prog).value);
  }

  lemma SerialStepKeeps(run: seq<State>, moves: seq<Move>, k: nat, sid: Id, cid: Id)
    requires IsTrace(run, moves) && Serial(run, moves) && k < |moves| && ConversationOf(run[k].disk, sid, cid).Some?
    ensures ConversationOf(run[k + 1].disk, sid, cid) == ConversationOf(run[k].disk, sid, cid)
  {
    var s, m, t := run[k], moves[k], run[k + 1];
    SerialReads(run, moves, k);
    TraceOk(run, moves, k);
    StepOf(run, moves, k);
    ReboundExactly(s, m, t, sid, cid);
    forall y: Option<Id> | SetsConversation(s, m, sid, cid, y) ensures y == ConversationOf(s.disk, sid, cid) {
      CheckedBindingIsSafe(s, m, sid, cid, y);
    }
  }

  /** In a call-at-a-time history a bound chat is never rebound, whatever explicit conversation ids the
      requests carry. */
  lemma {:induction false} SerialNeverRebinds(run: seq<State>, moves: seq<Move>, i: nat, j: nat, sid: Id, cid: Id)
    requires IsTrace(run, moves) && Serial(run, moves) && i <= j < |run| && ConversationOf(run[i].disk, sid, cid).Some?
    ensures ConversationOf(run[j].disk, sid, cid) == ConversationOf(run[i].disk, sid, cid)
    decreases j - i
  {
    if i < j {
      SerialNeverRebinds(run, moves, i, j - 1, sid, cid);
      SerialStepKeeps(run, moves, j - 1, sid, cid);
    }
  }
}
