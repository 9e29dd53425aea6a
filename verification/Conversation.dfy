/** The provider conversation of a chat: bound once, and then used by every final turn. */
module Conversation {
  import opened Records
  import opened Store
  import opened Engine
  import opened Machine
  import opened Invariant
  import opened Preservation

  /** The request behind a program carries no explicit conversation id. */
  predicate NotExplicit(p: Program) {
    match p
    case Start(run) => run.request.conversation.None?
    case CheckSession(run) => run.request.conversation.None?
    case MakeSession(run, _) => run.request.conversation.None?
    case LoadSession(run) => run.request.conversation.None?
    case LoadChat(run) => run.request.conversation.None?
    case PickChat(run, _, _) => run.request.conversation.None?
    case BindExplicit(_, _, _) => false
    case _ => true
  }

  ghost predicate NobodyExplicit(s: State) {
    forall i | 0 <= i < |s.clients| :: NotExplicit(s.clients[i].prog)
  }

  function ConversationOf(d: Disk, sid: Id, cid: Id): Option<Id> {
    if Exists(d, sid, cid) then DirOf(d, sid).chats[cid].conversation else None
  }

  /** What a program knows of its chat's conversation. What was read stays true because only
      holders of the chat lock bind, and never to a second id. */
  predicate KnowsConversation(conv: Option<Id>, p: Program) {
    match p
    case At(c, pt) =>
      c.res.Bound? ==>
        && (c.res.conversation.Some? ==> conv == c.res.conversation)
        && (match pt
            case CallFinal(_, target) => conv == target
            case AwaitFinal(_, target) => conv == target
            case BindWrite(_, resp, _, _) => conv.None? || conv == resp.conversation
            case _ => true)
    case _ => true
  }

  function ChatOf(p: Program): (Id, Id) {
    if p.At? && p.ctx.res.Bound? then (p.ctx.res.sessionId, p.ctx.res.chatId) else (0, 0)
  }

  ghost predicate ClientKnows(d: Disk, cl: Client) {
    !cl.crashed ==> KnowsConversation(ConversationOf(d, ChatOf(cl.prog).0, ChatOf(cl.prog).1), cl.prog)
  }

  ghost predicate ConvInv(s: State) {
    && Inv(s)
    && NobodyExplicit(s)
    && forall i | 0 <= i < |s.clients| :: ClientKnows(s.disk, s.clients[i])
  }

  /** The only writes that touch a conversation id are those of `bind_conversation`. */
  lemma BindersHoldTheChat(p: Program, q: Call)
    requires CallOf(p) == Some(q) && NotExplicit(p) && q.UpdateChat? && q.update.conversation.Some?
    ensures p.At? && p.ctx.res.Bound? && p.point.BindWrite?
    ensures OpHeld(p) == Some(ChatOp(q.sid, q.cid)) && ChatOf(p) == (q.sid, q.cid)
    ensures q.update.conversation.value == p.point.response.conversation
  {
  }

  /** One write changes a chat's conversation only from nothing to the writer's response id. */
  lemma WriteBindsOnce(s: State, i: nat, t: State, sid: Id, cid: Id)
    requires ConvInv(s) && Can(s, i, WriteNext) && t == Do(s, i, WriteNext)
    requires ConversationOf(t.disk, sid, cid) != ConversationOf(s.disk, sid, cid)
    ensures ConversationOf(s.disk, sid, cid).None?
    ensures HoldsOp(s.clients[i], ChatOp(sid, cid)) || !Exists(s.disk, sid, cid)
    ensures Exists(s.disk, sid, cid) ==>
              s.clients[i].prog.At? && s.clients[i].prog.point.BindWrite?
              && ConversationOf(t.disk, sid, cid) == s.clients[i].prog.point.response.conversation
  {
    var cl := s.clients[i];
    var q := CallOf(cl.prog).value;
    var w := Current(cl).writes[cl.sec.value.done];
    assert NotExplicit(cl.prog) && ClientKnows(s.disk, cl);
    if q.OnSession() {
      SessionWriteKept(s, i, q, w, t);
      if sid != q.sid {
        assert DirOf(t.disk, sid) == DirOf(s.disk, sid);
      } else if Exists(s.disk, sid, cid) {
        assert ChatStep(q, cid, DirOf(s.disk, sid).chats[cid], DirOf(t.disk, sid).chats[cid]);
        BindersHoldTheChat(cl.prog, q);
      }
    } else {
      RequestWriteKept(s, i, q, w, t);
    }
  }

  lemma WriteKeepsKnowledge(s: State, i: nat, t: State, j: nat)
    requires ConvInv(s) && Can(s, i, WriteNext) && t == Do(s, i, WriteNext) && j < |s.clients|
    ensures ClientKnows(t.disk, t.clients[j])
  {
    var b := s.clients[j];
    var k := ChatOf(b.prog);
    assert ClientKnows(s.disk, b) && ClientOk(s.disk, s.used, b);
    assert t.clients[j].prog == b.prog && t.clients[j].crashed == b.crashed;
    if ConversationOf(t.disk, k.0, k.1) != ConversationOf(s.disk, k.0, k.1) && !b.crashed
       && b.prog.At? && b.prog.ctx.res.Bound? {
      WriteBindsOnce(s, i, t, k.0, k.1);
      if j != i {
        assert PairOk(s.clients[i], b);
        assert !HoldsOp(b, ChatOp(k.0, k.1));
      }
    }
  }

  /** What a chat section returned is what the chat now is. */
  lemma ReturnedConversation(s: State, i: nat, inp: Input, q: Call)
    requires Inv(s) && Can(s, i, Leave(inp)) && CallOf(s.clients[i].prog) == Some(q) && q.OnSession()
    requires Current(s.clients[i]).ret.ChatRet?
    ensures ConversationOf(s.disk, q.sid, Current(s.clients[i]).ret.cid) == Current(s.clients[i]).ret.chat.conversation
  {
    ReturnedChatExists(s, i, inp, q);
  }

  lemma ResumeKnows(p: Program, ret: Ret, inp: Input, conv: Option<Id>)
    requires CallOf(p).Some? && NotExplicit(p)
    requires KnowsConversation(conv, p)
    requires p.At? && p.ctx.res.Bound? && CallOf(p).value.OnSession() && ret.ChatRet? ==> ret.chat.conversation == conv
    ensures NotExplicit(Resume(p, ret, inp))
    ensures p.At? ==> KnowsConversation(conv, Resume(p, ret, inp))
    ensures !p.At? && Resume(p, ret, inp).At? ==>
              && CallOf(p).value.OnSession() && ret.ChatRet?
              && ChatOf(Resume(p, ret, inp)) == (CallOf(p).value.sid, ret.cid)
              && KnowsConversation(ret.chat.conversation, Resume(p, ret, inp))
    ensures p.At? && Resume(p, ret, inp).At? ==> ChatOf(Resume(p, ret, inp)) == ChatOf(p)
  {
  }

  lemma SessionCallsReturnTheirChat(p: Program, d: Disk)
    requires CallOf(p).Some? && p.At? && p.ctx.res.Bound? && CallOf(p).value.OnSession()
    ensures SectionOf(CallOf(p).value, d).ret.ChatRet? ==>
              CallOf(p).value.sid == ChatOf(p).0 && SectionOf(CallOf(p).value, d).ret.cid == ChatOf(p).1
  {
  }

  lemma LeaveKnows(s: State, i: nat, inp: Input, t: State)
    requires ConvInv(s) && Can(s, i, Leave(inp)) && t == Do(s, i, Leave(inp))
    ensures ClientKnows(t.disk, t.clients[i]) && NotExplicit(t.clients[i].prog)
  {
    var cl := s.clients[i];
    var q := CallOf(cl.prog).value;
    var ret := Current(cl).ret;
    assert NotExplicit(cl.prog) && ClientKnows(s.disk, cl);
    if q.OnSession() && ret.ChatRet? { ReturnedConversation(s, i, inp, q); }
    if cl.prog.At? && cl.prog.ctx.res.Bound? && q.OnSession() { SessionCallsReturnTheirChat(cl.prog, cl.sec.value.snap); }
    ResumeKnows(cl.prog, ret, inp, ConversationOf(s.disk, ChatOf(cl.prog).0, ChatOf(cl.prog).1));
  }

  lemma LocalKnows(p: Program, d: Disk, inp: Input, conv: Option<Id>)
    requires CallOf(p).None? && OpWanted(p).None? && !p.Halted? && NotExplicit(p) && KnowsConversation(conv, p)
    ensures NotExplicit(LocalStep(p, d, inp)) && KnowsConversation(conv, LocalStep(p, d, inp))
    ensures p.At? && LocalStep(p, d, inp).At? ==> ChatOf(LocalStep(p, d, inp)) == ChatOf(p)
    ensures !p.At? && LocalStep(p, d, inp).At? ==> LocalStep(p, d, inp).ctx.res.Unbound?
  {
  }

  lemma MoveKeepsConv(s: State, i: nat, a: Action, t: State)
    requires ConvInv(s) && Can(s, i, a) && t == Do(s, i, a)
    ensures ConvInv(t)
    ensures forall sid, cid | ConversationOf(s.disk, sid, cid).Some? ::
              ConversationOf(t.disk, sid, cid) == ConversationOf(s.disk, sid, cid)
  {
    MoveKeepsInv(s, i, a, t);
    var cl := s.clients[i];
    assert NotExplicit(cl.prog) && ClientKnows(s.disk, cl);
    match a {
      case WriteNext =>
        forall j | 0 <= j < |t.clients| ensures ClientKnows(t.disk, t.clients[j]) { WriteKeepsKnowledge(s, i, t, j); }
        forall sid, cid | ConversationOf(s.disk, sid, cid).Some?
          ensures ConversationOf(t.disk, sid, cid) == ConversationOf(s.disk, sid, cid)
        {
          if ConversationOf(t.disk, sid, cid) != ConversationOf(s.disk, sid, cid) { WriteBindsOnce(s, i, t, sid, cid); }
        }
      case Leave(inp) => LeaveKnows(s, i, inp, t);
      case Local(inp) => LocalKnows(cl.prog, s.disk, inp, ConversationOf(s.disk, ChatOf(cl.prog).0, ChatOf(cl.prog).1));
      case _ =>
    }
    forall j | 0 <= j < |t.clients| ensures ClientKnows(t.disk, t.clients[j]) && NotExplicit(t.clients[j].prog) {
      if j != i { assert ClientKnows(s.disk, s.clients[j]) && NotExplicit(s.clients[j].prog); }
    }
  }

  lemma StepKeepsConv(s: State, m: Move, t: State)
    requires ConvInv(s) && Steps(s, m, t)
    ensures ConvInv(t)
    ensures forall sid, cid :: ConversationOf(s.disk, sid, cid).Some? ==>
              ConversationOf(t.disk, sid, cid) == ConversationOf(s.disk, sid, cid)
  {
    MoveKeepsConv(s, m.who, m.act, t);
  }

  lemma {:induction false} TraceConv(run: seq<State>, moves: seq<Move>, k: nat)
    requires IsTrace(run, moves) && k < |run| && NobodyExplicit(run[0])
    ensures ConvInv(run[k])
  {
    if k == 0 {
      InitOk(run[0]);
    } else {
      TraceConv(run, moves, k - 1);
      StepOf(run, moves, k - 1);
      StepKeepsConv(run[k - 1], moves[k - 1], run[k]);
    }
  }

  lemma StepKeepsBinding(run: seq<State>, moves: seq<Move>, k: nat, sid: Id, cid: Id)
    requires IsTrace(run, moves) && k < |moves| && NobodyExplicit(run[0]) && ConversationOf(run[k].disk, sid, cid).Some?
    ensures ConversationOf(run[k + 1].disk, sid, cid) == ConversationOf(run[k].disk, sid, cid)
  {
    TraceConv(run, moves, k);
    StepOf(run, moves, k);
    StepKeepsConv(run[k], moves[k], run[k + 1]);
  }

  lemma {:induction false} StaysOnceSet(values: seq<Option<Id>>, i: nat, j: nat)
    requires i <= j < |values| && values[i].Some?
    requires forall k | i <= k < j :: values[k].Some? ==> values[k + 1] == values[k]
    ensures values[j] == values[i]
    decreases j - i
  {
    if i < j {
      StaysOnceSet(values, i, j - 1);
      assert values[j - 1].Some? ==> values[j - 1 + 1] == values[j - 1];
    }
  }

  /** Without explicit conversation ids a chat's conversation is written once. */
  lemma BoundOnce(run: seq<State>, moves: seq<Move>, i: nat, j: nat, sid: Id, cid: Id)
    requires IsTrace(run, moves) && i <= j < |run| && NobodyExplicit(run[0])
    requires ConversationOf(run[i].disk, sid, cid).Some?
    ensures ConversationOf(run[j].disk, sid, cid) == ConversationOf(run[i].disk, sid, cid)
  {
    var values := seq(|run|, k requires 0 <= k < |run| => ConversationOf(run[k].disk, sid, cid));
    forall k | i <= k < j ensures values[k].Some? ==> values[k + 1] == values[k] {
      if values[k].Some? { StepKeepsBinding(run, moves, k, sid, cid); }
    }
    StaysOnceSet(values, i, j);
  }

  /** The move with which a final turn is sent to the provider. */
  predicate OpensTurn(s: State, m: Move, sid: Id, cid: Id) {
    && m.who < |s.clients| && m.act.Local?
    && s.clients[m.who].prog.At? && s.clients[m.who].prog.point.CallFinal?
    && s.clients[m.who].prog.ctx.res.Bound? && ChatOf(s.clients[m.who].prog) == (sid, cid)
  }

  /** A final turn is sent exactly the conversation its chat is bound to at that moment, so once
      the chat is bound every later turn continues that conversation and none opens a second. */
  lemma TurnsContinueTheChat(run: seq<State>, moves: seq<Move>, i: nat, k: nat, sid: Id, cid: Id)
    requires IsTrace(run, moves) && i <= k < |moves| && NobodyExplicit(run[0])
    requires OpensTurn(run[k], moves[k], sid, cid)
    ensures run[k].clients[moves[k].who].prog.point.target == ConversationOf(run[k].disk, sid, cid)
    ensures ConversationOf(run[i].disk, sid, cid).Some? ==>
              run[k].clients[moves[k].who].prog.point.target == ConversationOf(run[i].disk, sid, cid)
  {
    TraceConv(run, moves, k);
    var cl := run[k].clients[moves[k].who];
    assert ClientKnows(run[k].disk, cl);
    if ConversationOf(run[i].disk, sid, cid).Some? { BoundOnce(run, moves, i, k, sid, cid); }
  }

  /** Two clients never have a turn open on the same chat at the same time. */
  lemma TurnsAreSerial(run: seq<State>, moves: seq<Move>, k: nat, i: nat, j: nat)
    requires IsTrace(run, moves) && k < |run| && i < |run[k].clients| && j < |run[k].clients| && i != j
    requires Live(run[k].clients[i]) && Live(run[k].clients[j])
    requires run[k].clients[i].prog.At? && run[k].clients[i].prog.point.AwaitFinal? && run[k].clients[i].prog.ctx.res.Bound?
    requires run[k].clients[j].prog.At? && run[k].clients[j].prog.point.AwaitFinal? && run[k].clients[j].prog.ctx.res.Bound?
    ensures ChatOf(run[k].clients[i].prog) != ChatOf(run[k].clients[j].prog)
  {
    TraceOk(run, moves, k);
    var a, b := run[k].clients[i], run[k].clients[j];
    assert PairOk(a, b);
    assert HoldsOp(a, ChatOp(ChatOf(a.prog).0, ChatOf(a.prog).1));
    assert HoldsOp(b, ChatOp(ChatOf(b.prog).0, ChatOf(b.prog).1));
  }

  // ---------------------------------------------- with explicit ids as well

  /** The move is the write with which some call sets the chat's conversation to `y`. */
  predicate SetsConversation(s: State, m: Move, sid: Id, cid: Id, y: Option<Id>) {
    && m.act.WriteNext? && Can(s, m.who, m.act) && s.clients[m.who].sec.value.done == 0
    && var q := CallOf(s.clients[m.who].prog).value;
       q.UpdateChat? && q.sid == sid && q.cid == cid && q.update.conversation == Some(y)
  }

  lemma SetterSets(s: State, m: Move, t: State, sid: Id, cid: Id, y: Option<Id>)
    requires Inv(s) && Can(s, m.who, m.act) && t == Do(s, m.who, m.act) && SetsConversation(s, m, sid, cid, y)
    ensures ConversationOf(t.disk, sid, cid) == y
  {
    var cl := s.clients[m.who];
    var q := CallOf(cl.prog).value;
    WriteKeepsAgreement(s, m.who, q, Current(cl).writes[0], t);
    AfterNone(q, cl.sec.value.snap);
    AfterOne(q, cl.sec.value.snap);
  }

  lemma SecondWriteKeepsConversation(q: Call, d: Disk)
    requires q.UpdateChat? && |SectionOf(q, d).writes| == 2
    ensures ConversationOf(AfterWrites(q, d, 2), q.sid, q.cid) == ConversationOf(AfterWrites(q, d, 1), q.sid, q.cid)
  {
    AfterOne(q, d);
    AfterTwo(q, d);
  }

  /** With explicit ids allowed, a bound chat is rebound at a move exactly if the move is a
      binding write of another id: the comparison made in an earlier section is not made again. */
  lemma ReboundExactly(s: State, m: Move, t: State, sid: Id, cid: Id)
    requires Inv(s) && Can(s, m.who, m.act) && t == Do(s, m.who, m.act)
    requires ConversationOf(s.disk, sid, cid).Some?
    ensures ConversationOf(t.disk, sid, cid) != ConversationOf(s.disk, sid, cid)
       <==> exists y: Option<Id> :: y != ConversationOf(s.disk, sid, cid) && SetsConversation(s, m, sid, cid, y)
  {
    if y: Option<Id> :| y != ConversationOf(s.disk, sid, cid) && SetsConversation(s, m, sid, cid, y) {
      SetterSets(s, m, t, sid, cid, y);
    }
    if m.act.WriteNext? {
      var cl := s.clients[m.who];
      var q := CallOf(cl.prog).value;
      var w := Current(cl).writes[cl.sec.value.done];
      if !q.OnSession() {
        RequestWriteKept(s, m.who, q, w, t);
      } else if q.sid != sid {
        SessionWriteKept(s, m.who, q, w, t);
        assert DirOf(t.disk, sid) == DirOf(s.disk, sid);
      } else {
        SessionWriteKept(s, m.who, q, w, t);
        assert ChatStep(q, cid, DirOf(s.disk, sid).chats[cid], DirOf(t.disk, sid).chats[cid]);
        WritesAreGuarded(q, cl.sec.value.snap);
        if q.UpdateChat? && q.cid == cid && q.update.conversation.Some? {
          if cl.sec.value.done == 0 {
            assert SetsConversation(s, m, sid, cid, q.update.conversation.value);
            SetterSets(s, m, t, sid, cid, q.update.conversation.value);
          } else {
            WriteKeepsAgreement(s, m.who, q, w, t);
            SecondWriteKeepsConversation(q, cl.sec.value.snap);
          }
        }
      }
    }
  }
}
