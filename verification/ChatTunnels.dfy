/** The tunnel of a chat: it changes only to one that a run was given, when its turn is bound. */
module ChatTunnels {
  import opened Records
  import opened Store
  import opened Engine
  import opened Machine
  import opened Invariant
  import opened Preservation
  import opened Atomicity
  import opened Outcomes

  function TunnelOf(d: Disk, sid: Id, cid: Id): Option<Id> {
    if Exists(d, sid, cid) then DirOf(d, sid).chats[cid].tunnel else None
  }

  predicate SetsTunnel(q: Call) { q.UpdateChat? && q.update.tunnel.Some? }

  /** Each write of a session section, as to the tunnel of a chat. */
  lemma WriteSetsTunnel(q: Call, d: Disk, k: nat, cid: Id)
    requires q.OnSession() && k < |SectionOf(q, d).writes| && NewIdOk(q, DirOf(d, q.sid))
    requires Exists(AfterWrites(q, d, k), q.sid, cid)
    ensures var a, b := AfterWrites(q, d, k), AfterWrites(q, d, k + 1);
            || TunnelOf(b, q.sid, cid) == TunnelOf(a, q.sid, cid)
            || (SetsTunnel(q) && cid == q.cid && TunnelOf(b, q.sid, cid) == q.update.tunnel.value)
  {
    WritesAreGuarded(q, d);
    AfterNone(q, d);
    AfterOne(q, d);
    if k == 1 { AfterTwo(q, d); }
  }

  lemma TunnelSetters(p: Program, q: Call)
    requires CallOf(p) == Some(q) && SetsTunnel(q)
    ensures p.At? && p.ctx.res.Bound? && p.point.BindWrite? && q.update.tunnel.value == p.point.tunnel
    ensures q.sid == p.ctx.res.sessionId && q.cid == p.ctx.res.chatId && OpHeld(p) == Some(ChatOp(q.sid, q.cid))
  {
  }

  /** What a write does to the tunnel of a chat that is there. */
  lemma WriteOnTunnel(s: State, i: nat, t: State, sid: Id, cid: Id)
    requires Inv(s) && Can(s, i, WriteNext) && t == Do(s, i, WriteNext) && Exists(s.disk, sid, cid)
    requires TunnelOf(t.disk, sid, cid) != TunnelOf(s.disk, sid, cid)
    ensures var p := s.clients[i].prog;
            && p.At? && p.ctx.res.Bound? && p.point.BindWrite? && p.ctx.res.sessionId == sid && p.ctx.res.chatId == cid
            && TunnelOf(t.disk, sid, cid) == p.point.tunnel && HoldsOp(s.clients[i], ChatOp(sid, cid))
  {
    var cl := s.clients[i];
    var q := CallOf(cl.prog).value;
    var w := Current(cl).writes[cl.sec.value.done];
    if !q.OnSession() {
      RequestWriteKept(s, i, q, w, t);
    } else {
      SessionWriteKept(s, i, q, w, t);
      SessionTunnel(s, i, q, w, t, sid, cid);
    }
  }

  lemma SessionTunnel(s: State, i: nat, q: Call, w: Write, t: State, sid: Id, cid: Id)
    requires AtWrite(s, i, q, w, t) && q.OnSession() && Exists(s.disk, sid, cid)
    requires TunnelOf(t.disk, sid, cid) != TunnelOf(s.disk, sid, cid)
    ensures var p := s.clients[i].prog;
            && p.At? && p.ctx.res.Bound? && p.point.BindWrite? && p.ctx.res.sessionId == sid && p.ctx.res.chatId == cid
            && TunnelOf(t.disk, sid, cid) == p.point.tunnel && HoldsOp(s.clients[i], ChatOp(sid, cid))
  {
    WriteKeepsAgreement(s, i, q, w, t);
    FreshBeforeSection(s, i, q);
    WriteSetsTunnel(q, s.clients[i].sec.value.snap, s.clients[i].sec.value.done, cid);
    TunnelSetters(s.clients[i].prog, q);
  }

  /** A binding run writes the tunnel it was given or, given none, the one the chat has. */
  predicate KnowsTunnel(d: Disk, cl: Client) {
    !cl.crashed && cl.prog.At? && cl.prog.point.BindWrite? && cl.prog.ctx.res.Bound? ==>
      var c := cl.prog.ctx;
      cl.prog.point.tunnel == if c.run.tunnel.Some? then c.run.tunnel else TunnelOf(d, c.res.sessionId, c.res.chatId)
  }

  lemma ComesToBind(p: Program, ret: Ret, inp: Input)
    requires CallOf(p).Some? && Resume(p, ret, inp).At? && Resume(p, ret, inp).point.BindWrite?
    ensures p.At? && p.point.BindRead? && ret.ChatRet? && Resume(p, ret, inp).ctx == p.ctx
    ensures p.ctx.res.Bound? ==> CallOf(p).value == GetChat(p.ctx.res.sessionId, p.ctx.res.chatId)
    ensures Resume(p, ret, inp).point.tunnel == if p.ctx.run.tunnel.Some? then p.ctx.run.tunnel else ret.chat.tunnel
  {
  }

  lemma LeaveKnowsTunnel(s: State, i: nat, inp: Input, t: State)
    requires Inv(s) && Can(s, i, Leave(inp)) && t == Do(s, i, Leave(inp))
    ensures KnowsTunnel(t.disk, t.clients[i])
  {
    var cl := s.clients[i];
    var p := t.clients[i].prog;
    if p.At? && p.point.BindWrite? && p.ctx.res.Bound? {
      var q := CallOf(cl.prog).value;
      ComesToBind(cl.prog, Current(cl).ret, inp);
      ReturnedChatExists(s, i, inp, q);
    }
  }

  lemma LocalNeverBindsTunnel(p: Program, d: Disk, inp: Input)
    requires CallOf(p).None? && OpWanted(p).None?
    ensures LocalStep(p, d, inp).At? ==> !LocalStep(p, d, inp).point.BindWrite?
  {
  }

  lemma WriteKnowsTunnel(s: State, i: nat, t: State, j: nat)
    requires Inv(s) && Can(s, i, WriteNext) && t == Do(s, i, WriteNext) && j < |s.clients| && KnowsTunnel(s.disk, s.clients[j])
    ensures KnowsTunnel(t.disk, t.clients[j])
  {
    var b := s.clients[j];
    assert t.clients[j].prog == b.prog && t.clients[j].crashed == b.crashed && ClientOk(s.disk, s.used, b);
    if !b.crashed && b.prog.At? && b.prog.point.BindWrite? && b.prog.ctx.res.Bound? {
      var sid, cid := b.prog.ctx.res.sessionId, b.prog.ctx.res.chatId;
      if j != i {
        OthersLeaveTunnel(s, i, t, j, sid, cid);
      } else if TunnelOf(t.disk, sid, cid) != TunnelOf(s.disk, sid, cid) {
        WriteOnTunnel(s, i, t, sid, cid);
      }
    }
  }

  /** While a client holds the lock of a chat, no other one changes its tunnel. */
  lemma OthersLeaveTunnel(s: State, i: nat, t: State, j: nat, sid: Id, cid: Id)
    requires Inv(s) && Can(s, i, WriteNext) && t == Do(s, i, WriteNext) && j < |s.clients| && j != i
    requires HoldsOp(s.clients[j], ChatOp(sid, cid)) && Exists(s.disk, sid, cid)
    ensures TunnelOf(t.disk, sid, cid) == TunnelOf(s.disk, sid, cid)
  {
    assert PairOk(s.clients[j], s.clients[i]);
    assert !HoldsOp(s.clients[i], ChatOp(sid, cid));
    if TunnelOf(t.disk, sid, cid) != TunnelOf(s.disk, sid, cid) { WriteOnTunnel(s, i, t, sid, cid); }
  }

  lemma StepKnowsTunnel(s: State, m: Move, t: State, j: nat)
    requires Inv(s) && Steps(s, m, t) && j < |s.clients| && KnowsTunnel(s.disk, s.clients[j])
    ensures j < |t.clients| && KnowsTunnel(t.disk, t.clients[j])
  {
    match m.act
    case WriteNext => WriteKnowsTunnel(s, m.who, t, j);
    case Leave(inp) => if j == m.who { LeaveKnowsTunnel(s, j, inp, t); }
    case Local(inp) => if j == m.who { LocalNeverBindsTunnel(s.clients[j].prog, s.disk, inp); }
    case _ =>
  }

  lemma {:induction false} TraceKnowsTunnel(run: seq<State>, moves: seq<Move>, n: nat, j: nat)
    requires IsTrace(run, moves) && n < |run| && j < |run[n].clients|
    ensures KnowsTunnel(run[n].disk, run[n].clients[j])
  {
    if n > 0 {
      SameClients(run, moves, n - 1);
      TraceOk(run, moves, n - 1);
      StepOf(run, moves, n - 1);
      TraceKnowsTunnel(run, moves, n - 1, j);
      StepKnowsTunnel(run[n - 1], moves[n - 1], run[n], j);
    }
  }

  /** In every run the tunnel of a chat changes only by the binding write of a run that was given a tunnel, and
      to that one; a run without a tunnel of its own leaves the chat its tunnel. */
  lemma TunnelFollowsRuns(run: seq<State>, moves: seq<Move>, k: nat, sid: Id, cid: Id)
    requires IsTrace(run, moves) && k < |moves| && Exists(run[k].disk, sid, cid)
    requires TunnelOf(run[k + 1].disk, sid, cid) != TunnelOf(run[k].disk, sid, cid)
    ensures moves[k].act.WriteNext? && moves[k].who < |run[k].clients|
    ensures var p := run[k].clients[moves[k].who].prog;
            && p.At? && p.point.BindWrite? && p.ctx.res.Bound? && p.ctx.res.sessionId == sid && p.ctx.res.chatId == cid
            && p.ctx.run.tunnel.Some? && TunnelOf(run[k + 1].disk, sid, cid) == p.ctx.run.tunnel
  {
    TraceOk(run, moves, k);
    StepOf(run, moves, k);
    assert moves[k].act.WriteNext?;
    WriteOnTunnel(run[k], moves[k].who, run[k + 1], sid, cid);
    TraceKnowsTunnel(run, moves, k, moves[k].who);
  }

  lemma BindingSetsTunnel(q: Call, a: SessionDir)
    requires SetsTunnel(q) && q.cid in a.chats
    ensures q.cid in Made(q, a).chats && Made(q, a).chats[q.cid].tunnel == q.update.tunnel.value
  {
  }

  /** In every run, the chat of a run that was given a tunnel carries it when the run has bound its turn. */
  lemma BindingNotesTunnel(run: seq<State>, moves: seq<Move>, k: nat, i: nat, c: Context)
    requires IsTrace(run, moves) && k < |moves| && moves[k].who == i && moves[k].act.Leave? && i < |run[k].clients|
    requires run[k].clients[i].prog.At? && run[k].clients[i].prog.ctx == c && run[k].clients[i].prog.point.BindWrite?
    requires c.run.tunnel.Some?
    ensures c.res.Bound? && TunnelOf(run[k + 1].disk, c.res.sessionId, c.res.chatId) == c.run.tunnel
  {
    StepOf(run, moves, k);
    TraceFits(run, moves, k, i);
    TraceKnowsTunnel(run, moves, k, i);
    TraceOk(run, moves, k);
    assert Live(run[k].clients[i]);
    var q := CallOf(run[k].clients[i].prog).value;
    var e := CallsAreAtomic(run, moves, k, q);
    TraceOk(run, moves, e);
    assert ClientOk(run[e].disk, run[e].used, run[e].clients[i]);
    MadeIs(q, run[e].disk);
    BindingSetsTunnel(q, DirOf(run[e].disk, q.sid));
  }
}
