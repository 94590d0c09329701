/**
 * What the follower's commit bound cannot touch: terms, votes, roles, logs, nextIndex and matchIndex.
 *
 * A node is compared with its erasure, which forgets the commit index, what has been applied and
 * the store; a message with one that offers no commit index. Every handler commutes with erasure,
 * so that a run under one bound has its like, moment by moment, under any other.
 */
module Erasure {
  import opened RaftTypes
  import opened StateMachine
  import opened NodeSpec
  import opened Cluster
  import opened Runs

  /** A node without what it has committed and applied. */
  function Erase(s: NodeState): NodeState {
    s.(commitIndex := 0, lastApplied := 0, store := map[])
  }

  function EraseRequest(req: AppendRequest): AppendRequest {
    req.(leaderCommit := 0)
  }

  function EraseMsg(m: Msg): Msg {
    match m
    case AppendAsk(to, req, heartbeat) => AppendAsk(to, EraseRequest(req), heartbeat)
    case AppendTell(from, req, heartbeat, resp) => AppendTell(from, EraseRequest(req), heartbeat, resp)
    case _ => m
  }

  ghost predicate Echoed(m: Msg, net: set<Msg>) {
    exists e :: e in net && EraseMsg(e) == EraseMsg(m)
  }

  /** The nodes are alike up to erasure, and every message of c has its like in d. */
  ghost predicate Alike(c: State, d: State) {
    && c.nodes.Keys == d.nodes.Keys
    && (forall v {:trigger c.nodes[v]} {:trigger d.nodes[v]} :: v in c.nodes ==> Erase(c.nodes[v]) == Erase(d.nodes[v]))
    && (forall m {:trigger Echoed(m, d.net)} :: m in c.net ==> Echoed(m, d.net))
  }

  predicate SameCounting(rules: Rules, rules': Rules) {
    rules.votesByVoter == rules'.votesByVoter
  }

  // ---------------------------------------------------------------- one node

  lemma {:induction false} ApplyErases(decode: Decoder, s: NodeState, upTo: nat)
    ensures Erase(ApplyUpTo(decode, s, upTo)) == Erase(s)
    decreases upTo - s.lastApplied
  {
    if s.lastApplied < upTo && s.lastApplied < |s.log| {
      var s1 := s.(store := ApplyEntry(decode, s.store, s.log[s.lastApplied]), lastApplied := s.lastApplied + 1);
      ApplyErases(decode, s1, upTo);
    }
  }

  lemma RolesErase(s: NodeState, r: Role, t: nat)
    ensures Erase(SetRole(s, r)) == SetRole(Erase(s), r)
    ensures Erase(StepDown(s, t)) == StepDown(Erase(s), t)
  {
  }

  lemma DeferErases(s: NodeState, t: nat)
    ensures Erase(Defer(s, t)) == Defer(Erase(s), t)
  {
    RolesErase(s, Follower, t);
    RolesErase(StepDown(s, t), Follower, t);
  }

  lemma CandidacyErases(s: NodeState)
    ensures Erase(BecomeCandidate(s)) == BecomeCandidate(Erase(s))
  {
    RolesErase(s, Candidate, 0);
  }

  lemma VoteRequestErases(s: NodeState, req: VoteRequest)
    ensures Erase(HandleVoteRequest(s, req).0) == HandleVoteRequest(Erase(s), req).0
    ensures HandleVoteRequest(s, req).1 == HandleVoteRequest(Erase(s), req).1
  {
    RolesErase(s, Follower, req.term);
  }

  lemma VoteReplyErases(rules: Rules, rules': Rules, s: NodeState, req: VoteRequest, from: NodeId, resp: VoteReply)
    requires SameCounting(rules, rules')
    ensures Erase(HandleVoteReply(rules, s, req, from, resp)) == HandleVoteReply(rules', Erase(s), req, from, resp)
  {
    RolesErase(s, Follower, resp.term);
  }

  /** Neither the rule nor the commit indices matter for the rest of an append. */
  lemma AppendErases(rules: Rules, rules': Rules, s: NodeState, req: AppendRequest)
    ensures var e := HandleAppend(rules', Erase(s), EraseRequest(req));
            Erase(HandleAppend(rules, s, req).0) == Erase(e.0) && HandleAppend(rules, s, req).1 == e.1
  {
    DeferErases(s, req.term);
    var s1 := Defer(s, req.term);
    assert Erase(s1).log == s1.log;
  }

  lemma AdvanceErases(s: NodeState)
    ensures Erase(TryAdvance(s)) == Erase(s)
  {
  }

  lemma NextErases(s: NodeState, p: NodeId, next: nat)
    requires s.leader.Some?
    ensures Erase(SetNext(s, p, next)) == SetNext(Erase(s), p, next) && NextFor(Erase(s), p) == NextFor(s, p)
  {
  }

  lemma ReplyErases(s: NodeState, p: NodeId, req: AppendRequest, resp: AppendReply)
    ensures Erase(HandleAppendReply(s, p, req, resp)) == Erase(HandleAppendReply(Erase(s), p, EraseRequest(req), resp))
  {
    RolesErase(s, Follower, resp.term);
    if s.leader.Some? {
      NextErases(s, p, if resp.conflictIndex > 0 || NextFor(s, p) == 0 then resp.conflictIndex else NextFor(s, p) - 1);
    }
    if s.leader.Some? && req.entries != [] {
      ReplicatedErases(s, p, req.entries[|req.entries| - 1].index);
    }
  }

  lemma ReplicatedErases(s: NodeState, p: NodeId, sent: nat)
    requires s.leader.Some?
    ensures Erase(Replicated(s, p, sent)) == Erase(Replicated(Erase(s), p, sent))
  {
    AdvanceErases(SetMatch(SetNext(s, p, sent + 1), p, sent));
    AdvanceErases(SetMatch(SetNext(Erase(s), p, sent + 1), p, sent));
  }

  lemma HeartbeatReplyErases(s: NodeState, p: NodeId, term: nat, resp: AppendReply)
    ensures Erase(HandleHeartbeatReply(s, p, term, resp)) == Erase(HandleHeartbeatReply(Erase(s), p, term, resp))
  {
    RolesErase(s, Follower, resp.term);
  }

  // ---------------------------------------------------------------- one step

  lemma MovedAlike(c: State, d: State, v: NodeId, s: NodeState, t: NodeState, out: set<Msg>, out': set<Msg>)
    requires Alike(c, d) && v in c.nodes && Erase(s) == Erase(t)
    requires forall m {:trigger Echoed(m, out')} :: m in out ==> Echoed(m, out')
    ensures Alike(Moved(c, v, s, out), Moved(d, v, t, out'))
  {
    forall m | m in c.net + out ensures Echoed(m, d.net + out') {
      var from := if m in c.net then d.net else out';
      assert Echoed(m, from);
      var e :| e in from && EraseMsg(e) == EraseMsg(m);
      assert e in d.net + out';
    }
  }

  lemma SameOut(out: set<Msg>)
    ensures forall m {:trigger Echoed(m, out)} :: m in out ==> Echoed(m, out)
  {
  }

  lemma OneOut(m: Msg, m': Msg)
    requires EraseMsg(m) == EraseMsg(m')
    ensures forall x {:trigger Echoed(x, {m'})} :: x in {m} ==> Echoed(x, {m'})
  {
    assert m' in {m'};
  }

  lemma TimeoutAlike(rules: Rules, rules': Rules, decode: Decoder, c: State, d: State, v: NodeId)
    requires Alike(c, d) && v in c.nodes
    ensures Alike(Do(rules, decode, c, Timeout(v)), Do(rules', decode, d, Timeout(v)))
  {
    CandidacyErases(c.nodes[v]);
    CandidacyErases(d.nodes[v]);
    var s, t := BecomeCandidate(c.nodes[v]), BecomeCandidate(d.nodes[v]);
    assert Erase(s) == Erase(t);
    assert AskForVote(s) == AskForVote(Erase(s)) && AskForVote(t) == AskForVote(Erase(t));
    var out := set p | p in s.peers :: VoteAsk(p, AskForVote(s));
    SameOut(out);
    MovedAlike(c, d, v, s, t, out, out);
  }

  lemma SendAlike(rules: Rules, rules': Rules, decode: Decoder, c: State, d: State, st: Step)
    requires Alike(c, d) && Enabled(c, st) && (st.Send? || st.Beat?)
    ensures Alike(Do(rules, decode, c, st), Do(rules', decode, d, st))
  {
    var s, t := c.nodes[st.v], d.nodes[st.v];
    assert Erase(s) == Erase(t);
    SendIs(rules, decode, c, st);
    RequestErases(s, st);
    RequestErases(t, st);
    SendIs(rules', decode, d, st);
    OneOut(Request(s, st), Request(t, st));
    MovedAlike(c, d, st.v, s, t, {Request(s, st)}, {Request(t, st)});
  }

  lemma SendIs(rules: Rules, decode: Decoder, c: State, st: Step)
    requires st.Send? || st.Beat?
    requires st.v in c.nodes && Enabled(c, st)
    ensures Do(rules, decode, c, st) == Moved(c, st.v, c.nodes[st.v], {Request(c.nodes[st.v], st)})
  {
  }

  lemma RequestErases(s: NodeState, st: Step)
    requires st.Send? || st.Beat?
    ensures NextFor(Erase(s), st.p) == NextFor(s, st.p) && EraseMsg(Request(s, st)) == EraseMsg(Request(Erase(s), st))
    ensures s.role == Erase(s).role && s.peers == Erase(s).peers
  {
  }

  function Request(s: NodeState, st: Step): Msg
    requires st.Send? || st.Beat?
  {
    if st.Send? then AppendAsk(st.p, BuildAppend(s, st.p, st.maxEntries), false)
    else AppendAsk(st.p, BuildHeartbeat(s, st.p), true)
  }

  lemma OwnAlike(rules: Rules, rules': Rules, decode: Decoder, c: State, d: State, st: Step)
    requires Alike(c, d) && Enabled(c, st) && !st.Deliver?
    ensures Alike(Do(rules, decode, c, st), Do(rules', decode, d, st))
  {
    match st
    case Timeout(v) => TimeoutAlike(rules, rules', decode, c, d, v);
    case Submit(v, data, kind) =>
      assert Erase(c.nodes[v]) == Erase(d.nodes[v]);
      MovedAlike(c, d, v, AppendLocal(c.nodes[v], data, kind), AppendLocal(d.nodes[v], data, kind), {}, {});
    case Send(_, _, _) => SendAlike(rules, rules', decode, c, d, st);
    case Beat(_, _) => SendAlike(rules, rules', decode, c, d, st);
    case Apply(v) =>
      assert Erase(c.nodes[v]) == Erase(d.nodes[v]);
      ApplyErases(decode, c.nodes[v], c.nodes[v].commitIndex);
      ApplyErases(decode, d.nodes[v], d.nodes[v].commitIndex);
      MovedAlike(c, d, v, ApplyCommitted(decode, c.nodes[v]), ApplyCommitted(decode, d.nodes[v]), {}, {});
  }

  lemma VoteAlike(rules: Rules, rules': Rules, decode: Decoder, c: State, d: State, m: Msg)
    requires Alike(c, d) && SameCounting(rules, rules') && Enabled(c, Deliver(m)) && m in d.net
             && (m.VoteAsk? || m.VoteTell?)
    ensures Alike(Do(rules, decode, c, Deliver(m)), Do(rules', decode, d, Deliver(m)))
  {
    var v := Recipient(m);
    var s, t := c.nodes[v], d.nodes[v];
    assert Erase(s) == Erase(t);
    match m
    case VoteAsk(_, req) =>
      VoteRequestErases(s, req);
      VoteRequestErases(t, req);
      var out := {VoteTell(v, req, HandleVoteRequest(s, req).1)};
      SameOut(out);
      MovedAlike(c, d, v, HandleVoteRequest(s, req).0, HandleVoteRequest(t, req).0, out, out);
    case VoteTell(from, req, resp) =>
      VoteReplyErases(rules, rules', s, req, from, resp);
      VoteReplyErases(rules', rules', t, req, from, resp);
      MovedAlike(c, d, v, HandleVoteReply(rules, s, req, from, resp), HandleVoteReply(rules', t, req, from, resp), {},
          {});
  }

  lemma AppendAlike(rules: Rules, rules': Rules, decode: Decoder, c: State, d: State, m: Msg, e: Msg)
    requires Alike(c, d) && Enabled(c, Deliver(m)) && m.AppendAsk? && e in d.net && EraseMsg(e) == EraseMsg(m)
    ensures Alike(Do(rules, decode, c, Deliver(m)), Do(rules', decode, d, Deliver(e)))
  {
    var s, t := c.nodes[m.to], d.nodes[m.to];
    assert Erase(s) == Erase(t);
    AppendErases(rules, rules', s, m.areq);
    AppendErases(rules', rules', t, e.areq);
    var (s', resp) := HandleAppend(rules, s, m.areq);
    var (t', resp') := HandleAppend(rules', t, e.areq);
    var out, out' := AppendTell(m.to, m.areq, m.heartbeat, resp), AppendTell(m.to, e.areq, m.heartbeat, resp);
    OneOut(out, out');
    MovedAlike(c, d, m.to, s', t', {out}, {out'});
  }

  lemma ReplyAlike(rules: Rules, rules': Rules, decode: Decoder, c: State, d: State, m: Msg, e: Msg)
    requires Alike(c, d) && Enabled(c, Deliver(m)) && m.AppendTell? && e in d.net && EraseMsg(e) == EraseMsg(m)
    ensures Alike(Do(rules, decode, c, Deliver(m)), Do(rules', decode, d, Deliver(e)))
  {
    var v := m.areq.leader;
    var s, t := c.nodes[v], d.nodes[v];
    assert Erase(s) == Erase(t);
    if m.heartbeat {
      HeartbeatReplyErases(s, m.from, m.areq.term, m.aresp);
      HeartbeatReplyErases(t, m.from, m.areq.term, m.aresp);
      MovedAlike(c, d, v, HandleHeartbeatReply(s, m.from, m.areq.term, m.aresp),
                 HandleHeartbeatReply(t, m.from, m.areq.term, m.aresp), {}, {});
    } else {
      ReplyErases(s, m.from, m.areq, m.aresp);
      ReplyErases(t, m.from, e.areq, m.aresp);
      MovedAlike(c, d, v, HandleAppendReply(s, m.from, m.areq, m.aresp),
                 HandleAppendReply(t, m.from, e.areq, m.aresp), {}, {});
    }
  }

  /** Every step has its like under any other commit bound; one that does nothing has one that does nothing. */
  lemma StepAlike(rules: Rules, rules': Rules, decode: Decoder, c: State, d: State, st: Step) returns (st': Step)
    requires Alike(c, d) && SameCounting(rules, rules')
    ensures Alike(Do(rules, decode, c, st), Do(rules', decode, d, st'))
  {
    if !Enabled(c, st) {
      st' := Send(0, 0, 0);
    } else if st.Deliver? {
      assert Echoed(st.m, d.net);
      var e :| e in d.net && EraseMsg(e) == EraseMsg(st.m);
      st' := Deliver(e);
      if st.m.AppendAsk? {
        AppendAlike(rules, rules', decode, c, d, st.m, e);
      } else if st.m.AppendTell? {
        ReplyAlike(rules, rules', decode, c, d, st.m, e);
      } else {
        VoteAlike(rules, rules', decode, c, d, st.m);
      }
    } else {
      st' := st;
      OwnAlike(rules, rules', decode, c, d, st);
    }
  }

  // ---------------------------------------------------------------- whole runs

  /** Every run has its like, moment by moment, under any other commit bound. */
  lemma {:induction false} RunAlike(rules: Rules, rules': Rules, decode: Decoder, c: State, run: seq<Step>)
      returns (run': seq<Step>)
    requires SameCounting(rules, rules')
    ensures |run'| == |run|
    ensures forall i {:trigger At(rules, decode, c, run, i)} {:trigger At(rules', decode, c, run', i)} ::
            0 <= i <= |run| ==>
              Alike(At(rules, decode, c, run, i), At(rules', decode, c, run', i))
  {
    if run == [] {
      run' := [];
      SelfAlike(c);
    } else {
      var n := |run| - 1;
      var r := RunAlike(rules, rules', decode, c, run[..n]);
      AtPrefix(rules, decode, c, run, n, n);
      var st := StepAlike(rules, rules', decode, At(rules, decode, c, run, n), At(rules', decode, c, r, n), run[n]);
      run' := r + [st];
      forall i | 0 <= i <= |run| ensures Alike(At(rules, decode, c, run, i), At(rules', decode, c, run', i)) {
        if i <= n {
          AtPrefix(rules, decode, c, run, n, i);
          AtPrefix(rules', decode, c, run', n, i);
          assert run'[..n] == r;
        } else {
          AtNext(rules, decode, c, run, n);
          AtNext(rules', decode, c, run', n);
          assert run'[..n] == r[..n];
        }
      }
    }
  }

  lemma SelfAlike(c: State)
    ensures Alike(c, c)
  {
    SameOut(c.net);
  }
}
