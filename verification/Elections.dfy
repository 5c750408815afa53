/** What the messages of an election do to a node, who wins, and that higher terms depose. */
module Elections {
  import opened RaftTypes
  import opened Handlers
  import opened Ledger
  import opened Cluster
  import opened AllRuns
  import opened Safety

  // ---------- Granting a vote ----------

  /** (term, index) is lexicographically at or above the end of the node's log. */
  predicate AtLeastAsUpToDate(s: Node, term: int, index: int)
    requires |s.log| > 0
  {
    var last := s.log[|s.log| - 1].term;
    term > last || (term == last && index >= s.logOffset + |s.log| - 1)
  }

  /** Every request moves the node to the higher of the two terms, and the reply tells that term; a higher term leaves a
      follower without a vote. The vote is given if and only if the request is not of an older term, the node has not
      voted for another in that term, and the candidate's log is at least as up to date. Nothing else changes. */
  lemma VoteLaw(s: Node, a: RequestVoteArgs)
    requires |s.log| > 0
    ensures var (r, reply) := HandleRequestVote(s, a);
            && r.currentTerm == reply.term == Max(s.currentTerm, a.term)
            && r.role == (if a.term > s.currentTerm then Follower else s.role)
            && (reply.voteGranted <==>
                && a.term >= s.currentTerm
                && (a.term == s.currentTerm ==> s.votedFor == NOBODY || s.votedFor == a.candidateId)
                && AtLeastAsUpToDate(s, a.lastLogTerm, a.lastLogIndex))
            && r.votedFor == (if reply.voteGranted then a.candidateId
                              else if a.term > s.currentTerm then NOBODY else s.votedFor)
            && r == s.(role := r.role, currentTerm := r.currentTerm, votedFor := r.votedFor)
  {
  }

  // ---------- Replies of a higher term ----------

  /** The node has given up its role for term t. */
  predicate Deposed(s: Node, r: Node, t: int)
  {
    r == s.(role := Follower, currentTerm := t, votedFor := NOBODY)
  }

  /** Stepping down for a term: the node is a follower in the higher of the terms, and keeps its vote only in its own. */
  lemma StepDownLaw(s: Node, term: int)
    ensures var r := BecomeFollower(s, term);
            && r == s.(role := Follower, currentTerm := Max(s.currentTerm, term), votedFor := r.votedFor)
            && r.votedFor == (if r.currentTerm == s.currentTerm then s.votedFor else NOBODY)
  {
  }

  /** Any reply that is processed and tells a higher term deposes the node. */
  lemma RepliesDepose(s: Node, peer: Id, term: int, vote: RequestVoteReply, a: AppendEntriesArgs, append: AppendEntriesReply,
                      b: InstallSnapshotArgs, install: InstallSnapshotReply)
    ensures s.role == Candidate && s.currentTerm == term < vote.term ==>
              Deposed(s, HandleVoteReply(s, peer, term, vote), vote.term)
    ensures s.role == Leader && s.currentTerm == a.term < append.term ==>
              Deposed(s, HandleAppendReply(s, peer, a, append), append.term)
    ensures s.role == Leader && s.currentTerm == b.term < install.term ==>
              Deposed(s, HandleSnapshotReply(s, peer, b, install), install.term)
  {
  }

  /** The term a reply tells, if the node processes it. */
  function ToldTerm(s: Node, m: Msg): int
  {
    match m
    case VoteReplyMsg(_, _, a, reply) => if s.role == Candidate && s.currentTerm == a.term then reply.term else s.currentTerm
    case AppendReplyMsg(_, _, a, reply) => if s.role == Leader && s.currentTerm == a.term then reply.term else s.currentTerm
    case InstallReplyMsg(_, _, a, reply) => if s.role == Leader && s.currentTerm == a.term then reply.term else s.currentTerm
    case RequestVoteMsg(_, _, a) => a.term
    case AppendMsg(_, _, a) => a.term
    case InstallMsg(_, _, a) => a.term
  }

  /** Receiving a message that tells a term leaves the node in that term or its own, whichever is higher. */
  lemma ReceiveTells(p: Proc, m: Msg)
    ensures var r := ReceiveMsg(p, m).0.raft;
            && r.currentTerm == Max(p.raft.currentTerm, ToldTerm(p.raft, m))
            && (ToldTerm(p.raft, m) > p.raft.currentTerm ==> r.role == Follower)
  {
    hide AppendFrom;
    hide NextAfterReject;
  }

  /** Over every run: from the moment a node receives a message that tells a term, it is in that term or a later one, so
      that it never again leads an earlier one; and it does not lead when the term was new to it. */
  lemma ToldForGood(members: set<Id>, evs: seq<Event>, i: nat, j: nat)
    requires Membership(members) && i < j <= |evs|
    requires evs[i].Receive? && Enabled(At(members, evs, i).cluster, evs[i])
    ensures var n := evs[i].msg.to;
            && n in At(members, evs, i).cluster.procs && n in At(members, evs, i + 1).cluster.procs
            && n in At(members, evs, j).cluster.procs
            && var told := ToldTerm(NodeAt(members, evs, i, n), evs[i].msg);
               && NodeAt(members, evs, j, n).currentTerm >= told
               && (told > NodeAt(members, evs, i, n).currentTerm ==> NodeAt(members, evs, i + 1, n).role == Follower)
  {
    hide ReceiveMsg;
    hide RecordReceive;
    hide ToldTerm;
    hide Inv;
    hide At;
    var n := evs[i].msg.to;
    NextMoment(members, evs, i);
    AtMembers(members, evs, i);
    TermsRise(members, evs, i + 1, j, n);
    ReceiveTells(At(members, evs, i).cluster.procs[n], evs[i].msg);
  }

  lemma AtMembers(members: set<Id>, evs: seq<Event>, i: nat)
    requires Membership(members) && i <= |evs|
    ensures At(members, evs, i).cluster.procs.Keys == members
  {
    RunInv(members, evs[..i]);
  }

  // ---------- Counting votes ----------

  datatype Ballot = Ballot(peer: Id, reply: RequestVoteReply)

  /** The node after the replies to the election of its term. */
  function Count(s: Node, ballots: seq<Ballot>): Node
    decreases |ballots|
  {
    if ballots == [] then s
    else
      var last := ballots[|ballots| - 1];
      HandleVoteReply(Count(s, ballots[..|ballots| - 1]), last.peer, s.currentTerm, last.reply)
  }

  function Granted(ballots: seq<Ballot>): nat
    decreases |ballots|
  {
    if ballots == [] then 0
    else Granted(ballots[..|ballots| - 1]) + if ballots[|ballots| - 1].reply.voteGranted then 1 else 0
  }

  /** A reply to a running election: its peer is no longer waited for, a granted vote counts one, and the candidate leads if
      and only if that vote makes it more than half of the members. Its term, vote and log stay. A new leader takes
      every peer to be up to date and to hold nothing. A reply to another election changes nothing. */
  lemma VoteReplyLaw(s: Node, peer: Id, reply: RequestVoteReply)
    requires s.role == Candidate && reply.term <= s.currentTerm
    ensures forall t, other | t != s.currentTerm :: HandleVoteReply(s, peer, t, other) == s
    ensures var r := HandleVoteReply(s, peer, s.currentTerm, reply);
            && r == s.(role := r.role, votes := r.votes, awaiting := s.awaiting - {peer}, leaderId := r.leaderId,
                       nextIndex := r.nextIndex, matchIndex := r.matchIndex)
            && r.votes == s.votes + (if reply.voteGranted then 1 else 0)
            && r.role == (if reply.voteGranted && 2 * (s.votes + 1) > |s.peers| + 1 then Leader else Candidate)
            && (r.role == Leader ==> NewLeader(r))
            && (r.role == Candidate ==>
                  r.leaderId == s.leaderId && r.nextIndex == s.nextIndex && r.matchIndex == s.matchIndex)
  {
  }

  predicate NewLeader(s: Node)
  {
    && s.role == Leader && s.leaderId == s.id
    && s.nextIndex.Keys == s.peers + {s.id} == s.matchIndex.Keys
    && (forall q | q in s.nextIndex :: s.nextIndex[q] == LastIndex(s) + 1)
    && (forall q | q in s.matchIndex :: s.matchIndex[q] == if q == s.id then LastIndex(s) else 0)
  }

  /** How an election stands after some replies. */
  ghost predicate Standing(s: Node, ballots: seq<Ballot>, r: Node)
  {
    && r.currentTerm == s.currentTerm + 1 && r.votedFor == s.id && r.log == s.log && r.logOffset == s.logOffset
    && r.peers == s.peers && r.id == s.id
    && r.role == (if 2 * (1 + Granted(ballots)) > |s.peers| + 1 then Leader else Candidate)
    && (r.role == Candidate ==> r.votes == 1 + Granted(ballots) && StillAwaited(s, ballots, r))
    && (r.role == Leader ==> NewLeader(r))
  }

  ghost predicate StillAwaited(s: Node, ballots: seq<Ballot>, r: Node)
  {
    forall q | q in s.peers && (forall b | b in ballots :: b.peer != q) :: q in r.awaiting
  }

  lemma StandingStep(s: Node, ballots: seq<Ballot>, r: Node)
    requires ballots != [] && Standing(s, ballots[..|ballots| - 1], r)
    requires ballots[|ballots| - 1].reply.term <= s.currentTerm + 1
    ensures var last := ballots[|ballots| - 1];
            Standing(s, ballots, HandleVoteReply(r, last.peer, s.currentTerm + 1, last.reply))
  {
    hide StillAwaited;
    hide NewLeader;
    var pre, last := ballots[..|ballots| - 1], ballots[|ballots| - 1];
    if r.role == Candidate {
      VoteReplyLaw(r, last.peer, last.reply);
      AwaitedStep(s, ballots, r, HandleVoteReply(r, last.peer, s.currentTerm + 1, last.reply));
    }
  }

  lemma AwaitedStep(s: Node, ballots: seq<Ballot>, r: Node, t: Node)
    requires ballots != [] && StillAwaited(s, ballots[..|ballots| - 1], r)
    requires t.awaiting == r.awaiting - {ballots[|ballots| - 1].peer}
    ensures StillAwaited(s, ballots, t)
  {
    assert forall b | b in ballots[..|ballots| - 1] :: b in ballots;
    assert ballots[|ballots| - 1] in ballots;
  }

  /** Who wins: a candidate leads its term if and only if its own vote and those granted are more than half of the members.
      Until then it waits for every peer that has not answered. */
  lemma {:induction false} ElectionDecided(s: Node, ballots: seq<Ballot>)
    requires s.role != Leader && s.peers != {}
    requires forall i | 0 <= i < |ballots| :: ballots[i].reply.term <= s.currentTerm + 1
    ensures Standing(s, ballots, Count(StartElection(s), ballots))
    decreases |ballots|
  {
    hide Standing;
    hide HandleVoteReply;
    if ballots == [] {
      Opening(s);
    } else {
      ElectionDecided(s, ballots[..|ballots| - 1]);
      StandingStep(s, ballots, Count(StartElection(s), ballots[..|ballots| - 1]));
    }
  }

  lemma Opening(s: Node)
    requires s.role != Leader && s.peers != {}
    ensures Standing(s, [], StartElection(s))
  {
    var q :| q in s.peers;
    SubsetSize({q}, s.peers);
  }

  // ---------- An election in any state ----------

  /** Who may vote for s: peers not in a later term whose log is no more up to date than that of s. */
  ghost predicate Supporters(c: Cluster, s: Node, voters: seq<Id>)
  {
    && (forall i, j | 0 <= i < j < |voters| :: voters[i] != voters[j])
    && forall q | q in voters ::
         && q in s.peers && q in c.procs
         && c.procs[q].raft.currentTerm <= s.currentTerm
         && |s.log| > 0 && |c.procs[q].raft.log| > 0
         && AtLeastAsUpToDate(c.procs[q].raft, s.log[|s.log| - 1].term, LastIndex(s))
  }

  /** The request s sends to q, and q's vote. */
  function Ask(s: Node, q: Id): Msg { RequestVoteMsg(s.id, q, VoteRequest(StartElection(s))) }
  function Yes(s: Node, q: Id): Msg
  {
    VoteReplyMsg(q, s.id, VoteRequest(StartElection(s)), RequestVoteReply(s.currentTerm + 1, true))
  }

  /** The election of s as it stands after the first k voters answered; the others have not heard of it. */
  ghost predicate Canvassed(c: Cluster, from: Cluster, s: Node, voters: seq<Id>, k: nat)
    requires k <= |voters|
  {
    && s.id in c.procs
    && (forall q | q in s.peers :: Ask(s, q) in c.msgs)
    && (forall i | k <= i < |voters| :: voters[i] in c.procs && voters[i] in from.procs
                                        && c.procs[voters[i]] == from.procs[voters[i]])
    && (IsLeader(s, c.procs[s.id].raft) || Awaits(c.procs[s.id].raft, s, voters, k))
  }

  predicate IsLeader(s: Node, r: Node) { r.role == Leader && r.currentTerm == s.currentTerm + 1 }

  ghost predicate Awaits(r: Node, s: Node, voters: seq<Id>, k: nat)
    requires k <= |voters|
  {
    && r.role == Candidate && r.currentTerm == s.currentTerm + 1 && r.id == s.id && r.peers == s.peers && r.votes == 1 + k
    && (k == 0 || 2 * (1 + k) <= |s.peers| + 1)
    && forall i | k <= i < |voters| :: voters[i] in r.awaiting
  }

  lemma RunMore(members: set<Id>, evs: seq<Event>, ev: Event)
    requires Enabled(Run(members, evs).cluster, ev)
    ensures var c := Run(members, evs).cluster;
            var (p, sent) := Act(c.procs[Actor(ev)], ev);
            Run(members, evs + [ev]).cluster == Cluster(c.procs[Actor(ev) := p], c.msgs + sent)
  {
    hide Act;
    hide Record;
    var next := evs + [ev];
    assert next[..|next| - 1] == evs && next[|next| - 1] == ev;
  }

  lemma Asks(p: Proc, voters: seq<Id>)
    requires p.raft.role != Leader && forall q | q in voters :: q in p.raft.peers
    ensures var (p', sent) := Act(p, Timeout(p.raft.id));
            && Awaits(p'.raft, p.raft, voters, 0)
            && forall q | q in p.raft.peers :: Ask(p.raft, q) in sent
  {
  }

  lemma Grants(p: Proc, s: Node, q: Id)
    requires s.role != Leader && |s.log| > 0 && |p.raft.log| > 0 && p.raft.currentTerm <= s.currentTerm
    requires AtLeastAsUpToDate(p.raft, s.log[|s.log| - 1].term, LastIndex(s))
    ensures Yes(s, q) in Act(p, Receive(Ask(s, q))).1
  {
    VoteLaw(p.raft, VoteRequest(StartElection(s)));
  }

  lemma Counts(p: Proc, s: Node, voters: seq<Id>, k: nat)
    requires k < |voters| && Awaits(p.raft, s, voters, k) && s.role != Leader
    requires forall i, j | 0 <= i < j < |voters| :: voters[i] != voters[j]
    ensures var r := Act(p, Receive(Yes(s, voters[k]))).0.raft; IsLeader(s, r) || Awaits(r, s, voters, k + 1)
  {
    VoteReplyLaw(p.raft, voters[k], RequestVoteReply(s.currentTerm + 1, true));
    hide HandleVoteReply;
    hide NewLeader;
  }

  /** The next voter is asked, and answers. */
  lemma OneMore(members: set<Id>, evs: seq<Event>, from: Cluster, s: Node, voters: seq<Id>, k: nat) returns (evs': seq<Event>)
    requires k < |voters| && s.role != Leader && s.id !in s.peers && Supporters(from, s, voters)
    requires Canvassed(Run(members, evs).cluster, from, s, voters, k)
    ensures Canvassed(Run(members, evs').cluster, from, s, voters, k + 1)
  {
    hide Run;
    hide Act;
    hide AtLeastAsUpToDate;
    var c := Run(members, evs).cluster;
    if IsLeader(s, c.procs[s.id].raft) {
      evs' := evs;
    } else {
      var q := voters[k];
      assert q in voters && c.procs[q] == from.procs[q];
      Grants(c.procs[q], s, q);
      RunMore(members, evs, Receive(Ask(s, q)));
      var e1 := evs + [Receive(Ask(s, q))];
      var c1 := Run(members, e1).cluster;
      assert c1.procs[s.id] == c.procs[s.id] && Yes(s, q) in c1.msgs;
      Counts(c1.procs[s.id], s, voters, k);
      hide Awaits;
      YesEnabled(c1, s, voters, k);
      RunMore(members, e1, Receive(Yes(s, q)));
      evs' := e1 + [Receive(Yes(s, q))];
    }
  }

  lemma YesEnabled(c: Cluster, s: Node, voters: seq<Id>, k: nat)
    requires k < |voters| && s.id in c.procs && Awaits(c.procs[s.id].raft, s, voters, k) && Yes(s, voters[k]) in c.msgs
    ensures Enabled(c, Receive(Yes(s, voters[k])))
  {
  }

  lemma {:induction false} Canvass(members: set<Id>, evs: seq<Event>, s: Node, voters: seq<Id>, k: nat) returns (evs': seq<Event>)
    requires k <= |voters| && s.id in Run(members, evs).cluster.procs && Run(members, evs).cluster.procs[s.id].raft == s
    requires s.role != Leader && s.id !in s.peers && Supporters(Run(members, evs).cluster, s, voters)
    ensures Canvassed(Run(members, evs').cluster, Run(members, evs).cluster, s, voters, k)
  {
    hide Run;
    var from := Run(members, evs).cluster;
    if k == 0 {
      Asks(from.procs[s.id], voters);
      hide Act;
      hide Awaits;
      RunMore(members, evs, Timeout(s.id));
      evs' := evs + [Timeout(s.id)];
    } else {
      hide Act;
      var e := Canvass(members, evs, s, voters, k - 1);
      hide Canvassed;
      hide Supporters;
      evs' := OneMore(members, e, from, s, voters, k - 1);
    }
  }

  lemma WinsAlone(p: Proc, s: Node)
    requires s.peers == {} && Awaits(p.raft, s, [], 0)
    ensures QuorumSize(p.raft) == 1 && IsLeader(s, Act(p, LoneWin(s.id)).0.raft)
  {
  }

  /** A majority suffices: in any state of any run, a node that does not lead, and that more than half of the members, itself
      among them, may vote for, can be elected to its next term. */
  lemma ElectionPossible(members: set<Id>, evs: seq<Event>, n: Id, voters: seq<Id>) returns (evs': seq<Event>)
    requires Membership(members) && n in members
    requires n in Run(members, evs).cluster.procs && Run(members, evs).cluster.procs[n].raft.role != Leader
    requires Supporters(Run(members, evs).cluster, Run(members, evs).cluster.procs[n].raft, voters)
    requires 2 * (1 + |voters|) > |members|
    ensures LeadsIn(Run(members, evs'), n, Run(members, evs).cluster.procs[n].raft.currentTerm + 1)
  {
    hide Run;
    hide Supporters;
    hide Act;
    var s := Run(members, evs).cluster.procs[n].raft;
    PeersAre(members, evs, n);
    evs' := Canvass(members, evs, s, voters, |voters|);
    var c := Run(members, evs').cluster;
    if !IsLeader(s, c.procs[n].raft) {
      assert |voters| == 0 && |s.peers| == 0;
      assert voters == [];
      WinsAlone(c.procs[n], s);
      RunMore(members, evs', LoneWin(n));
      evs' := evs' + [LoneWin(n)];
    }
  }

  lemma PeersAre(members: set<Id>, evs: seq<Event>, n: Id)
    requires Membership(members) && n in members && n in Run(members, evs).cluster.procs
    ensures var s := Run(members, evs).cluster.procs[n].raft;
            s.id == n && s.id !in s.peers && |s.peers| + 1 == |members|
  {
    hide BaseInv;
    hide MsgInv;
    hide CandidateOk;
    hide Represents;
    RunInv(members, evs);
    NodeShape(Run(members, evs).hist, Run(members, evs).cluster.procs[n].raft);
  }
}
