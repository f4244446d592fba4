/**
 Any number of threads setting and querying the call policy. A writer holds the lock alone while it clears the two
 lists, sets their flags and inserts their numbers one by one; readers share the lock.
 */
module PolicyThreads {
  import opened TelephonyBase
  import opened EdmCallPolicies

  datatype Query = Query(incoming: bool, number: string)

  datatype Pc =
    | Idle
    | WaitToWrite(p: Policy)
    | ClearingDialing(p: Policy)
    | ClearingIncoming(p: Policy)
    | FlaggingDialing(p: Policy)
    | FillingDialing(p: Policy, i: nat)
    | FlaggingIncoming(p: Policy)
    | FillingIncoming(p: Policy, i: nat)
    | WaitToRead(q: Query)
    | Reading(q: Query)
    | Answered

  /**
   An answer, whether telephony was disabled for it, and the policy that had last been put in force completely when
   it was given.
   */
  datatype Answer = Answer(q: Query, disabled: bool, yes: bool, policy: Option<Policy>)

  datatype State = State(
    dialing: PolicyList,
    incoming: PolicyList,
    writer: Option<Tid>,
    readers: set<Tid>,
    threads: map<Tid, Pc>,
    policy: Option<Policy>,
    answers: seq<Answer>)

  const START := State(NO_LIST, NO_LIST, None, {}, map[], None, [])

  function PcOf(s: State, t: Tid): Pc {
    if t in s.threads then s.threads[t] else Idle
  }

  function At(s: State, t: Tid, pc: Pc): State {
    s.(threads := s.threads[t := pc])
  }

  datatype Move = SetPolicy(t: Tid, p: Policy) | Ask(t: Tid, q: Query, disabled: bool) | Go(t: Tid)

  function Step(s: State, move: Move): State {
    match move
    case SetPolicy(t, p) => if PcOf(s, t).Idle? && Accepted(p) then At(s, t, WaitToWrite(p)) else s
    case Ask(t, q, disabled) =>
      if !PcOf(s, t).Idle? then s
      else if disabled then s.(answers := s.answers + [Answer(q, true, false, s.policy)])
      else At(s, t, WaitToRead(q))
    case Go(t) => GoStep(s, t)
  }

  function GoStep(s: State, t: Tid): State {
    match PcOf(s, t)
    case Idle => s
    case WaitToWrite(p) =>
      if s.writer.Some? || s.readers != {} then s else At(s.(writer := Some(t)), t, ClearingDialing(p))
    case ClearingDialing(p) => At(s.(dialing := s.dialing.(numbers := {})), t, ClearingIncoming(p))
    case ClearingIncoming(p) => At(s.(incoming := s.incoming.(numbers := {})), t, FlaggingDialing(p))
    case FlaggingDialing(p) => At(s.(dialing := s.dialing.(flag := FlagOf(p.dialingTrust))), t, FillingDialing(p, 0))
    case FillingDialing(p, i) =>
      if i < |p.dialing| then
        At(s.(dialing := s.dialing.(numbers := s.dialing.numbers + {p.dialing[i]})), t, FillingDialing(p, i + 1))
      else At(s, t, FlaggingIncoming(p))
    case FlaggingIncoming(p) =>
      At(s.(incoming := s.incoming.(flag := FlagOf(p.incomingTrust))), t, FillingIncoming(p, 0))
    case FillingIncoming(p, i) =>
      if i < |p.incoming| then
        At(s.(incoming := s.incoming.(numbers := s.incoming.numbers + {p.incoming[i]})), t, FillingIncoming(p, i + 1))
      else At(s.(writer := None, policy := Some(p)), t, Idle)
    case WaitToRead(q) => if s.writer.Some? then s else At(s.(readers := s.readers + {t}), t, Reading(q))
    case Reading(q) =>
      var yes := ListAllows(if q.incoming then s.incoming else s.dialing, q.number);
      At(s.(answers := s.answers + [Answer(q, false, yes, s.policy)]), t, Answered)
    case Answered => At(s.(readers := s.readers - {t}), t, Idle)
  }

  function Exec(moves: seq<Move>): State {
    if moves == [] then START else Step(Exec(moves[..|moves| - 1]), moves[|moves| - 1])
  }

  // ---------- the invariant ----------

  predicate Writing(pc: Pc) {
    !pc.Idle? && !pc.WaitToWrite? && !pc.WaitToRead? && !pc.Reading? && !pc.Answered?
  }

  predicate ThreadInv(s: State, t: Tid) {
    var pc := PcOf(s, t);
    && (Writing(pc) <==> s.writer == Some(t))
    && (pc.Reading? || pc.Answered? <==> t in s.readers)
    && (pc.ClearingIncoming? || pc.FlaggingDialing? ==> s.dialing.numbers == {})
    && (pc.FlaggingDialing? || pc.FillingDialing? || pc.FlaggingIncoming? ==> s.incoming.numbers == {})
    && match pc
       case FillingDialing(p, i) =>
         i <= |p.dialing| && s.dialing == PolicyList(FlagOf(p.dialingTrust), Elements(p.dialing[..i]))
       case FlaggingIncoming(p) => s.dialing == DialingList(Some(p))
       case FillingIncoming(p, i) =>
         && s.dialing == DialingList(Some(p))
         && i <= |p.incoming| && s.incoming == PolicyList(FlagOf(p.incomingTrust), Elements(p.incoming[..i]))
       case _ => true
  }

  /** An answer is that of one complete policy. */
  predicate Consistent(a: Answer) {
    a.yes == if a.q.incoming then IncomingAllowed(a.policy, a.disabled, a.q.number)
             else DialingAllowed(a.policy, a.disabled, a.q.number)
  }

  ghost predicate SharedInv(s: State) {
    && (s.writer.None? || s.readers == {})
    && (s.writer.None? ==> s.dialing == DialingList(s.policy) && s.incoming == IncomingList(s.policy))
    && forall k :: 0 <= k < |s.answers| ==> Consistent(s.answers[k])
  }

  ghost predicate Inv(s: State) {
    SharedInv(s) && forall t :: ThreadInv(s, t)
  }

  lemma OwnStep(s: State, move: Move)
    requires Inv(s)
    ensures ThreadInv(Step(s, move), move.t)
  {
    assert ThreadInv(s, move.t);
    var pc := PcOf(s, move.t);
    if pc.FlaggingDialing? {
      assert pc.p.dialing[..0] == [];
    }
    if pc.FlaggingIncoming? {
      assert pc.p.incoming[..0] == [];
    }
    if pc.FillingDialing? {
      assert pc.p.dialing[..|pc.p.dialing|] == pc.p.dialing;
      if pc.i < |pc.p.dialing| {
        ElementsNext(pc.p.dialing, pc.i);
      }
    }
    if pc.FillingIncoming? && pc.i < |pc.p.incoming| {
      ElementsNext(pc.p.incoming, pc.i);
    }
  }

  lemma OtherStep(s: State, move: Move, t: Tid)
    requires Inv(s) && move.t != t
    ensures ThreadInv(Step(s, move), t)
  {
    assert ThreadInv(s, t) && ThreadInv(s, move.t);
  }

  lemma SharedStep(s: State, move: Move)
    requires Inv(s)
    ensures SharedInv(Step(s, move))
  {
    assert ThreadInv(s, move.t);
    var pc := PcOf(s, move.t);
    if pc.FillingIncoming? {
      assert pc.p.incoming[..|pc.p.incoming|] == pc.p.incoming;
    }
    if pc.Reading? {
      ListsDecide(s.policy, pc.q.number);
    }
  }

  lemma InvStep(s: State, move: Move)
    requires Inv(s)
    ensures Inv(Step(s, move))
  {
    hide Step, ThreadInv;
    SharedStep(s, move);
    forall t: Tid
      ensures ThreadInv(Step(s, move), t)
    {
      if t == move.t {
        OwnStep(s, move);
      } else {
        OtherStep(s, move, t);
      }
    }
  }

  lemma {:induction false} InvHolds(moves: seq<Move>)
    ensures Inv(Exec(moves))
  {
    hide Step;
    if moves != [] {
      InvHolds(moves[..|moves| - 1]);
      InvStep(Exec(moves[..|moves| - 1]), moves[|moves| - 1]);
    }
  }

  // ---------- what holds in every interleaving ----------

  /** Every answer is that of a complete policy: nobody reads a list that is being filled. */
  lemma AnswersSeeWholePolicies(moves: seq<Move>, k: nat)
    requires k < |Exec(moves).answers|
    ensures Consistent(Exec(moves).answers[k])
    ensures var Answer(q, disabled, yes, policy) := Exec(moves).answers[k];
      && (disabled ==> !yes)
      && (!disabled && policy.None? ==> yes)
      && (!disabled && policy.Some? ==>
            var listed := if q.incoming then policy.value.incoming else policy.value.dialing;
            var trust := if q.incoming then policy.value.incomingTrust else policy.value.dialingTrust;
            yes == (listed == [] || (q.number in listed <==> trust)))
  {
    hide Step;
    InvHolds(moves);
    assert Consistent(Exec(moves).answers[k]);
  }

  /** While a thread reads, the lists are those of the last completed policy. */
  lemma ReadersFindWholeLists(moves: seq<Move>, t: Tid)
    requires PcOf(Exec(moves), t).Reading?
    ensures var s := Exec(moves);
      s.dialing == DialingList(s.policy) && s.incoming == IncomingList(s.policy)
  {
    hide Step;
    InvHolds(moves);
    assert ThreadInv(Exec(moves), t);
  }

  /** While a thread writes, no other thread writes or reads. */
  lemma WritersAreAlone(moves: seq<Move>, t: Tid, u: Tid)
    requires Writing(PcOf(Exec(moves), t)) && t != u
    ensures var pc := PcOf(Exec(moves), u);
      !Writing(pc) && !pc.Reading?
  {
    hide Step;
    InvHolds(moves);
    assert ThreadInv(Exec(moves), t) && ThreadInv(Exec(moves), u);
  }

  // ---------- a thread that is alone ----------

  lemma ExecMore(moves: seq<Move>, move: Move)
    ensures Exec(moves + [move]) == Step(Exec(moves), move)
  {
    hide Step;
    assert (moves + [move])[..|moves|] == moves;
  }

  // Nothing but steps of thread t.
  predicate OnlySteps(moves: seq<Move>, t: Tid) {
    forall k :: 0 <= k < |moves| ==> moves[k] == Go(t)
  }

  // What a writing thread leaves alone until it is done.
  predicate SameOutside(s: State, n: State) {
    n.policy == s.policy && n.answers == s.answers && n.readers == s.readers
  }

  lemma OneStep(moves: seq<Move>, more: seq<Move>, t: Tid) returns (next: seq<Move>)
    requires OnlySteps(more, t)
    ensures Exec(moves + next) == GoStep(Exec(moves + more), t) && OnlySteps(next, t)
  {
    hide GoStep, Exec;
    next := more + [Go(t)];
    assert moves + next == (moves + more) + [Go(t)];
    ExecMore(moves + more, Go(t));
  }

  lemma FillsDialing(moves: seq<Move>, more: seq<Move>, t: Tid, p: Policy, i: nat) returns (next: seq<Move>)
    requires PcOf(Exec(moves + more), t) == FillingDialing(p, i) && i <= |p.dialing| && OnlySteps(more, t)
    ensures var s, n := Exec(moves + more), Exec(moves + next);
      PcOf(n, t) == FlaggingIncoming(p) && SameOutside(s, n) && OnlySteps(next, t)
    decreases |p.dialing| - i
  {
    hide Exec, OnlySteps;
    next := OneStep(moves, more, t);
    if i < |p.dialing| {
      next := FillsDialing(moves, next, t, p, i + 1);
    }
  }

  lemma FillsIncoming(moves: seq<Move>, more: seq<Move>, t: Tid, p: Policy, i: nat) returns (next: seq<Move>)
    requires PcOf(Exec(moves + more), t) == FillingIncoming(p, i) && i <= |p.incoming| && OnlySteps(more, t)
    ensures var s, n := Exec(moves + more), Exec(moves + next);
      && PcOf(n, t).Idle? && n.writer.None? && n.policy == Some(p) && OnlySteps(next, t)
      && n.answers == s.answers && n.readers == s.readers
    decreases |p.incoming| - i
  {
    hide Exec, OnlySteps;
    next := OneStep(moves, more, t);
    if i < |p.incoming| {
      next := FillsIncoming(moves, next, t, p, i + 1);
    }
  }

  // From the moment it waits for the lock, a writer that is alone gets to the end.
  lemma Writes(moves: seq<Move>, t: Tid, p: Policy) returns (more: seq<Move>)
    requires var s := Exec(moves);
      PcOf(s, t) == WaitToWrite(p) && s.writer.None? && s.readers == {}
    ensures OnlySteps(more, t)
    ensures var s, n := Exec(moves), Exec(moves + more);
      && PcOf(n, t).Idle? && n.writer.None? && n.policy == Some(p)
      && n.answers == s.answers && n.readers == {}
  {
    hide Exec, OnlySteps;
    more := NoSteps(moves, t);
    more := OneStep(moves, more, t);
    more := OneStep(moves, more, t);
    more := OneStep(moves, more, t);
    more := OneStep(moves, more, t);
    more := FillsDialing(moves, more, t, p, 0);
    more := OneStep(moves, more, t);
    more := FillsIncoming(moves, more, t, p, 0);
  }

  lemma NoSteps(moves: seq<Move>, t: Tid) returns (none: seq<Move>)
    ensures none == [] && OnlySteps(none, t) && moves + none == moves
  {
    none := [];
  }

  /** A thread that is alone with an update puts it in force; an update that is refused changes nothing. */
  lemma SetsAlone(moves: seq<Move>, t: Tid, p: Policy) returns (more: seq<Move>)
    requires PcOf(Exec(moves), t).Idle? && Exec(moves).writer.None? && Exec(moves).readers == {}
    ensures OnlySteps(more, t)
    ensures var s, n := Exec(moves), Exec(moves + [SetPolicy(t, p)] + more);
      && PcOf(n, t).Idle? && n.writer.None? && n.readers == {} && n.answers == s.answers
      && n.policy == (if |p.dialing| <= 1000 && |p.incoming| <= 1000 then Some(p) else s.policy)
      && n.dialing == DialingList(n.policy) && n.incoming == IncomingList(n.policy)
  {
    hide Exec, OnlySteps;
    var asked := moves + [SetPolicy(t, p)];
    ExecMore(moves, SetPolicy(t, p));
    if Accepted(p) {
      more := Writes(asked, t, p);
    } else {
      more := NoSteps(asked, t);
    }
    InvHolds(asked + more);
  }

  /** A thread that is alone with a query is answered once, by the policy in force. */
  lemma AsksAlone(moves: seq<Move>, t: Tid, q: Query, disabled: bool)
    requires PcOf(Exec(moves), t).Idle? && Exec(moves).writer.None? && Exec(moves).readers == {}
    ensures var s, n := Exec(moves), Exec(moves + [Ask(t, q, disabled)] + [Go(t), Go(t), Go(t)]);
      && PcOf(n, t).Idle? && n.writer.None? && n.readers == {} && n.policy == s.policy
      && |n.answers| == |s.answers| + 1 && n.answers[..|s.answers|] == s.answers
      && n.answers[|s.answers|].q == q && n.answers[|s.answers|].disabled == disabled
      && n.answers[|s.answers|].policy == s.policy && Consistent(n.answers[|s.answers|])
  {
    hide Exec, Consistent;
    var asked := moves + [Ask(t, q, disabled)];
    ExecMore(moves, Ask(t, q, disabled));
    ExecMore(asked, Go(t));
    ExecMore(asked + [Go(t)], Go(t));
    ExecMore(asked + [Go(t)] + [Go(t)], Go(t));
    assert asked + [Go(t), Go(t), Go(t)] == asked + [Go(t)] + [Go(t)] + [Go(t)];
    InvHolds(asked + [Go(t), Go(t), Go(t)]);
  }

  // ---------- where the policies come from ----------

  predicate Requested(moves: seq<Move>, p: Policy) {
    Accepted(p) && exists k :: 0 <= k < |moves| && moves[k].SetPolicy? && moves[k].p == p
  }

  // The policies that are in a state: under way, in force, or behind an answer.
  predicate Present(s: State, p: Policy) {
    || s.policy == Some(p)
    || (exists t :: t in s.threads && Carries(s.threads[t], p))
    || exists k :: 0 <= k < |s.answers| && s.answers[k].policy == Some(p)
  }

  predicate Carries(pc: Pc, p: Policy) {
    match pc
    case Idle | WaitToRead(_) | Reading(_) | Answered => false
    case _ => pc.p == p
  }

  // Whose step a policy comes from: the moving thread, or nobody, or the request itself.
  lemma MoverStep(s: State, move: Move, p: Policy)
    ensures var t := Step(s, move);
      var mine := Carries(PcOf(s, move.t), p);
      && (t.policy == Some(p) ==> s.policy == Some(p) || mine)
      && (Carries(PcOf(t, move.t), p) ==> mine || (move.SetPolicy? && move.p == p && Accepted(p)))
      && (forall u :: u in t.threads && u != move.t ==> u in s.threads && t.threads[u] == s.threads[u])
  {
  }

  lemma AnswerStep(s: State, move: Move, k: nat)
    requires k < |Step(s, move).answers|
    ensures if k < |s.answers| then Step(s, move).answers[k] == s.answers[k]
      else Step(s, move).answers[k].policy == s.policy
  {
  }

  lemma PresentStep(s: State, move: Move, p: Policy)
    requires Present(Step(s, move), p)
    ensures Present(s, p) || (move.SetPolicy? && move.p == p && Accepted(p))
  {
    hide Step, Carries, Accepted;
    var t := Step(s, move);
    MoverStep(s, move, p);
    IdleCarriesNothing(p);
    if k :| 0 <= k < |t.answers| && t.answers[k].policy == Some(p) {
      AnswerStep(s, move, k);
    } else if u :| u in t.threads && Carries(t.threads[u], p) {
      assert u != move.t ==> u in s.threads && Carries(s.threads[u], p);
    }
  }

  lemma IdleCarriesNothing(p: Policy)
    ensures !Carries(Idle, p)
  {
  }

  /** The policy behind an answer, or in force, was requested before and accepted. */
  lemma {:induction false} PoliciesWereRequested(moves: seq<Move>, p: Policy)
    requires Present(Exec(moves), p)
    ensures Requested(moves, p)
  {
    hide Step, Accepted;
    if moves != [] {
      var front, last := moves[..|moves| - 1], moves[|moves| - 1];
      PresentStep(Exec(front), last, p);
      if Present(Exec(front), p) {
        PoliciesWereRequested(front, p);
        var k :| 0 <= k < |front| && front[k].SetPolicy? && front[k].p == p;
        assert moves[k] == front[k];
      }
    }
  }
}
