/**
 Any number of threads asking the configuration at once. Each first makes sure that it is initialised: a check
 without the mutex, the mutex, a second check, clearing, loading, filling item by item, publishing. The query
 that follows reads a table without the mutex.
 */
module ConfigThreads {
  import opened TelephonyBase
  import opened CallManagerConfigs

  datatype Query = Query(convert: bool, key: string)

  datatype Pc =
    | Idle
    | FastCheck(q: Query)
    | Locking(q: Query)
    | SlowCheck(q: Query)
    | ClearingHangUp(q: Query)
    | ClearingConvert(q: Query)
    | Loading(q: Query)
    | FillingHangUp(q: Query, doc: Document, i: nat)
    | FillingConvert(q: Query, doc: Document, i: nat)
    | Publishing(q: Query, doc: Document)
    | Unlocking(q: Query)
    | Querying(q: Query)

  /**
   An answer; whether the tables were published when it was given; the document that was published or being filled
   in at that moment; and how many items of the queried list had been considered.
   */
  datatype Answer = Answer(q: Query, yes: bool, initialised: bool, doc: Option<Document>, done: nat)

  // `published` is the document of the thread that published; it is kept to state properties only.
  datatype State = State(
    hangUp: set<string>,
    convert: set<string>,
    isInit: bool,
    owner: Option<Tid>,
    threads: map<Tid, Pc>,
    published: Option<Document>,
    answers: seq<Answer>)

  const START := State({}, {}, false, None, map[], None, [])

  function PcOf(s: State, t: Tid): Pc {
    if t in s.threads then s.threads[t] else Idle
  }

  function At(s: State, t: Tid, pc: Pc): State {
    s.(threads := s.threads[t := pc])
  }

  /** A thread asks, or goes one step further; `loaded` is what a load would yield at that moment. */
  datatype Move = Ask(t: Tid, q: Query) | Go(t: Tid, loaded: Option<Document>)

  function Step(s: State, move: Move): State {
    match move
    case Ask(t, q) => if PcOf(s, t).Idle? then At(s, t, FastCheck(q)) else s
    case Go(t, loaded) =>
      match PcOf(s, t)
      case Idle => s
      case FastCheck(q) => At(s, t, if s.isInit then Querying(q) else Locking(q))
      case Locking(q) => if s.owner.Some? then s else At(s.(owner := Some(t)), t, SlowCheck(q))
      case SlowCheck(q) => At(s, t, if s.isInit then Unlocking(q) else ClearingHangUp(q))
      case ClearingHangUp(q) => At(s.(hangUp := {}), t, ClearingConvert(q))
      case ClearingConvert(q) => At(s.(convert := {}), t, Loading(q))
      case Loading(q) => At(s, t, if loaded.None? then Unlocking(q) else FillingHangUp(q, loaded.value, 0))
      case FillingHangUp(q, doc, i) =>
        if i < |Listed(doc.hangUp)| then
          At(s.(hangUp := Insert(s.hangUp, Listed(doc.hangUp)[i])), t, FillingHangUp(q, doc, i + 1))
        else At(s, t, FillingConvert(q, doc, 0))
      case FillingConvert(q, doc, i) =>
        if i < |Listed(doc.convert)| then
          At(s.(convert := Insert(s.convert, Listed(doc.convert)[i])), t, FillingConvert(q, doc, i + 1))
        else At(s, t, Publishing(q, doc))
      case Publishing(q, doc) => At(s.(isInit := true, published := Some(doc)), t, Unlocking(q))
      case Unlocking(q) => At(s.(owner := None), t, Querying(q))
      case Querying(q) =>
        At(s.(answers := s.answers + [Answer(q, Yes(s, q), s.isInit, Current(s), Done(s, q.convert))]), t, Idle)
  }

  function Table(s: State, convert: bool): set<string> {
    if convert then s.convert else s.hangUp
  }

  predicate Yes(s: State, q: Query) {
    q.key != "" && q.key in Table(s, q.convert)
  }

  // ---------- how far the tables are filled ----------

  // A list of a document that is looked up under one of the two names.
  function ListOf(doc: Document, convert: bool): seq<Item> {
    Listed(if convert then doc.convert else doc.hangUp)
  }

  function ParseOf(doc: Document, convert: bool): set<string> {
    Features(if convert then doc.convert else doc.hangUp)
  }

  function OwnerPc(s: State): Pc {
    if s.owner.Some? then PcOf(s, s.owner.value) else Idle
  }

  // A thread that has loaded a document and has not published it yet.
  predicate Loaded(pc: Pc) {
    pc.FillingHangUp? || pc.FillingConvert? || pc.Publishing?
  }

  /** The document that is published or being filled in. */
  function Current(s: State): Option<Document> {
    if s.published.Some? then s.published
    else if Loaded(OwnerPc(s)) then Some(OwnerPc(s).doc)
    else None
  }

  /** How many of its items have been considered for a table. */
  function Done(s: State, convert: bool): nat {
    if s.published.Some? then |ListOf(s.published.value, convert)|
    else match OwnerPc(s)
      case FillingHangUp(_, _, i) => if convert then 0 else i
      case FillingConvert(_, doc, i) => if convert then i else |ListOf(doc, convert)|
      case Publishing(_, doc) => |ListOf(doc, convert)|
      case _ => 0
  }

  function Exec(moves: seq<Move>): State {
    if moves == [] then START else Step(Exec(moves[..|moves| - 1]), moves[|moves| - 1])
  }

  // ---------- the invariant ----------

  predicate Critical(pc: Pc) {
    !pc.Idle? && !pc.FastCheck? && !pc.Locking? && !pc.Querying?
  }

  // The stretch of the critical section in which the tables are being written.
  predicate Writing(pc: Pc) {
    Critical(pc) && !pc.SlowCheck? && !pc.Unlocking?
  }

  predicate TablesAre(s: State, doc: Document) {
    s.hangUp == Features(doc.hangUp) && s.convert == Features(doc.convert)
  }

  predicate ThreadInv(s: State, t: Tid) {
    var pc := PcOf(s, t);
    && (Critical(pc) <==> s.owner == Some(t))
    && (Writing(pc) ==> !s.isInit)
    && match pc
       case FillingHangUp(_, doc, i) =>
         && i <= |Listed(doc.hangUp)|
         && s.hangUp == FeaturesUpTo(Listed(doc.hangUp), i) && s.convert == {}
       case FillingConvert(_, doc, i) =>
         && i <= |Listed(doc.convert)|
         && s.hangUp == Features(doc.hangUp) && s.convert == FeaturesUpTo(Listed(doc.convert), i)
       case Publishing(_, doc) => TablesAre(s, doc)
       case _ => true
  }

  /** What an answer should be by the complete parse of a document. */
  predicate Correct(answer: Answer, doc: Document) {
    answer.yes <==> answer.q.key != "" && answer.q.key in ParseOf(doc, answer.q.convert)
  }

  // What an answer is by the items considered so far.
  predicate Exact(a: Answer) {
    if a.doc.None? then !a.yes
    else
      && a.done <= |ListOf(a.doc.value, a.q.convert)|
      && (a.yes <==> a.q.key != "" && a.q.key in FeaturesUpTo(ListOf(a.doc.value, a.q.convert), a.done))
  }

  // After publication all items of the published document have been considered.
  predicate Final(a: Answer, published: Option<Document>) {
    a.initialised ==>
      published.Some? && a.doc == published && a.done == |ListOf(published.value, a.q.convert)|
  }

  ghost predicate SharedInv(s: State) {
    && (s.isInit <==> s.published.Some?)
    && (s.isInit ==> TablesAre(s, s.published.value))
    && (!s.isInit && !Loaded(OwnerPc(s)) ==> s.hangUp == {} && s.convert == {})
    && forall k :: 0 <= k < |s.answers| ==> Exact(s.answers[k]) && Final(s.answers[k], s.published)
  }

  ghost predicate Inv(s: State) {
    SharedInv(s) && forall t :: ThreadInv(s, t)
  }

  // Each table holds exactly the items considered so far.
  lemma FilledSoFar(s: State, convert: bool)
    requires Inv(s)
    ensures Current(s).None? ==> Table(s, convert) == {}
    ensures Current(s).Some? ==>
      && Done(s, convert) <= |ListOf(Current(s).value, convert)|
      && Table(s, convert) == FeaturesUpTo(ListOf(Current(s).value, convert), Done(s, convert))
  {
    if s.owner.Some? {
      assert ThreadInv(s, s.owner.value);
    }
    if Current(s).Some? {
      AllFeatures(Current(s).value.hangUp);
      AllFeatures(Current(s).value.convert);
    }
  }

  lemma OwnStep(s: State, move: Move)
    requires Inv(s)
    ensures ThreadInv(Step(s, move), move.t)
  {
    assert ThreadInv(s, move.t);
    var pc := PcOf(s, move.t);
    if pc.FillingHangUp? && pc.i < |Listed(pc.doc.hangUp)| {
      FeaturesGrow(Listed(pc.doc.hangUp), pc.i);
    }
    if pc.FillingConvert? && pc.i < |Listed(pc.doc.convert)| {
      FeaturesGrow(Listed(pc.doc.convert), pc.i);
    }
  }

  lemma OtherStep(s: State, move: Move, t: Tid)
    requires Inv(s) && move.t != t
    ensures ThreadInv(Step(s, move), t)
  {
    assert ThreadInv(s, t) && ThreadInv(s, move.t);
  }

  lemma SharedStep(s: State, move: Move)
    requires Inv(s)
    ensures SharedInv(Step(s, move))
  {
    hide Features, FeaturesUpTo, Exact, Final, Done;
    assert ThreadInv(s, move.t);
    if s.owner.Some? {
      assert ThreadInv(s, s.owner.value);
    }
    AnswerStep(s, move);
  }

  lemma AnswerStep(s: State, move: Move)
    requires Inv(s)
    ensures var t := Step(s, move);
      forall k :: 0 <= k < |t.answers| ==> Exact(t.answers[k]) && Final(t.answers[k], t.published)
  {
    hide Features, FeaturesUpTo;
    assert ThreadInv(s, move.t);
    FilledSoFar(s, false);
    FilledSoFar(s, true);
  }

  lemma InvStep(s: State, move: Move)
    requires Inv(s)
    ensures Inv(Step(s, move))
  {
    hide Step, ThreadInv;
    SharedStep(s, move);
    forall t: Tid
      ensures ThreadInv(Step(s, move), t)
    {
      if t == move.t {
        OwnStep(s, move);
      } else {
        OtherStep(s, move, t);
      }
    }
  }

  lemma {:induction false} InvHolds(moves: seq<Move>)
    ensures Inv(Exec(moves))
  {
    hide Step;
    if moves != [] {
      InvHolds(moves[..|moves| - 1]);
      InvStep(Exec(moves[..|moves| - 1]), moves[|moves| - 1]);
    }
  }

  // ---------- what holds in every interleaving ----------

  /** At most one thread at a time writes the tables. */
  lemma OneWriter(moves: seq<Move>, t: Tid, u: Tid)
    requires Writing(PcOf(Exec(moves), t)) && Writing(PcOf(Exec(moves), u))
    ensures t == u
  {
    hide Step;
    InvHolds(moves);
    assert ThreadInv(Exec(moves), t) && ThreadInv(Exec(moves), u);
  }

  /** The flag is up exactly when a document has been published, and then the tables are its two parses. */
  lemma PublishedMeansParsed(moves: seq<Move>)
    ensures var s := Exec(moves);
      (s.isInit <==> s.published.Some?) && (s.isInit ==> TablesAre(s, s.published.value))
  {
    hide Step;
    InvHolds(moves);
  }

  predicate SameTables(s: State, t: State) {
    t.isInit && t.hangUp == s.hangUp && t.convert == s.convert && t.published == s.published
  }

  lemma FrozenStep(s: State, move: Move)
    requires Inv(s) && s.isInit
    ensures SameTables(s, Step(s, move))
  {
    assert ThreadInv(s, move.t);
  }

  /** From then on nothing changes any more, whatever the threads do. */
  lemma {:induction false} PublishedIsFrozen(moves: seq<Move>, later: seq<Move>)
    requires Exec(moves).isInit
    ensures SameTables(Exec(moves), Exec(moves + later))
  {
    hide Step, Inv;
    if later == [] {
      assert moves + later == moves;
    } else {
      var front, last := later[..|later| - 1], later[|later| - 1];
      assert (moves + later)[..|moves + later| - 1] == moves + front;
      PublishedIsFrozen(moves, front);
      InvHolds(moves + front);
      FrozenStep(Exec(moves + front), last);
    }
  }

  /** Every answer given after publication is right about the published document. */
  lemma AnswersAfterPublication(moves: seq<Move>, k: nat)
    requires k < |Exec(moves).answers| && Exec(moves).answers[k].initialised
    ensures Exec(moves).published.Some? && Correct(Exec(moves).answers[k], Exec(moves).published.value)
  {
    hide Step;
    InvHolds(moves);
    var s := Exec(moves);
    assert Final(s.answers[k], s.published);
    AllFeatures(s.published.value.hangUp);
    AllFeatures(s.published.value.convert);
  }

  // ---------- before publication: exactly when a table is whole ----------

  // A table is empty, or the complete parse of the document that is published or being filled in.
  predicate Whole(s: State, convert: bool) {
    || Table(s, convert) == {}
    || (Current(s).Some? && Table(s, convert) == ParseOf(Current(s).value, convert))
  }

  // A thread is filling this table and has inserted something, but not everything.
  predicate PartWay(pc: Pc, convert: bool) {
    match pc
    case FillingHangUp(_, doc, i) => !convert && Proper(doc, convert, i)
    case FillingConvert(_, doc, i) => convert && Proper(doc, convert, i)
    case _ => false
  }

  predicate Proper(doc: Document, convert: bool, i: nat) {
    && i <= |ListOf(doc, convert)|
    && FeaturesUpTo(ListOf(doc, convert), i) != {}
    && FeaturesUpTo(ListOf(doc, convert), i) != ParseOf(doc, convert)
  }

  lemma WholeInState(s: State, convert: bool)
    requires Inv(s)
    ensures Whole(s, convert) <==> forall t :: !PartWay(PcOf(s, t), convert)
  {
    FilledSoFar(s, convert);
    if s.owner.Some? {
      assert ThreadInv(s, s.owner.value);
    }
    if Current(s).Some? {
      AllFeatures(Current(s).value.hangUp);
      AllFeatures(Current(s).value.convert);
    }
    if t: Tid :| PartWay(PcOf(s, t), convert) {
      assert ThreadInv(s, t);
    } else {
      assert !PartWay(OwnerPc(s), convert);
    }
  }

  /** In every run, a table is whole exactly when no thread is part-way through filling it. */
  lemma WholeUnlessPartWay(moves: seq<Move>, convert: bool)
    ensures Whole(Exec(moves), convert) <==> forall t :: !PartWay(PcOf(Exec(moves), t), convert)
  {
    hide Step, Whole, PartWay;
    InvHolds(moves);
    WholeInState(Exec(moves), convert);
  }

  // The document lists both names, but of two queries at this moment one would be answered yes and the other no.
  predicate TellsApart(s: State, convert: bool, a: string, b: string) {
    && Current(s).Some?
    && a in ParseOf(Current(s).value, convert) && b in ParseOf(Current(s).value, convert)
    && Yes(s, Query(convert, a)) && !Yes(s, Query(convert, b))
  }

  /** A table that is not whole can be noticed by two queries, and only such a table. */
  lemma PartWayIsNoticed(moves: seq<Move>, convert: bool)
    ensures var s := Exec(moves);
      (exists t :: PartWay(PcOf(s, t), convert)) <==> (exists a, b :: TellsApart(s, convert, a, b))
  {
    hide Step, PartWay;
    WholeUnlessPartWay(moves, convert);
    InvHolds(moves);
    NoticedInState(Exec(moves), convert);
  }

  lemma NoticedInState(s: State, convert: bool)
    requires Inv(s)
    ensures Whole(s, convert) <==> !exists a, b :: TellsApart(s, convert, a, b)
  {
    FilledSoFar(s, convert);
    if !Whole(s, convert) {
      var whole := ParseOf(Current(s).value, convert);
      var a :| a in Table(s, convert);
      assert Table(s, convert) <= whole;
      var b :| b in whole && b !in Table(s, convert);
      assert TellsApart(s, convert, a, b);
    }
  }

  /**
   Exactly when an answer is right by the complete parse of the document that was published or being filled in when
   it was given: unless the name is listed but not among the items considered by then. Without such a document the
   answer is no.
   */
  lemma AnswerIsRight(moves: seq<Move>, k: nat)
    requires k < |Exec(moves).answers|
    ensures var a := Exec(moves).answers[k];
      && (a.doc.None? ==> !a.yes)
      && (a.doc.Some? ==>
            && a.done <= |ListOf(a.doc.value, a.q.convert)|
            && (Correct(a, a.doc.value) <==>
                  !(a.q.key in ParseOf(a.doc.value, a.q.convert)
                    && a.q.key !in FeaturesUpTo(ListOf(a.doc.value, a.q.convert), a.done))))
  {
    hide Step;
    InvHolds(moves);
    assert Exact(Exec(moves).answers[k]);
  }

  lemma ExecMore(moves: seq<Move>, move: Move)
    ensures Exec(moves + [move]) == Step(Exec(moves), move)
  {
    hide Step;
    assert (moves + [move])[..|moves|] == moves;
  }

  // ---------- a thread that is alone ----------

  // Nothing but steps of thread t, whose load yields this.
  predicate OnlySteps(moves: seq<Move>, t: Tid, loaded: Option<Document>) {
    forall k :: 0 <= k < |moves| ==> moves[k] == Go(t, loaded)
  }

  lemma OneStep(moves: seq<Move>, more: seq<Move>, t: Tid, loaded: Option<Document>) returns (next: seq<Move>)
    requires OnlySteps(more, t, loaded)
    ensures Exec(moves + next) == Step(Exec(moves + more), Go(t, loaded)) && OnlySteps(next, t, loaded)
  {
    hide Step, Exec;
    next := more + [Go(t, loaded)];
    assert moves + next == (moves + more) + [Go(t, loaded)];
    ExecMore(moves + more, Go(t, loaded));
  }

  // What loading and filling leave alone.
  predicate SameOutside(s: State, n: State) {
    n.isInit == s.isInit && n.published == s.published && n.owner == s.owner && n.answers == s.answers
  }

  lemma FillsHangUp(moves: seq<Move>, more: seq<Move>, t: Tid, loaded: Option<Document>, q: Query, doc: Document,
      i: nat)
    returns (next: seq<Move>)
    requires PcOf(Exec(moves + more), t) == FillingHangUp(q, doc, i) && i <= |Listed(doc.hangUp)|
    requires OnlySteps(more, t, loaded)
    ensures var s, n := Exec(moves + more), Exec(moves + next);
      PcOf(n, t) == FillingConvert(q, doc, 0) && SameOutside(s, n) && OnlySteps(next, t, loaded)
    decreases |Listed(doc.hangUp)| - i
  {
    hide Exec, OnlySteps;
    next := OneStep(moves, more, t, loaded);
    if i < |Listed(doc.hangUp)| {
      next := FillsHangUp(moves, next, t, loaded, q, doc, i + 1);
    }
  }

  lemma FillsConvert(moves: seq<Move>, more: seq<Move>, t: Tid, loaded: Option<Document>, q: Query, doc: Document,
      i: nat)
    returns (next: seq<Move>)
    requires PcOf(Exec(moves + more), t) == FillingConvert(q, doc, i) && i <= |Listed(doc.convert)|
    requires OnlySteps(more, t, loaded)
    ensures var s, n := Exec(moves + more), Exec(moves + next);
      PcOf(n, t) == Publishing(q, doc) && SameOutside(s, n) && OnlySteps(next, t, loaded)
    decreases |Listed(doc.convert)| - i
  {
    hide Exec, OnlySteps;
    next := OneStep(moves, more, t, loaded);
    if i < |Listed(doc.convert)| {
      next := FillsConvert(moves, next, t, loaded, q, doc, i + 1);
    }
  }

  // From the load to the query.
  lemma LoadsAlone(moves: seq<Move>, more: seq<Move>, t: Tid, loaded: Option<Document>, q: Query)
    returns (next: seq<Move>)
    requires PcOf(Exec(moves + more), t) == Loading(q) && OnlySteps(more, t, loaded) && !Exec(moves + more).isInit
    ensures var s, n := Exec(moves + more), Exec(moves + next);
      && PcOf(n, t) == Querying(q) && n.owner.None? && n.answers == s.answers && OnlySteps(next, t, loaded)
      && n.isInit == loaded.Some? && n.published == (if loaded.Some? then loaded else s.published)
  {
    hide Exec, OnlySteps;
    next := OneStep(moves, more, t, loaded);
    if loaded.Some? {
      next := FillsHangUp(moves, next, t, loaded, q, loaded.value, 0);
      next := FillsConvert(moves, next, t, loaded, q, loaded.value, 0);
      next := OneStep(moves, next, t, loaded);
    }
    next := OneStep(moves, next, t, loaded);
  }

  lemma InitialisesAlone(moves: seq<Move>, t: Tid, q: Query, loaded: Option<Document>) returns (more: seq<Move>)
    requires PcOf(Exec(moves), t) == FastCheck(q) && Exec(moves).owner.None?
    ensures OnlySteps(more, t, loaded)
    ensures var s, n := Exec(moves), Exec(moves + more);
      && PcOf(n, t) == Querying(q) && n.owner.None? && n.answers == s.answers
      && n.isInit == (s.isInit || loaded.Some?)
      && n.published == (if !s.isInit && loaded.Some? then loaded else s.published)
  {
    hide Exec, OnlySteps;
    assert OnlySteps([], t, loaded) && moves + [] == moves by { NoSteps(moves, t, loaded); }
    more := OneStep(moves, [], t, loaded);
    if !Exec(moves).isInit {
      more := OneStep(moves, more, t, loaded);
      more := OneStep(moves, more, t, loaded);
      more := OneStep(moves, more, t, loaded);
      more := OneStep(moves, more, t, loaded);
      more := LoadsAlone(moves, more, t, loaded, q);
    }
  }

  lemma NoSteps(moves: seq<Move>, t: Tid, loaded: Option<Document>)
    ensures OnlySteps([], t, loaded) && moves + [] == moves
  {
  }

  /**
   A thread that is alone with a query initialises the tables if nobody has, if its load succeeds, and is answered once:
   by the published document, or no if there is none.
   */
  lemma AsksAlone(moves: seq<Move>, t: Tid, q: Query, loaded: Option<Document>) returns (more: seq<Move>)
    requires PcOf(Exec(moves), t).Idle? && Exec(moves).owner.None?
    ensures OnlySteps(more, t, loaded)
    ensures var s, n := Exec(moves), Exec(moves + [Ask(t, q)] + more);
      && PcOf(n, t).Idle? && n.owner.None? && n.isInit == (s.isInit || loaded.Some?)
      && n.published == (if !s.isInit && loaded.Some? then loaded else s.published)
      && |n.answers| == |s.answers| + 1 && n.answers[..|s.answers|] == s.answers
      && n.answers[|s.answers|].q == q && n.answers[|s.answers|].initialised == n.isInit
      && (n.answers[|s.answers|].yes <==>
            q.key != "" && n.published.Some? && q.key in ParseOf(n.published.value, q.convert))
  {
    hide Exec, OnlySteps;
    var asked := moves + [Ask(t, q)];
    ExecMore(moves, Ask(t, q));
    more := InitialisesAlone(asked, t, q, loaded);
    var ready := Exec(asked + more);
    more := OneStep(asked, more, t, loaded);
    InvHolds(asked + more);
    Answers(ready, t, q, loaded);
    if ready.isInit {
      assert TablesAre(Exec(asked + more), Exec(asked + more).published.value);
    }
  }

  lemma Answers(s: State, t: Tid, q: Query, loaded: Option<Document>)
    requires PcOf(s, t) == Querying(q)
    ensures Step(s, Go(t, loaded)) ==
      At(s.(answers := s.answers + [Answer(q, Yes(s, q), s.isInit, Current(s), Done(s, q.convert))]), t, Idle)
  {
  }

  // ---------- a half-filled table is read ----------

  // One step of a thread whose place was just set.
  lemma GoFrom(s: State, t: Tid, pc: Pc, loaded: Option<Document>)
    requires !pc.Idle? && !pc.Querying? && !s.isInit && (pc.Locking? ==> s.owner.None?)
    ensures Step(At(s, t, pc), Go(t, loaded)) == match pc
      case FastCheck(q) => At(s, t, Locking(q))
      case Locking(q) => At(s.(owner := Some(t)), t, SlowCheck(q))
      case SlowCheck(q) => At(s, t, ClearingHangUp(q))
      case ClearingHangUp(q) => At(s.(hangUp := {}), t, ClearingConvert(q))
      case ClearingConvert(q) => At(s.(convert := {}), t, Loading(q))
      case Loading(q) => At(s, t, if loaded.None? then Unlocking(q) else FillingHangUp(q, loaded.value, 0))
      case Unlocking(q) => At(s.(owner := None), t, Querying(q))
      case _ => Step(At(s, t, pc), Go(t, loaded))
  {
    var next := PcOf(Step(At(s, t, pc), Go(t, loaded)), t);
    assert s.threads[t := pc][t := next] == s.threads[t := next];
  }

  // One more move, from a state that is known.
  lemma GoOn(moves: seq<Move>, s: State, t: Tid, pc: Pc, loaded: Option<Document>)
    requires Exec(moves) == At(s, t, pc)
    ensures Exec(moves + [Go(t, loaded)]) == Step(At(s, t, pc), Go(t, loaded))
  {
    ExecMore(moves, Go(t, loaded));
  }

  /** A thread that asks while nobody holds the mutex gets as far as its load, with both tables cleared. */
  lemma ReachesLoading(moves: seq<Move>, t: Tid, q: Query, loaded: Option<Document>) returns (more: seq<Move>)
    requires PcOf(Exec(moves), t).Idle? && Exec(moves).owner.None? && !Exec(moves).isInit
    ensures Exec(more) == At(Exec(moves).(owner := Some(t), hangUp := {}, convert := {}), t, Loading(q))
  {
    hide Exec;
    var s, go := Exec(moves), [Go(t, loaded)];
    ExecMore(moves, Ask(t, q));
    more := moves + [Ask(t, q)];
    assert Exec(more) == At(s, t, FastCheck(q));
    GoOn(more, s, t, FastCheck(q), loaded);
    GoFrom(s, t, FastCheck(q), loaded);
    more := more + go;
    GoOn(more, s, t, Locking(q), loaded);
    GoFrom(s, t, Locking(q), loaded);
    more, s := more + go, s.(owner := Some(t));
    GoOn(more, s, t, SlowCheck(q), loaded);
    GoFrom(s, t, SlowCheck(q), loaded);
    more := more + go;
    GoOn(more, s, t, ClearingHangUp(q), loaded);
    GoFrom(s, t, ClearingHangUp(q), loaded);
    more, s := more + go, s.(hangUp := {});
    GoOn(more, s, t, ClearingConvert(q), loaded);
    GoFrom(s, t, ClearingConvert(q), loaded);
    more := more + go;
  }

  const BOTH := Document(Some(Array([Text("a"), Text("b")])), None)
  const ASK_A := Query(false, "a")
  const ASK_B := Query(false, "b")

  // A thread asks while nothing is loaded, and its own load fails.
  lemma FailsToLoad(moves: seq<Move>, t: Tid, q: Query) returns (more: seq<Move>)
    requires PcOf(Exec(moves), t).Idle? && Exec(moves).owner.None? && !Exec(moves).isInit
    ensures Exec(more) == At(Exec(moves).(hangUp := {}, convert := {}), t, Querying(q))
  {
    hide Exec;
    more := ReachesLoading(moves, t, q, None);
    var s := Exec(moves).(owner := Some(t), hangUp := {}, convert := {});
    GoOn(more, s, t, Loading(q), None);
    GoFrom(s, t, Loading(q), None);
    more := more + [Go(t, None)];
    GoOn(more, s, t, Unlocking(q), None);
    GoFrom(s, t, Unlocking(q), None);
    more := more + [Go(t, None)];
  }

  // Threads 0 and 2 are about to read, and thread 1 has inserted the first of two items.
  function HalfFilled(): State {
    State({"a"}, {}, false, Some(1),
      map[0 := Querying(ASK_B), 2 := Querying(ASK_A), 1 := FillingHangUp(ASK_A, BOTH, 1)], None, [])
  }

  lemma GetsHalfFilled() returns (moves: seq<Move>)
    ensures Exec(moves) == HalfFilled()
  {
    hide Exec, Features;
    ExecNothing();
    BothFeatures();
    moves := FailsToLoad([], 0, ASK_B);
    moves := FailsToLoad(moves, 2, ASK_A);
    var s := Exec(moves).(owner := Some(1));
    moves := ReachesLoading(moves, 1, ASK_A, Some(BOTH));
    GoOn(moves, s, 1, Loading(ASK_A), Some(BOTH));
    GoFrom(s, 1, Loading(ASK_A), Some(BOTH));
    moves := moves + [Go(1, Some(BOTH))];
    ExecMore(moves, Go(1, None));
    moves := moves + [Go(1, None)];
    assert Exec(moves).hangUp == {} + {"a"};
    assert Exec(moves).threads == HalfFilled().threads;
  }

  /**
   Threads whose own load has failed read a table while another thread is filling it: of two names that the document
   lists, one is answered no and the other yes.
   */
  lemma HalfFilledTableIsRead() returns (moves: seq<Move>)
    ensures var s := Exec(moves);
      && s.answers == [Answer(ASK_B, false, false, Some(BOTH), 1), Answer(ASK_A, true, false, Some(BOTH), 1)]
      && !Correct(s.answers[0], BOTH) && Correct(s.answers[1], BOTH)
      && PartWay(PcOf(s, 1), false)
  {
    hide Exec, Features, FeaturesUpTo;
    BothFeatures();
    moves := GetsHalfFilled();
    ExecMore(moves, Go(0, None));
    moves := moves + [Go(0, None)];
    ExecMore(moves, Go(2, None));
    moves := moves + [Go(2, None)];
  }

  lemma ExecNothing()
    ensures Exec([]) == START
  {
  }

  lemma BothFeatures()
    ensures Features(BOTH.hangUp) == {"a", "b"} && Listed(BOTH.hangUp) == [Text("a"), Text("b")]
    ensures FeaturesUpTo(Listed(BOTH.hangUp), 1) == {"a"}
  {
    var items := Listed(BOTH.hangUp);
    assert items == [Text("a"), Text("b")];
    FeaturesGrow(items, 0);
    FeaturesGrow(items, 1);
    AllFeatures(BOTH.hangUp);
    assert FeaturesUpTo(items, 0) == {};
  }
}
