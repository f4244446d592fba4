/** Runs of the challenge token manager, compared with a list that drops entries the instant they expire. */
module ChallengeTokenRuns {
  import opened TelephonyBase
  import opened ChallengeTokens

  /** A call, with the readings of the clock that it makes. */
  datatype Call =
    | Update(phoneNumber: string, challenge: ChallengeToken, now: int, later: int)
    | Pop(phoneNumber: string, now: int)

  datatype Answer = Stored(accepted: bool) | Popped(entry: Option<ChallengeToken>)

  function EndOf(call: Call): int {
    if call.Update? then call.later else call.now
  }

  function EndOfRun(calls: seq<Call>, start: int): int {
    if calls == [] then start else EndOf(calls[|calls| - 1])
  }

  // The clock does not run backwards.
  predicate InOrder(calls: seq<Call>, start: int) {
    calls == [] ||
    var front, last := calls[..|calls| - 1], calls[|calls| - 1];
    InOrder(front, start) && EndOfRun(front, start) <= last.now <= EndOf(last)
  }

  // ---------- the list of the source ----------

  function Lazily(list: seq<ChallengeToken>, call: Call): (seq<ChallengeToken>, Answer) {
    var purged := Purge(list, call.now);
    match call
    case Update(phoneNumber, challenge, _, later) =>
      var (after, stored) := Store(purged, phoneNumber, challenge, later);
      (after, Stored(stored))
    case Pop(phoneNumber, _) =>
      var (after, popped) := Take(purged, phoneNumber);
      (after, Popped(popped))
  }

  function LazyRun(calls: seq<Call>): (seq<ChallengeToken>, seq<Answer>) {
    if calls == [] then ([], [])
    else
      var (list, answers) := LazyRun(calls[..|calls| - 1]);
      var (after, answer) := Lazily(list, calls[|calls| - 1]);
      (after, answers + [answer])
  }

  // ---------- the list that is always up to date ----------

  // The clock reaches time t: the entries that are ten minutes old at this instant go.
  function Tick(list: seq<ChallengeToken>, t: int): seq<ChallengeToken> {
    if list == [] then []
    else
      var front, last := Tick(list[..|list| - 1], t), list[|list| - 1];
      if t - last.createTime == LIFETIME then front else front + [last]
  }

  function Pass(list: seq<ChallengeToken>, begin: int, end: int): seq<ChallengeToken>
    requires begin <= end
    decreases end - begin
  {
    if begin == end then list else Tick(Pass(list, begin, end - 1), end)
  }

  // A token that is already ten minutes old when it is stored never shows up.
  function Admit(list: seq<ChallengeToken>, phoneNumber: string, challenge: ChallengeToken, now: int, later: int)
    : (seq<ChallengeToken>, bool)
  {
    var i := FindUid(list, challenge.uid);
    if i < |list| then (list[i := Renewed(phoneNumber, challenge, later)], true)
    else if |list| >= MAX_CHALLENGE_TOKEN_COUNT then (list, false)
    else if now - challenge.createTime >= LIFETIME then (list, true)
    else (list + [challenge], true)
  }

  function Eagerly(list: seq<ChallengeToken>, call: Call): (seq<ChallengeToken>, Answer)
    requires call.now <= EndOf(call)
  {
    match call
    case Update(phoneNumber, challenge, now, later) =>
      var (after, stored) := Admit(list, phoneNumber, challenge, now, later);
      (Pass(after, now, later), Stored(stored))
    case Pop(phoneNumber, _) =>
      var (after, popped) := Take(list, phoneNumber);
      (after, Popped(popped))
  }

  // The list at the end of the last call, and the answers.
  function EagerRun(calls: seq<Call>, start: int): (seq<ChallengeToken>, seq<Answer>)
    requires InOrder(calls, start)
  {
    if calls == [] then ([], [])
    else
      var front, last := calls[..|calls| - 1], calls[|calls| - 1];
      var (list, answers) := EagerRun(front, start);
      var (after, answer) := Eagerly(Pass(list, EndOfRun(front, start), last.now), last);
      (after, answers + [answer])
  }

  // ---------- both give the same answers ----------

  lemma {:induction false} TickOfPurged(list: seq<ChallengeToken>, t: int)
    ensures Tick(Purge(list, t - 1), t) == Purge(list, t)
  {
    if list != [] {
      var front, last := list[..|list| - 1], list[|list| - 1];
      TickOfPurged(front, t);
      ExpiredExactly(last, t - 1);
      ExpiredExactly(last, t);
    }
  }

  lemma {:induction false} PassOfPurged(list: seq<ChallengeToken>, begin: int, end: int)
    requires begin <= end
    ensures Pass(Purge(list, begin), begin, end) == Purge(list, end)
    decreases end - begin
  {
    if begin < end {
      PassOfPurged(list, begin, end - 1);
      TickOfPurged(list, end);
    }
  }

  lemma AdmitMatchesStore(purged: seq<ChallengeToken>, phoneNumber: string, challenge: ChallengeToken, now: int,
      later: int)
    requires now <= later && AllFresh(purged, now)
    ensures var (after, stored) := Store(purged, phoneNumber, challenge, later);
      Admit(purged, phoneNumber, challenge, now, later) == (Purge(after, now), stored)
  {
    var i := FindUid(purged, challenge.uid);
    var (after, _) := Store(purged, phoneNumber, challenge, later);
    if i < |purged| || |purged| >= MAX_CHALLENGE_TOKEN_COUNT {
      PurgeOfFresh(after, now);
    } else {
      PurgeConcat(purged, [challenge], now);
      PurgeOfFresh(purged, now);
      ExpiredExactly(challenge, now);
      assert Purge([challenge], now) == if Expired(challenge, now) then [] else [challenge];
    }
  }

  lemma CallsAgree(list: seq<ChallengeToken>, call: Call)
    requires call.now <= EndOf(call)
    ensures Eagerly(Purge(list, call.now), call)
      == (Purge(Lazily(list, call).0, EndOf(call)), Lazily(list, call).1)
  {
    var purged := Purge(list, call.now);
    PurgeLeavesFresh(list, call.now);
    match call
    case Update(phoneNumber, challenge, now, later) =>
      AdmitMatchesStore(purged, phoneNumber, challenge, now, later);
      PassOfPurged(Store(purged, phoneNumber, challenge, later).0, now, later);
    case Pop(phoneNumber, now) =>
      PurgeOfFresh(Take(purged, phoneNumber).0, now);
  }

  /**
   Removing expired entries only when the list is used cannot be told from removing each the instant it expires:
   the answers are the same, and the lists differ by expired entries only.
   */
  lemma {:induction false} LazyExpiryIsInvisible(calls: seq<Call>, start: int)
    requires InOrder(calls, start)
    ensures EagerRun(calls, start).1 == LazyRun(calls).1
    ensures EagerRun(calls, start).0 == Purge(LazyRun(calls).0, EndOfRun(calls, start))
  {
    if calls != [] {
      var front, last := calls[..|calls| - 1], calls[|calls| - 1];
      LazyExpiryIsInvisible(front, start);
      PassOfPurged(LazyRun(front).0, EndOfRun(front, start), last.now);
      CallsAgree(LazyRun(front).0, last);
    }
  }

  /** At the end of every run the list has at most three entries, of different applications. */
  lemma {:induction false} RunKeepsInv(calls: seq<Call>)
    ensures ListInv(LazyRun(calls).0)
  {
    if calls != [] {
      var front, last := calls[..|calls| - 1], calls[|calls| - 1];
      RunKeepsInv(front);
      match last
      case Update(phoneNumber, challenge, now, later) =>
        StoreKeepsInv(LazyRun(front).0, phoneNumber, challenge, now, later);
      case Pop(phoneNumber, now) =>
        TakeKeepsInv(LazyRun(front).0, phoneNumber, now);
    }
  }

  // ---------- where the tokens go ----------

  function Tokens(list: seq<ChallengeToken>): multiset<string> {
    if list == [] then multiset{} else Tokens(list[..|list| - 1]) + multiset{list[|list| - 1].token}
  }

  /** What has become of the tokens offered so far. */
  datatype Ledger = Ledger(
    rejected: multiset<string>,
    overwritten: multiset<string>,
    expired: multiset<string>,
    popped: multiset<string>)

  function Booked(ledger: Ledger, list: seq<ChallengeToken>, call: Call): Ledger {
    var purged := Purge(list, call.now);
    var kept := ledger.(expired := ledger.expired + (Tokens(list) - Tokens(purged)));
    match call
    case Update(_, challenge, _, _) =>
      var i := FindUid(purged, challenge.uid);
      if i < |purged| then kept.(overwritten := kept.overwritten + multiset{purged[i].token})
      else if |purged| >= MAX_CHALLENGE_TOKEN_COUNT then kept.(rejected := kept.rejected + multiset{challenge.token})
      else kept
    case Pop(phoneNumber, _) =>
      var i := FindPhone(purged, phoneNumber);
      if i < |purged| then kept.(popped := kept.popped + multiset{purged[i].token}) else kept
  }

  function LedgerOf(calls: seq<Call>): Ledger {
    if calls == [] then Ledger(multiset{}, multiset{}, multiset{}, multiset{})
    else
      var front, last := calls[..|calls| - 1], calls[|calls| - 1];
      Booked(LedgerOf(front), LazyRun(front).0, last)
  }

  function Offered(calls: seq<Call>): multiset<string> {
    if calls == [] then multiset{}
    else
      var last := calls[|calls| - 1];
      Offered(calls[..|calls| - 1]) + if last.Update? then multiset{last.challenge.token} else multiset{}
  }

  lemma {:induction false} TokensConcat(a: seq<ChallengeToken>, b: seq<ChallengeToken>)
    ensures Tokens(a + b) == Tokens(a) + Tokens(b)
  {
    if b == [] {
      assert a + b == a;
    } else {
      assert (a + b)[..|a + b| - 1] == a + b[..|b| - 1];
      TokensConcat(a, b[..|b| - 1]);
    }
  }

  lemma {:induction false} PurgedTokens(list: seq<ChallengeToken>, now: int)
    ensures Tokens(Purge(list, now)) <= Tokens(list)
  {
    if list != [] {
      PurgedTokens(list[..|list| - 1], now);
    }
  }

  lemma OneToken(entry: ChallengeToken)
    ensures Tokens([entry]) == multiset{entry.token}
  {
    assert [entry][..0] == [];
  }

  lemma TokensInPlace(list: seq<ChallengeToken>, i: nat, entry: ChallengeToken)
    requires i < |list|
    ensures Tokens(list[i := entry]) == Tokens(list[..i] + list[i + 1..]) + multiset{entry.token}
  {
    hide Tokens;
    assert list[i := entry] == list[..i] + [entry] + list[i + 1..];
    TokensConcat(list[..i] + [entry], list[i + 1..]);
    TokensConcat(list[..i], [entry]);
    TokensConcat(list[..i], list[i + 1..]);
    OneToken(entry);
  }

  lemma TokensWithout(list: seq<ChallengeToken>, i: nat)
    requires i < |list|
    ensures Tokens(list) == Tokens(list[..i] + list[i + 1..]) + multiset{list[i].token}
  {
    hide Tokens;
    assert list[i := list[i]] == list;
    TokensInPlace(list, i, list[i]);
  }

  function AllBooked(ledger: Ledger): multiset<string> {
    ledger.rejected + ledger.overwritten + ledger.expired + ledger.popped
  }

  // What an update takes out of circulation: an earlier token of the same application, or its own.
  function Displaced(purged: seq<ChallengeToken>, challenge: ChallengeToken): multiset<string> {
    var i := FindUid(purged, challenge.uid);
    if i < |purged| then multiset{purged[i].token}
    else if |purged| >= MAX_CHALLENGE_TOKEN_COUNT then multiset{challenge.token}
    else multiset{}
  }

  lemma StoreConserves(purged: seq<ChallengeToken>, phoneNumber: string, challenge: ChallengeToken, later: int)
    ensures Tokens(Store(purged, phoneNumber, challenge, later).0) + Displaced(purged, challenge)
      == Tokens(purged) + multiset{challenge.token}
  {
    hide Tokens;
    var i := FindUid(purged, challenge.uid);
    if i < |purged| {
      TokensInPlace(purged, i, Renewed(phoneNumber, challenge, later));
      TokensWithout(purged, i);
    } else {
      TokensConcat(purged, [challenge]);
      OneToken(challenge);
    }
  }

  function Released(popped: Option<ChallengeToken>): multiset<string> {
    if popped.Some? then multiset{popped.value.token} else multiset{}
  }

  lemma TakeConserves(purged: seq<ChallengeToken>, phoneNumber: string)
    ensures var (after, popped) := Take(purged, phoneNumber);
      Tokens(after) + Released(popped) == Tokens(purged)
  {
    hide Tokens;
    var i := FindPhone(purged, phoneNumber);
    if i < |purged| {
      TokensWithout(purged, i);
    }
  }

  lemma Balance<T>(booked: multiset<T>, list: multiset<T>, purged: multiset<T>, gone: multiset<T>,
      after: multiset<T>, offered: multiset<T>)
    requires purged <= list && after + gone == purged + offered
    ensures booked + (list - purged) + gone + after == booked + list + offered
  {
    var rest := booked + (list - purged);
    assert rest + gone + after == rest + (after + gone);
    assert rest + (purged + offered) == booked + ((list - purged) + purged) + offered;
    assert (list - purged) + purged == list;
  }

  lemma CallConserves(ledger: Ledger, list: seq<ChallengeToken>, call: Call)
    ensures AllBooked(Booked(ledger, list, call)) + Tokens(Lazily(list, call).0)
      == AllBooked(ledger) + Tokens(list) + (if call.Update? then multiset{call.challenge.token} else multiset{})
  {
    hide Tokens, Purge, FindUid, FindPhone, Store, Take;
    var purged, after := Purge(list, call.now), Lazily(list, call).0;
    PurgedTokens(list, call.now);
    match call
    case Update(phoneNumber, challenge, _, later) =>
      StoreConserves(purged, phoneNumber, challenge, later);
      Balance(AllBooked(ledger), Tokens(list), Tokens(purged), Displaced(purged, challenge), Tokens(after),
        multiset{challenge.token});
      UpdateBooked(ledger, list, call);
    case Pop(phoneNumber, _) =>
      TakeConserves(purged, phoneNumber);
      Balance(AllBooked(ledger), Tokens(list), Tokens(purged), Released(Take(purged, phoneNumber).1), Tokens(after),
        multiset{});
      PopBooked(ledger, list, call);
  }

  lemma UpdateBooked(ledger: Ledger, list: seq<ChallengeToken>, call: Call)
    requires call.Update?
    ensures var purged := Purge(list, call.now);
      AllBooked(Booked(ledger, list, call))
        == AllBooked(ledger) + (Tokens(list) - Tokens(purged)) + Displaced(purged, call.challenge)
  {
    hide Tokens, Purge;
  }

  lemma PopBooked(ledger: Ledger, list: seq<ChallengeToken>, call: Call)
    requires call.Pop?
    ensures var purged := Purge(list, call.now);
      AllBooked(Booked(ledger, list, call))
        == AllBooked(ledger) + (Tokens(list) - Tokens(purged)) + Released(Take(purged, call.phoneNumber).1)
  {
    hide Tokens, Purge;
  }

  /** Every token ever offered has been rejected, overwritten, expired or popped, or is still in the list: once. */
  lemma {:induction false} TokensAreConserved(calls: seq<Call>)
    ensures Offered(calls) == AllBooked(LedgerOf(calls)) + Tokens(LazyRun(calls).0)
  {
    if calls != [] {
      var front, last := calls[..|calls| - 1], calls[|calls| - 1];
      TokensAreConserved(front);
      CallConserves(LedgerOf(front), LazyRun(front).0, last);
    }
  }

  // The k-th call of a run hands out this token.
  predicate HandsOut(calls: seq<Call>, k: nat, token: string) {
    && k < |calls| && |LazyRun(calls).1| == |calls|
    && LazyRun(calls).1[k].Popped? && LazyRun(calls).1[k].entry.Some?
    && LazyRun(calls).1[k].entry.value.token == token
  }

  function CountHandedOut(calls: seq<Call>, token: string): nat {
    if calls == [] then 0
    else CountHandedOut(calls[..|calls| - 1], token) + if HandsOut(calls, |calls| - 1, token) then 1 else 0
  }

  lemma {:induction false} AnswersLength(calls: seq<Call>)
    ensures |LazyRun(calls).1| == |calls|
  {
    if calls != [] {
      AnswersLength(calls[..|calls| - 1]);
    }
  }

  lemma {:induction false} PoppedIsHandedOut(calls: seq<Call>, token: string)
    ensures LedgerOf(calls).popped[token] == CountHandedOut(calls, token)
  {
    if calls != [] {
      PoppedIsHandedOut(calls[..|calls| - 1], token);
      AnswersLength(calls[..|calls| - 1]);
    }
  }

  lemma {:induction false} CountsEach(calls: seq<Call>, i: nat, j: nat, token: string)
    requires i < j && HandsOut(calls, i, token) && HandsOut(calls, j, token)
    ensures CountHandedOut(calls, token) >= 2
  {
    var front := calls[..|calls| - 1];
    AnswersLength(front);
    assert LazyRun(calls).1[..|front|] == LazyRun(front).1;
    if j < |front| {
      CountsEach(front, i, j, token);
    } else {
      CountsOne(front, i, token);
    }
  }

  lemma {:induction false} CountsOne(calls: seq<Call>, i: nat, token: string)
    requires HandsOut(calls, i, token)
    ensures CountHandedOut(calls, token) >= 1
  {
    var front := calls[..|calls| - 1];
    AnswersLength(front);
    assert LazyRun(calls).1[..|front|] == LazyRun(front).1;
    if i < |front| {
      CountsOne(front, i, token);
    }
  }

  /** A token that was offered once is handed out at most once. */
  lemma TokensAreSingleUse(calls: seq<Call>, i: nat, j: nat, token: string)
    requires HandsOut(calls, i, token) && HandsOut(calls, j, token)
    requires Offered(calls)[token] <= 1
    ensures i == j
  {
    TokensAreConserved(calls);
    PoppedIsHandedOut(calls, token);
    if i < j {
      CountsEach(calls, i, j, token);
    } else if j < i {
      CountsEach(calls, j, i, token);
    }
  }
}
