/**
 The list of challenge tokens: at most three, one for each calling application, kept for ten minutes, and handed
 out once by phone number. Expired entries are removed only when the list is used. Times are readings of a steady
 clock in nanoseconds.
 */
module ChallengeTokens {
  import opened TelephonyBase

  const MAX_CHALLENGE_TOKEN_COUNT := 3
  const CHALLENGE_TOKEN_EXPIRE_MINUTES := 10
  const TOKEN_BYTES_LENGTH := 32
  const MINUTE := 60_000_000_000
  const LIFETIME := CHALLENGE_TOKEN_EXPIRE_MINUTES * MINUTE

  datatype ChallengeToken = ChallengeToken(
    token: string,
    phoneNumber: string,
    uid: int32,
    isCustomAccessibility: bool,
    createTime: int)

  // The cast of a duration to minutes drops the fraction, towards zero.
  function WholeMinutes(duration: int): int {
    if duration >= 0 then duration / MINUTE else -((-duration) / MINUTE)
  }

  predicate Expired(entry: ChallengeToken, now: int) {
    WholeMinutes(now - entry.createTime) >= CHALLENGE_TOKEN_EXPIRE_MINUTES
  }

  /** The truncated comparison is exact: an entry expires the instant its age reaches ten minutes. */
  lemma ExpiredExactly(entry: ChallengeToken, now: int)
    ensures Expired(entry, now) <==> now - entry.createTime >= 600_000_000_000
    ensures LIFETIME == 600_000_000_000
  {
  }

  function Purge(list: seq<ChallengeToken>, now: int): seq<ChallengeToken> {
    if list == [] then []
    else
      var front, last := Purge(list[..|list| - 1], now), list[|list| - 1];
      if Expired(last, now) then front else front + [last]
  }

  // The first entry of an application, or the length of the list.
  function FindUid(list: seq<ChallengeToken>, uid: int32): (i: nat)
    ensures i <= |list| && (i < |list| ==> list[i].uid == uid)
    ensures forall k :: 0 <= k < i ==> list[k].uid != uid
  {
    if list == [] || list[0].uid == uid then 0 else 1 + FindUid(list[1..], uid)
  }

  function FindPhone(list: seq<ChallengeToken>, phoneNumber: string): (i: nat)
    ensures i <= |list| && (i < |list| ==> list[i].phoneNumber == phoneNumber)
    ensures forall k :: 0 <= k < i ==> list[k].phoneNumber != phoneNumber
  {
    if list == [] || list[0].phoneNumber == phoneNumber then 0 else 1 + FindPhone(list[1..], phoneNumber)
  }

  function Renewed(phoneNumber: string, challenge: ChallengeToken, now: int): ChallengeToken {
    challenge.(phoneNumber := phoneNumber, createTime := now)
  }

  // The purged list after an update, and whether the token was stored.
  function Store(list: seq<ChallengeToken>, phoneNumber: string, challenge: ChallengeToken, later: int)
    : (seq<ChallengeToken>, bool)
  {
    var i := FindUid(list, challenge.uid);
    if i < |list| then (list[i := Renewed(phoneNumber, challenge, later)], true)
    else if |list| >= MAX_CHALLENGE_TOKEN_COUNT then (list, false)
    else (list + [challenge], true)
  }

  // The purged list after a pop, and what was popped.
  function Take(list: seq<ChallengeToken>, phoneNumber: string): (seq<ChallengeToken>, Option<ChallengeToken>) {
    var i := FindPhone(list, phoneNumber);
    if i < |list| then (list[..i] + list[i + 1..], Some(list[i])) else (list, None)
  }

  class ChallengeTokenManager {
    var challengeTokenList: seq<ChallengeToken>

    constructor ()
      ensures challengeTokenList == []
    {
      challengeTokenList := [];
    }

    method CleanupExpiredChallengeTokensUnsafe(now: int)
      modifies this
      ensures challengeTokenList == Purge(old(challengeTokenList), now)
    {
      var kept := [];
      var list := challengeTokenList;
      for i := 0 to |list|
        invariant kept == Purge(list[..i], now)
      {
        assert list[..i + 1][..i] == list[..i];
        if !Expired(list[i], now) {
          kept := kept + [list[i]];
        }
      }
      assert list[..|list|] == list;
      challengeTokenList := kept;
    }

    /** The clock is read twice: once to remove expired entries and once to renew an entry. */
    method TryUpdateChallengeTokenList(phoneNumber: string, challenge: ChallengeToken, now: int, later: int)
      returns (stored: bool)
      modifies this
      ensures (challengeTokenList, stored) == Store(Purge(old(challengeTokenList), now), phoneNumber, challenge, later)
    {
      CleanupExpiredChallengeTokensUnsafe(now);
      var i := 0;
      while i < |challengeTokenList| && challengeTokenList[i].uid != challenge.uid
        invariant i <= |challengeTokenList|
        invariant forall k :: 0 <= k < i ==> challengeTokenList[k].uid != challenge.uid
      {
        i := i + 1;
      }
      if i < |challengeTokenList| {
        challengeTokenList := challengeTokenList[i := challengeTokenList[i].(
          token := challenge.token, phoneNumber := phoneNumber,
          isCustomAccessibility := challenge.isCustomAccessibility, createTime := later)];
        return true;
      }
      if |challengeTokenList| >= MAX_CHALLENGE_TOKEN_COUNT {
        return false;
      }
      challengeTokenList := challengeTokenList + [challenge];
      return true;
    }

    method PopChallengeTokenByPhone(phoneNumber: string, now: int) returns (popped: Option<ChallengeToken>)
      modifies this
      ensures (challengeTokenList, popped) == Take(Purge(old(challengeTokenList), now), phoneNumber)
    {
      CleanupExpiredChallengeTokensUnsafe(now);
      var i := 0;
      while i < |challengeTokenList| && challengeTokenList[i].phoneNumber != phoneNumber
        invariant i <= |challengeTokenList|
        invariant forall k :: 0 <= k < i ==> challengeTokenList[k].phoneNumber != phoneNumber
      {
        i := i + 1;
      }
      if i < |challengeTokenList| {
        popped := Some(challengeTokenList[i]);
        challengeTokenList := challengeTokenList[..i] + challengeTokenList[i + 1..];
      } else {
        popped := None;
      }
    }
  }

  // ---------- what purging keeps ----------

  lemma {:induction false} PurgeConcat(a: seq<ChallengeToken>, b: seq<ChallengeToken>, now: int)
    ensures Purge(a + b, now) == Purge(a, now) + Purge(b, now)
  {
    if b == [] {
      assert a + b == a;
    } else {
      assert (a + b)[..|a + b| - 1] == a + b[..|b| - 1];
      PurgeConcat(a, b[..|b| - 1], now);
    }
  }

  predicate AllFresh(list: seq<ChallengeToken>, now: int) {
    forall k :: 0 <= k < |list| ==> !Expired(list[k], now)
  }

  lemma {:induction false} PurgeLeavesFresh(list: seq<ChallengeToken>, now: int)
    ensures AllFresh(Purge(list, now), now) && |Purge(list, now)| <= |list|
  {
    if list != [] {
      PurgeLeavesFresh(list[..|list| - 1], now);
    }
  }

  lemma {:induction false} PurgeOfFresh(list: seq<ChallengeToken>, now: int)
    requires AllFresh(list, now)
    ensures Purge(list, now) == list
  {
    if list != [] {
      PurgeOfFresh(list[..|list| - 1], now);
    }
  }

  lemma {:induction false} PurgeMembers(list: seq<ChallengeToken>, now: int, entry: ChallengeToken)
    ensures entry in Purge(list, now) <==> entry in list && !Expired(entry, now)
  {
    if list != [] {
      PurgeMembers(list[..|list| - 1], now, entry);
      assert list == list[..|list| - 1] + [list[|list| - 1]];
    }
  }

  /** Purging later subsumes purging earlier. */
  lemma {:induction false} PurgeTwice(list: seq<ChallengeToken>, now: int, later: int)
    requires now <= later
    ensures Purge(Purge(list, now), later) == Purge(list, later)
  {
    if list != [] {
      var front, last := list[..|list| - 1], list[|list| - 1];
      PurgeTwice(front, now, later);
      ExpiredExactly(last, now);
      ExpiredExactly(last, later);
      PurgeConcat(Purge(front, now), [last], later);
      assert Purge([last], later) == if Expired(last, later) then [] else [last];
    }
  }

  // ---------- the invariant of the list ----------

  ghost predicate DistinctUids(list: seq<ChallengeToken>) {
    forall i, j :: 0 <= i < j < |list| ==> list[i].uid != list[j].uid
  }

  ghost predicate ListInv(list: seq<ChallengeToken>) {
    |list| <= MAX_CHALLENGE_TOKEN_COUNT && DistinctUids(list)
  }

  lemma {:induction false} PurgeKeepsInv(list: seq<ChallengeToken>, now: int)
    requires DistinctUids(list)
    ensures DistinctUids(Purge(list, now)) && |Purge(list, now)| <= |list|
  {
    if list != [] {
      var front, last := list[..|list| - 1], list[|list| - 1];
      PurgeKeepsInv(front, now);
      forall entry | entry in Purge(front, now)
        ensures entry.uid != last.uid
      {
        PurgeMembers(front, now, entry);
      }
    }
  }

  lemma StoreKeepsInv(list: seq<ChallengeToken>, phoneNumber: string, challenge: ChallengeToken, now: int, later: int)
    requires ListInv(list)
    ensures ListInv(Store(Purge(list, now), phoneNumber, challenge, later).0)
  {
    PurgeKeepsInv(list, now);
  }

  lemma TakeKeepsInv(list: seq<ChallengeToken>, phoneNumber: string, now: int)
    requires ListInv(list)
    ensures ListInv(Take(Purge(list, now), phoneNumber).0)
  {
    PurgeKeepsInv(list, now);
  }

  lemma {:induction false} PurgeKeepsAll(list: seq<ChallengeToken>, now: int)
    ensures |Purge(list, now)| == |list| <==> AllFresh(list, now)
  {
    PurgeLeavesFresh(list, now);
    if list != [] {
      PurgeKeepsAll(list[..|list| - 1], now);
      PurgeLeavesFresh(list[..|list| - 1], now);
    }
  }

  // An application that has an unexpired entry.
  ghost predicate Known(list: seq<ChallengeToken>, uid: int32, now: int) {
    exists entry :: entry in list && entry.uid == uid && !Expired(entry, now)
  }

  /** The entry of the caller after an accepted update. */
  function Admitted(known: bool, phoneNumber: string, challenge: ChallengeToken, later: int): ChallengeToken {
    if known then challenge.(phoneNumber := phoneNumber, createTime := later) else challenge
  }

  /**
   An update is refused exactly when the list is full of unexpired entries of other applications, and is then
   left as it is. After an accepted update the caller's only entry is the challenge, renewed if the caller was
   known before; and the others are exactly the unexpired entries of other applications.
   */
  lemma UpdateOutcome(list: seq<ChallengeToken>, phoneNumber: string, challenge: ChallengeToken, now: int, later: int)
    requires ListInv(list)
    ensures var (after, stored) := Store(Purge(list, now), phoneNumber, challenge, later);
      && (!stored <==> (
           && |list| == 3 && AllFresh(list, now)
           && forall k :: 0 <= k < |list| ==> list[k].uid != challenge.uid))
      && (!stored ==> after == list)
      && (stored ==> forall entry: ChallengeToken | entry.uid == challenge.uid ::
            entry in after <==> entry == Admitted(Known(list, challenge.uid, now), phoneNumber, challenge, later))
      && (forall entry: ChallengeToken | entry.uid != challenge.uid ::
            entry in after <==> entry in list && !Expired(entry, now))
    ensures var (after, stored) := Store(Purge(list, now), phoneNumber, challenge, later);
      stored ==>
        if Known(list, challenge.uid, now) then
          exists i :: RenewedInPlace(list, phoneNumber, challenge, now, later, after, i)
        else after == Purge(list, now) + [challenge]
  {
    StoreOrder(list, phoneNumber, challenge, now, later);
    var purged := Purge(list, now);
    PurgeKeepsInv(list, now);
    PurgeKeepsAll(list, now);
    forall entry: ChallengeToken
      ensures entry in purged <==> entry in list && !Expired(entry, now)
    {
      PurgeMembers(list, now, entry);
    }
    if AllFresh(list, now) {
      PurgeOfFresh(list, now);
    }
    StoreMembers(purged, phoneNumber, challenge, later);
    assert FindUid(purged, challenge.uid) < |purged| <==> Known(list, challenge.uid, now) by {
      var i := FindUid(purged, challenge.uid);
      if i < |purged| {
        assert purged[i] in purged;
      }
    }
  }

  /** The unexpired entry at position i is replaced where it stands; the others keep their order. */
  ghost predicate RenewedInPlace(list: seq<ChallengeToken>, phoneNumber: string, challenge: ChallengeToken, now: int,
      later: int, after: seq<ChallengeToken>, i: nat)
  {
    && i < |list| && list[i].uid == challenge.uid && !Expired(list[i], now)
    && after == Purge(list[..i], now) + [challenge.(phoneNumber := phoneNumber, createTime := later)]
              + Purge(list[i + 1..], now)
  }

  lemma StoreOrder(list: seq<ChallengeToken>, phoneNumber: string, challenge: ChallengeToken, now: int, later: int)
    ensures var (after, stored) := Store(Purge(list, now), phoneNumber, challenge, later);
      stored ==>
        if FindUid(Purge(list, now), challenge.uid) < |Purge(list, now)| then
          exists i :: RenewedInPlace(list, phoneNumber, challenge, now, later, after, i)
        else after == Purge(list, now) + [challenge]
  {
    hide Purge, Expired, FindUid;
    var purged := Purge(list, now);
    var j := FindUid(purged, challenge.uid);
    if j < |purged| {
      var i := PurgePosition(list, now, j);
      PurgeAround(list, now, i);
      var after := Store(purged, phoneNumber, challenge, later).0;
      assert purged[j] == list[i];
      assert RenewedInPlace(list, phoneNumber, challenge, now, later, after, i);
    }
  }

  lemma StoreMembers(purged: seq<ChallengeToken>, phoneNumber: string, challenge: ChallengeToken, later: int)
    requires DistinctUids(purged)
    ensures var (after, stored) := Store(purged, phoneNumber, challenge, later);
      var i := FindUid(purged, challenge.uid);
      && (stored ==> forall entry: ChallengeToken | entry.uid == challenge.uid ::
            entry in after <==> entry == Admitted(i < |purged|, phoneNumber, challenge, later))
      && (forall entry: ChallengeToken | entry.uid != challenge.uid :: entry in after <==> entry in purged)
  {
    hide FindUid;
    var (after, stored) := Store(purged, phoneNumber, challenge, later);
    var i := FindUid(purged, challenge.uid);
    if stored {
      assert after[i] in after;
    }
    forall entry: ChallengeToken | entry.uid != challenge.uid
      ensures entry in after <==> entry in purged
    {
      if entry in purged {
        var k :| 0 <= k < |purged| && purged[k] == entry;
        assert after[k] == entry;
      }
    }
  }

  /** A pop hands out the first unexpired entry for the number and keeps the order of all others. */
  lemma PopOutcome(list: seq<ChallengeToken>, phoneNumber: string, now: int)
    ensures var (after, popped) := Take(Purge(list, now), phoneNumber);
      match popped
      case None => after == Purge(list, now)
        && forall entry :: entry in list && !Expired(entry, now) ==> entry.phoneNumber != phoneNumber
      case Some(entry) =>
        exists i :: 0 <= i < |list| && list[i] == entry && !Expired(entry, now)
          && entry.phoneNumber == phoneNumber
          && (forall k :: 0 <= k < i ==> Expired(list[k], now) || list[k].phoneNumber != phoneNumber)
          && after == Purge(list[..i], now) + Purge(list[i + 1..], now)
  {
    var purged := Purge(list, now);
    var j := FindPhone(purged, phoneNumber);
    if j < |purged| {
      var i := PurgePosition(list, now, j);
      PurgeAround(list, now, i);
      assert purged[..j] == Purge(list[..i], now) && purged[j + 1..] == Purge(list[i + 1..], now);
      forall k | 0 <= k < i && !Expired(list[k], now)
        ensures list[k].phoneNumber != phoneNumber
      {
        assert list[k] in list[..i];
        PurgeMembers(list[..i], now, list[k]);
        assert list[k] in purged[..j];
      }
    } else {
      forall entry: ChallengeToken | entry in list && !Expired(entry, now)
        ensures entry.phoneNumber != phoneNumber
      {
        PurgeMembers(list, now, entry);
      }
    }
  }

  // Where in the list the j-th kept entry comes from.
  lemma {:induction false} PurgePosition(list: seq<ChallengeToken>, now: int, j: nat) returns (i: nat)
    requires j < |Purge(list, now)|
    ensures i < |list| && !Expired(list[i], now) && |Purge(list[..i], now)| == j
  {
    var front := list[..|list| - 1];
    if j < |Purge(front, now)| {
      i := PurgePosition(front, now, j);
      assert front[..i] == list[..i];
    } else {
      i := |list| - 1;
    }
  }

  lemma PurgeAround(list: seq<ChallengeToken>, now: int, i: nat)
    requires i < |list| && !Expired(list[i], now)
    ensures Purge(list, now) == Purge(list[..i], now) + [list[i]] + Purge(list[i + 1..], now)
  {
    assert list == list[..i] + [list[i]] + list[i + 1..];
    PurgeConcat(list[..i] + [list[i]], list[i + 1..], now);
    PurgeConcat(list[..i], [list[i]], now);
    PurgeOfFresh([list[i]], now);
  }
}
