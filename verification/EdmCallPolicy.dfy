/** The call policy of a managed device: for each direction of calls, a list of blocked or of trusted numbers. */
module EdmCallPolicies {
  import opened TelephonyBase

  const MAX_COUNT := 1000

  datatype Flag = NoPolicy | Block | Trust
  datatype PolicyList = PolicyList(flag: Flag, numbers: set<string>)

  const NO_LIST := PolicyList(NoPolicy, {})

  /** What an administrator asks for. */
  datatype Policy = Policy(dialingTrust: bool, dialing: seq<string>, incomingTrust: bool, incoming: seq<string>)

  predicate Accepted(policy: Policy) {
    |policy.dialing| <= MAX_COUNT && |policy.incoming| <= MAX_COUNT
  }

  function Elements(numbers: seq<string>): set<string> {
    set number | number in numbers
  }

  function FlagOf(trust: bool): Flag {
    if trust then Trust else Block
  }

  // The lists under a policy; None before the first one.
  function DialingList(policy: Option<Policy>): PolicyList {
    if policy.None? then NO_LIST else PolicyList(FlagOf(policy.value.dialingTrust), Elements(policy.value.dialing))
  }

  function IncomingList(policy: Option<Policy>): PolicyList {
    if policy.None? then NO_LIST else PolicyList(FlagOf(policy.value.incomingTrust), Elements(policy.value.incoming))
  }

  /**
   Whether a call is allowed: never while telephony is disabled; otherwise unless a list has been asked for that
   is not empty and treats the number the wrong way.
   */
  predicate Allowed(disabled: bool, trust: Option<bool>, listed: seq<string>, number: string) {
    !disabled && (trust.None? || listed == [] || (number in listed <==> trust.value))
  }

  predicate DialingAllowed(policy: Option<Policy>, disabled: bool, number: string) {
    if policy.None? then Allowed(disabled, None, [], number)
    else Allowed(disabled, Some(policy.value.dialingTrust), policy.value.dialing, number)
  }

  predicate IncomingAllowed(policy: Option<Policy>, disabled: bool, number: string) {
    if policy.None? then Allowed(disabled, None, [], number)
    else Allowed(disabled, Some(policy.value.incomingTrust), policy.value.incoming, number)
  }

  lemma ElementsNext(numbers: seq<string>, i: nat)
    requires i < |numbers|
    ensures Elements(numbers[..i + 1]) == Elements(numbers[..i]) + {numbers[i]}
  {
  }

  lemma ElementsEmpty(numbers: seq<string>)
    ensures Elements(numbers) == {} <==> numbers == []
  {
    if numbers != [] {
      assert numbers[0] in Elements(numbers);
    }
  }

  predicate ListAllows(list: PolicyList, number: string) {
    match list.flag
    case NoPolicy => true
    case Block => list.numbers == {} || number !in list.numbers
    case Trust => list.numbers == {} || number in list.numbers
  }

  lemma ListsDecide(policy: Option<Policy>, number: string)
    ensures ListAllows(DialingList(policy), number) == DialingAllowed(policy, false, number)
    ensures ListAllows(IncomingList(policy), number) == IncomingAllowed(policy, false, number)
  {
    if policy.Some? {
      ElementsEmpty(policy.value.dialing);
      ElementsEmpty(policy.value.incoming);
    }
  }

  /** The policy in force after a run of updates. */
  function LastAccepted(updates: seq<Policy>): Option<Policy> {
    if updates == [] then None
    else if Accepted(updates[|updates| - 1]) then Some(updates[|updates| - 1])
    else LastAccepted(updates[..|updates| - 1])
  }

  /** Each of the two lists has at most 1000 numbers. */
  predicate Fits(policy: Policy) {
    |policy.dialing| <= 1000 && |policy.incoming| <= 1000
  }

  /** It is an accepted update that no accepted one follows, and there is none only if none was accepted. */
  lemma {:induction false} LastAcceptedIsLast(updates: seq<Policy>, p: Policy)
    ensures LastAccepted(updates) == None <==> forall k :: 0 <= k < |updates| ==> !Fits(updates[k])
    ensures LastAccepted(updates) == Some(p) <==>
      exists k :: (0 <= k < |updates| && updates[k] == p && Fits(p)
                   && forall j :: k < j < |updates| ==> !Fits(updates[j]))
  {
    if updates != [] && !Accepted(updates[|updates| - 1]) {
      var front := updates[..|updates| - 1];
      LastAcceptedIsLast(front, p);
      if LastAccepted(front) == Some(p) {
        var k :| 0 <= k < |front| && front[k] == p && forall j :: k < j < |front| ==> !Accepted(front[j]);
        assert updates[k] == p;
      }
      assert forall k :: 0 <= k < |front| ==> front[k] == updates[k];
    }
  }

  /** Updates that are refused might as well not have been made. */
  lemma {:induction false} RefusedUpdatesLeaveNoTrace(before: seq<Policy>, refused: Policy, later: seq<Policy>)
    requires |refused.dialing| > 1000 || |refused.incoming| > 1000
    ensures LastAccepted(before + [refused] + later) == LastAccepted(before + later)
  {
    var all := before + [refused] + later;
    if later == [] {
      assert all[..|all| - 1] == before && before + later == before;
    } else {
      var front := later[..|later| - 1];
      RefusedUpdatesLeaveNoTrace(before, refused, front);
      assert all[..|all| - 1] == before + [refused] + front;
      assert (before + later)[..|before + later| - 1] == before + front;
    }
  }

  class EdmCallPolicy {
    var dialingList: PolicyList
    var incomingList: PolicyList
    // Every update ever asked for, accepted or not.
    ghost var updates: seq<Policy>

    ghost predicate Valid()
      reads this
    {
      dialingList == DialingList(LastAccepted(updates)) && incomingList == IncomingList(LastAccepted(updates))
    }

    constructor ()
      ensures Valid() && updates == []
    {
      dialingList, incomingList, updates := NO_LIST, NO_LIST, [];
    }

    method SetCallPolicy(policy: Policy) returns (accepted: bool)
      requires Valid()
      modifies this
      ensures Valid() && updates == old(updates) + [policy]
      ensures accepted == (|policy.dialing| <= 1000 && |policy.incoming| <= 1000)
      ensures accepted ==>
        dialingList == DialingList(Some(policy)) && incomingList == IncomingList(Some(policy))
      ensures !accepted ==> unchanged(this`dialingList, this`incomingList)
    {
      updates := updates + [policy];
      assert updates[..|updates| - 1] == old(updates);
      if |policy.dialing| > MAX_COUNT || |policy.incoming| > MAX_COUNT {
        return false;
      }
      dialingList := dialingList.(numbers := {});
      incomingList := incomingList.(numbers := {});
      dialingList := dialingList.(flag := if policy.dialingTrust then Trust else Block);
      for i := 0 to |policy.dialing|
        invariant updates == old(updates) + [policy]
        invariant dialingList == PolicyList(FlagOf(policy.dialingTrust), Elements(policy.dialing[..i]))
        invariant incomingList.numbers == {}
      {
        ElementsNext(policy.dialing, i);
        dialingList := dialingList.(numbers := dialingList.numbers + {policy.dialing[i]});
      }
      assert policy.dialing[..|policy.dialing|] == policy.dialing;
      incomingList := incomingList.(flag := if policy.incomingTrust then Trust else Block);
      for i := 0 to |policy.incoming|
        invariant updates == old(updates) + [policy]
        invariant dialingList == DialingList(Some(policy))
        invariant incomingList == PolicyList(FlagOf(policy.incomingTrust), Elements(policy.incoming[..i]))
      {
        ElementsNext(policy.incoming, i);
        incomingList := incomingList.(numbers := incomingList.numbers + {policy.incoming[i]});
      }
      assert policy.incoming[..|policy.incoming|] == policy.incoming;
      return true;
    }

    method IsCallEnable(disabled: bool, number: string, list: PolicyList) returns (r: bool)
      ensures r == (!disabled && ListAllows(list, number))
      ensures disabled ==> !r
      ensures !disabled && (list.flag.NoPolicy? || list.numbers == {}) ==> r
      ensures !disabled && list.flag.Block? && list.numbers != {} ==> r == (number !in list.numbers)
      ensures !disabled && list.flag.Trust? && list.numbers != {} ==> r == (number in list.numbers)
    {
      if disabled {
        return false;
      }
      match list.flag {
        case NoPolicy =>
          return true;
        case Block =>
          if list.numbers == {} {
            return true;
          }
          return number !in list.numbers;
        case Trust =>
          if list.numbers == {} {
            return true;
          }
          return number in list.numbers;
      }
    }

    method IsDialingEnable(disabled: bool, number: string) returns (r: bool)
      requires Valid()
      ensures r == DialingAllowed(LastAccepted(updates), disabled, number)
      ensures var p := LastAccepted(updates);
        && (disabled ==> !r)
        && (!disabled && (p.None? || p.value.dialing == []) ==> r)
        && (!disabled && p.Some? && p.value.dialing != [] ==>
              r == (number in p.value.dialing <==> p.value.dialingTrust))
    {
      ListsDecide(LastAccepted(updates), number);
      r := IsCallEnable(disabled, number, dialingList);
    }

    method IsIncomingEnable(disabled: bool, number: string) returns (r: bool)
      requires Valid()
      ensures r == IncomingAllowed(LastAccepted(updates), disabled, number)
      ensures var p := LastAccepted(updates);
        && (disabled ==> !r)
        && (!disabled && (p.None? || p.value.incoming == []) ==> r)
        && (!disabled && p.Some? && p.value.incoming != [] ==>
              r == (number in p.value.incoming <==> p.value.incomingTrust))
    {
      ListsDecide(LastAccepted(updates), number);
      r := IsCallEnable(disabled, number, incomingList);
    }
  }
}
