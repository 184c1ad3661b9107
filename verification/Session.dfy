/**
  Sessions: rotating the validator list, disabling validators, and counting account providers
  (pallet `partner-chains-session`, driven by the session manager of `session-manager`).
 */
module Session {
  import opened Wrappers
  import opened Committees
  import Sequences

  /** The storage of the pallet. `validators` is filled only for Polkadot.js. */
  datatype SessionState = SessionState(
    index: nat,
    validators: seq<AccountId>,
    validatorsAndKeys: seq<Validator>,
    disabled: seq<nat>)

  function Accounts(v: seq<Validator>): (r: seq<AccountId>)
    ensures |r| == |v| && forall i :: 0 <= i < |v| ==> r[i] == v[i].account
  {
    seq(|v|, i requires 0 <= i < |v| => v[i].account)
  }

  // ---------- the disabled vector ----------

  datatype SearchResult = Found(index: nat) | InsertAt(index: nat)

  ghost predicate StrictlySorted(s: seq<nat>) {
    forall i, j :: 0 <= i < j < |s| ==> s[i] < s[j]
  }

  /** Binary search between `lo` and `hi`. */
  function Search(s: seq<nat>, x: nat, lo: nat, hi: nat): (r: SearchResult)
    requires lo <= hi <= |s|
    ensures r.Found? ==> lo <= r.index < hi && s[r.index] == x
    ensures r.InsertAt? ==> lo <= r.index <= hi
    decreases hi - lo
  {
    if lo == hi then InsertAt(lo)
    else
      var mid := (lo + hi) / 2;
      if s[mid] == x then Found(mid)
      else if s[mid] < x then Search(s, x, mid + 1, hi)
      else Search(s, x, lo, mid)
  }

  /** In a sorted vector, a failed search has found the gap the value belongs in. */
  lemma {:induction false} SearchFindsGap(s: seq<nat>, x: nat, lo: nat, hi: nat)
    requires StrictlySorted(s) && lo <= hi <= |s|
    requires forall i :: 0 <= i < lo ==> s[i] < x
    requires forall i :: hi <= i < |s| ==> s[i] > x
    ensures var r := Search(s, x, lo, hi);
            r.InsertAt? ==> (forall i :: 0 <= i < r.index ==> s[i] < x) && (forall i :: r.index <= i < |s| ==> s[i] > x)
    decreases hi - lo
  {
    if lo < hi {
      var mid := (lo + hi) / 2;
      if s[mid] < x {
        SearchFindsGap(s, x, mid + 1, hi);
      } else if s[mid] > x {
        SearchFindsGap(s, x, lo, mid);
      }
    }
  }

  predicate IsDisabled(disabled: seq<nat>, i: nat) {
    Search(disabled, i, 0, |disabled|).Found?
  }

  /** Binary search decides membership in a sorted vector. */
  lemma SearchDecides(s: seq<nat>, x: nat)
    requires StrictlySorted(s)
    ensures IsDisabled(s, x) <==> x in s
  {
    SearchFindsGap(s, x, 0, |s|);
  }

  function Inserted(s: seq<nat>, x: nat): seq<nat> {
    match Search(s, x, 0, |s|)
    case Found(_) => s
    case InsertAt(n) => s[..n] + [x] + s[n..]
  }

  lemma SplicedSorted(s: seq<nat>, n: nat, x: nat)
    requires StrictlySorted(s) && n <= |s|
    requires (forall i :: 0 <= i < n ==> s[i] < x) && (forall i :: n <= i < |s| ==> s[i] > x)
    ensures StrictlySorted(s[..n] + [x] + s[n..])
  {
    var r := s[..n] + [x] + s[n..];
    forall i, j | 0 <= i < j < |r|
      ensures r[i] < r[j]
    {
      assert r[i] == if i < n then s[i] else if i == n then x else s[i - 1];
      assert r[j] == if j < n then s[j] else if j == n then x else s[j - 1];
    }
  }

  lemma InsertedSorted(s: seq<nat>, x: nat)
    requires StrictlySorted(s)
    ensures StrictlySorted(Inserted(s, x))
    ensures forall y :: y in Inserted(s, x) <==> y == x || y in s
  {
    SearchFindsGap(s, x, 0, |s|);
    var r := Search(s, x, 0, |s|);
    if r.InsertAt? {
      SplicedSorted(s, r.index, x);
      assert s == s[..r.index] + s[r.index..];
    }
  }

  // ---------- account providers ----------

  function Count(providers: map<AccountId, nat>, a: AccountId): nat {
    if a in providers then providers[a] else 0
  }

  /** The effect of replacing one list by another: accounts only in the new one gain a provider, those only in the old one lose one. */
  ghost predicate CountsMoved(before: map<AccountId, nat>, after: map<AccountId, nat>, newList: seq<AccountId>, oldList: seq<AccountId>) {
    forall a {:trigger Count(after, a)} ::
      Count(after, a) == Count(before, a) + (if a in newList && a !in oldList then 1 else 0)
                                          - (if a in oldList && a !in newList then 1 else 0)
  }

  function Ids(accounts: seq<AccountId>): set<AccountId> {
    set a | a in accounts
  }

  // ---------- the pallet ----------

  class SessionPallet {
    const polkadotJs: bool
    var index: nat
    var validators: seq<AccountId>
    var validatorsAndKeys: seq<Validator>
    var disabled: seq<nat>
    var providers: map<AccountId, nat>

    function View(): SessionState
      reads this
    {
      SessionState(index, validators, validatorsAndKeys, disabled)
    }

    /** Starts with the validators the session manager derives from the genesis committee. */
    constructor (polkadotJs: bool, committee: CommitteePallet, toAccount: AuthorityId -> AccountId, providers: map<AccountId, nat>)
      ensures this.polkadotJs == polkadotJs && forall a :: Count(this.providers, a) == Count(providers, a)
      ensures View() == GenesisSession(polkadotJs, ToValidators(toAccount, committee.current.committee))
      ensures StandFor(toAccount, validatorsAndKeys, committee.current.committee)
    {
      var initial := ToValidators(toAccount, committee.current.committee);
      this.polkadotJs, this.providers := polkadotJs, providers;
      index, validators, validatorsAndKeys, disabled := 0, [], [], [];
      new;
      RotateValidators(initial);
    }

    method ChangeAccountProviders(newAccounts: seq<AccountId>, oldAccounts: seq<AccountId>) returns (r: Fallible<()>)
      modifies this`providers
      ensures r.Panicked? <==> exists a :: a in oldAccounts && a !in newAccounts && Count(old(providers), a) == 0
      ensures r.Done? ==> CountsMoved(old(providers), providers, newAccounts, oldAccounts)
    {
      var newIds, oldIds := Ids(newAccounts), Ids(oldAccounts);
      var toInc, toDec := newIds - oldIds, oldIds - newIds;
      var left := toInc;
      while left != {}
        invariant left <= toInc
        invariant forall a :: Count(providers, a) == Count(old(providers), a) + if a in toInc - left then 1 else 0
        decreases left
      {
        var a :| a in left;
        providers := providers[a := Count(providers, a) + 1];
        left := left - {a};
      }
      left := toDec;
      while left != {}
        invariant left <= toDec
        invariant forall a :: a in toDec - left ==> Count(old(providers), a) > 0
        invariant forall a {:trigger Count(providers, a)} ::
                    Count(providers, a) == Count(old(providers), a) + (if a in toInc then 1 else 0) - (if a in toDec - left then 1 else 0)
        decreases left
      {
        var a :| a in left;
        if Count(providers, a) == 0 {
          return Panicked;
        }
        ghost var before := providers;
        providers := providers[a := Count(providers, a) - 1];
        assert forall x :: Count(providers, x) == if x == a then Count(before, x) - 1 else Count(before, x);
        assert toDec - (left - {a}) == toDec - left + {a};
        left := left - {a};
      }
      return Done(());
    }

    /** Replaces the validator list. The provider counts stay: the list is read back as the old one after it was overwritten. */
    method RotateValidators(newValidators: seq<Validator>)
      modifies this
      ensures index == old(index)
      ensures View() == WithValidators(polkadotJs, old(View()), newValidators)
      ensures forall a :: Count(providers, a) == Count(old(providers), a)
    {
      validatorsAndKeys := newValidators;
      if polkadotJs {
        validators := Accounts(newValidators);
      }
      var r := ChangeAccountProviders(Accounts(newValidators), Accounts(validatorsAndKeys));
      assert r.Done?;
      disabled := [];
    }

    method RotateSession(committees: CommitteePallet, toAccount: AuthorityId -> AccountId) returns (r: Fallible<()>)
      modifies this, committees
      ensures committees.View() == Rotated(old(committees.View()))
      ensures r.Panicked? <==> old(committees.next).None?
      ensures r.Done? ==> StandFor(toAccount, validatorsAndKeys, old(committees.next).value.committee)
      ensures r.Done? ==>
                View() == NewSession(polkadotJs, old(View()), Some(ToValidators(toAccount, committees.current.committee)))
      ensures forall a :: Count(providers, a) == Count(old(providers), a)
    {
      index := index + 1;
      var v := committees.RotateCommittee(toAccount);
      if v.None? {
        return Panicked;
      }
      RotateValidators(v.value);
      return Done(());
    }

    method OnInitialize(committees: CommitteePallet, toAccount: AuthorityId -> AccountId, epoch: nat) returns (r: Fallible<()>)
      modifies this, committees
      ensures r.Done?
      ensures var before := old(committees.View());
              if ShouldEndSession(before, epoch)
              then && committees.View() == Rotated(before)
                   && View() == NewSession(polkadotJs, old(View()), Some(ToValidators(toAccount, committees.current.committee)))
                   && StandFor(toAccount, validatorsAndKeys, before.next.value.committee)
              else committees.View() == before && View() == old(View())
      ensures forall a :: Count(providers, a) == Count(old(providers), a)
    {
      if epoch > committees.current.epoch && committees.next.Some? {
        r := RotateSession(committees, toAccount);
      } else {
        r := Done(());
      }
    }

    method DisableIndex(i: nat) returns (ok: bool)
      modifies this`disabled
      ensures View() == Stepped(polkadotJs, old(View()), DisableByIndex(i))
      ensures ok == (i < |validators| && !IsDisabled(old(disabled), i))
    {
      if i >= |validators| {
        return false;
      }
      match Search(disabled, i, 0, |disabled|) {
        case Found(_) => return false;
        case InsertAt(n) =>
          disabled := disabled[..n] + [i] + disabled[n..];
          return true;
      }
    }

    method Disable(account: AccountId) returns (ok: bool)
      modifies this`disabled
      ensures View() == Stepped(polkadotJs, old(View()), DisableAccount(account))
      ensures var i := FirstPosition(validatorsAndKeys, account);
              ok <==> i.Some? && i.value < |validators| && !IsDisabled(old(disabled), i.value)
    {
      match FirstPosition(validatorsAndKeys, account) {
        case None => return false;
        case Some(i) =>
          ok := DisableIndex(i);
      }
    }
  }

  // ---------- the same steps on values ----------

  function WithValidators(polkadotJs: bool, s: SessionState, v: seq<Validator>): SessionState {
    s.(validatorsAndKeys := v, validators := if polkadotJs then Accounts(v) else s.validators, disabled := [])
  }

  function GenesisSession(polkadotJs: bool, initial: seq<Validator>): SessionState {
    WithValidators(polkadotJs, SessionState(0, [], [], []), initial)
  }

  /** A new session; the session manager may keep the validators. */
  function NewSession(polkadotJs: bool, s: SessionState, v: Option<seq<Validator>>): SessionState {
    var next := s.(index := s.index + 1);
    if v.None? then next else WithValidators(polkadotJs, next, v.value)
  }

  function HasAccount(account: AccountId): Validator -> bool {
    (v: Validator) => v.account == account
  }

  function FirstPosition(v: seq<Validator>, account: AccountId): (r: Option<nat>)
    ensures r.Some? ==> r.value < |v| && v[r.value].account == account && forall i :: 0 <= i < r.value ==> v[i].account != account
    ensures r.None? ==> forall i :: 0 <= i < |v| ==> v[i].account != account
  {
    assert forall i :: 0 <= i < |v| ==> HasAccount(account)(v[i]) == (v[i].account == account);
    Sequences.FirstIndex(v, HasAccount(account))
  }

  datatype Op =
    | DisableByIndex(index: nat)
    | DisableAccount(account: AccountId)
    | Rotate(validators: Option<seq<Validator>>)

  function Stepped(polkadotJs: bool, s: SessionState, op: Op): SessionState {
    match op
    case Rotate(v) => NewSession(polkadotJs, s, v)
    case DisableByIndex(i) => if i < |s.validators| then s.(disabled := Inserted(s.disabled, i)) else s
    case DisableAccount(a) =>
      match FirstPosition(s.validatorsAndKeys, a) {
        case None => s
        case Some(i) => if i < |s.validators| then s.(disabled := Inserted(s.disabled, i)) else s
      }
  }

  function After(polkadotJs: bool, initial: seq<Validator>, ops: seq<Op>): SessionState {
    if ops == [] then GenesisSession(polkadotJs, initial)
    else Stepped(polkadotJs, After(polkadotJs, initial, ops[..|ops| - 1]), ops[|ops| - 1])
  }

  /** The validators in force. */
  function InForce(initial: seq<Validator>, ops: seq<Op>): seq<Validator> {
    if ops == [] then initial
    else
      match ops[|ops| - 1]
      case Rotate(Some(v)) => v
      case _ => InForce(initial, ops[..|ops| - 1])
  }

  /** The positions disabled since the validators last changed. */
  function DisabledSince(initial: seq<Validator>, ops: seq<Op>): set<nat> {
    if ops == [] then {}
    else
      var before := ops[..|ops| - 1];
      match ops[|ops| - 1]
      case Rotate(Some(_)) => {}
      case Rotate(None) => DisabledSince(initial, before)
      case DisableByIndex(i) =>
        if i < |InForce(initial, before)| then DisabledSince(initial, before) + {i} else DisabledSince(initial, before)
      case DisableAccount(a) =>
        var i := FirstPosition(InForce(initial, before), a);
        if i.Some? then DisabledSince(initial, before) + {i.value} else DisabledSince(initial, before)
  }

  /**
    With the Polkadot.js list kept, the disabled vector is sorted and in range in every reachable state, and
    binary search finds exactly the positions disabled since the validators last changed.
   */
  lemma {:induction false} DisabledVector(initial: seq<Validator>, ops: seq<Op>)
    ensures var s := After(true, initial, ops);
            && s.validatorsAndKeys == InForce(initial, ops) && s.validators == Accounts(s.validatorsAndKeys)
            && StrictlySorted(s.disabled)
            && (forall i :: i in s.disabled ==> i < |s.validatorsAndKeys|)
            && (forall i :: IsDisabled(s.disabled, i) <==> i in DisabledSince(initial, ops))
  {
    var s := After(true, initial, ops);
    if ops != [] {
      var before := After(true, initial, ops[..|ops| - 1]);
      DisabledVector(initial, ops[..|ops| - 1]);
      match ops[|ops| - 1] {
        case Rotate(_) =>
        case DisableByIndex(i) => InsertedSorted(before.disabled, i);
        case DisableAccount(a) =>
          if FirstPosition(before.validatorsAndKeys, a).Some? {
            InsertedSorted(before.disabled, FirstPosition(before.validatorsAndKeys, a).value);
          }
      }
      forall i { SearchDecides(before.disabled, i); }
    }
    forall i { SearchDecides(s.disabled, i); }
  }

  /** Without it nothing can be disabled at all. */
  lemma {:induction false} NothingDisabledWithoutList(initial: seq<Validator>, ops: seq<Op>)
    ensures After(false, initial, ops).validators == [] && After(false, initial, ops).disabled == []
  {
    if ops != [] {
      NothingDisabledWithoutList(initial, ops[..|ops| - 1]);
    }
  }

  // ---------- provider counts over runs ----------

  /** The accounts of the last list, none before the first. */
  function LastList(lists: seq<seq<AccountId>>): seq<AccountId> {
    if lists == [] then [] else lists[|lists| - 1]
  }

  /** Each account has one provider more than before exactly if it is listed. */
  ghost predicate OnePerListed(base: map<AccountId, nat>, counts: map<AccountId, nat>, listed: seq<AccountId>) {
    forall a {:trigger Count(counts, a)} :: Count(counts, a) == Count(base, a) + if a in listed then 1 else 0
  }

  /** After any sequence of lists, duplicates included, that each replaced the one before, no replacement panicked. */
  method ReplaceAll(pallet: SessionPallet, lists: seq<seq<AccountId>>) returns (results: seq<Fallible<()>>)
    modifies pallet`providers
    ensures |results| == |lists| && forall i :: 0 <= i < |results| ==> results[i].Done?
    ensures OnePerListed(old(pallet.providers), pallet.providers, LastList(lists))
  {
    results := [];
    for i := 0 to |lists|
      invariant |results| == i && forall j :: 0 <= j < i ==> results[j].Done?
      invariant OnePerListed(old(pallet.providers), pallet.providers, LastList(lists[..i]))
    {
      var previous := if i == 0 then [] else lists[i - 1];
      assert LastList(lists[..i]) == previous && LastList(lists[..i + 1]) == lists[i];
      var r := pallet.ChangeAccountProviders(lists[i], previous);
      results := results + [r];
    }
    assert lists[..|lists|] == lists;
  }

  /** `counts[i]` holds after the first `i` of `lists` have each replaced the one before. */
  ghost predicate ProviderRun(lists: seq<seq<AccountId>>, counts: seq<map<AccountId, nat>>) {
    && |counts| == |lists| + 1
    && forall i, j :: 0 <= i && j == i + 1 && j < |counts| ==> CountsMoved(counts[i], counts[j], lists[i], LastList(lists[..i]))
  }

  /** Along any run each account has one provider more exactly while it is listed. */
  lemma {:induction false} ProvidersFollowLists(lists: seq<seq<AccountId>>, counts: seq<map<AccountId, nat>>, n: nat, a: AccountId)
    requires ProviderRun(lists, counts) && n <= |lists|
    ensures Count(counts[n], a) == Count(counts[0], a) + if a in LastList(lists[..n]) then 1 else 0
  {
    if n > 0 {
      ProvidersFollowLists(lists, counts, n - 1, a);
      assert CountsMoved(counts[n - 1], counts[n], lists[n - 1], LastList(lists[..n - 1]));
      assert Count(counts[n], a) >= 0;
    }
  }

  /** So no list that comes next takes a provider from an account that has none, given only the steps before. */
  lemma NextListSucceeds(lists: seq<seq<AccountId>>, counts: seq<map<AccountId, nat>>, next: seq<AccountId>)
    requires ProviderRun(lists, counts)
    ensures !exists a :: a in LastList(lists) && a !in next && Count(counts[|lists|], a) == 0
  {
    forall a | a in LastList(lists) && a !in next
      ensures Count(counts[|lists|], a) > 0
    {
      ProvidersFollowLists(lists, counts, |lists|, a);
      assert lists[..|lists|] == lists;
    }
  }

  /**
    A session pallet from genesis through any rotations: no provider count ever differs from its base, so there is
    one provider per listed validator if and only if no validator is listed.
   */
  method RotateAll(polkadotJs: bool, committee: CommitteePallet, toAccount: AuthorityId -> AccountId,
                   base: map<AccountId, nat>, lists: seq<seq<Validator>>)
      returns (counts: map<AccountId, nat>, listed: seq<Validator>)
    ensures listed == if lists == [] then ToValidators(toAccount, committee.current.committee) else lists[|lists| - 1]
    ensures forall a :: Count(counts, a) == Count(base, a)
    ensures OnePerListed(base, counts, Accounts(listed)) <==> listed == []
  {
    var pallet := new SessionPallet(polkadotJs, committee, toAccount, base);
    for i := 0 to |lists|
      invariant fresh(pallet)
      invariant pallet.validatorsAndKeys == if i == 0 then ToValidators(toAccount, committee.current.committee) else lists[i - 1]
      invariant forall a :: Count(pallet.providers, a) == Count(base, a)
    {
      pallet.RotateValidators(lists[i]);
    }
    counts, listed := pallet.providers, pallet.validatorsAndKeys;
    UnchangedCounts(base, counts, listed);
  }

  lemma UnchangedCounts(base: map<AccountId, nat>, counts: map<AccountId, nat>, listed: seq<Validator>)
    requires forall a :: Count(counts, a) == Count(base, a)
    ensures OnePerListed(base, counts, Accounts(listed)) <==> listed == []
  {
    if listed != [] {
      var a := listed[0].account;
      assert a == Accounts(listed)[0];
      assert Count(counts, a) != Count(base, a) + if a in Accounts(listed) then 1 else 0;
    }
  }

  /** One rotation to a list of one validator leaves that validator without its provider. */
  method RotationToOne(polkadotJs: bool, committee: CommitteePallet, toAccount: AuthorityId -> AccountId, v: Validator)
      returns (counts: map<AccountId, nat>, listed: seq<Validator>)
    ensures listed == [v] && Count(counts, v.account) == 0 && !OnePerListed(map[], counts, [v.account])
  {
    counts, listed := RotateAll(polkadotJs, committee, toAccount, map[], [[v]]);
    assert Count(counts, v.account) == Count(map[], v.account);
  }
}
