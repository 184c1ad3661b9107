/**
  Upserting a value kept in a single UTXO at a validator address: the D-parameter and the permissioned
  candidates (offchain `d_param` and `permissioned_candidates`).
 */
module Upsert {
  import opened Widths
  import opened Wrappers
  import opened Candidates

  datatype Datum<T> = Missing | Undecodable | Value(value: T)

  datatype ScriptUtxo<T> = ScriptUtxo(datum: Datum<T>, tokens: nat)

  /** What the main chain holds at the validator address, and how many policy tokens were ever minted. */
  datatype Ledger<T> = Ledger(utxos: seq<ScriptUtxo<T>>, minted: nat)

  /** The essence of a submitted transaction: whether it spends the first UTXO or mints, and the datum of its one output. */
  datatype Transaction<T> = Mint(datum: T) | Update(datum: T)

  /** How a value is brought into the form that is stored and compared. */
  type Normalization<!T> = T -> T

  function Current<T>(norm: Normalization<T>, utxos: seq<ScriptUtxo<T>>): Result<Option<T>> {
    if utxos == [] then Ok(None)
    else
      match utxos[0].datum
      case Value(v) => Ok(Some(norm(v)))
      case _ => Err
  }

  /** The transaction to submit, none if the value is already there. */
  function Decide<T(==)>(norm: Normalization<T>, l: Ledger<T>, requested: T): Result<Option<Transaction<T>>> {
    match Current(norm, l.utxos)
    case Err => Err
    case Ok(None) => Ok(Some(Mint(norm(requested))))
    case Ok(Some(current)) => Ok(if current == norm(requested) then None else Some(Update(norm(requested))))
  }

  function Submitted<T>(l: Ledger<T>, tx: Transaction<T>): Ledger<T> {
    match tx
    case Mint(d) => Ledger(l.utxos + [ScriptUtxo(Value(d), 1)], l.minted + 1)
    case Update(d) => if l.utxos == [] then l else Ledger(l.utxos[1..] + [ScriptUtxo(Value(d), l.utxos[0].tokens)], l.minted)
  }

  function Upserted<T(==)>(norm: Normalization<T>, l: Ledger<T>, requested: T): Result<Ledger<T>> {
    match Decide(norm, l, requested)
    case Err => Err
    case Ok(None) => Ok(l)
    case Ok(Some(tx)) => Ok(Submitted(l, tx))
  }

  /** A run of upserts from an empty address, each visible before the next. */
  function AfterAll<T(==)>(norm: Normalization<T>, requests: seq<T>): Result<Ledger<T>> {
    if requests == [] then Ok(Ledger([], 0))
    else
      match AfterAll(norm, requests[..|requests| - 1])
      case Err => Err
      case Ok(l) => Upserted(norm, l, requests[|requests| - 1])
  }

  ghost predicate Idempotent<T(!new)>(norm: Normalization<T>) {
    forall v :: norm(norm(v)) == norm(v)
  }

  /** After every run there is exactly one UTXO, with the one token ever minted and the last requested value. */
  lemma {:induction false} SingleUtxo<T(!new)>(norm: Normalization<T>, requests: seq<T>)
    requires Idempotent(norm) && requests != []
    ensures AfterAll(norm, requests) == Ok(Ledger([ScriptUtxo(Value(norm(requests[|requests| - 1])), 1)], 1))
  {
    var before, last := requests[..|requests| - 1], requests[|requests| - 1];
    if before == [] {
      assert [ScriptUtxo(Value(norm(last)), 1)] == [] + [ScriptUtxo(Value(norm(last)), 1)];
    } else {
      SingleUtxo(norm, before);
      var previous := norm(before[|before| - 1]);
      assert norm(previous) == previous;
      var l := Ledger([ScriptUtxo(Value(previous), 1)], 1);
      assert l.utxos[1..] + [ScriptUtxo(Value(norm(last)), 1)] == [ScriptUtxo(Value(norm(last)), 1)];
      assert AfterAll(norm, requests) == Upserted(norm, l, last);
    }
  }

  /** A further upsert submits nothing exactly when it asks for what the last one asked for, up to normalization. */
  lemma QuietIff<T(!new)>(norm: Normalization<T>, requests: seq<T>, requested: T)
    requires Idempotent(norm) && requests != []
    ensures AfterAll(norm, requests).Ok?
    ensures Decide(norm, AfterAll(norm, requests).value, requested) == Ok(None) <==> norm(requested) == norm(requests[|requests| - 1])
  {
    SingleUtxo(norm, requests);
  }

  /** An upsert fails, and submits nothing, exactly when the first UTXO at the address has no datum or one that does not decode. */
  lemma FailsIff<T>(norm: Normalization<T>, l: Ledger<T>, requested: T)
    ensures Decide(norm, l, requested).Err? <==> l.utxos != [] && l.utxos[0].datum in {Missing, Undecodable}
    ensures Upserted(norm, l, requested).Err? <==> l.utxos != [] && l.utxos[0].datum in {Missing, Undecodable}
  {
  }

  /** Whatever is at the address, an upsert mints only if nothing is there, otherwise replaces the first UTXO and leaves the others. */
  lemma UpsertedIs<T>(norm: Normalization<T>, l: Ledger<T>, requested: T)
    requires l.utxos == [] || l.utxos[0].datum.Value?
    ensures var mine, after := Value(norm(requested)), Upserted(norm, l, requested);
            && after.Ok?
            && (l.utxos == [] ==> after.value.utxos == [ScriptUtxo(mine, 1)] && after.value.minted == l.minted + 1)
            && (l.utxos != [] ==> after.value.minted == l.minted && |after.value.utxos| == |l.utxos|)
            && (l.utxos != [] && norm(l.utxos[0].datum.value) == norm(requested) ==> after.value == l)
            && (l.utxos != [] && norm(l.utxos[0].datum.value) != norm(requested) ==>
                  multiset(after.value.utxos) == multiset(l.utxos) - multiset{l.utxos[0]} + multiset{ScriptUtxo(mine, l.utxos[0].tokens)})
  {
    if l.utxos == [] {
      assert Submitted(l, Mint(norm(requested))).utxos == [ScriptUtxo(Value(norm(requested)), 1)];
    } else {
      assert l.utxos == [l.utxos[0]] + l.utxos[1..];
    }
  }

  /** Against whatever value is on chain. */
  lemma QuietAgainst<T>(norm: Normalization<T>, l: Ledger<T>, requested: T)
    requires l.utxos != [] && l.utxos[0].datum.Value?
    ensures Decide(norm, l, requested) == Ok(None) <==> norm(l.utxos[0].datum.value) == norm(requested)
  {
  }

  // ---------- the permissioned candidates ----------

  lemma SortingIsIdempotent()
    ensures Idempotent(Sort)
  {
    forall s
      ensures Sort(Sort(s)) == Sort(s)
    {
      SortedEqualIff(Sort(s), s);
    }
  }

  /** Against whatever list is on chain, nothing is submitted exactly when the request is a permutation of it. */
  lemma CandidatesQuietIff(l: Ledger<seq<Candidate>>, requested: seq<Candidate>)
    requires l.utxos != [] && l.utxos[0].datum.Value?
    ensures Decide(Sort, l, requested) == Ok(None) <==> multiset(requested) == multiset(l.utxos[0].datum.value)
  {
    SortedEqualIff(l.utxos[0].datum.value, requested);
    QuietAgainst(Sort, l, requested);
  }

  /** Candidate upserts leave the last requested list, sorted, in the one UTXO. */
  lemma CandidatesSingleUtxo(requests: seq<seq<Candidate>>)
    requires requests != []
    ensures AfterAll(Sort, requests) == Ok(Ledger([ScriptUtxo(Value(Sort(requests[|requests| - 1])), 1)], 1))
  {
    SortingIsIdempotent();
    SingleUtxo(Sort, requests);
  }

  // ---------- the D-parameter ----------

  type U16 = n: nat | n < U16_LIMIT

  datatype DParameter = DParameter(permissioned: U16, registered: U16)

  /** D-parameter upserts leave the last requested value in the one UTXO. */
  lemma DParameterSingleUtxo(requests: seq<DParameter>)
    requires requests != []
    ensures AfterAll((d: DParameter) => d, requests) == Ok(Ledger([ScriptUtxo(Value(requests[|requests| - 1]), 1)], 1))
  {
    SingleUtxo((d: DParameter) => d, requests);
  }
}
