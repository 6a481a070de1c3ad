/** Allocation of a fresh submission code: candidate codes are looked up in
    the store one after the other until one is free; when every candidate is
    taken, the allocation fails. The letter-of-intent page draws its ten
    candidates from the code generator. */
module CodeAllocation {

  const CodeNotUnique: string := "Could not generate unique code"
  /** What reading `length` of the `null` data of a failed lookup throws, in
      V8's wording (other JavaScript engines word this TypeError differently). */
  const NullDataLength: string := "Cannot read properties of null (reading 'length')"

  /** The reply to `select("unique_code").eq("unique_code", code).limit(1)`:
      the number of rows already holding the code, or a query error (whose
      `data` is then `null`). */
  datatype LookupReply = Rows(count: nat) | QueryError(message: string)

  /** The store's replies to lookups, per code. The store is fixed for the
      duration of one allocation, so a lookup's reply is a function of the
      code. */
  type Lookups = map<string, LookupReply>

  /** The store's reply to the lookup of `code`: a code the map does not
      mention has no row. */
  function Reply(lookup: Lookups, code: string): LookupReply {
    if code in lookup then lookup[code] else Rows(0)
  }

  /** Some row already holds the code. */
  predicate Taken(lookup: Lookups, code: string) {
    Reply(lookup, code).Rows? && Reply(lookup, code).count > 0
  }

  /** How one allocation ends, with the number of lookups it made. */
  datatype Allocation =
    | Allocated(code: string, attempts: nat)
    | AllocationFailed(message: string, attempts: nat)

  /** One more lookup in front of an allocation's own. */
  function AfterTaken(a: Allocation): Allocation {
    match a
    case Allocated(c, k) => Allocated(c, k + 1)
    case AllocationFailed(m, k) => AllocationFailed(m, k + 1)
  }

  /** `k` more lookups in front of an allocation's own. */
  function Shifted(a: Allocation, k: nat): Allocation {
    match a
    case Allocated(c, n) => Allocated(c, n + k)
    case AllocationFailed(m, n) => AllocationFailed(m, n + k)
  }

  /** The allocation loop from attempt `tries` on, over the candidates
      `codes`: a free candidate is accepted, a taken one is followed by the
      next attempt, and once every candidate was taken the allocation fails.
      A failed lookup has no `data`, so reading its length throws. */
  function AllocateFrom(codes: seq<string>, lookup: Lookups, tries: nat): Allocation
    decreases |codes| - tries
  {
    if tries >= |codes| then AllocationFailed(CodeNotUnique, 0)
    else
      match Reply(lookup, codes[tries])
      case QueryError(_) => AllocationFailed(NullDataLength, 1)
      case Rows(n) =>
        if n == 0 then Allocated(codes[tries], 1)
        else AfterTaken(AllocateFrom(codes, lookup, tries + 1))
  }

  /** An allocation from attempt `t` makes between one and `|codes| - t`
      lookups. */
  lemma {:induction false} AttemptsBound(codes: seq<string>, lookup: Lookups, t: nat)
    requires t < |codes|
    decreases |codes| - t
    ensures 1 <= AllocateFrom(codes, lookup, t).attempts <= |codes| - t
  {
    if Taken(lookup, codes[t]) && t + 1 < |codes| {
      AttemptsBound(codes, lookup, t + 1);
    }
  }

  /** Every candidate an allocation from attempt `t` looked up before its
      last one was taken. */
  lemma {:induction false} EarlierTaken(codes: seq<string>, lookup: Lookups, t: nat)
    requires t < |codes|
    decreases |codes| - t
    ensures var a := AllocateFrom(codes, lookup, t);
      forall k :: t <= k < t + a.attempts - 1 && k < |codes| ==> Taken(lookup, codes[k])
  {
    if Taken(lookup, codes[t]) && t + 1 < |codes| {
      EarlierTaken(codes, lookup, t + 1);
    }
  }

  /** An accepted code is the last candidate looked up, and it was free. */
  lemma {:induction false} AcceptedIsFree(codes: seq<string>, lookup: Lookups, t: nat)
    requires t < |codes|
    decreases |codes| - t
    ensures var a := AllocateFrom(codes, lookup, t);
      a.Allocated? ==>
        && t + a.attempts - 1 < |codes|
        && a.code == codes[t + a.attempts - 1] && Reply(lookup, a.code) == Rows(0)
  {
    if Taken(lookup, codes[t]) && t + 1 < |codes| {
      AcceptedIsFree(codes, lookup, t + 1);
    }
  }

  /** "Could not generate unique code" comes only after `|codes| - t`
      lookups, the last of them taken; any other failure is a failed lookup
      of the last candidate. */
  lemma {:induction false} FailureCause(codes: seq<string>, lookup: Lookups, t: nat)
    requires t < |codes|
    decreases |codes| - t
    ensures var a := AllocateFrom(codes, lookup, t);
      && (a.AllocationFailed? && a.message == CodeNotUnique ==>
            a.attempts == |codes| - t && Taken(lookup, codes[|codes| - 1]))
      && (a.AllocationFailed? && a.message != CodeNotUnique ==>
            && a.message == NullDataLength && t + a.attempts - 1 < |codes|
            && Reply(lookup, codes[t + a.attempts - 1]).QueryError?)
  {
    if Taken(lookup, codes[t]) && t + 1 < |codes| {
      FailureCause(codes, lookup, t + 1);
    }
  }

  /** When every candidate from attempt `t` on is taken, the allocation
      fails with "Could not generate unique code" after looking each of them
      up. */
  lemma {:induction false} AllTakenFails(codes: seq<string>, lookup: Lookups, t: nat)
    requires t <= |codes|
    requires forall k :: t <= k < |codes| ==> Taken(lookup, codes[k])
    decreases |codes| - t
    ensures AllocateFrom(codes, lookup, t) == AllocationFailed(CodeNotUnique, |codes| - t)
  {
    if t < |codes| {
      AllTakenFails(codes, lookup, t + 1);
    }
  }

  /** A failed lookup at attempt `t` ends the allocation there. */
  lemma StepQueryError(codes: seq<string>, lookup: Lookups, t: nat)
    requires t < |codes| && Reply(lookup, codes[t]).QueryError?
    ensures AllocateFrom(codes, lookup, t) == AllocationFailed(NullDataLength, 1)
  {
  }

  /** A free candidate at attempt `t` is accepted. */
  lemma StepFree(codes: seq<string>, lookup: Lookups, t: nat)
    requires t < |codes| && Reply(lookup, codes[t]) == Rows(0)
    ensures AllocateFrom(codes, lookup, t) == Allocated(codes[t], 1)
  {
  }

  /** A taken candidate at attempt `t` passes on to attempt `t + 1`, one
      lookup later. */
  lemma StepTaken(codes: seq<string>, lookup: Lookups, t: nat, k: nat)
    requires t < |codes| && Taken(lookup, codes[t])
    ensures Shifted(AllocateFrom(codes, lookup, t), k) == Shifted(AllocateFrom(codes, lookup, t + 1), k + 1)
  {
  }

  /** What one allocation promises, from the first candidate: at least one
      and at most `|codes|` lookups; every candidate before the last one
      looked up was taken; an accepted code is that last candidate and was
      free; "Could not generate unique code" means every candidate was taken;
      any other failure is a failed lookup of the last candidate. */
  lemma AllocationFacts(codes: seq<string>, lookup: Lookups)
    requires codes != []
    ensures var a := AllocateFrom(codes, lookup, 0);
      && 1 <= a.attempts <= |codes|
      && (forall k :: 0 <= k < a.attempts - 1 ==> Taken(lookup, codes[k]))
      && (a.Allocated? ==> a.code == codes[a.attempts - 1] && Reply(lookup, a.code) == Rows(0))
      && (a.AllocationFailed? && a.message == CodeNotUnique ==>
            a.attempts == |codes| && forall k :: 0 <= k < |codes| ==> Taken(lookup, codes[k]))
      && (a.AllocationFailed? && a.message != CodeNotUnique ==>
            a.message == NullDataLength && Reply(lookup, codes[a.attempts - 1]).QueryError?)
  {
    AttemptsBound(codes, lookup, 0);
    EarlierTaken(codes, lookup, 0);
    AcceptedIsFree(codes, lookup, 0);
    FailureCause(codes, lookup, 0);
  }
}
