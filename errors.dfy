/** Go error values as the validators build them, and the "first failing
    guard clause" semantics the validators share. */
module Errors {

  /** The package-level sentinel errors of validation.go. */
  datatype Kind = InvalidCardNumber | InvalidExpiryDate | InvalidCVV | InvalidAmount | InvalidCurrency

  /** The text each sentinel was created with by `errors.New`. */
  function KindText(k: Kind): string
  {
    match k
    case InvalidCardNumber => "invalid card number"
    case InvalidExpiryDate => "invalid expiry date"
    case InvalidCVV => "invalid CVV"
    case InvalidAmount => "invalid amount"
    case InvalidCurrency => "invalid currency"
  }

  /** A non-nil Go error:
      - `Sentinel(k)`: one of the package-level sentinel values itself;
      - `Message(t)`: a fresh `errors.New(t)` (or `fmt.Errorf` without `%w`),
        which `errors.Is` never matches against a sentinel;
      - `Wrapped(p, e, s)`: `fmt.Errorf` whose format has one `%w`, with `p`
        before and `s` after the wrapped error `e`. */
  datatype Error =
    | Sentinel(kind: Kind)
    | Message(text: string)
    | Wrapped(prefix: string, inner: Error, suffix: string)

  /** `err.Error()`. */
  function ErrorString(e: Error): string
  {
    match e
    case Sentinel(k) => KindText(k)
    case Message(t) => t
    case Wrapped(p, inner, s) => p + ErrorString(inner) + s
  }

  /** `errors.Is(e, k)`: some error on the unwrap chain is the sentinel `k`. */
  predicate Is(e: Error, k: Kind)
  {
    match e
    case Sentinel(k') => k' == k
    case Message(_) => false
    case Wrapped(_, inner, _) => Is(inner, k)
  }

  /** At most one sentinel lies on a chain, so an error is `Is` of at most one kind. */
  lemma {:induction false} IsUnique(e: Error, k1: Kind, k2: Kind)
    requires Is(e, k1) && Is(e, k2)
    ensures k1 == k2
  {
    match e
    case Sentinel(_) =>
    case Wrapped(_, inner, _) => IsUnique(inner, k1, k2);
  }

  /** A validator's verdict: `Pass` is a nil error. */
  datatype Outcome = Pass | Fail(error: Error)

  /** One guard clause `if !ok { return failure }`: it falls through (`Pass`)
      when `ok` holds. */
  function Check(ok: bool, failure: Error): (g: Outcome)
    ensures g == Pass <==> ok
  {
    if ok then Pass else Fail(failure)
  }

  /** Guard clauses run in order: the verdict of the first one that fails, or
      `Pass` when all fall through. */
  function FirstFailure(gs: seq<Outcome>): Outcome
  {
    if gs == [] then Pass
    else if gs[0].Fail? then gs[0]
    else FirstFailure(gs[1..])
  }

  /** The guard list passes iff every guard passes, and a failure is the
      failure of the earliest guard that fails. */
  lemma {:induction false} FirstFailureSpec(gs: seq<Outcome>)
    ensures FirstFailure(gs) == Pass <==> forall i :: 0 <= i < |gs| ==> gs[i] == Pass
    ensures FirstFailure(gs).Fail? ==>
      exists k :: 0 <= k < |gs| && gs[k] == FirstFailure(gs) &&
        forall j :: 0 <= j < k ==> gs[j] == Pass
  {
    if gs != [] && gs[0].Pass? {
      FirstFailureSpec(gs[1..]);
      assert forall i :: 1 <= i < |gs| ==> gs[i] == gs[1..][i - 1];
      if FirstFailure(gs).Fail? {
        var k :| 0 <= k < |gs[1..]| && gs[1..][k] == FirstFailure(gs[1..]) &&
          forall j :: 0 <= j < k ==> gs[1..][j] == Pass;
        assert forall j :: 0 <= j < k + 1 ==> gs[j] == Pass by {
          forall j | 0 <= j < k + 1 ensures gs[j] == Pass {
            if j > 0 { assert gs[j] == gs[1..][j - 1]; }
          }
        }
      }
    }
  }

  /** Conversely, when guard `k` is the first that fails, its failure is the
      verdict. */
  lemma {:induction false} FirstFailureAt(gs: seq<Outcome>, k: nat)
    requires k < |gs| && gs[k].Fail?
    requires forall j :: 0 <= j < k ==> gs[j] == Pass
    ensures FirstFailure(gs) == gs[k]
  {
    if k > 0 {
      FirstFailureAt(gs[1..], k - 1);
    }
  }

  /** Unfolding `FirstFailure` over a guard list one guard at a time. */
  lemma FirstFailureStep(g: Outcome, rest: seq<Outcome>)
    ensures FirstFailure([g] + rest) == if g.Fail? then g else FirstFailure(rest)
  {
    assert ([g] + rest)[1..] == rest;
  }
}
