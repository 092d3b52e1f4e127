/** Promo codes: a fixed registry of codes and the percentage each one
    takes off the cart subtotal. At most one code is applied at a time. */
module Promo {
  import opened Wrappers

  /** The promo currently in force: the code as typed and its percentage. */
  datatype AppliedPromo = AppliedPromo(code: string, discount: int)

  /** Every code the storefront accepts, with its percentage. */
  const Registry: map<string, int> := map["WELCOME10" := 10, "LOYAL20" := 20]

  /** Applying the code typed in the promo box. A registered code replaces
      whatever promo was in force; any other text leaves it as it was
      (exact, case-sensitive match; no error is reported). */
  function ApplyCode(code: string, current: Option<AppliedPromo>): (r: Option<AppliedPromo>)
    ensures code in Registry ==> r == Some(AppliedPromo(code, Registry[code]))
    ensures code !in Registry ==> r == current
  {
    if code == "WELCOME10" then Some(AppliedPromo(code, 10))
    else if code == "LOYAL20" then Some(AppliedPromo(code, 20))
    else current
  }

  /** A promo that the registry could have produced. */
  predicate Registered(p: AppliedPromo) {
    p.code in Registry && Registry[p.code] == p.discount
  }

  predicate ValidApplied(applied: Option<AppliedPromo>) {
    applied.None? || Registered(applied.value)
  }

  /** Every registered percentage is 10 or 20. */
  lemma RegisteredDiscountBounds(p: AppliedPromo)
    requires Registered(p)
    ensures p.discount == 10 || p.discount == 20
  {
  }

  /** Applying a code never leaves an unregistered promo in force. */
  lemma ApplyCodeKeepsValid(code: string, current: Option<AppliedPromo>)
    requires ValidApplied(current)
    ensures ValidApplied(ApplyCode(code, current))
  {
  }

  /** Pressing "apply" twice with the same code is the same as pressing it once. */
  lemma ApplyCodeIdempotent(code: string, current: Option<AppliedPromo>)
    ensures ApplyCode(code, ApplyCode(code, current)) == ApplyCode(code, current)
  {
  }

  /** Codes do not stack: the last registered code applied wins. */
  lemma ApplyCodeLastWins(first: string, second: string, current: Option<AppliedPromo>)
    requires second in Registry
    ensures ApplyCode(second, ApplyCode(first, current)) == ApplyCode(second, current)
  {
  }
}
