/** The four balance selectors of `Balances`: a positional read of a decoded array. */
module BalanceSelection {
  import opened Wrappers
  import opened Failures

  /** `Currency`: there are exactly two, so "not CAD" is USD. */
  datatype Currency = CAD | USD {
    function Name(): string {
      match this
      case CAD => "CAD"
      case USD => "USD"
    }
  }

  /** A `Balance`; only its `currency` label matters here (the amounts are floating point). */
  datatype Balance = Balance(currency: Option<string>, isRealTime: bool)

  /** A decoded `Balances`: each array is null when its JSON field is missing. */
  datatype Balances = Balances(
    perCurrencyBalances: Option<seq<Balance>>,
    combinedBalances: Option<seq<Balance>>,
    sodPerCurrencyBalances: Option<seq<Balance>>,
    sodCombinedBalances: Option<seq<Balance>>)

  /** The index a selector reads: 0 for CAD, 1 otherwise. */
  function Position(c: Currency): nat {
    if c == CAD then 0 else 1
  }

  /** `array[currency == CAD ? 0 : 1]`, with Java's failures for a null or too short array. */
  function Select(balances: Option<seq<Balance>>, c: Currency): (r: Result<Balance, Failure>)
    ensures balances.None? ==> r == Failure(NullPointer)
    ensures balances.Some? && c == CAD && |balances.value| >= 1 ==> r == Success(balances.value[0])
    ensures balances.Some? && c == USD && |balances.value| >= 2 ==> r == Success(balances.value[1])
    ensures balances.Some? && |balances.value| <= Position(c) ==> r == Failure(IndexOutOfBounds)
  {
    match balances
    case None => Failure(NullPointer)
    case Some(arr) => if Position(c) < |arr| then Success(arr[Position(c)]) else Failure(IndexOutOfBounds)
  }

  /** `getPerCurrencyBalances`: the currency's own side of the account. */
  function PerCurrencyBalances(b: Balances, c: Currency): (r: Result<Balance, Failure>)
    ensures r.Success? <==> b.perCurrencyBalances.Some? && Position(c) < |b.perCurrencyBalances.value|
    ensures r.Success? ==> r.value == b.perCurrencyBalances.value[Position(c)]
    ensures r.Failure? ==> r.error == if b.perCurrencyBalances.None? then NullPointer else IndexOutOfBounds
  {
    Select(b.perCurrencyBalances, c)
  }

  /** `getCombinedBalances`: the whole account, expressed in the currency. */
  function CombinedBalances(b: Balances, c: Currency): (r: Result<Balance, Failure>)
    ensures r.Success? <==> b.combinedBalances.Some? && Position(c) < |b.combinedBalances.value|
    ensures r.Success? ==> r.value == b.combinedBalances.value[Position(c)]
    ensures r.Failure? ==> r.error == if b.combinedBalances.None? then NullPointer else IndexOutOfBounds
  {
    Select(b.combinedBalances, c)
  }

  /** `getSodPerCurrencyBalances`: the currency's side at the start of the trading day. */
  function SodPerCurrencyBalances(b: Balances, c: Currency): (r: Result<Balance, Failure>)
    ensures r.Success? <==> b.sodPerCurrencyBalances.Some? && Position(c) < |b.sodPerCurrencyBalances.value|
    ensures r.Success? ==> r.value == b.sodPerCurrencyBalances.value[Position(c)]
    ensures r.Failure? ==> r.error == if b.sodPerCurrencyBalances.None? then NullPointer else IndexOutOfBounds
  {
    Select(b.sodPerCurrencyBalances, c)
  }

  /** `getSodCombinedBalances`: the whole account at the start of the trading day. */
  function SodCombinedBalances(b: Balances, c: Currency): (r: Result<Balance, Failure>)
    ensures r.Success? <==> b.sodCombinedBalances.Some? && Position(c) < |b.sodCombinedBalances.value|
    ensures r.Success? ==> r.value == b.sodCombinedBalances.value[Position(c)]
    ensures r.Failure? ==> r.error == if b.sodCombinedBalances.None? then NullPointer else IndexOutOfBounds
  {
    Select(b.sodCombinedBalances, c)
  }

  /** The lookup a reader might expect: the first balance labelled with the currency. */
  function FindByLabel(arr: seq<Balance>, c: Currency): Option<Balance>
    decreases |arr|
  {
    if arr == [] then None
    else if arr[0].currency == Some(c.Name()) then Some(arr[0])
    else FindByLabel(arr[1..], c)
  }

  /** The order the server documents: CAD first, USD second. */
  predicate ServerOrdered(balances: Option<seq<Balance>>) {
    balances.Some? && |balances.value| >= 2
    && balances.value[0].currency == Some("CAD") && balances.value[1].currency == Some("USD")
  }

  /** Positional selection agrees with lookup by label when the array is in the documented order. */
  predicate AgreesWithLabel(balances: Option<seq<Balance>>, c: Currency)
    requires balances.Some?
  {
    FindByLabel(balances.value, c).Some? && Select(balances, c) == Success(FindByLabel(balances.value, c).value)
  }

  /** When the server lists CAD first and USD second, every selector returns, for both currencies,
      the balance labelled with that currency. */
  lemma PositionalAgreesWithLabels(b: Balances, c: Currency)
    requires ServerOrdered(b.perCurrencyBalances) && ServerOrdered(b.combinedBalances)
    requires ServerOrdered(b.sodPerCurrencyBalances) && ServerOrdered(b.sodCombinedBalances)
    ensures AgreesWithLabel(b.perCurrencyBalances, c) && AgreesWithLabel(b.combinedBalances, c)
    ensures AgreesWithLabel(b.sodPerCurrencyBalances, c) && AgreesWithLabel(b.sodCombinedBalances, c)
  {
  }

  /** Selection never looks at the label: with the two entries listed the other way round, the CAD
      selector returns the entry labelled USD. */
  lemma SelectionIgnoresLabels(usd: Balance, cad: Balance)
    requires usd.currency == Some("USD") && cad.currency == Some("CAD")
    ensures Select(Some([usd, cad]), CAD) == Success(usd)
    ensures Select(Some([usd, cad]), CAD).value.currency != Some(CAD.Name())
  {
  }
}
