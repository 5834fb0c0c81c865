/**
 The eleven deterministic rules: app/domain/validation.py.
 */
module Validation {
  import opened Wrappers
  import opened Text
  import opened Schema
  import opened Keys

  const MONEY_TOLERANCE := 0.01
  const SUPPORTED_CURRENCIES := {"GBP", "EUR", "USD"}
  /** The ordinal of 2000-01-01. */
  const EARLIEST_PLAUSIBLE_DATE := 730120

  datatype Outcome = Pass | NeedsReview | Fail

  datatype Rule =
    | RequiredFieldsPresent
    | LineItemArithmetic
    | LineItemsSumToSubtotal
    | SubtotalPlusTaxEqualsTotal
    | SupportedCurrency
    | CurrencyAgreesWithSource
    | IssueDatePlausible
    | IssueDateUnambiguous
    | InvoiceNumberNotDuplicate
    | EvidenceVerified
    | CreditNoteConsistent

  datatype RuleResult = RuleResult(rule: Rule, outcome: Outcome) {
    predicate Blocking() { outcome != Pass }
  }

  /** What the rules read besides the draft. `ambiguousDate` is the verdict of the date pattern on the quote of
      the issue date. */
  datatype Input = Input(
    draft: Draft,
    source: string,
    evidence: seq<EvidenceResult>,
    known: set<BusinessKey>,
    today: int,
    ambiguousDate: bool)

  function Abs(x: real): real {
    if x < 0.0 then -x else x
  }

  function MoneyOutcome(difference: real): Outcome {
    if difference == 0.0 then Pass
    else if difference <= MONEY_TOLERANCE then NeedsReview
    else Fail
  }

  // ---------- The money rules ----------

  function LineOutcome(item: LineItem): Outcome {
    MoneyOutcome(Abs(item.quantity * item.unitPrice - item.amount))
  }

  /** The worst outcome of any line: Fail before NeedsReview before Pass. */
  function WorstLine(items: seq<LineItem>): Outcome {
    if exists item <- items :: LineOutcome(item) == Fail then Fail
    else if exists item <- items :: LineOutcome(item) == NeedsReview then NeedsReview
    else Pass
  }

  /** The loop of `line_item_arithmetic`; `flagged` holds the numbers of the lines its message names. */
  method CheckLines(items: seq<LineItem>) returns (worst: Outcome, flagged: seq<nat>)
    ensures worst == WorstLine(items)
    ensures forall i, j :: 0 <= i < j < |flagged| ==> flagged[i] < flagged[j]
    ensures forall n: nat :: n in flagged <==> 1 <= n <= |items| && LineOutcome(items[n - 1]) != Pass
  {
    worst, flagged := Pass, [];
    for i := 0 to |items|
      invariant worst == WorstLine(items[..i])
      invariant forall j, k :: 0 <= j < k < |flagged| ==> flagged[j] < flagged[k]
      invariant forall j :: 0 <= j < |flagged| ==> flagged[j] <= i
      invariant forall n: nat :: n in flagged <==> 1 <= n <= i && LineOutcome(items[n - 1]) != Pass
    {
      assert items[..i + 1] == items[..i] + [items[i]];
      var outcome := LineOutcome(items[i]);
      if outcome == Pass {
        continue;
      }
      flagged := flagged + [i + 1];
      if outcome == Fail || worst == Pass {
        worst := outcome;
      }
    }
    assert items[..|items|] == items;
  }

  /** The order of the lines does not matter. */
  lemma WorstLineAnyOrder(a: seq<LineItem>, b: seq<LineItem>)
    requires multiset(a) == multiset(b)
    ensures WorstLine(a) == WorstLine(b)
  {
    forall item ensures item in a <==> item in b {
      assert item in a <==> item in multiset(a);
      assert item in b <==> item in multiset(b);
    }
  }

  function SumOfAmounts(items: seq<LineItem>): real {
    if items == [] then 0.0 else SumOfAmounts(items[..|items| - 1]) + items[|items| - 1].amount
  }

  function SumOfProducts(items: seq<LineItem>): real {
    if items == [] then 0.0
    else
      var last := items[|items| - 1];
      SumOfProducts(items[..|items| - 1]) + last.quantity * last.unitPrice
  }

  function SubtotalOutcome(draft: Draft): Outcome {
    MoneyOutcome(Abs(SumOfAmounts(draft.lineItems) - draft.subtotal.value))
  }

  function TotalOutcome(draft: Draft): Outcome {
    MoneyOutcome(Abs(draft.subtotal.value + draft.tax.value - draft.total.value))
  }

  lemma WorstOfPrefix(items: seq<LineItem>, n: nat)
    requires |items| == n + 1
    ensures WorstLine(items) != Fail ==> WorstLine(items[..n]) != Fail && LineOutcome(items[n]) != Fail
    ensures WorstLine(items) == Pass ==> WorstLine(items[..n]) == Pass && LineOutcome(items[n]) == Pass
  {
    assert items[n] in items;
    assert forall item <- items[..n] :: item in items;
  }

  lemma LineBound(item: LineItem)
    requires LineOutcome(item) != Fail
    ensures Abs(item.quantity * item.unitPrice - item.amount) <= MONEY_TOLERANCE
    ensures LineOutcome(item) == Pass ==> item.quantity * item.unitPrice == item.amount
  {
  }

  lemma SumsOfOneMore(items: seq<LineItem>, n: nat)
    requires |items| == n + 1
    ensures SumOfProducts(items) == SumOfProducts(items[..n]) + items[n].quantity * items[n].unitPrice
    ensures SumOfAmounts(items) == SumOfAmounts(items[..n]) + items[n].amount
  {
  }

  lemma {:induction false} LinesWithinTolerance(items: seq<LineItem>)
    requires WorstLine(items) != Fail
    ensures Abs(SumOfProducts(items) - SumOfAmounts(items)) <= MONEY_TOLERANCE * (|items| as real)
    ensures WorstLine(items) == Pass ==> SumOfProducts(items) == SumOfAmounts(items)
  {
    if items != [] {
      var n := |items| - 1;
      hide SumOfProducts, SumOfAmounts, LineOutcome, WorstLine, Abs;
      WorstOfPrefix(items, n);
      SumsOfOneMore(items, n);
      LineBound(items[n]);
      LinesWithinTolerance(items[..n]);
      var product, amount := items[n].quantity * items[n].unitPrice, items[n].amount;
      OneLineMore(SumOfProducts(items[..n]) - SumOfAmounts(items[..n]), product - amount, n);
    }
  }

  lemma OneLineMore(off: real, more: real, n: nat)
    requires Abs(off) <= MONEY_TOLERANCE * (n as real) && Abs(more) <= MONEY_TOLERANCE
    ensures Abs(off + more) <= MONEY_TOLERANCE * ((n + 1) as real)
  {
  }

  /** The three tolerances add up: when no money rule fails, quantities times prices plus tax miss the total by at
      most one hundredth for each line and one for each of the two sums; when all pass they meet it exactly. */
  lemma MoneyCompounds(draft: Draft)
    requires WorstLine(draft.lineItems) != Fail && SubtotalOutcome(draft) != Fail && TotalOutcome(draft) != Fail
    ensures var off := SumOfProducts(draft.lineItems) + draft.tax.value - draft.total.value;
            && Abs(off) <= MONEY_TOLERANCE * ((|draft.lineItems| + 2) as real)
            && (WorstLine(draft.lineItems) == Pass && SubtotalOutcome(draft) == Pass && TotalOutcome(draft) == Pass
                ==> off == 0.0)
  {
    LinesWithinTolerance(draft.lineItems);
    var n := |draft.lineItems|;
    assert MONEY_TOLERANCE * ((n + 2) as real) == MONEY_TOLERANCE * (n as real) + 2.0 * MONEY_TOLERANCE;
  }

  function Repeat(item: LineItem, n: nat): seq<LineItem> {
    if n == 0 then [] else Repeat(item, n - 1) + [item]
  }

  lemma RepeatStep(item: LineItem, n: nat)
    requires n > 0 && |Repeat(item, n - 1)| == n - 1 && item.quantity == 1.0
    ensures Repeat(item, n) == Repeat(item, n - 1) + [item]
    ensures SumOfProducts(Repeat(item, n)) == SumOfProducts(Repeat(item, n - 1)) + item.unitPrice
    ensures SumOfAmounts(Repeat(item, n)) == SumOfAmounts(Repeat(item, n - 1)) + item.amount
  {
    assert Repeat(item, n)[..n - 1] == Repeat(item, n - 1);
  }

  lemma {:induction false} RepeatRepeats(item: LineItem, n: nat)
    ensures |Repeat(item, n)| == n && forall x <- Repeat(item, n) :: x == item
  {
    if n > 0 {
      RepeatRepeats(item, n - 1);
    }
  }

  lemma {:induction false} RepeatSums(item: LineItem, n: nat)
    requires item.quantity == 1.0 && item.unitPrice - item.amount == 0.01
    ensures SumOfProducts(Repeat(item, n)) - SumOfAmounts(Repeat(item, n)) == (n as real) * 0.01
  {
    if n > 0 {
      hide SumOfProducts, SumOfAmounts, Repeat;
      RepeatSums(item, n - 1);
      RepeatRepeats(item, n - 1);
      RepeatStep(item, n);
    }
  }

  /** The bound is met: for any number of lines some draft that fails no money rule is off by all of it. */
  lemma MoneyBoundIsTight(n: nat, like: Draft)
    ensures exists draft: Draft ::
              && |draft.lineItems| == n
              && WorstLine(draft.lineItems) != Fail && SubtotalOutcome(draft) != Fail && TotalOutcome(draft) != Fail
              && SumOfProducts(draft.lineItems) + draft.tax.value - draft.total.value
                 == MONEY_TOLERANCE * ((n + 2) as real)
  {
    var item := LineItem("", 1.0, 1.01, 1.0);
    var items := Repeat(item, n);
    RepeatRepeats(item, n);
    RepeatSums(item, n);
    assert LineOutcome(item) == NeedsReview;
    var amounts := SumOfAmounts(items);
    var draft := like.(lineItems := items,
                       subtotal := Evidenced(amounts - 0.01, ""),
                       tax := Evidenced(0.0, ""),
                       total := Evidenced(amounts - 0.02, ""));
    assert SubtotalOutcome(draft) == NeedsReview && TotalOutcome(draft) == NeedsReview;
    assert WorstLine(draft.lineItems) != Fail;
    assert SumOfProducts(draft.lineItems) + draft.tax.value - draft.total.value == (n as real) * 0.01 + 0.02;
  }

  // ---------- The other rules ----------

  function When(bad: bool, outcome: Outcome): Outcome {
    if bad then outcome else Pass
  }

  predicate Blank(s: string) { Strip(s) == "" }

  /** The currencies each symbol may stand for, in the table's order. */
  const CURRENCY_SYMBOLS: seq<(char, set<string>)> := [
    ('\U{A3}', {"GBP"}),
    ('\U{20AC}', {"EUR"}),
    ('$', {"USD", "CAD", "AUD", "NZD"})]

  predicate SymbolContradicts(source: string, code: string) {
    exists s <- CURRENCY_SYMBOLS :: s.0 in source && code !in s.1
  }

  function OutcomeOf(rule: Rule, data: Input): Outcome {
    var draft := data.draft;
    match rule
    case RequiredFieldsPresent =>
      When(Blank(draft.invoiceNumber.value) || Blank(draft.supplier.value) || draft.lineItems == [], Fail)
    case LineItemArithmetic => WorstLine(draft.lineItems)
    case LineItemsSumToSubtotal => SubtotalOutcome(draft)
    case SubtotalPlusTaxEqualsTotal => TotalOutcome(draft)
    case SupportedCurrency => When(draft.currency.value !in SUPPORTED_CURRENCIES, Fail)
    case CurrencyAgreesWithSource => When(SymbolContradicts(data.source, draft.currency.value), NeedsReview)
    case IssueDatePlausible =>
      When(draft.issueDate.value > data.today || draft.issueDate.value < EARLIEST_PLAUSIBLE_DATE, Fail)
    case IssueDateUnambiguous => When(data.ambiguousDate, NeedsReview)
    case InvoiceNumberNotDuplicate => When(RuleKey(draft) in data.known, Fail)
    case EvidenceVerified => When(!AllVerified(data.evidence), NeedsReview)
    case CreditNoteConsistent =>
      When(draft.total.value < 0.0 && exists item <- draft.lineItems :: item.amount > 0.0, Fail)
  }

  /** The registry, in the order the rules are declared. */
  const RULES := [
    RequiredFieldsPresent, LineItemArithmetic, LineItemsSumToSubtotal, SubtotalPlusTaxEqualsTotal,
    SupportedCurrency, CurrencyAgreesWithSource, IssueDatePlausible, IssueDateUnambiguous,
    InvoiceNumberNotDuplicate, EvidenceVerified, CreditNoteConsistent]

  function Validate(data: Input): seq<RuleResult> {
    seq(|RULES|, i requires 0 <= i < |RULES| => RuleResult(RULES[i], OutcomeOf(RULES[i], data)))
  }

  predicate IsAccepted(results: seq<RuleResult>) {
    !exists r <- results :: r.Blocking()
  }

  predicate Passes(rule: Rule, data: Input) {
    OutcomeOf(rule, data) == Pass
  }

  lemma RulesAreAll(rule: Rule)
    ensures rule in RULES
  {
    assert RULES[0] == RequiredFieldsPresent && RULES[1] == LineItemArithmetic;
    assert RULES[2] == LineItemsSumToSubtotal && RULES[3] == SubtotalPlusTaxEqualsTotal;
    assert RULES[4] == SupportedCurrency && RULES[5] == CurrencyAgreesWithSource;
    assert RULES[6] == IssueDatePlausible && RULES[7] == IssueDateUnambiguous;
    assert RULES[8] == InvoiceNumberNotDuplicate && RULES[9] == EvidenceVerified;
    assert RULES[10] == CreditNoteConsistent;
  }

  /** Each of the eleven rules reports itself once, and a draft is accepted exactly when all of them pass. */
  lemma AcceptedPasses(data: Input)
    ensures |Validate(data)| == 11
    ensures forall i, j :: 0 <= i < j < 11 ==> Validate(data)[i].rule != Validate(data)[j].rule
    ensures IsAccepted(Validate(data)) <==> forall rule: Rule :: Passes(rule, data)
  {
    var results := Validate(data);
    forall rule: Rule | IsAccepted(results) ensures Passes(rule, data) {
      RulesAreAll(rule);
      var i :| 0 <= i < |RULES| && RULES[i] == rule;
      assert results[i] in results;
    }
    if forall rule: Rule :: Passes(rule, data) {
      forall r | r in results ensures !r.Blocking() {
        assert Passes(r.rule, data);
      }
    }
  }

  // ---------- What each rule says ----------

  /** Nothing off passes, up to one hundredth is for review, and more fails. */
  predicate IsMoneyOutcome(outcome: Outcome, off: real) {
    && (outcome == Pass <==> off == 0.0)
    && (outcome == NeedsReview <==> off != 0.0 && -0.01 <= off <= 0.01)
    && (outcome == Fail <==> off < -0.01 || off > 0.01)
  }

  lemma MoneyByAmount(off: real)
    ensures IsMoneyOutcome(MoneyOutcome(Abs(off)), off)
  {
  }

  lemma MoneyRules(data: Input)
    ensures var draft := data.draft;
            && IsMoneyOutcome(OutcomeOf(LineItemsSumToSubtotal, data),
                              SumOfAmounts(draft.lineItems) - draft.subtotal.value)
            && IsMoneyOutcome(OutcomeOf(SubtotalPlusTaxEqualsTotal, data),
                              draft.subtotal.value + draft.tax.value - draft.total.value)
  {
    hide MoneyOutcome, Abs, IsMoneyOutcome;
    MoneyByAmount(SumOfAmounts(data.draft.lineItems) - data.draft.subtotal.value);
    MoneyByAmount(data.draft.subtotal.value + data.draft.tax.value - data.draft.total.value);
  }

  /** The line rule fails for one line that is off by more than a hundredth, whatever the others are. */
  lemma LineRule(data: Input)
    ensures var items, outcome := data.draft.lineItems, OutcomeOf(LineItemArithmetic, data);
            && (outcome == Fail <==> exists x <- items ::
                  var off := x.quantity * x.unitPrice - x.amount; off < -0.01 || off > 0.01)
            && (outcome == Pass <==> forall x <- items :: x.quantity * x.unitPrice == x.amount)
  {
    forall x | x in data.draft.lineItems
      ensures IsMoneyOutcome(LineOutcome(x), x.quantity * x.unitPrice - x.amount)
    {
      hide MoneyOutcome, Abs, IsMoneyOutcome;
      MoneyByAmount(x.quantity * x.unitPrice - x.amount);
    }
  }

  const FAILING := {
    RequiredFieldsPresent, SupportedCurrency, IssueDatePlausible, InvoiceNumberNotDuplicate, CreditNoteConsistent}

  const REVIEWING := {CurrencyAgreesWithSource, IssueDateUnambiguous, EvidenceVerified}

  /** The rules that fail a draft, and when. */
  lemma FailingRules(data: Input)
    ensures var draft := data.draft;
            && (OutcomeOf(RequiredFieldsPresent, data) == Fail <==>
                  Strip(draft.invoiceNumber.value) == "" || Strip(draft.supplier.value) == "" || |draft.lineItems| == 0)
            && (OutcomeOf(SupportedCurrency, data) == Fail <==>
                  draft.currency.value != "GBP" && draft.currency.value != "EUR" && draft.currency.value != "USD")
            && (OutcomeOf(IssueDatePlausible, data) == Fail <==>
                  draft.issueDate.value > data.today || draft.issueDate.value < NEW_YEAR_2000)
            && (OutcomeOf(InvoiceNumberNotDuplicate, data) == Fail <==> RuleKey(draft) in data.known)
            && (OutcomeOf(CreditNoteConsistent, data) == Fail <==>
                  draft.total.value < 0.0 && exists item <- draft.lineItems :: item.amount > 0.0)
    ensures forall rule <- FAILING :: OutcomeOf(rule, data) != NeedsReview
  {
  }

  /** The days from 0001-01-01 on of the 1999 years before, 484 of them leap years, and the day itself. */
  const NEW_YEAR_2000 := 365 * 1999 + (1999 / 4 - 1999 / 100 + 1999 / 400) + 1

  /** The rules that ask for a review, and when. They fail nothing. */
  lemma ReviewingRules(data: Input)
    ensures var code := data.draft.currency.value;
            && (OutcomeOf(CurrencyAgreesWithSource, data) == NeedsReview <==>
                  || ('\U{A3}' in data.source && code != "GBP")
                  || ('\U{20AC}' in data.source && code != "EUR")
                  || ('$' in data.source && code != "USD" && code != "CAD" && code != "AUD" && code != "NZD"))
            && (OutcomeOf(IssueDateUnambiguous, data) == NeedsReview <==> data.ambiguousDate)
            && (OutcomeOf(EvidenceVerified, data) == NeedsReview <==> exists r <- data.evidence :: r.span.None?)
    ensures forall rule <- REVIEWING :: OutcomeOf(rule, data) != Fail
  {
    var symbols := CURRENCY_SYMBOLS;
    assert symbols[0] in symbols && symbols[1] in symbols && symbols[2] in symbols;
  }

  // ---------- What acceptance means ----------

  predicate LinesExact(items: seq<LineItem>) {
    forall item <- items :: item.quantity * item.unitPrice == item.amount
  }

  /** A draft that may be written, as far as the document alone decides. */
  ghost predicate Sound(draft: Draft, source: string) {
    && AllQuoted(draft, source)
    && draft.currency.value in SUPPORTED_CURRENCIES
    && !SymbolContradicts(source, draft.currency.value)
    && !Blank(draft.supplier.value) && !Blank(draft.invoiceNumber.value) && draft.lineItems != []
    && LinesExact(draft.lineItems)
    && SumOfAmounts(draft.lineItems) == draft.subtotal.value
    && draft.subtotal.value + draft.tax.value == draft.total.value
    && draft.issueDate.value >= EARLIEST_PLAUSIBLE_DATE
    && (draft.total.value < 0.0 ==> forall item <- draft.lineItems :: item.amount <= 0.0)
  }

  /** The total of a sound draft is the sum of quantities times prices plus the tax. */
  lemma SoundAddsUp(draft: Draft, source: string)
    requires Sound(draft, source)
    ensures SumOfProducts(draft.lineItems) + draft.tax.value == draft.total.value
  {
    MoneyCases(draft);
    MoneyCompounds(draft);
  }

  lemma MoneyCases(draft: Draft)
    ensures LinesExact(draft.lineItems) <==> WorstLine(draft.lineItems) == Pass
    ensures SumOfAmounts(draft.lineItems) == draft.subtotal.value <==> SubtotalOutcome(draft) == Pass
    ensures draft.subtotal.value + draft.tax.value == draft.total.value <==> TotalOutcome(draft) == Pass
  {
    forall item | item in draft.lineItems
      ensures item.quantity * item.unitPrice == item.amount <==> LineOutcome(item) == Pass
    {
    }
  }

  lemma EvidenceOutcome(data: Input)
    ensures OutcomeOf(EvidenceVerified, data) == Pass <==> AllVerified(data.evidence)
  {
  }

  lemma EvidenceCase(data: Input)
    requires data.evidence == VerifyDraft(data.draft, data.source)
    ensures AllQuoted(data.draft, data.source) <==> OutcomeOf(EvidenceVerified, data) == Pass
  {
    hide AllQuoted, AllVerified, OutcomeOf;
    EvidenceOutcome(data);
    VerifiedMeansQuoted(data.draft, data.source);
  }

  predicate OthersPass(data: Input) {
    var draft := data.draft;
    && draft.currency.value in SUPPORTED_CURRENCIES
    && !SymbolContradicts(data.source, draft.currency.value)
    && !Blank(draft.supplier.value) && !Blank(draft.invoiceNumber.value) && draft.lineItems != []
    && EARLIEST_PLAUSIBLE_DATE <= draft.issueDate.value <= data.today && !data.ambiguousDate
    && (draft.total.value < 0.0 ==> forall item <- draft.lineItems :: item.amount <= 0.0)
    && RuleKey(draft) !in data.known
  }

  lemma OtherCases(data: Input)
    ensures OthersPass(data) <==>
            && OutcomeOf(SupportedCurrency, data) == Pass && OutcomeOf(CurrencyAgreesWithSource, data) == Pass
            && OutcomeOf(RequiredFieldsPresent, data) == Pass
            && OutcomeOf(IssueDatePlausible, data) == Pass && OutcomeOf(IssueDateUnambiguous, data) == Pass
            && OutcomeOf(CreditNoteConsistent, data) == Pass && OutcomeOf(InvoiceNumberNotDuplicate, data) == Pass
  {
  }

  lemma MoneyOutcomes(data: Input)
    ensures OutcomeOf(LineItemArithmetic, data) == WorstLine(data.draft.lineItems)
    ensures OutcomeOf(LineItemsSumToSubtotal, data) == SubtotalOutcome(data.draft)
    ensures OutcomeOf(SubtotalPlusTaxEqualsTotal, data) == TotalOutcome(data.draft)
  {
  }

  lemma EveryRule(data: Input)
    ensures (forall rule: Rule :: Passes(rule, data)) <==>
            && Passes(RequiredFieldsPresent, data) && Passes(LineItemArithmetic, data)
            && Passes(LineItemsSumToSubtotal, data) && Passes(SubtotalPlusTaxEqualsTotal, data)
            && Passes(SupportedCurrency, data) && Passes(CurrencyAgreesWithSource, data)
            && Passes(IssueDatePlausible, data) && Passes(IssueDateUnambiguous, data)
            && Passes(InvoiceNumberNotDuplicate, data) && Passes(EvidenceVerified, data)
            && Passes(CreditNoteConsistent, data)
  {
  }

  lemma AcceptedByCases(data: Input)
    requires data.evidence == VerifyDraft(data.draft, data.source)
    ensures IsAccepted(Validate(data)) <==>
            && AllQuoted(data.draft, data.source) && LinesExact(data.draft.lineItems)
            && SumOfAmounts(data.draft.lineItems) == data.draft.subtotal.value
            && data.draft.subtotal.value + data.draft.tax.value == data.draft.total.value
            && OthersPass(data)
  {
    AcceptedPasses(data);
    EveryRule(data);
    MoneyCases(data.draft);
    MoneyOutcomes(data);
    EvidenceCase(data);
    OtherCases(data);
  }

  /** The eleven rules accept a draft exactly when it is sound for its source, its date is neither in the future nor
      ambiguous, and its number is new. */
  lemma AcceptedIsSound(data: Input)
    requires data.evidence == VerifyDraft(data.draft, data.source)
    ensures IsAccepted(Validate(data)) <==>
            && Sound(data.draft, data.source)
            && data.draft.issueDate.value <= data.today && !data.ambiguousDate
            && RuleKey(data.draft) !in data.known
  {
    AcceptedByCases(data);
  }
}
