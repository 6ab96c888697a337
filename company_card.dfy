/**
 * components/ui/company-card.tsx: a company as an investor browses it, with
 * its funding progress, target label, latest metrics and the modal in which
 * an investment is committed.
 */
module CompanyCard {
  import opened Common

  datatype Metrics = Metrics(mrr: real, arr: real, burnRate: real, runwayMonths: int)

  datatype Company = Company(
    id: string,
    name: string,
    industry: string,
    stage: string,
    description: string,
    targetRaise: Option<real>,
    currentRaised: real,
    founderName: Option<string>,
    financialMetrics: Option<seq<Metrics>>)

  /** `company.financial_metrics?.[0]`: the first row, absent when the list is absent or empty. */
  function LatestMetrics(c: Company): (m: Option<Metrics>)
    ensures m.None? <==> c.financialMetrics.None? || |c.financialMetrics.value| == 0
    ensures m.Some? ==> m.value == c.financialMetrics.value[0]
  {
    match c.financialMetrics
    case None => None
    case Some(ms) => if |ms| > 0 then Some(ms[0]) else None
  }

  /** A target is truthy when it is present and not 0. */
  predicate HasTarget(c: Company)
  {
    c.targetRaise.Some? && c.targetRaise.value != 0.0
  }

  /** `fundingProgress`: the amount raised as a percentage of a truthy target, 0 otherwise. */
  function FundingProgress(c: Company): (p: real)
    ensures !HasTarget(c) ==> p == 0.0
    ensures HasTarget(c) ==> p * c.targetRaise.value == c.currentRaised * 100.0
  {
    if HasTarget(c) then c.currentRaised / c.targetRaise.value * 100.0 else 0.0
  }

  /** The test fixture: 100,000 raised of a 500,000 target is 20%. */
  lemma FixtureProgress()
    ensures FundingProgress(Company("1", "Test Startup", "fintech", "seed", "", Some(500000.0), 100000.0, None, None)) == 20.0
  {
  }

  /** With a positive target, progress grows with the amount raised and reaches 100 exactly at the target. */
  lemma ProgressMonotone(c: Company, d: Company)
    requires c.targetRaise == d.targetRaise && HasTarget(c) && c.targetRaise.value > 0.0
    requires c.currentRaised <= d.currentRaised
    ensures FundingProgress(c) <= FundingProgress(d)
    ensures FundingProgress(c) >= 100.0 <==> c.currentRaised >= c.targetRaise.value
  {
    var t := c.targetRaise.value;
    assert c.currentRaised / t <= d.currentRaised / t;
    var p := FundingProgress(c);
    if p >= 100.0 {
      assert p * t >= 100.0 * t;
    } else {
      assert p * t < 100.0 * t;
    }
  }

  /** `Math.min(fundingProgress, 100)`: the bar's width never overflows and is exact below 100%. */
  function BarWidth(c: Company): (w: real)
    ensures w <= 100.0
    ensures w == FundingProgress(c) || (w == 100.0 && FundingProgress(c) > 100.0)
  {
    MinReal(FundingProgress(c), 100.0)
  }

  /**
   * The progress area under the header: the bar for a truthy target,
   * nothing for an absent one. For a target of 0, `{company.target_raise && (...)}`
   * evaluates to the number 0, which React renders as the text "0".
   */
  datatype ProgressArea = Bar(raised: real, percent: real, width: real) | NothingShown | StrayZero

  /** The expression as written in the card. */
  function ProgressAreaAsWritten(c: Company): (a: ProgressArea)
    ensures a.Bar? <==> HasTarget(c)
    ensures a == StrayZero <==> c.targetRaise == Some(0.0)
  {
    match c.targetRaise
    case None => NothingShown
    case Some(t) => if t == 0.0 then StrayZero else Bar(c.currentRaised, FundingProgress(c), BarWidth(c))
  }

  /** A zero target puts a stray "0" on the card. */
  lemma ZeroTargetShowsStrayZero(c: Company)
    requires c.targetRaise == Some(0.0)
    ensures ProgressAreaAsWritten(c) == StrayZero
  {
  }

  /** The evident intent: a bar for a truthy target and nothing else in any case. */
  function ProgressAreaOf(c: Company): (a: ProgressArea)
    ensures a != StrayZero
    ensures a.Bar? <==> HasTarget(c)
    ensures a.Bar? ==> a == Bar(c.currentRaised, FundingProgress(c), BarWidth(c)) && a.width <= 100.0
    ensures HasTarget(c) ==> a == ProgressAreaAsWritten(c)
  {
    if HasTarget(c) then Bar(c.currentRaised, FundingProgress(c), BarWidth(c)) else NothingShown
  }

  /**
   * The "Target raise" text: "$" followed by the formatted target, or by
   * "TBD" when the target is absent; a target of 0 formats as "0", which is
   * truthy, so it shows "$0".
   */
  datatype TargetText = Amount(value: real) | Tbd

  function TargetLabel(c: Company): (t: TargetText)
    ensures t == Tbd <==> c.targetRaise.None?
    ensures t.Amount? ==> c.targetRaise == Some(t.value)
  {
    match c.targetRaise
    case None => Tbd
    case Some(v) => Amount(v)
  }

  /** `Founded by {company.users?.full_name || 'Founder'}` */
  function FounderLine(c: Company): (name: string)
    ensures name != ""
    ensures c.founderName.Some? && c.founderName.value != "" ==> name == c.founderName.value
    ensures c.founderName.None? || c.founderName.value == "" ==> name == "Founder"
  {
    match c.founderName
    case Some(n) => if n != "" then n else "Founder"
    case None => "Founder"
  }

  /** The row the modal inserts, and the founder's notification text. */
  datatype Commitment = Commitment(companyId: string, amount: string, instrument: string, status: string, notice: string)

  function CommitmentFor(companyId: string, amount: string, instrument: string): (r: Commitment)
    ensures r.status == "committed"
    ensures r.notice == "New investment commitment of $" + amount + " from an investor"
    ensures r.companyId == companyId && r.amount == amount && r.instrument == instrument
  {
    Commitment(companyId, amount, instrument, "committed", "New investment commitment of $" + amount + " from an investor")
  }

  /** The card's state: the investment modal and its form. */
  class InvestModal {
    const company: Company
    var showInvestModal: bool
    var loading: bool
    var amount: string
    var instrument: string

    predicate IsClosedAndEmpty()
      reads this
    {
      !showInvestModal && !loading && amount == ""
    }

    constructor (c: Company)
      ensures company == c
      ensures IsClosedAndEmpty() && instrument == "SAFE"
    {
      company := c;
      showInvestModal := false;
      loading := false;
      amount := "";
      instrument := "SAFE";
    }

    /** The "Invest" button. */
    method Open()
      modifies this`showInvestModal
      ensures showInvestModal
    {
      showInvestModal := true;
    }

    /** The "Cancel" button: the modal closes and the typed amount is kept. */
    method Cancel()
      modifies this`showInvestModal
      ensures !showInvestModal
    {
      showInvestModal := false;
    }

    method SetAmount(text: string)
      modifies this`amount
      ensures amount == text
    {
      amount := text;
    }

    method SetInstrument(choice: string)
      modifies this`instrument
      ensures instrument == choice
    {
      instrument := choice;
    }

    /** `disabled={loading || !amount}` */
    function SubmitDisabled(): (disabled: bool)
      reads this
      ensures disabled <==> loading || amount == ""
    {
      loading || amount == ""
    }

    /**
     * `handleInvestment`, run to completion: it inserts the commitment; when
     * that succeeds the modal closes and the amount is cleared, when it fails
     * the form stays as it was; `loading` is false again in both cases.
     */
    method HandleInvestment(succeeded: bool) returns (row: Commitment)
      modifies this`showInvestModal, this`amount, this`loading
      ensures row == CommitmentFor(company.id, old(amount), instrument)
      ensures !loading
      ensures succeeded ==> !showInvestModal && amount == ""
      ensures !succeeded ==> showInvestModal == old(showInvestModal) && amount == old(amount)
    {
      loading := true;
      row := CommitmentFor(company.id, amount, instrument);
      if succeeded {
        showInvestModal := false;
        amount := "";
      }
      loading := false;
    }

    /** The "Submit Investment" button: nothing happens while it is disabled. */
    method ClickSubmit(succeeded: bool) returns (row: Option<Commitment>)
      modifies this`showInvestModal, this`amount, this`loading
      ensures row.None? <==> old(SubmitDisabled())
      ensures row.Some? ==> row.value == CommitmentFor(company.id, old(amount), instrument) && old(amount) != ""
      ensures row.None? ==> showInvestModal == old(showInvestModal) && amount == old(amount) && loading == old(loading)
      ensures row.Some? && succeeded ==> IsClosedAndEmpty()
    {
      if SubmitDisabled() {
        row := None;
      } else {
        var r := HandleInvestment(succeeded);
        row := Some(r);
      }
    }
  }

  /** Follows the test "handles investment form submission" (CompanyCard.test.tsx:66-83): open, type an amount, submit; the modal is gone and the form is clear. */
  method SubmitScenario()
  {
    var c := Company("1", "Test Startup", "fintech", "seed", "", Some(500000.0), 100000.0, Some("John Founder"), None);
    var modal := new InvestModal(c);
    modal.Open();
    var blocked := modal.ClickSubmit(true);
    assert blocked.None? && modal.showInvestModal;
    modal.SetAmount("25000");
    var row := modal.ClickSubmit(true);
    assert row == Some(CommitmentFor("1", "25000", "SAFE"));
    assert modal.IsClosedAndEmpty();
  }
}
