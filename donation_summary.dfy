/**
 * The donations page: the summary it derives from the list of donation
 * records (global total, the signed-in user's total, the user's percentage
 * share and a Gold/Silver/Bronze rating) and the login guard in front of
 * the request that loads the list.
 *
 * Amounts and the percentage are exact reals; the page's floating-point
 * rounding is not modelled.
 */
module DonationSummary {
  import opened Wrappers

  /** One donation record as the page reads it; a field is None when undefined. */
  datatype Donation = Donation(donorEmail: Option<string>, amount: Option<real>)

  /** `Number(donation.amount || 0)`: a missing amount counts as 0. */
  function AmountOf(d: Donation): (a: real)
    ensures d.amount.None? ==> a == 0.0
    ensures d.amount.Some? ==> a == d.amount.value
  {
    d.amount.GetOr(0.0)
  }

  // ---------------------------------------------------------------------------
  // The page's computation
  // ---------------------------------------------------------------------------

  /** `ds.reduce((sum, d) => sum + Number(d.amount || 0), acc)`: a left fold. */
  function Reduce(acc: real, ds: seq<Donation>): real
    decreases |ds|
  {
    if ds == [] then acc else Reduce(acc + AmountOf(ds[0]), ds[1..])
  }

  /** `ds.filter(d => d.donorEmail === email)`, keeping the order of `ds`. */
  function Filter(ds: seq<Donation>, email: string): (mine: seq<Donation>)
    ensures |mine| <= |ds|
    ensures forall d :: d in mine <==> d in ds && d.donorEmail == Some(email)
  {
    if ds == [] then []
    else if ds[0].donorEmail == Some(email) then [ds[0]] + Filter(ds[1..], email)
    else Filter(ds[1..], email)
  }

  function GlobalTotal(ds: seq<Donation>): real {
    Reduce(0.0, ds)
  }

  function UserTotal(ds: seq<Donation>, email: string): real {
    Reduce(0.0, Filter(ds, email))
  }

  /**
   * `global > 0 ? (user / global) * 100 : 0`. Stated without division:
   * for a positive global total the percentage times the total is one
   * hundred times the user's total.
   */
  function Percentage(user: real, global: real): (p: real)
    ensures global <= 0.0 ==> p == 0.0
    ensures global > 0.0 ==> p * global == user * 100.0
  {
    if global > 0.0 then (user / global) * 100.0 else 0.0
  }

  datatype Tier = Bronze | Silver | Gold
  {
    /** The order of the tiers: Bronze < Silver < Gold. */
    function Rank(): nat {
      match this
      case Bronze => 0
      case Silver => 1
      case Gold => 2
    }
  }

  /** The if-chain that picks the rating, checking Gold first. */
  function Rating(p: real): (t: Tier)
    ensures t == Gold <==> p >= 15.0
    ensures t == Silver <==> 5.0 <= p < 15.0
    ensures t == Bronze <==> p < 5.0
  {
    if p >= 15.0 then Gold
    else if p >= 5.0 then Silver
    else Bronze
  }

  datatype Summary = Summary(userTotal: real, globalTotal: real, percentage: real, rating: Tier)

  /** The `useMemo` block: all four values for signed-in user `email`. */
  function Summarize(ds: seq<Donation>, email: string): (s: Summary)
    ensures s.globalTotal == Sum(ds)
    ensures s.userTotal == SumBy(ds, email)
    ensures s.globalTotal <= 0.0 ==> s.percentage == 0.0
    ensures s.globalTotal > 0.0 ==> s.percentage * s.globalTotal == s.userTotal * 100.0
    ensures s.rating == Rating(s.percentage)
  {
    var global := GlobalTotal(ds);
    var user := UserTotal(ds, email);
    var perc := Percentage(user, global);
    GlobalTotalIsSum(ds);
    UserTotalIsSumBy(ds, email);
    Summary(user, global, perc, Rating(perc))
  }

  // ---------------------------------------------------------------------------
  // Reference definitions and the lemmas linking them to the page
  // ---------------------------------------------------------------------------

  /** The sum of all amounts, element by element. */
  function Sum(ds: seq<Donation>): real {
    if ds == [] then 0.0 else AmountOf(ds[0]) + Sum(ds[1..])
  }

  /** The sum of the amounts of exactly the records whose donor is `email`. */
  function SumBy(ds: seq<Donation>, email: string): real {
    if ds == [] then 0.0
    else (if ds[0].donorEmail == Some(email) then AmountOf(ds[0]) else 0.0) + SumBy(ds[1..], email)
  }

  /** The left fold adds the sum of the amounts to its start value. */
  lemma {:induction false} ReduceIsSum(acc: real, ds: seq<Donation>)
    ensures Reduce(acc, ds) == acc + Sum(ds)
    decreases |ds|
  {
    if ds != [] {
      ReduceIsSum(acc + AmountOf(ds[0]), ds[1..]);
    }
  }

  lemma GlobalTotalIsSum(ds: seq<Donation>)
    ensures GlobalTotal(ds) == Sum(ds)
  {
    ReduceIsSum(0.0, ds);
  }

  /** Summing the filtered list is summing the user's own records. */
  lemma {:induction false} SumOfFilter(ds: seq<Donation>, email: string)
    ensures Sum(Filter(ds, email)) == SumBy(ds, email)
  {
    if ds != [] {
      SumOfFilter(ds[1..], email);
      if ds[0].donorEmail == Some(email) {
        assert ([ds[0]] + Filter(ds[1..], email))[1..] == Filter(ds[1..], email);
      }
    }
  }

  lemma UserTotalIsSumBy(ds: seq<Donation>, email: string)
    ensures UserTotal(ds, email) == SumBy(ds, email)
  {
    ReduceIsSum(0.0, Filter(ds, email));
    SumOfFilter(ds, email);
  }

  ghost predicate NonNegative(ds: seq<Donation>) {
    forall i :: 0 <= i < |ds| ==> AmountOf(ds[i]) >= 0.0
  }

  lemma {:induction false} SumByBounds(ds: seq<Donation>, email: string)
    requires NonNegative(ds)
    ensures 0.0 <= SumBy(ds, email) <= Sum(ds)
  {
    if ds != [] {
      assert AmountOf(ds[0]) >= 0.0;
      assert NonNegative(ds[1..]) by {
        forall i | 0 <= i < |ds[1..]| ensures AmountOf(ds[1..][i]) >= 0.0 {
          assert ds[1..][i] == ds[i + 1];
        }
      }
      SumByBounds(ds[1..], email);
    }
  }

  /** Multiplying both sides by a positive factor keeps a comparison. */
  lemma ScaleComparison(x: real, y: real, g: real)
    requires g > 0.0
    ensures x <= y <==> x * g <= y * g
    ensures x < y <==> x * g < y * g
  {
  }

  /** With no negative amounts, the share lies between 0 and 100 percent. */
  lemma PercentageBounds(user: real, global: real)
    requires 0.0 <= user <= global
    ensures 0.0 <= Percentage(user, global) <= 100.0
  {
    if global > 0.0 {
      var p := Percentage(user, global);
      ScaleComparison(0.0, p, global);
      ScaleComparison(p, 100.0, global);
    }
  }

  /** With no negative amounts, 0 <= user total <= global total and 0 <= percentage <= 100. */
  lemma SummaryBounds(ds: seq<Donation>, email: string)
    requires NonNegative(ds)
    ensures var s := Summarize(ds, email);
            0.0 <= s.userTotal <= s.globalTotal && 0.0 <= s.percentage <= 100.0
  {
    SumByBounds(ds, email);
    var s := Summarize(ds, email);
    PercentageBounds(s.userTotal, s.globalTotal);
  }

  /** The rating never decreases as the percentage grows. */
  lemma RatingMonotone(p: real, q: real)
    requires p <= q
    ensures Rating(p).Rank() <= Rating(q).Rank()
  {
  }

  /** The tiers by cross-multiplication, for a positive global total: no division needed. */
  lemma RatingByCrossMultiplication(user: real, global: real)
    requires global > 0.0
    ensures var t := Rating(Percentage(user, global));
            && (t == Gold <==> user * 100.0 >= 15.0 * global)
            && (t == Silver <==> 5.0 * global <= user * 100.0 < 15.0 * global)
            && (t == Bronze <==> user * 100.0 < 5.0 * global)
  {
    var p := Percentage(user, global);
    ScaleComparison(15.0, p, global);
    ScaleComparison(5.0, p, global);
  }

  /** A user with no records of their own has total 0, share 0 and rating Bronze. */
  lemma {:induction false} NoRecordsMeansBronze(ds: seq<Donation>, email: string)
    requires forall i :: 0 <= i < |ds| ==> ds[i].donorEmail != Some(email)
    ensures var s := Summarize(ds, email);
            s.userTotal == 0.0 && s.percentage == 0.0 && s.rating == Bronze
  {
    if ds != [] {
      NoRecordsMeansBronze(ds[1..], email);
    }
  }

  /** Records d1 = 100 and d2 = 300: d1 has 25% and Gold, d2 has 75% and Gold, d3 has 0% and Bronze. */
  lemma TwoDonorsExample()
    ensures var ds := [Donation(Some("d1"), Some(100.0)), Donation(Some("d2"), Some(300.0))];
            && Summarize(ds, "d1") == Summary(100.0, 400.0, 25.0, Gold)
            && Summarize(ds, "d2") == Summary(300.0, 400.0, 75.0, Gold)
            && Summarize(ds, "d3") == Summary(0.0, 400.0, 0.0, Bronze)
  {
    var ds := [Donation(Some("d1"), Some(100.0)), Donation(Some("d2"), Some(300.0))];
    assert ds[1..] == [Donation(Some("d2"), Some(300.0))];
    assert ds[1..][1..] == [];
  }

  // ---------------------------------------------------------------------------
  // Loading the list
  // ---------------------------------------------------------------------------

  /** What the request for `/all-donations` comes back with. */
  datatype FetchOutcome =
    | Fetched(data: seq<Donation>)   // `res.ok`, body parsed
    | NotOk                          // `!res.ok`: the page throws its own error
    | Failed(message: string)        // the request or the parse threw, with this message

  const NoEmailError := "No user email found (user not logged in?)."
  const NotOkError := "Failed to fetch donations"
  const GenericError := "An error occurred."

  /** The page's state: the list shown, the spinner, the error banner. */
  class DonationsPage {
    var donations: seq<Donation>
    var loading: bool
    var error: string

    constructor ()
      ensures donations == [] && loading && error == ""
    {
      donations := [];
      loading := true;
      error := "";
    }

    /**
     * `fetchDonations`: without a signed-in email, an error and no request;
     * otherwise a request whose outcome either replaces the list or sets the
     * error, and the spinner stops in every case.
     */
    method FetchDonations(userEmail: string, outcome: FetchOutcome) returns (requested: bool)
      modifies this
      ensures requested <==> userEmail != ""
      ensures !loading
      ensures !requested ==> error == NoEmailError && donations == old(donations)
      ensures requested && outcome.Fetched? ==> error == "" && donations == outcome.data
      ensures requested && outcome.NotOk? ==> error == NotOkError && donations == old(donations)
      ensures requested && outcome.Failed? ==>
                && error == (if outcome.message != "" then outcome.message else GenericError)
                && donations == old(donations)
    {
      if userEmail == "" {
        error := NoEmailError;
        loading := false;
        return false;
      }
      requested := true;
      loading := true;
      error := "";
      match outcome {
        case Fetched(data) =>
          donations := data;
        case NotOk =>
          error := NotOkError;
        case Failed(message) =>
          error := if message != "" then message else GenericError;
      }
      loading := false;
    }
  }
}
