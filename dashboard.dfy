/**
 * The dashboard page: the check-list rendering of the AI tips, the choice
 * between Markdown and check-list rendering, the donate dialog's input
 * guard, and the spending total and maximum shown on the cards.
 */
module Dashboard {
  import opened Wrappers
  import opened JsText
  import LowIncomeQueue

  // ---------------------------------------------------------------------------
  // renderCheckList
  // ---------------------------------------------------------------------------

  /** `lines.filter(line => line.trim() !== "")`. */
  function NonBlankLines(lines: seq<string>): (kept: seq<string>)
    ensures |kept| <= |lines|
    ensures forall x :: x in kept <==> x in lines && Trim(x) != ""
  {
    if lines == [] then []
    else if Trim(lines[0]) != "" then [lines[0]] + NonBlankLines(lines[1..])
    else NonBlankLines(lines[1..])
  }

  /** `lines.map(line => line.trim())`. */
  function TrimAll(lines: seq<string>): (trimmed: seq<string>)
    ensures |trimmed| == |lines|
    ensures forall k :: 0 <= k < |lines| ==> trimmed[k] == Trim(lines[k])
  {
    if lines == [] then [] else [Trim(lines[0])] + TrimAll(lines[1..])
  }

  /** The list elements rendered for a sequence of lines. */
  function Items(lines: seq<string>): seq<string> {
    TrimAll(NonBlankLines(lines))
  }

  /** The items `renderCheckList(text)` shows, one list element each. */
  function CheckListItems(text: string): (items: seq<string>)
    ensures |items| <= |SplitLines(text)|
    ensures forall k :: 0 <= k < |items| ==>
              && items[k] != ""
              && !IsWhitespace(items[k][0])
              && !IsWhitespace(items[k][|items[k]| - 1])
  {
    var kept := NonBlankLines(SplitLines(text));
    var items := TrimAll(kept);
    forall k | 0 <= k < |items|
      ensures items[k] != "" && !IsWhitespace(items[k][0]) && !IsWhitespace(items[k][|items[k]| - 1])
    {
      assert kept[k] in kept;
    }
    items
  }

  /** A string is an item exactly when it is the trimmed form of some non-blank line. */
  lemma CheckListItemsExactly(text: string, x: string)
    ensures x in CheckListItems(text) <==>
              exists line :: line in SplitLines(text) && Trim(line) != "" && Trim(line) == x
  {
    var kept := NonBlankLines(SplitLines(text));
    var items := CheckListItems(text);
    if x in items {
      var k :| 0 <= k < |items| && items[k] == x;
      assert kept[k] in kept;
    }
    if line :| line in SplitLines(text) && Trim(line) != "" && Trim(line) == x {
      var k :| 0 <= k < |kept| && kept[k] == line;
      assert items[k] == x;
    }
  }

  /** A single line yields one item, its trimmed form, unless it is blank. */
  lemma ItemsOfOneLine(line: string)
    ensures Items([line]) == if Trim(line) != "" then [Trim(line)] else []
  {
    assert [line][1..] == [];
  }

  /**
   * Rendering keeps the relative order of the lines: the items of two
   * consecutive stretches of lines are the items of the first followed by
   * the items of the second.
   */
  lemma {:induction false} ItemsAppend(a: seq<string>, b: seq<string>)
    ensures Items(a + b) == Items(a) + Items(b)
  {
    NonBlankLinesAppend(a, b);
    TrimAllAppend(NonBlankLines(a), NonBlankLines(b));
  }

  lemma {:induction false} NonBlankLinesAppend(a: seq<string>, b: seq<string>)
    ensures NonBlankLines(a + b) == NonBlankLines(a) + NonBlankLines(b)
  {
    if a == [] {
      assert a + b == b;
    } else {
      assert (a + b)[0] == a[0];
      assert (a + b)[1..] == a[1..] + b;
      NonBlankLinesAppend(a[1..], b);
    }
  }

  lemma {:induction false} TrimAllAppend(a: seq<string>, b: seq<string>)
    ensures TrimAll(a + b) == TrimAll(a) + TrimAll(b)
  {
    if a == [] {
      assert a + b == b;
    } else {
      assert (a + b)[1..] == a[1..] + b;
      TrimAllAppend(a[1..], b);
    }
  }

  /** Each item is its own trimmed form, and its characters come from the text. */
  lemma CheckListItemsTrimmed(text: string)
    ensures forall k :: 0 <= k < |CheckListItems(text)| ==> Trim(CheckListItems(text)[k]) == CheckListItems(text)[k]
    ensures forall k, c :: 0 <= k < |CheckListItems(text)| && c in CheckListItems(text)[k] ==> c in text
  {
    var lines := SplitLines(text);
    var kept := NonBlankLines(lines);
    var items := CheckListItems(text);
    forall k | 0 <= k < |items|
      ensures Trim(items[k]) == items[k]
      ensures forall c :: c in items[k] ==> c in text
    {
      assert kept[k] in kept;
      TrimIdempotent(kept[k]);
      TrimmedPart(kept[k]);
    }
  }

  // ---------------------------------------------------------------------------
  // The tips card
  // ---------------------------------------------------------------------------

  datatype TipsView = Markdown(source: string) | CheckList(items: seq<string>)

  /** The tips render as Markdown when they contain `-` or `*`, as a check list otherwise. */
  function RenderTips(tips: string): (v: TipsView)
    ensures v.Markdown? <==> '-' in tips || '*' in tips
    ensures v.Markdown? ==> v.source == tips
    ensures v.CheckList? ==> v.items == CheckListItems(tips)
  {
    if '-' in tips || '*' in tips then Markdown(tips) else CheckList(CheckListItems(tips))
  }

  /** A check list never shows a `-` or `*`: those texts go to Markdown instead. */
  lemma CheckListHasNoMarkup(tips: string)
    requires RenderTips(tips).CheckList?
    ensures forall k :: 0 <= k < |RenderTips(tips).items| ==>
              '-' !in RenderTips(tips).items[k] && '*' !in RenderTips(tips).items[k]
  {
    CheckListItemsTrimmed(tips);
  }

  // ---------------------------------------------------------------------------
  // The donate dialog
  // ---------------------------------------------------------------------------

  /** The guard of `handleDonate`: recipient and donor non-empty, amount positive. */
  predicate CanSend(recipientEmail: string, donorEmail: string, amount: real) {
    recipientEmail != "" && donorEmail != "" && amount > 0.0
  }

  /** The body `handleDonate` posts to `/donate`. */
  function RequestBody(recipientEmail: string, donorEmail: string, amount: real): LowIncomeQueue.DonateRequest {
    LowIncomeQueue.DonateRequest(Some(donorEmail), Some(recipientEmail), Some(amount))
  }

  /** The dialog's guard and the backend's input check agree on every body the dialog can build. */
  lemma GuardMatchesBackend(recipientEmail: string, donorEmail: string, amount: real)
    ensures CanSend(recipientEmail, donorEmail, amount) <==>
              LowIncomeQueue.ValidDonation(RequestBody(recipientEmail, donorEmail, amount))
    ensures CanSend(recipientEmail, donorEmail, amount) ==>
              forall c :: LowIncomeQueue.DonateVerdict(c, RequestBody(recipientEmail, donorEmail, amount)) != LowIncomeQueue.InvalidDonation
  {
  }

  /** What the POST to `/donate` comes back with. */
  datatype DonateResponse =
    | Answered(ok: bool, error: Option<string>)   // `res.ok` and the body's `error` field
    | Threw(message: string)                      // the request or the parse threw, with this message

  const FillInError := "Please fill in all fields properly."
  const DonationFailed := "Donation failed."
  const NetworkError := "Network error."
  const DonationSucceeded := "Donation successful!"

  /** The dialog's state. */
  class DonateModal {
    var recipientEmail: string
    var donorEmail: string
    var amount: real
    var error: string
    var success: string

    constructor ()
      ensures recipientEmail == "" && donorEmail == "" && amount == 50.0
      ensures error == "" && success == ""
    {
      recipientEmail, donorEmail, amount := "", "", 50.0;
      error, success := "", "";
    }

    /**
     * `handleDonate`: fails the guard with an error and no request;
     * otherwise posts the body and shows success or the error the answer
     * carries. Returns the request posted, if any.
     */
    method HandleDonate(response: DonateResponse) returns (sent: Option<LowIncomeQueue.DonateRequest>)
      modifies this`error, this`success
      ensures sent.None? <==> !CanSend(recipientEmail, donorEmail, amount)
      ensures sent.None? ==> error == FillInError && success == ""
      ensures sent.Some? ==> sent.value == RequestBody(recipientEmail, donorEmail, amount)
      ensures sent.Some? ==>
                match response
                case Answered(ok, err) =>
                  if ok then success == DonationSucceeded && error == ""
                  else success == "" && error == (if err.Some? && err.value != "" then err.value else DonationFailed)
                case Threw(message) =>
                  success == "" && error == (if message != "" then message else NetworkError)
    {
      error := "";
      success := "";
      if recipientEmail == "" || donorEmail == "" || amount <= 0.0 {
        error := FillInError;
        return None;
      }
      sent := Some(RequestBody(recipientEmail, donorEmail, amount));
      match response {
        case Answered(ok, err) =>
          if !ok {
            error := if err.Some? && err.value != "" then err.value else DonationFailed;
            return;
          }
          success := DonationSucceeded;
        case Threw(message) =>
          error := if message != "" then message else NetworkError;
      }
    }
  }

  // ---------------------------------------------------------------------------
  // Spending cards
  // ---------------------------------------------------------------------------

  datatype Category = Category(name: string, value: int)

  /** The page's fixed spending breakdown. */
  const SpendingData: seq<Category> := [
    Category("Housing", 1500),
    Category("Food", 500),
    Category("Transportation", 300),
    Category("Utilities", 200),
    Category("Entertainment", 150)
  ]

  /** `cs.reduce((sum, item) => sum + item.value, acc)`: a left fold. */
  function ReduceValues(acc: int, cs: seq<Category>): int
    decreases |cs|
  {
    if cs == [] then acc else ReduceValues(acc + cs[0].value, cs[1..])
  }

  /** `totalSpent`. */
  function TotalSpent(cs: seq<Category>): int {
    ReduceValues(0, cs)
  }

  /** The sum of the values, element by element. */
  function SumValues(cs: seq<Category>): int {
    if cs == [] then 0 else cs[0].value + SumValues(cs[1..])
  }

  lemma {:induction false} ReduceValuesIsSum(acc: int, cs: seq<Category>)
    ensures ReduceValues(acc, cs) == acc + SumValues(cs)
    decreases |cs|
  {
    if cs != [] {
      ReduceValuesIsSum(acc + cs[0].value, cs[1..]);
    }
  }

  /** `totalSpent` is the sum of the values. */
  lemma TotalSpentIsSum(cs: seq<Category>)
    ensures TotalSpent(cs) == SumValues(cs)
  {
    ReduceValuesIsSum(0, cs);
  }

  /** The result of `Math.max`: over no arguments it is minus infinity. */
  datatype MaxValue = NegativeInfinity | Finite(value: int)

  /** `Math.max(...cs.map(item => item.value))`: at least every value and equal to one of them. */
  function HighestExpenditure(cs: seq<Category>): (m: MaxValue)
    ensures m.NegativeInfinity? <==> cs == []
    ensures m.Finite? ==> forall i :: 0 <= i < |cs| ==> cs[i].value <= m.value
    ensures m.Finite? ==> exists i :: 0 <= i < |cs| && cs[i].value == m.value
  {
    if cs == [] then NegativeInfinity
    else
      var rest := HighestExpenditure(cs[1..]);
      if rest.Finite? && rest.value > cs[0].value then
        assert exists i :: 0 <= i < |cs[1..]| && cs[1..][i].value == rest.value;
        var i :| 0 <= i < |cs[1..]| && cs[1..][i].value == rest.value;
        assert cs[i + 1].value == rest.value;
        rest
      else
        Finite(cs[0].value)
  }

  /** With no negative values, the highest value is at most the total. */
  lemma {:induction false} HighestAtMostTotal(cs: seq<Category>)
    requires cs != []
    requires forall i :: 0 <= i < |cs| ==> cs[i].value >= 0
    ensures HighestExpenditure(cs).value <= TotalSpent(cs)
  {
    TotalSpentIsSum(cs);
    var m := HighestExpenditure(cs);
    var i :| 0 <= i < |cs| && cs[i].value == m.value;
    ValueAtMostSum(cs, i);
  }

  lemma {:induction false} ValueAtMostSum(cs: seq<Category>, i: nat)
    requires i < |cs|
    requires forall j :: 0 <= j < |cs| ==> cs[j].value >= 0
    ensures cs[i].value <= SumValues(cs)
  {
    if i == 0 {
      NonNegativeSum(cs[1..]);
    } else {
      ValueAtMostSum(cs[1..], i - 1);
    }
  }

  lemma {:induction false} NonNegativeSum(cs: seq<Category>)
    requires forall j :: 0 <= j < |cs| ==> cs[j].value >= 0
    ensures SumValues(cs) >= 0
  {
    if cs != [] {
      NonNegativeSum(cs[1..]);
    }
  }

  /** The cards show a total of 2650 and a highest expenditure of 1500. */
  lemma SpendingCards()
    ensures TotalSpent(SpendingData) == 2650
    ensures HighestExpenditure(SpendingData) == Finite(1500)
  {
    TotalSpentIsSum(SpendingData);
    var d := SpendingData;
    assert d[1..][1..][1..][1..][1..] == [];
    assert SumValues(d[1..][1..][1..][1..]) == 150;
    assert SumValues(d[1..][1..][1..]) == 350;
    assert SumValues(d[1..][1..]) == 650;
    assert SumValues(d[1..]) == 1150;
    assert HighestExpenditure(d[1..][1..][1..][1..]) == Finite(150);
    assert HighestExpenditure(d[1..][1..][1..]) == Finite(200);
    assert HighestExpenditure(d[1..][1..]) == Finite(300);
    assert HighestExpenditure(d[1..]) == Finite(500);
  }
}
