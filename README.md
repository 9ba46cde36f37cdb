# WeSave donation queue and dashboard logic, modelled in Dafny

This project models the decision logic of the WeSave personal-finance app. It has four parts:

- **The low-income assistance queue** (`low_income_queue.dfy`, module `LowIncomeQueue`). This is the backend's `low_income_users` collection, keyed by applicant email. It is a class `LowIncomeStore` with a `map<string, Entry>` field and three request handlers:
  - `SubmitLowIncome` writes or overwrites an entry and marks it unpaid.
  - `GetNextLowIncomeUser` returns the unpaid entry with the smallest timestamp, or 404.
  - `Donate` validates its input, answers 404 for an unknown recipient and 400 for one already paid, and otherwise marks the recipient paid.

  The store's server timestamp is a counter (`clock`). The store hands it out in increasing order, one tick per submission. So no two entries share a timestamp, and the queue head is unique.
- **The donation summary** (`donation_summary.dfy`, module `DonationSummary`). The donations page computes a global total, the signed-in user's total, the user's percentage share and a Gold/Silver/Bronze rating. Amounts are exact reals. The page's left folds are related to element-by-element reference sums. The login guard in front of the page's fetch is a method on a small page-state class.
- **The dashboard helpers** (`dashboard.dfy`, module `Dashboard`):
  - the check-list rendering of the AI tips, and the choice between Markdown and check list;
  - the donate dialog's guard and what the dialog posts;
  - the spending total and maximum.
- **Two JavaScript string builtins** that the check list uses (`js_text.dfy`, module `JsText`): `split("\n")` and `trim()`, with ECMAScript's whitespace set written out.
- `wrappers.dfy` holds an `Option` type. `None` stands for a JSON key that is absent or a field that is `undefined`.

The backend has no claim tokens, no donation ledger and no duplicate-applicant check, and the model follows the code. Three behaviours of the code are reproduced and proved, not fixed:
- `donate` accepts any unpaid recipient, not only the queue head (`DonationIgnoresQueueOrder`).
- `donate` writes no donation record.
- A resubmission resets an entry, including a paid one (`ResubmissionReopensEntry`, `SubmissionJoinsAtBack`).

The percentage is 0 whenever the global total is not positive. The code tests `global > 0`, not `global != 0`.

## Model

| member | source | states |
|---|---|---|
| `LowIncomeQueue.NewEntry` | backend/main.py:162-176 | The written document is unpaid and carries the email and the fresh timestamp. It stores the given answers and the given file name as they are, and defaults missing answers to `{}` and a missing file name to `""`. |
| `LowIncomeQueue.ValidDonation` | backend/main.py:235-237 | The input check of `/donate`: donor and recipient present and non-empty, and the amount positive, with an absent amount counting as 0. It has no contract of its own. `DonateVerdict` states that a request failing it gets 400, and `GuardMatchesBackend` states that it agrees with the dialog's guard. |
| `LowIncomeQueue.LowIncomeStore.SubmitLowIncome` | backend/main.py:160-178 | A missing or empty email gives 400 and changes nothing. Otherwise the reply is 200 and exactly the entry for that email is replaced by a fresh unpaid one: `isPaid` and the timestamp are reset, and other entries are unchanged. The store invariant (keyed by email, timestamps below the clock and distinct) is kept. |
| `LowIncomeQueue.LowIncomeStore.GetNextLowIncomeUser` | backend/main.py:193-210 | Changes nothing. It returns an entry only if that entry is unpaid and no unpaid entry is older, together with its document id. It gives 404 exactly when no entry is unpaid. |
| `LowIncomeQueue.DonateVerdict` | backend/main.py:237-247 | Missing donor or recipient, or a non-positive or missing amount, gives 400. An unknown recipient gives 404. A paid recipient gives 400. The reply is 200 exactly when the input is valid and the recipient is unpaid. |
| `LowIncomeQueue.MarkPaid` | backend/main.py:250 | The same keys; only the recipient's `isPaid` becomes true, and every other field and entry is unchanged. |
| `LowIncomeQueue.DonateRepliesDistinguishable` | backend/main.py:238-268 | Every reply of `/donate` carries a non-empty message. A success is never confused with a failure, and two failure replies with the same status and message are the same reply, so the two 400 replies (invalid input, already paid) are told apart by their message. Two successes share status and message and differ only in `paidUser`. |
| `LowIncomeQueue.LowIncomeStore.Donate` | backend/main.py:231-268 | The reply is `DonateVerdict` of the old collection. On success the collection becomes `MarkPaid`; on every failure it is unchanged. The clock never moves. Mail delivery affects only whether a notification went out, never the reply or the state. |
| `LowIncomeQueue.HeadExists` | backend/main.py:196-210 | If any entry is unpaid, a head exists, so "none" is returned only when the queue is empty. |
| `LowIncomeQueue.HeadUnique` | backend/main.py:197 | With distinct timestamps there is at most one head. |
| `LowIncomeQueue.PaidRecipientLeavesQueue` | backend/main.py:246-250 | After a donation to a recipient, that recipient is neither unpaid nor the head. |
| `LowIncomeQueue.SecondDonationFails` | backend/main.py:240-250 | After a successful donation, any second donation to the same recipient is refused with 400. |
| `LowIncomeQueue.DonationIgnoresQueueOrder` | backend/main.py:240-250 | A valid donation to an unpaid recipient that is not the head succeeds, and the head stays the head. |
| `LowIncomeQueue.PayingHeadAdvances` | backend/main.py:197 | After paying the head, the new heads are exactly the oldest of the remaining unpaid entries. |
| `LowIncomeQueue.SubmissionJoinsAtBack` | backend/main.py:169-176 | A submitted or resubmitted entry gets the newest timestamp. It is the head exactly when it is the only unpaid entry. |
| `LowIncomeQueue.ResubmissionReopensEntry` | backend/main.py:169-176 | After a resubmission, a valid donation to that email succeeds, even if it was paid before. |
| `LowIncomeQueue.QueueScenario` | backend/main.py:160-268 | An end-to-end example, not a handler, with no contract of its own. Its assertions, proved from the class's contracts, play two applicants through the store: submit `a` and then `b`; the head is `a`; paying `a` succeeds; a second payment to `a` is refused with 400; the head becomes `b`. |
| `DonationSummary.AmountOf` | frontend/app/Donations/page.tsx:55 | A missing amount counts as 0; a present amount counts as itself. |
| `DonationSummary.Reduce` | frontend/app/Donations/page.tsx:54-56 | The page's left fold over the amounts. It has no contract of its own; `ReduceIsSum` states its meaning. |
| `DonationSummary.GlobalTotal` | frontend/app/Donations/page.tsx:54-56 | `global`, the fold from 0 over all records. It has no contract of its own; `GlobalTotalIsSum` states that it is the sum of all amounts. |
| `DonationSummary.UserTotal` | frontend/app/Donations/page.tsx:58-60 | `userSum`, the fold from 0 over the user's filtered records. It has no contract of its own; `UserTotalIsSumBy` states that it sums exactly the user's records. |
| `DonationSummary.Filter` | frontend/app/Donations/page.tsx:58-59 | The result holds exactly the records of `ds` whose donor equals the user's email, and is no longer than `ds`. |
| `DonationSummary.ReduceIsSum` | frontend/app/Donations/page.tsx:54-56 | The page's left fold equals its start value plus the element-by-element sum of the amounts, with a missing amount counting as 0. |
| `DonationSummary.GlobalTotalIsSum` | frontend/app/Donations/page.tsx:54-56 | `globalTotal` is the sum of all amounts. |
| `DonationSummary.SumOfFilter` | frontend/app/Donations/page.tsx:58-60 | Summing the filtered records equals summing the amounts of exactly the user's own records. |
| `DonationSummary.UserTotalIsSumBy` | frontend/app/Donations/page.tsx:58-60 | `userTotal` is the sum of the amounts of exactly the records whose donor is the user. |
| `DonationSummary.Percentage` | frontend/app/Donations/page.tsx:62 | The percentage is 0 when the global total is not positive. Otherwise the percentage times the global total is 100 times the user total. |
| `DonationSummary.Rating` | frontend/app/Donations/page.tsx:65-72 | Gold iff the percentage is at least 15, Silver iff at least 5 and below 15, Bronze iff below 5. |
| `DonationSummary.Summarize` | frontend/app/Donations/page.tsx:52-74 | The four values: the global sum, the user's own sum, their percentage relation, and the rating of that percentage. |
| `DonationSummary.SumByBounds` | frontend/app/Donations/page.tsx:54-60 | With no negative amounts, 0 <= the user's sum <= the global sum. |
| `DonationSummary.PercentageBounds` | frontend/app/Donations/page.tsx:62 | If 0 <= user total <= global total, the percentage is between 0 and 100. |
| `DonationSummary.SummaryBounds` | frontend/app/Donations/page.tsx:52-74 | With no negative amounts, 0 <= userTotal <= globalTotal and 0 <= percentage <= 100. |
| `DonationSummary.RatingMonotone` | frontend/app/Donations/page.tsx:65-72 | The tier never decreases as the percentage grows. |
| `DonationSummary.RatingByCrossMultiplication` | frontend/app/Donations/page.tsx:62-72 | For a positive global total the tiers are decided without division: Gold iff 100·user >= 15·global, Silver iff 5·global <= 100·user < 15·global, Bronze iff 100·user < 5·global. |
| `DonationSummary.NoRecordsMeansBronze` | frontend/app/Donations/page.tsx:58-72 | A user with no records has total 0, percentage 0 and rating Bronze. |
| `DonationSummary.TwoDonorsExample` | frontend/app/Donations/page.tsx:52-74 | Records of 100 by d1 and 300 by d2 give d1 25% Gold, d2 75% Gold, and d3 0% Bronze. |
| `DonationSummary.DonationsPage.FetchDonations` | frontend/app/Donations/page.tsx:20-41 | Without an email an error is set and no request is issued. With an email, the list is replaced on success or an error is set from the failure. The spinner ends off in every case. |
| `JsText.SplitLines` | frontend/app/mainpage/page.tsx:50 | At least one piece; no piece contains a newline; every character of a piece comes from the text. |
| `JsText.SplitJoinRoundTrip` | frontend/app/mainpage/page.tsx:50 | Joining the pieces with newlines gives back the text. |
| `JsText.SplitLinesCount` | frontend/app/mainpage/page.tsx:50 | There is one more piece than there are newlines. |
| `JsText.TrimStart` | frontend/app/mainpage/page.tsx:56 | The leading half of `trim()`: no longer than the input, and empty or starting with a non-whitespace character. `TrimStartDropsWhitespace` states what it drops. |
| `JsText.TrimEnd` | frontend/app/mainpage/page.tsx:56 | The trailing half of `trim()`: no longer than the input, and empty or ending with a non-whitespace character. `TrimEndDropsWhitespace` states what it drops. |
| `JsText.Trim` | frontend/app/mainpage/page.tsx:56 | The result is no longer than the input, and is empty or starts and ends with a non-whitespace character. |
| `JsText.TrimStartDropsWhitespace` | frontend/app/mainpage/page.tsx:56 | Leading trimming keeps a suffix and drops only whitespace. |
| `JsText.TrimEndDropsWhitespace` | frontend/app/mainpage/page.tsx:56 | Trailing trimming keeps a prefix and drops only whitespace. |
| `JsText.TrimmedPart` | frontend/app/mainpage/page.tsx:50 | The trimmed string is a contiguous part of the input, and is empty exactly when the input is all whitespace. |
| `JsText.TrimIdempotent` | frontend/app/mainpage/page.tsx:56 | Trimming twice is trimming once. |
| `Dashboard.NonBlankLines` | frontend/app/mainpage/page.tsx:50 | Keeps exactly the lines whose trimmed form is non-empty, and no more lines than it was given. |
| `Dashboard.TrimAll` | frontend/app/mainpage/page.tsx:53-56 | Same length; each element is the trimmed line at the same position. |
| `Dashboard.Items` | frontend/app/mainpage/page.tsx:50-56 | The list elements for a sequence of lines: the non-blank lines, each trimmed. It has no contract of its own; `ItemsOfOneLine` and `ItemsAppend` state it line by line and in order. |
| `Dashboard.CheckListItems` | frontend/app/mainpage/page.tsx:49-61 | At most one item per newline-separated piece. Each item is non-empty and neither starts nor ends with whitespace. |
| `Dashboard.CheckListItemsExactly` | frontend/app/mainpage/page.tsx:50-56 | A string is an item iff it is the trimmed form of some non-blank piece, so blank and whitespace-only lines are dropped. |
| `Dashboard.ItemsOfOneLine` | frontend/app/mainpage/page.tsx:50-56 | One line yields its trimmed form, or nothing when it is blank. |
| `Dashboard.ItemsAppend` | frontend/app/mainpage/page.tsx:50-53 | Items keep the relative order of the lines: the items of `a + b` are the items of `a` followed by the items of `b`. |
| `Dashboard.NonBlankLinesAppend` | frontend/app/mainpage/page.tsx:50 | The line filter distributes over concatenation. |
| `Dashboard.TrimAllAppend` | frontend/app/mainpage/page.tsx:53-56 | The trimming map distributes over concatenation. |
| `Dashboard.CheckListItemsTrimmed` | frontend/app/mainpage/page.tsx:56 | Every item is already trimmed, and all its characters occur in the tips text. |
| `Dashboard.RenderTips` | frontend/app/mainpage/page.tsx:392-398 | Markdown iff the text contains `-` or `*`, showing the text itself; otherwise the check list of the text. |
| `Dashboard.CheckListHasNoMarkup` | frontend/app/mainpage/page.tsx:392-397 | A rendered check list never shows a `-` or `*`. |
| `Dashboard.CanSend` | frontend/app/mainpage/page.tsx:100 | The dialog's guard: recipient and donor non-empty and amount positive. It has no contract of its own; `GuardMatchesBackend` states that it agrees with the backend's input check, and `DonateModal.HandleDonate` that nothing is sent when it fails. |
| `Dashboard.RequestBody` | frontend/app/mainpage/page.tsx:109-113 | The `{donorEmail, recipientEmail, amount}` body the dialog posts, every field present. It has no contract of its own; `GuardMatchesBackend` and `DonateModal.HandleDonate` state what is sent. |
| `Dashboard.GuardMatchesBackend` | frontend/app/mainpage/page.tsx:100-114 | The dialog's guard holds iff the backend's input check accepts the body the dialog posts, so a posted body is never refused as invalid input. |
| `Dashboard.DonateModal.HandleDonate` | frontend/app/mainpage/page.tsx:96-125 | With an empty recipient, an empty donor or an amount <= 0, no request is sent and the fill-in error is set. Otherwise the body `{donorEmail, recipientEmail, amount}` is sent. Success or the answer's error (or the default error) is then shown. The form fields never change. |
| `Dashboard.ReduceValues` | frontend/app/mainpage/page.tsx:42 | The fold over the spending items. It has no contract of its own; `ReduceValuesIsSum` states its meaning. |
| `Dashboard.TotalSpent` | frontend/app/mainpage/page.tsx:42 | `totalSpent`, the fold from 0. It has no contract of its own; `TotalSpentIsSum` states that it is the sum of the values. |
| `Dashboard.ReduceValuesIsSum` | frontend/app/mainpage/page.tsx:42 | The fold over the spending items equals its start value plus the sum of their values. |
| `Dashboard.TotalSpentIsSum` | frontend/app/mainpage/page.tsx:42 | `totalSpent` is the sum of the values. |
| `Dashboard.HighestExpenditure` | frontend/app/mainpage/page.tsx:43 | Minus infinity exactly for no items. Otherwise the result is at least every value and equal to one of them. |
| `Dashboard.HighestAtMostTotal` | frontend/app/mainpage/page.tsx:42-43 | With no negative values, the highest value is at most the total. |
| `Dashboard.SpendingCards` | frontend/app/mainpage/page.tsx:25-43 | For the page's fixed data the total is 2650 and the highest expenditure is 1500. |

## Left out

- Error replies with status 500: a missing or non-JSON body, a JSON body that is not an object (`[]`, `42`, `null`, on which `data.get` raises), a store failure, or a document id the store refuses.
- JSON values of other types: the request datatypes hold strings for the emails and a number for the amount, so other values are outside the model. The backend treats them as follows:
  - A falsy non-string email (`0`, `false`, `[]`, `{}`) gets 400 from the email test in `submit_low_income`. A truthy one is handed to the store as a document id.
  - An amount of `true` or `false` compares with 0 as 1 or 0. So `true` passes the input check of `/donate` and `false` gets 400.
  - An amount of `NaN` or `Infinity`, which Python's JSON parser accepts, passes `amount <= 0`, so `/donate` answers 200 for it. The model's amounts are exact reals and have neither value.
  - An amount of `null` or a string makes the comparison raise, giving 500. This happens only when both emails are present, because the input check stops at the first missing email.
  - An `answers` or `uploadedFileName` key sent as `null` reads as `None`, not as the default, and the store saves that `None` as it is. In the model `None` means an absent key, so `NewEntry` gives it the default `{}` or `""`.
- Concurrency: `donate` reads and then updates without a transaction, so two concurrent donations could both succeed. Calls are modelled one after another.
- The mail server: sending is a boolean parameter of `Donate`, and the message text is not built.
- Ties between server timestamps: the model's clock is strictly increasing, so ties do not arise.
- The donation list comes from `/all-donations`, which is not part of this model. The summary takes the list as input, and `donate` writes no record to it.
- Floating point: the percentage's rounding, `toFixed`/`toLocaleString` formatting, `charityAmount = totalSpent * 0.01`, and `NaN` amounts. Amounts and the percentage are exact reals.
- GuardMatchesBackend: holds for finite amounts only. The dialog's guard lets `amount = Infinity` through (from `Number("1e999")`, say); `JSON.stringify` then posts `null`, and the backend answers 500. The model's amounts are exact reals, so this case is not represented.
- The donations page's conversion `Number(donation.amount || 0)`: an empty or blank string counts as 0, a string that `Number` parses (such as `"50"`) counts as its value, and any other string gives `NaN`. The model's amounts are already numbers, with a missing one counting as 0, so none of these conversions is modelled.
- The authentication endpoints (`signup`, `verify-token`, `get-user`) call an SDK that is not part of this model. `credit_tips` calls an external AI service, and configuration reads the environment.
- React effects that only fetch and store results: the dialog's fetch of the next recipient on open, the dashboard's queue and tips fetches with their retry counter, and the donations page's effect on sign-in.
- React rendering, animation and charts, the other pages and components, and the bank-connection page.
