/**
 * The backend's low-income assistance queue: the `low_income_users` collection,
 * keyed by applicant email, and the three request handlers that act on it,
 * `/submit-low-income`, `/get-next-low-income-user` and `/donate`.
 *
 * The document store is a class holding a map from email to entry. The
 * store's server timestamp is a counter the store hands out in increasing
 * order, one tick per write of a new entry.
 */
module LowIncomeQueue {
  import opened Wrappers

  /** Questionnaire answers: question id to yes/no. */
  type Answers = map<string, bool>

  /** One document of `low_income_users`. */
  datatype Entry = Entry(
    email: string,
    answers: Answers,
    proofOfPaymentFile: string,
    isPaid: bool,
    createdAt: nat)

  /** The collection: document id (the applicant's email) to document. */
  type Collection = map<string, Entry>

  /** Body of POST /submit-low-income; a field is None when its key is absent. */
  datatype SubmitRequest = SubmitRequest(
    email: Option<string>,
    answers: Option<Answers>,
    uploadedFileName: Option<string>)

  /** Body of POST /donate; a field is None when its key is absent. */
  datatype DonateRequest = DonateRequest(
    donorEmail: Option<string>,
    recipientEmail: Option<string>,
    amount: Option<real>)

  /** Python truthiness of an optional string: neither absent nor empty. */
  predicate Present(s: Option<string>) {
    s.Some? && s.value != ""
  }

  datatype SubmitReply = Submitted | EmailRequired
  {
    function Status(): int {
      if Submitted? then 200 else 400
    }
  }

  datatype NextReply = Next(id: string, user: Entry) | NoneInQueue
  {
    function Status(): int {
      if Next? then 200 else 404
    }
  }

  datatype DonateReply =
    | DonationSuccessful(paidUser: string)
    | InvalidDonation
    | RecipientNotFound
    | AlreadyPaid
  {
    function Status(): int {
      match this
      case DonationSuccessful(_) => 200
      case InvalidDonation => 400
      case RecipientNotFound => 404
      case AlreadyPaid => 400
    }

    function Message(): string {
      match this
      case DonationSuccessful(_) => "Donation successful"
      case InvalidDonation => "Missing donorEmail, recipientEmail, or invalid amount"
      case RecipientNotFound => "Recipient not found in low_income_users"
      case AlreadyPaid => "User already marked as paid"
    }
  }

  // ---------------------------------------------------------------------------
  // The queue, as a property of the collection
  // ---------------------------------------------------------------------------

  /** `e` has an entry that still waits for a donation. */
  ghost predicate Unpaid(c: Collection, e: string) {
    e in c && !c[e].isPaid
  }

  ghost predicate HasUnpaid(c: Collection) {
    exists e :: Unpaid(c, e)
  }

  /** `e` is the queue head: unpaid, and no unpaid entry is older. */
  ghost predicate IsHead(c: Collection, e: string) {
    && Unpaid(c, e)
    && forall k :: Unpaid(c, k) ==> c[e].createdAt <= c[k].createdAt
  }

  /** Every document is stored under its own email. */
  ghost predicate KeyedByEmail(c: Collection) {
    forall e :: e in c ==> c[e].email == e
  }

  /** Every timestamp in the collection was handed out before `clock`. */
  ghost predicate StampedBefore(c: Collection, clock: nat) {
    forall e :: e in c ==> c[e].createdAt < clock
  }

  /** No two documents share a timestamp. */
  ghost predicate DistinctStamps(c: Collection) {
    forall a, b :: a in c && b in c && a != b ==> c[a].createdAt != c[b].createdAt
  }

  /** The document `/submit-low-income` writes, missing fields taking their defaults. */
  function NewEntry(email: string, req: SubmitRequest, stamp: nat): (e: Entry)
    ensures !e.isPaid && e.email == email && e.createdAt == stamp
    ensures req.answers.None? ==> e.answers == map[]
    ensures req.answers.Some? ==> e.answers == req.answers.value
    ensures req.uploadedFileName.None? ==> e.proofOfPaymentFile == ""
    ensures req.uploadedFileName.Some? ==> e.proofOfPaymentFile == req.uploadedFileName.value
  {
    Entry(email, req.answers.GetOr(map[]), req.uploadedFileName.GetOr(""), false, stamp)
  }

  /** The input check of `/donate`: donor and recipient present and non-empty, amount positive (absent counts as 0). */
  predicate ValidDonation(req: DonateRequest) {
    Present(req.donorEmail) && Present(req.recipientEmail) && req.amount.GetOr(0.0) > 0.0
  }

  /** The reply `/donate` gives to `req` against collection `c`. */
  function DonateVerdict(c: Collection, req: DonateRequest): (r: DonateReply)
    ensures !ValidDonation(req) ==> r.Status() == 400 && r.InvalidDonation?
    ensures ValidDonation(req) && req.recipientEmail.value !in c ==> r.Status() == 404
    ensures ValidDonation(req) && req.recipientEmail.value in c && c[req.recipientEmail.value].isPaid ==>
              r.Status() == 400 && r.AlreadyPaid?
    ensures r.Status() == 200 <==> ValidDonation(req) && Unpaid(c, req.recipientEmail.value)
    ensures r.DonationSuccessful? ==> r.paidUser == req.recipientEmail.value
  {
    if !ValidDonation(req) then InvalidDonation
    else if req.recipientEmail.value !in c then RecipientNotFound
    else if c[req.recipientEmail.value].isPaid then AlreadyPaid
    else DonationSuccessful(req.recipientEmail.value)
  }

  /** The collection after `doc_ref.update({"isPaid": True})` on `e`. */
  function MarkPaid(c: Collection, e: string): (c': Collection)
    requires e in c
    ensures c'.Keys == c.Keys
    ensures c'[e] == c[e].(isPaid := true)
    ensures forall k :: k in c && k != e ==> c'[k] == c[k]
  {
    c[e := c[e].(isPaid := true)]
  }

  // ---------------------------------------------------------------------------
  // The store and its request handlers
  // ---------------------------------------------------------------------------

  class LowIncomeStore {
    /** The `low_income_users` collection. */
    var users: Collection
    /** The next server timestamp the store hands out. */
    var clock: nat

    ghost predicate Valid()
      reads this
    {
      KeyedByEmail(users) && StampedBefore(users, clock) && DistinctStamps(users)
    }

    constructor ()
      ensures Valid() && users == map[] && clock == 0
    {
      users := map[];
      clock := 0;
    }

    /**
     * POST /submit-low-income: without an email, 400 and nothing written;
     * otherwise the entry for that email is written whole, replacing any
     * earlier one, unpaid and stamped with a fresh timestamp.
     */
    method SubmitLowIncome(req: SubmitRequest) returns (r: SubmitReply)
      requires Valid()
      modifies this
      ensures Valid()
      ensures r.Status() == 200 <==> Present(req.email)
      ensures r.Status() == 400 <==> !Present(req.email)
      ensures !Present(req.email) ==> users == old(users) && clock == old(clock)
      ensures Present(req.email) ==>
                && clock == old(clock) + 1
                && users == old(users)[req.email.value := NewEntry(req.email.value, req, old(clock))]
    {
      if !Present(req.email) {
        return EmailRequired;
      }
      var email := req.email.value;
      users := users[email := NewEntry(email, req, clock)];
      clock := clock + 1;
      r := Submitted;
    }

    /**
     * GET /get-next-low-income-user: the unpaid entry with the smallest
     * timestamp, with its document id, or 404 when no entry is unpaid.
     * The loop evaluates the store's query (unpaid entries, ordered by
     * timestamp, first one only) over the whole collection.
     */
    method GetNextLowIncomeUser() returns (r: NextReply)
      ensures r.Next? ==> IsHead(users, r.id) && r.user == users[r.id]
      ensures r.NoneInQueue? <==> !HasUnpaid(users)
      ensures r.Status() == 404 <==> !HasUnpaid(users)
    {
      var pending := users.Keys;
      var found: Option<string> := None;
      while pending != {}
        invariant pending <= users.Keys
        invariant found.Some? ==> Unpaid(users, found.value)
        invariant found.Some? ==>
                    forall k :: k in users.Keys - pending && Unpaid(users, k) ==>
                      users[found.value].createdAt <= users[k].createdAt
        invariant found.None? ==> forall k :: k in users.Keys - pending ==> !Unpaid(users, k)
        decreases pending
      {
        var k :| k in pending;
        if !users[k].isPaid && (found.None? || users[k].createdAt < users[found.value].createdAt) {
          found := Some(k);
        }
        pending := pending - {k};
      }
      if found.Some? {
        r := Next(found.value, users[found.value]);
      } else {
        r := NoneInQueue;
      }
    }

    /**
     * POST /donate: invalid input is 400 before the store is read; an
     * unknown recipient is 404; a recipient already paid is 400; otherwise
     * the recipient's entry is marked paid and nothing else changes. The
     * recipient need not be the queue head, and no donation record is
     * written. Whether the notification mail goes out (`mailDelivered`)
     * affects only `notified`.
     */
    method Donate(req: DonateRequest, mailDelivered: bool) returns (r: DonateReply, notified: bool)
      requires Valid()
      modifies this
      ensures Valid() && clock == old(clock)
      ensures r == DonateVerdict(old(users), req)
      ensures r.DonationSuccessful? ==> users == MarkPaid(old(users), r.paidUser)
      ensures !r.DonationSuccessful? ==> users == old(users)
      ensures notified <==> r.DonationSuccessful? && mailDelivered
    {
      notified := false;
      if !Present(req.donorEmail) || !Present(req.recipientEmail) || req.amount.GetOr(0.0) <= 0.0 {
        return InvalidDonation, notified;
      }
      var recipient := req.recipientEmail.value;
      if recipient !in users {
        return RecipientNotFound, notified;
      }
      var doc := users[recipient];
      if doc.isPaid {
        return AlreadyPaid, notified;
      }
      users := users[recipient := doc.(isPaid := true)];
      if mailDelivered {
        notified := true;
      }
      r := DonationSuccessful(recipient);
    }
  }

  // ---------------------------------------------------------------------------
  // Properties of the queue
  // ---------------------------------------------------------------------------

  /**
   * Every reply of `/donate` carries a non-empty message, and status and
   * message together tell the replies apart: the two 400 replies (invalid
   * input, already paid) differ in their message.
   */
  lemma DonateRepliesDistinguishable(r1: DonateReply, r2: DonateReply)
    ensures r1.Message() != ""
    ensures r1.Status() == r2.Status() && r1.Message() == r2.Message() ==>
              (r1.DonationSuccessful? <==> r2.DonationSuccessful?) && (!r1.DonationSuccessful? ==> r1 == r2)
  {
  }

  /** Whenever some entry is unpaid, the queue has a head. */
  lemma {:induction false} HeadExists(c: Collection, e: string)
    requires Unpaid(c, e)
    ensures exists h :: IsHead(c, h)
    decreases |c.Keys|
  {
    var rest := c - {e};
    assert |rest.Keys| < |c.Keys| by {
      assert rest.Keys == c.Keys - {e};
    }
    if k :| Unpaid(rest, k) {
      HeadExists(rest, k);
      var h :| IsHead(rest, h);
      assert Unpaid(c, h);
      if c[e].createdAt <= c[h].createdAt {
        forall j | Unpaid(c, j) ensures c[e].createdAt <= c[j].createdAt {
          if j != e { assert Unpaid(rest, j); }
        }
        assert IsHead(c, e);
      } else {
        forall j | Unpaid(c, j) ensures c[h].createdAt <= c[j].createdAt {
          if j != e { assert Unpaid(rest, j); }
        }
        assert IsHead(c, h);
      }
    } else {
      forall j | Unpaid(c, j) ensures j == e {
        if j != e { assert Unpaid(rest, j); }
      }
      assert IsHead(c, e);
    }
  }

  /** Since timestamps are distinct, the head is unique. */
  lemma HeadUnique(c: Collection, a: string, b: string)
    requires DistinctStamps(c)
    requires IsHead(c, a) && IsHead(c, b)
    ensures a == b
  {
  }

  /** After a donation to `e`, `e` is never the head again, until it resubmits. */
  lemma PaidRecipientLeavesQueue(c: Collection, e: string)
    requires e in c
    ensures !Unpaid(MarkPaid(c, e), e)
    ensures forall h :: IsHead(MarkPaid(c, e), h) ==> h != e
  {
  }

  /** A second donation to the same recipient is refused with 400, whatever its other fields. */
  lemma SecondDonationFails(c: Collection, first: DonateRequest, second: DonateRequest)
    requires DonateVerdict(c, first).DonationSuccessful?
    requires second.recipientEmail == first.recipientEmail
    ensures DonateVerdict(MarkPaid(c, first.recipientEmail.value), second).Status() == 400
  {
  }

  /**
   * Donations are not restricted to the queue head: any unpaid recipient is
   * accepted, and paying one that is not the head leaves the head in place.
   */
  lemma DonationIgnoresQueueOrder(c: Collection, h: string, req: DonateRequest)
    requires IsHead(c, h) && ValidDonation(req)
    requires Unpaid(c, req.recipientEmail.value) && req.recipientEmail.value != h
    ensures DonateVerdict(c, req) == DonationSuccessful(req.recipientEmail.value)
    ensures IsHead(MarkPaid(c, req.recipientEmail.value), h)
  {
  }

  /**
   * Paying the head advances the queue: the new head is exactly an entry
   * that is oldest among the remaining unpaid ones.
   */
  lemma PayingHeadAdvances(c: Collection, h: string, k: string)
    requires IsHead(c, h)
    ensures IsHead(MarkPaid(c, h), k) <==>
              && Unpaid(c, k) && k != h
              && forall j :: Unpaid(c, j) && j != h ==> c[k].createdAt <= c[j].createdAt
  {
  }

  /**
   * A submission gets the newest timestamp, so the submitted (or resubmitted)
   * entry is the head exactly when it is the only unpaid entry: resubmitting
   * sends an applicant to the back of the queue.
   */
  lemma SubmissionJoinsAtBack(c: Collection, clock: nat, email: string, req: SubmitRequest)
    requires StampedBefore(c, clock)
    ensures var c' := c[email := NewEntry(email, req, clock)];
            IsHead(c', email) <==> forall k :: Unpaid(c', k) ==> k == email
  {
    var c' := c[email := NewEntry(email, req, clock)];
    if IsHead(c', email) {
      forall k | Unpaid(c', k) ensures k == email {
      }
    }
  }

  /** Resubmission resets an entry: a recipient already paid becomes payable again. */
  lemma ResubmissionReopensEntry(c: Collection, clock: nat, req: SubmitRequest, donation: DonateRequest)
    requires Present(req.email) && ValidDonation(donation)
    requires donation.recipientEmail == req.email
    ensures DonateVerdict(c[req.email.value := NewEntry(req.email.value, req, clock)], donation).Status() == 200
  {
  }

  /**
   * Two applicants, a then b: the head is a; a donation to a succeeds, a
   * second one to a is refused with 400, and b becomes the head.
   */
  method QueueScenario()
  {
    var store := new LowIncomeStore();
    var s1 := store.SubmitLowIncome(SubmitRequest(Some("a"), None, None));
    var s2 := store.SubmitLowIncome(SubmitRequest(Some("b"), None, None));
    ghost var c := store.users;
    assert c == map["a" := NewEntry("a", SubmitRequest(Some("a"), None, None), 0),
                     "b" := NewEntry("b", SubmitRequest(Some("b"), None, None), 1)];
    var n1 := store.GetNextLowIncomeUser();
    assert Unpaid(c, "a");
    assert n1.id == "a";
    var d1, _ := store.Donate(DonateRequest(Some("d1"), Some("a"), Some(50.0)), false);
    assert d1 == DonationSuccessful("a");
    var d2, _ := store.Donate(DonateRequest(Some("d2"), Some("a"), Some(10.0)), true);
    assert d2.Status() == 400;
    var n2 := store.GetNextLowIncomeUser();
    assert Unpaid(store.users, "b");
    assert n2.id == "b";
  }
}
