/**
 * The admin site's bulk actions and display formatters: the two customer
 * actions that set or clear the PAN verification, the two application
 * actions that decide only the selected rows still `pending`, and the
 * application id, confidence and status columns (their colours and text;
 * the surrounding markup is not modelled).
 */
module Admin {
  import opened Common
  import opened Text
  import opened Models

  // ------------------------------------------------------- customer actions

  /** A row after `mark_as_verified`: verified, stamped with the time of the action. */
  function MarkedRow(c: Customer, now: Time): (r: Customer)
    ensures r.panVerified && r.panVerificationDate == Some(now)
    ensures r.(panVerified := c.panVerified, panVerificationDate := c.panVerificationDate) == c
  {
    c.(panVerified := true, panVerificationDate := Some(now))
  }

  /** A row after `reset_verification`: not verified, no date, no confidence. */
  function ResetRow(c: Customer): (r: Customer)
    ensures !r.panVerified && r.panVerificationDate.None? && r.panVerificationConfidence.None?
    ensures r.(panVerified := c.panVerified, panVerificationDate := c.panVerificationDate,
               panVerificationConfidence := c.panVerificationConfidence) == c
  {
    c.(panVerified := false, panVerificationDate := None, panVerificationConfidence := None)
  }

  /** The customer table after `mark_as_verified` on the rows whose PAN is selected. */
  function Marked(rows: map<string, Customer>, selected: set<string>, now: Time): map<string, Customer>
  {
    map k | k in rows :: if k in selected then MarkedRow(rows[k], now) else rows[k]
  }

  /** The customer table after `reset_verification` on the rows whose PAN is selected. */
  function Reset(rows: map<string, Customer>, selected: set<string>): map<string, Customer>
  {
    map k | k in rows :: if k in selected then ResetRow(rows[k]) else rows[k]
  }

  /** `mark_as_verified`: one update over the selection; answers the number of rows it matched. */
  method MarkAsVerified(db: Store, selected: set<string>, now: Time) returns (updated: nat)
    modifies db
    ensures db.customers == Marked(old(db.customers), selected, now)
    ensures db.applications == old(db.applications)
    ensures updated == |selected * old(db.customers).Keys|
  {
    updated := |selected * db.customers.Keys|;
    db.customers := map k | k in db.customers :: if k in selected then MarkedRow(db.customers[k], now) else db.customers[k];
  }

  /** `reset_verification`: one update over the selection; answers the number of rows it matched. */
  method ResetVerification(db: Store, selected: set<string>) returns (updated: nat)
    modifies db
    ensures db.customers == Reset(old(db.customers), selected)
    ensures db.applications == old(db.applications)
    ensures updated == |selected * old(db.customers).Keys|
  {
    updated := |selected * db.customers.Keys|;
    db.customers := map k | k in db.customers :: if k in selected then ResetRow(db.customers[k]) else db.customers[k];
  }

  /** The customer actions touch only the selected rows, keep every key, and never change a row's PAN. */
  lemma CustomerActionsFrame(rows: map<string, Customer>, selected: set<string>, now: Time)
    ensures Marked(rows, selected, now).Keys == rows.Keys && Reset(rows, selected).Keys == rows.Keys
    ensures forall k | k in rows && k !in selected :: Marked(rows, selected, now)[k] == rows[k] && Reset(rows, selected)[k] == rows[k]
    ensures forall k | k in rows :: Marked(rows, selected, now)[k].pan == rows[k].pan && Reset(rows, selected)[k].pan == rows[k].pan
  {
  }

  /** Marking twice with the same time is marking once; resetting twice is resetting once. */
  lemma CustomerActionsIdempotent(rows: map<string, Customer>, selected: set<string>, now: Time)
    ensures Marked(Marked(rows, selected, now), selected, now) == Marked(rows, selected, now)
    ensures Reset(Reset(rows, selected), selected) == Reset(rows, selected)
  {
    var m := Marked(rows, selected, now);
    assert Marked(m, selected, now) == m by {
      forall k | k in m ensures Marked(m, selected, now)[k] == m[k] {
      }
    }
    var r := Reset(rows, selected);
    assert Reset(r, selected) == r by {
      forall k | k in r ensures Reset(r, selected)[k] == r[k] {
      }
    }
  }

  /** A reset undoes a mark entirely: what was marked before the reset makes no difference. */
  lemma ResetAfterMark(rows: map<string, Customer>, selected: set<string>, now: Time)
    ensures Reset(Marked(rows, selected, now), selected) == Reset(rows, selected)
  {
    var m := Marked(rows, selected, now);
    forall k | k in rows ensures Reset(m, selected)[k] == Reset(rows, selected)[k] {
    }
  }

  // ---------------------------------------------------- application actions

  const ManualRejection := "Manually rejected by admin"

  /** The two application actions. */
  datatype AdminDecision = AdminApprove | AdminReject

  /** A pending row after the action: approved and stamped, or rejected, stamped and given the manual reason. */
  function Decided(a: LoanApplication, d: AdminDecision, now: Time): (r: LoanApplication)
    ensures d == AdminApprove ==> r == a.(status := Approved, approvedAt := Some(now))
    ensures d == AdminReject ==> r == a.(status := Status.Rejected, rejectedAt := Some(now), rejectionReason := Some(ManualRejection))
  {
    match d
    case AdminApprove => a.(status := Approved, approvedAt := Some(now))
    case AdminReject => a.(status := Status.Rejected, rejectedAt := Some(now), rejectionReason := Some(ManualRejection))
  }

  /** The rows `queryset.filter(status='pending')` keeps from the selection (row indices). */
  predicate Eligible(apps: seq<LoanApplication>, selected: set<nat>, i: nat)
    requires i < |apps|
  {
    i in selected && apps[i].status == Pending
  }

  /** The applications table after the action: only the eligible rows change. */
  function DecidePending(apps: seq<LoanApplication>, selected: set<nat>, d: AdminDecision, now: Time): (r: seq<LoanApplication>)
    ensures |r| == |apps|
  {
    seq(|apps|, i requires 0 <= i < |apps| => if Eligible(apps, selected, i) then Decided(apps[i], d, now) else apps[i])
  }

  /** The number of rows the update matches. */
  function CountEligible(apps: seq<LoanApplication>, selected: set<nat>): (n: nat)
    ensures n <= |apps|
  {
    if apps == [] then 0
    else CountEligible(apps[..|apps| - 1], selected) + (if Eligible(apps, selected, |apps| - 1) then 1 else 0)
  }

  /** `queryset.filter(status='pending').update(...)`, row by row; answers the number of rows updated. */
  method UpdatePending(db: Store, selected: set<nat>, d: AdminDecision, now: Time) returns (updated: nat)
    modifies db
    ensures db.applications == DecidePending(old(db.applications), selected, d, now)
    ensures db.customers == old(db.customers)
    ensures updated == CountEligible(old(db.applications), selected)
  {
    ghost var apps := db.applications;
    updated := 0;
    var i := 0;
    while i < |db.applications|
      invariant 0 <= i <= |db.applications| == |apps|
      invariant forall j | 0 <= j < i :: db.applications[j] == DecidePending(apps, selected, d, now)[j]
      invariant forall j | i <= j < |apps| :: db.applications[j] == apps[j]
      invariant updated == CountEligible(apps[..i], selected)
      invariant db.customers == old(db.customers)
    {
      assert apps[..i + 1][..i] == apps[..i];
      if i in selected && db.applications[i].status == Pending {
        db.applications := db.applications[i := Decided(db.applications[i], d, now)];
        updated := updated + 1;
      }
      i := i + 1;
    }
    assert apps[..i] == apps;
  }

  /** `approve_applications`: approve the selected rows still pending. */
  method ApproveApplications(db: Store, selected: set<nat>, now: Time) returns (updated: nat)
    modifies db
    ensures db.applications == DecidePending(old(db.applications), selected, AdminApprove, now)
    ensures db.customers == old(db.customers)
    ensures updated == CountEligible(old(db.applications), selected)
  {
    updated := UpdatePending(db, selected, AdminApprove, now);
  }

  /** `reject_applications`: reject the selected rows still pending, with the manual reason. */
  method RejectApplications(db: Store, selected: set<nat>, now: Time) returns (updated: nat)
    modifies db
    ensures db.applications == DecidePending(old(db.applications), selected, AdminReject, now)
    ensures db.customers == old(db.customers)
    ensures updated == CountEligible(old(db.applications), selected)
  {
    updated := UpdatePending(db, selected, AdminReject, now);
  }

  /**
   * Exactly the eligible rows change; every row keeps its owner, amount,
   * purpose and tenure; and no selected row is left pending.
   */
  lemma DecidePendingFrame(apps: seq<LoanApplication>, selected: set<nat>, d: AdminDecision, now: Time)
    ensures var r := DecidePending(apps, selected, d, now);
      forall i | 0 <= i < |apps| :: (r[i] != apps[i] <==> Eligible(apps, selected, i))
    ensures var r := DecidePending(apps, selected, d, now);
      forall i | 0 <= i < |apps| ::
        r[i].customer == apps[i].customer && r[i].loanAmount == apps[i].loanAmount
        && r[i].purpose == apps[i].purpose && r[i].tenureMonths == apps[i].tenureMonths
    ensures var r := DecidePending(apps, selected, d, now);
      forall i | 0 <= i < |apps| && i in selected :: r[i].status != Pending
  {
  }

  /** Whatever the second action, once the selection is decided a second pass over it changes nothing. */
  lemma DecidedOnce(apps: seq<LoanApplication>, selected: set<nat>, d1: AdminDecision, d2: AdminDecision,
                    now1: Time, now2: Time)
    ensures var r := DecidePending(apps, selected, d1, now1);
      DecidePending(r, selected, d2, now2) == r
  {
    var r := DecidePending(apps, selected, d1, now1);
    forall i | 0 <= i < |r| ensures DecidePending(r, selected, d2, now2)[i] == r[i] {
      assert !Eligible(r, selected, i);
    }
  }

  /** Deciding a prefix of the table decides the same rows as deciding the whole table. */
  lemma DecidePendingPrefix(apps: seq<LoanApplication>, selected: set<nat>, d: AdminDecision,
                                               now: Time, k: nat)
    requires k <= |apps|
    ensures DecidePending(apps, selected, d, now)[..k] == DecidePending(apps[..k], selected, d, now)
  {
  }

  /** After the action no row of the selection is matched again. */
  lemma {:induction false} NothingLeftToDecide(apps: seq<LoanApplication>, selected: set<nat>, d: AdminDecision, now: Time)
    ensures CountEligible(DecidePending(apps, selected, d, now), selected) == 0
    decreases |apps|
  {
    if apps != [] {
      var n := |apps| - 1;
      DecidePendingPrefix(apps, selected, d, now, n);
      NothingLeftToDecide(apps[..n], selected, d, now);
      assert !Eligible(DecidePending(apps, selected, d, now), selected, n);
    }
  }

  /** The count is the number of eligible rows: none when the selection holds no pending row. */
  lemma {:induction false} CountEligibleZero(apps: seq<LoanApplication>, selected: set<nat>)
    ensures CountEligible(apps, selected) == 0 <==> forall i | 0 <= i < |apps| :: !Eligible(apps, selected, i)
    decreases |apps|
  {
    if apps != [] {
      var n := |apps| - 1;
      CountEligibleZero(apps[..n], selected);
      assert forall i | 0 <= i < n :: Eligible(apps[..n], selected, i) == Eligible(apps, selected, i);
    }
  }

  // ------------------------------------------------------------ formatters

  function DigitChar(n: nat): (c: char)
    requires n < 10
    ensures IsDigit(c)
  {
    "0123456789"[n]
  }

  function DigitValue(c: char): (n: nat)
    requires IsDigit(c)
    ensures n < 10
  {
    (c as int - '0' as int) as nat
  }

  /** `str(n)` for a natural number: its decimal digits without leading zeros. */
  function Decimal(n: nat): (r: string)
    ensures |r| >= 1 && (forall i | 0 <= i < |r| :: IsDigit(r[i]))
    ensures |r| > 1 ==> r[0] != '0'
    decreases n
  {
    if n < 10 then [DigitChar(n)] else Decimal(n / 10) + [DigitChar(n % 10)]
  }

  predicate AllDigits(s: string)
  {
    forall i | 0 <= i < |s| :: IsDigit(s[i])
  }

  /** The value of a string of decimal digits, leading zeros allowed. */
  function DecimalValue(s: string): nat
    requires AllDigits(s)
  {
    if s == [] then 0 else DecimalValue(s[..|s| - 1]) * 10 + DigitValue(s[|s| - 1])
  }

  lemma {:induction false} DecimalRoundTrip(n: nat)
    ensures DecimalValue(Decimal(n)) == n
    decreases n
  {
    if n >= 10 {
      var r := Decimal(n);
      assert r[..|r| - 1] == Decimal(n / 10);
      DecimalRoundTrip(n / 10);
    }
  }

  /** Leading zeros do not change the value. */
  lemma {:induction false} LeadingZeros(k: nat, s: string)
    requires AllDigits(s)
    ensures AllDigits(Zeros(k) + s) && DecimalValue(Zeros(k) + s) == DecimalValue(s)
    decreases |s|
  {
    if s == [] {
      assert Zeros(k) + s == Zeros(k);
      ZerosValue(k);
    } else {
      var n := |s| - 1;
      assert (Zeros(k) + s)[..|Zeros(k) + s| - 1] == Zeros(k) + s[..n];
      LeadingZeros(k, s[..n]);
    }
  }

  function Zeros(k: nat): (z: string)
    ensures |z| == k && AllDigits(z)
  {
    seq(k, _ => '0')
  }

  lemma {:induction false} ZerosValue(k: nat)
    ensures DecimalValue(Zeros(k)) == 0
  {
    if k > 0 {
      assert Zeros(k)[..k - 1] == Zeros(k - 1);
      ZerosValue(k - 1);
    }
  }

  /** `f"{n:06d}"` for a natural number: its digits, left-padded with zeros to six. */
  function ZeroPad6(n: nat): (r: string)
    ensures AllDigits(r)
  {
    var digits := Decimal(n);
    if |digits| < 6 then Zeros(6 - |digits|) + digits else digits
  }

  /** `application_id`: `LA-` and the row id padded to six digits. */
  function ApplicationId(id: nat): (r: string)
  {
    "LA-" + ZeroPad6(id)
  }

  /** Reading an id back; `None` for text not of that form. */
  function ParseApplicationId(r: string): Option<nat>
  {
    if |r| > 3 && r[..3] == "LA-" && AllDigits(r[3..]) then Some(DecimalValue(r[3..])) else None
  }

  /** The id can be read back from its display, so different rows never share a display. */
  lemma ApplicationIdRoundTrip(id: nat)
    ensures ParseApplicationId(ApplicationId(id)) == Some(id)
  {
    var r := ApplicationId(id);
    assert r[3..] == ZeroPad6(id);
    var digits := Decimal(id);
    DecimalRoundTrip(id);
    if |digits| < 6 {
      LeadingZeros(6 - |digits|, digits);
    }
  }

  lemma ApplicationIdInjective(a: nat, b: nat)
    requires ApplicationId(a) == ApplicationId(b)
    ensures a == b
  {
    ApplicationIdRoundTrip(a);
    ApplicationIdRoundTrip(b);
  }

  /** An id below a million always shows as exactly nine characters. */
  lemma ApplicationIdWidth(id: nat)
    requires id < 1000000
    ensures |ApplicationId(id)| == 9
  {
    DecimalLength(id, 6);
  }

  /** `str(n)` has at most `k` digits exactly when `n` is below `10^k`. */
  lemma {:induction false} DecimalLength(n: nat, k: nat)
    requires k >= 1
    ensures |Decimal(n)| <= k <==> n < Pow10(k)
    decreases n
  {
    if n >= 10 && k > 1 {
      DecimalLength(n / 10, k - 1);
    } else if n >= 10 {
      Pow10Step(0);
    } else {
      PowAtLeastTen(k);
    }
  }

  function Pow10(k: nat): (p: nat)
    ensures p >= 1
  {
    if k == 0 then 1 else 10 * Pow10(k - 1)
  }

  lemma Pow10Step(k: nat)
    ensures Pow10(k + 1) == 10 * Pow10(k)
  {
  }

  lemma {:induction false} PowAtLeastTen(k: nat)
    requires k >= 1
    ensures Pow10(k) >= 10
  {
    if k > 1 {
      PowAtLeastTen(k - 1);
    }
  }

  const Green := "#28a745"
  const Amber := "#ffc107"
  const Red := "#dc3545"
  const Teal := "#17a2b8"
  const Blue := "#007bff"
  const Grey := "#6c757d"

  /** The confidence column: a dash for no score, otherwise the colour of its band and the score. */
  datatype ConfidenceView = Dash | Shown(colour: string, score: int)

  /** `confidence_display`: 80 and above green, from 60 amber, below red. */
  function ConfidenceDisplay(score: Option<int>): (v: ConfidenceView)
    ensures v == Dash <==> score.None?
    ensures v.Shown? ==> v.score == score.value
  {
    if score.None? then Dash
    else if score.value >= 80 then Shown(Green, score.value)
    else if score.value >= 60 then Shown(Amber, score.value)
    else Shown(Red, score.value)
  }

  /** The band of a shown score, in order red, amber, green. */
  function Band(colour: string): nat
  {
    if colour == Green then 2 else if colour == Amber then 1 else 0
  }

  /** The two thresholds: each band is exactly its interval of scores. */
  lemma ConfidenceBands(score: int)
    ensures ConfidenceDisplay(Some(score)).colour == Green <==> score >= 80
    ensures ConfidenceDisplay(Some(score)).colour == Amber <==> 60 <= score < 80
    ensures ConfidenceDisplay(Some(score)).colour == Red <==> score < 60
  {
  }

  /** A higher score never shows in a lower band. */
  lemma ConfidenceMonotone(a: int, b: int)
    requires a <= b
    ensures Band(ConfidenceDisplay(Some(a)).colour) <= Band(ConfidenceDisplay(Some(b)).colour)
  {
  }

  /** The badge colour of each status. */
  function StatusColour(s: Status): string
  {
    match s
    case Pending => Amber
    case UnderReview => Teal
    case Approved => Green
    case Rejected => Red
    case Disbursed => Blue
  }

  /** `status_badge`: the colour of the stored status text, grey for text that is no status. */
  function StatusBadge(code: string): (colour: string)
    ensures colour == Grey <==> ParseStatus(code).None?
  {
    match ParseStatus(code)
    case None => Grey
    case Some(s) => StatusColour(s)
  }

  /** Each status shows in its own colour, and no two statuses share one. */
  lemma StatusBadgeDistinct(s: Status, t: Status)
    ensures StatusBadge(StatusCode(s)) == StatusColour(s)
    ensures s != t ==> StatusBadge(StatusCode(s)) != StatusBadge(StatusCode(t))
  {
    StatusCodeRoundTrip(s);
    StatusCodeRoundTrip(t);
  }
}
