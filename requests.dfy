/**
 What the HTTP handlers share: the response they send, JavaScript's `x || null`
 normalisation, and the required-field scan that names the first missing field.
 */
module Requests {
  import opened Wrappers
  import opened Calendar
  import opened Tables

  /** The status code and the `error` or `message` text of a JSON response. */
  datatype Response = Response(status: int, message: string)

  const MethodNotAllowed := Response(405, "Method Not Allowed")

  /** `s || null`: the empty string becomes null, any other text is kept. */
  function Normalize(s: string): (r: Option<string>)
    ensures r.None? <==> s == ""
    ensures r.Some? ==> r.value == s
  {
    if s == "" then None else Some(s)
  }

  /** `o || fallback` for an optional text column. */
  function OrElse(o: Option<string>, fallback: string): (r: string)
    ensures o.Some? && o.value != "" ==> r == o.value
    ensures o.None? || o.value == "" ==> r == fallback
  {
    if o.Some? && o.value != "" then o.value else fallback
  }

  /**
   The first field of `required`, in order, whose value is falsy; None when
   every field is present.
   */
  function FirstMissing(required: seq<string>, present: string -> bool): (r: Option<string>)
    ensures r.None? <==> forall i :: 0 <= i < |required| ==> present(required[i])
    ensures r.Some? ==>
      exists i :: 0 <= i < |required| && required[i] == r.value && !present(required[i]) &&
        forall j :: 0 <= j < i ==> present(required[j])
  {
    if |required| == 0 then None
    else if !present(required[0]) then Some(required[0])
    else
      var rest := FirstMissing(required[1..], present);
      if rest.Some? then
        var i :| 0 <= i < |required[1..]| && required[1..][i] == rest.value && !present(required[1..][i]) &&
          (forall j :: 0 <= j < i ==> present(required[1..][j]));
        assert forall j :: 0 <= j < i + 1 ==> present(required[j]) by {
          forall j | 0 <= j < i + 1 ensures present(required[j]) {
            if j > 0 { assert required[j] == required[1..][j - 1]; }
          }
        }
        rest
      else rest
  }

  /** `for (const f of required) if (!payload[f]) return 400`: the scan, in order. */
  method ScanRequired(required: seq<string>, present: string -> bool) returns (missing: Option<string>)
    ensures missing == FirstMissing(required, present)
  {
    for i := 0 to |required|
      invariant FirstMissing(required[i..], present) == FirstMissing(required, present)
    {
      assert required[i..][1..] == required[i + 1..];
      if !present(required[i]) {
        return Some(required[i]);
      }
    }
    assert required[|required|..] == [];
    return None;
  }

  /**
   The JSON body of the create and update requests. Text fields hold "" when
   absent; `nextPaymentDate` is None when absent and otherwise the date the
   text names (a date that does not exist is rejected by the `date` column);
   `renewalPrice` is None when absent.
   */
  datatype SubscriptionForm = SubscriptionForm(
    id: Option<SubId>,
    userId: string,
    createdBy: string,
    name: string,
    nextPaymentDate: Option<Date>,
    billingCycle: string,
    renewalPrice: Option<real>,
    currency: string,
    notificationMode: string,
    timezone: string,
    reminderOffset: string,
    logoUrl: string,
    serviceUrl: string,
    category: string,
    paymentMethod: string,
    notes: string,
    validUntil: string)

  /** The form names a payment date that exists on the calendar. */
  predicate DateValid(f: SubscriptionForm) {
    f.nextPaymentDate.Some? && ValidDate(f.nextPaymentDate.value)
  }

  /** `!!payload[field]`: JavaScript truthiness, so a price of 0 counts as missing. */
  function Present(f: SubscriptionForm, field: string): bool {
    if field == "id" then f.id.Some?
    else if field == "user_id" then f.userId != ""
    else if field == "created_by" then f.createdBy != ""
    else if field == "name" then f.name != ""
    else if field == "next_payment_date" then f.nextPaymentDate.Some?
    else if field == "billing_cycle" then f.billingCycle != ""
    else if field == "renewal_price" then f.renewalPrice.Some? && f.renewalPrice.value != 0.0
    else if field == "currency" then f.currency != ""
    else if field == "notification_mode" then f.notificationMode != ""
    else false
  }
}
