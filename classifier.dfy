/**
 * Post classification (packages/api/src/services/llm.service.ts).
 *
 * The request to the language model, the prompt and the extraction of the
 * JSON object from its answer are not modelled: `LlmReply` is what that
 * exchange produced, either the parsed object or a failure. What is
 * modelled is the validation that follows: the category whitelist, the two
 * clamps of the promotion end date (compared as YYYY-MM-DD strings, with
 * JavaScript's string ordering) and the safe default on any failure.
 * Today + 30 days and today + 60 days are given as date strings.
 */
module Classifier {
  import opened Common

  const VALID_CATEGORIES: seq<string> := [
    "EV_ALL", "EV_FAM", "EV_PAR", "EV_SEN",
    "LU_ONS", "LU_DEL",
    "PR_ONS_CYK", "PR_ONS_JED", "PR_DEL_CYK", "PR_DEL_JED",
    "PD_ONS", "PD_DEL",
    "BRAND", "INFO"
  ]

  const FALLBACK_CATEGORY: string := "INFO"

  /**
   * The parsed object. The cast `JSON.parse(..) as CategorizeResult` is not
   * checked, so the end date may be missing or null (`None`).
   */
  datatype CategorizeResult = CategorizeResult(
    category: string,
    event_date: Option<string>,
    event_identifier: Option<string>,
    promotion_end_date: Option<string>)

  /** The outcome of the model exchange: the object it answered, or why there is none. */
  datatype LlmReply = Failed(reason: string) | Answered(result: CategorizeResult)

  /**
   * The two clamps of a present end date: first to the event date when the
   * end date is after it, then to today + 60 days. The result is at most
   * both, at most the given date, one of the three, and the given date
   * itself when that was already within both.
   */
  function ClampEndDate(end: string, eventDate: Option<string>, maxDate: string): (e: string)
    ensures LexLessEq(e, maxDate) && LexLessEq(e, end)
    ensures Truthy(eventDate) ==> LexLessEq(e, eventDate.value)
    ensures e == end || e == maxDate || (Truthy(eventDate) && e == eventDate.value)
    ensures LexLessEq(end, maxDate) && (Truthy(eventDate) ==> LexLessEq(end, eventDate.value)) ==> e == end
  {
    if Truthy(eventDate) && LexLess(eventDate.value, end) then
      LexLessAsymmetric(eventDate.value, end);
      LexLessIrreflexive(end);
      ClampMax(end, eventDate.value, eventDate, maxDate)
    else if Truthy(eventDate) then
      NotGreaterIsLessEq(end, eventDate.value);
      ClampMax(end, end, eventDate, maxDate)
    else
      ClampMax(end, end, eventDate, maxDate)
  }

  /** The second clamp, to today + 60 days, of a date already clamped to the event. */
  function ClampMax(end: string, afterEvent: string, eventDate: Option<string>, maxDate: string): (e: string)
    requires LexLessEq(afterEvent, end)
    requires Truthy(eventDate) ==> LexLessEq(afterEvent, eventDate.value)
    requires afterEvent == end || (Truthy(eventDate) && afterEvent == eventDate.value)
    requires LexLessEq(end, maxDate) && (Truthy(eventDate) ==> LexLessEq(end, eventDate.value)) ==> afterEvent == end
    ensures LexLessEq(e, maxDate) && LexLessEq(e, end)
    ensures Truthy(eventDate) ==> LexLessEq(e, eventDate.value)
    ensures e == end || e == maxDate || (Truthy(eventDate) && e == eventDate.value)
    ensures LexLessEq(end, maxDate) && (Truthy(eventDate) ==> LexLessEq(end, eventDate.value)) ==> e == end
  {
    if LexLess(maxDate, afterEvent) then
      LexLessEqTransitive(maxDate, afterEvent, end);
      if Truthy(eventDate) then
        LexLessEqTransitive(maxDate, afterEvent, eventDate.value);
        ClampedEnd(end, afterEvent, maxDate)
      else
        ClampedEnd(end, afterEvent, maxDate)
    else
      NotGreaterIsLessEq(afterEvent, maxDate);
      afterEvent
  }

  /** The end date lowered to today + 60 days; the given date was past it, so it was not within both. */
  function ClampedEnd(end: string, afterEvent: string, maxDate: string): (e: string)
    requires LexLess(maxDate, afterEvent) && LexLessEq(afterEvent, end)
    ensures e == maxDate && !LexLessEq(end, maxDate)
  {
    if LexLessEq(end, maxDate) then
      LexLessEqTransitive(afterEvent, end, maxDate);
      LexLessAsymmetric(maxDate, afterEvent);
      maxDate
    else
      maxDate
  }

  /**
   * What `categorizePost` answers once the model has answered: the safe
   * default after any failure, otherwise the parsed object with its
   * category whitelisted and a present end date clamped. A missing or null
   * end date compares false with both bounds (`undefined > x`), so it is
   * passed on as it is and the post is never selected for expiry.
   */
  function Categorize(reply: LlmReply, maxDate: string, defaultEndDate: string): (r: CategorizeResult)
    ensures r.category in VALID_CATEGORIES
    ensures reply.Failed? ==> r == CategorizeResult(FALLBACK_CATEGORY, None, None, Some(defaultEndDate))
    ensures reply.Answered? ==>
              && r.category == (if reply.result.category in VALID_CATEGORIES then reply.result.category
                                else FALLBACK_CATEGORY)
              && r.event_date == reply.result.event_date
              && r.event_identifier == reply.result.event_identifier
              && (r.promotion_end_date.None? <==> reply.result.promotion_end_date.None?)
    ensures reply.Answered? && r.promotion_end_date.Some? ==>
              var given := reply.result;
              && LexLessEq(r.promotion_end_date.value, maxDate)
              && (Truthy(r.event_date) ==> LexLessEq(r.promotion_end_date.value, r.event_date.value))
              && LexLessEq(r.promotion_end_date.value, given.promotion_end_date.value)
              && (LexLessEq(given.promotion_end_date.value, maxDate) &&
                  (Truthy(given.event_date) ==> LexLessEq(given.promotion_end_date.value, given.event_date.value))
                  ==> r.promotion_end_date == given.promotion_end_date)
  {
    match reply
    case Failed(_) => CategorizeResult(FALLBACK_CATEGORY, None, None, Some(defaultEndDate))
    case Answered(given) =>
      given.(category := if given.category in VALID_CATEGORIES then given.category else FALLBACK_CATEGORY,
             promotion_end_date :=
               match given.promotion_end_date
               case None => None
               case Some(end) => Some(ClampEndDate(end, given.event_date, maxDate)))
  }

  /**
   * `categorizePost`: the fields of the parsed object are corrected one
   * after the other, as the source does, and the outcome is `Categorize`.
   */
  method CategorizePost(reply: LlmReply, maxDate: string, defaultEndDate: string) returns (r: CategorizeResult)
    ensures r == Categorize(reply, maxDate, defaultEndDate)
  {
    match reply
    case Failed(_) =>
      r := CategorizeResult(FALLBACK_CATEGORY, None, None, Some(defaultEndDate));
    case Answered(given) =>
      r := given;
      if r.category !in VALID_CATEGORIES {
        r := r.(category := FALLBACK_CATEGORY);
      }
      // `undefined > x` and `null > x` are false: an absent end date is left alone
      if Truthy(r.event_date) && r.promotion_end_date.Some? && LexLess(r.event_date.value, r.promotion_end_date.value) {
        r := r.(promotion_end_date := r.event_date);
      }
      if r.promotion_end_date.Some? && LexLess(maxDate, r.promotion_end_date.value) {
        r := r.(promotion_end_date := Some(maxDate));
      }
  }
}
