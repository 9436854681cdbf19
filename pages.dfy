/**
 * The interactions page: its filter form, the query it hands to the hook,
 * the pagination controls and the text it shows for the results.
 */
module Pages {
  import opened JsValues
  import opened Pagination
  import opened InteractionRecord
  import opened InteractionsClient
  import opened Hooks
  import opened Format
  import opened Decimal

  /** The raw text of the four filter inputs. */
  datatype Form = Form(customerId: string, interactionType: string, startDate: string, endDate: string)

  /** The `name` attribute of each filter input. */
  datatype FormField = CustomerIdField | InteractionTypeField | StartDateField | EndDateField

  const DefaultForm := Form("", "", "", "")

  const MessageLength := 120

  /** The text of one filter input. */
  function FieldText(form: Form, field: FormField): string {
    match field
    case CustomerIdField => form.customerId
    case InteractionTypeField => form.interactionType
    case StartDateField => form.startDate
    case EndDateField => form.endDate
  }

  /** The query property each filter input feeds. */
  function FieldKey(field: FormField): (k: string)
    ensures k != PageKey && k != SizeKey
  {
    match field
    case CustomerIdField => CustomerIdKey
    case InteractionTypeField => InteractionTypeKey
    case StartDateField => StartDateKey
    case EndDateField => EndDateKey
  }

  /** The form after input `field` changed to `value`: that input holds `value`, every other input is unchanged. */
  function WithField(form: Form, field: FormField, value: string): (f: Form)
    ensures FieldText(f, field) == value
    ensures forall other :: other != field ==> FieldText(f, other) == FieldText(form, other)
  {
    match field
    case CustomerIdField => form.(customerId := value)
    case InteractionTypeField => form.(interactionType := value)
    case StartDateField => form.(startDate := value)
    case EndDateField => form.(endDate := value)
  }

  /**
   * The query a submit hands to the hook. All four filter properties are
   * always present; an empty input becomes `undefined`. Converting the input
   * text to a number and to an ISO-8601 instant is the host runtime's
   * business and is given as `toNumber` and `toIso`.
   */
  function BuildQuery(form: Form, page: JsVal, toNumber: string -> int, toIso: string -> string): (q: Query)
    ensures q.Keys == {CustomerIdKey, InteractionTypeKey, StartDateKey, EndDateKey, PageKey}
    ensures q[PageKey] == page
    ensures q[CustomerIdKey] == Undefined <==> form.customerId == ""
    ensures form.customerId != "" ==> q[CustomerIdKey] == NumVal(toNumber(form.customerId))
    ensures q[InteractionTypeKey] == Undefined <==> form.interactionType == ""
    ensures form.interactionType != "" ==> q[InteractionTypeKey] == StrVal(form.interactionType)
    ensures q[StartDateKey] == Undefined <==> form.startDate == ""
    ensures form.startDate != "" ==> q[StartDateKey] == StrVal(toIso(form.startDate))
    ensures q[EndDateKey] == Undefined <==> form.endDate == ""
    ensures form.endDate != "" ==> q[EndDateKey] == StrVal(toIso(form.endDate))
  {
    map[
      CustomerIdKey := if form.customerId != "" then NumVal(toNumber(form.customerId)) else Undefined,
      InteractionTypeKey := if form.interactionType != "" then StrVal(form.interactionType) else Undefined,
      StartDateKey := if form.startDate != "" then StrVal(toIso(form.startDate)) else Undefined,
      EndDateKey := if form.endDate != "" then StrVal(toIso(form.endDate)) else Undefined,
      PageKey := page]
  }

  /** The page number the Previous button requests: one back, never below 0. */
  function PreviousPage(data: Page<Interaction>): (p: int)
    ensures p >= 0
    ensures data.number >= 1 ==> p == data.number - 1
    ensures data.number <= 0 ==> p == 0
  {
    if data.number - 1 > 0 then data.number - 1 else 0
  }

  /**
   * Previous is disabled while loading and on the first page, so on a
   * consistent page an enabled Previous always has a page before it.
   */
  predicate PreviousDisabled(loading: bool, data: Page<Interaction>)
    ensures loading ==> PreviousDisabled(loading, data)
    ensures Consistent(data) && !PreviousDisabled(loading, data) ==>
      !loading && 1 <= data.number && PreviousPage(data) == data.number - 1
  {
    loading || data.first
  }

  /** The page number the Next button requests: the one after the current page. */
  function NextPage(data: Page<Interaction>): (p: int)
    ensures p == data.number + 1
  {
    data.number + 1
  }

  /**
   * Next is disabled while loading and on the last page, so on a consistent
   * page an enabled Next always asks for a page that exists.
   */
  predicate NextDisabled(loading: bool, data: Page<Interaction>)
    ensures loading ==> NextDisabled(loading, data)
    ensures Consistent(data) && !NextDisabled(loading, data) ==>
      !loading && 1 <= NextPage(data) <= data.totalPages - 1
  {
    loading || data.last
  }

  /**
   * Both buttons are disabled while loading. On a consistent page, an enabled
   * Previous steps back exactly one page (the clamp at 0 never applies), and
   * an enabled Next asks for the following page, which is at most the last.
   */
  lemma PagingButtons(data: Page<Interaction>)
    ensures PreviousDisabled(true, data) && NextDisabled(true, data)
    ensures Consistent(data) && !PreviousDisabled(false, data) ==>
      0 <= PreviousPage(data) == data.number - 1
    ensures Consistent(data) && !NextDisabled(false, data) ==>
      NextPage(data) == data.number + 1 <= data.totalPages - 1
  {
  }

  /** The one-based page number shown, or 0 when there are no pages. */
  function CurrentPage(data: Page<Interaction>): (p: int)
    ensures data.totalPages == 0 ==> p == 0
    ensures data.totalPages != 0 ==> p == data.number + 1
    ensures data.number >= 0 ==> (p == 0 <==> data.totalPages == 0)
  {
    if data.totalPages != 0 then data.number + 1 else 0
  }

  /** The message column: the feedback, else the support response, else the empty string. */
  function MessageOf(interaction: Interaction): (m: string)
    ensures interaction.feedback.Defined? ==> m == interaction.feedback.value
    ensures Nullish(interaction.feedback) && interaction.responsesFromCustomerSupport.Defined? ==>
      m == interaction.responsesFromCustomerSupport.value
    ensures Nullish(interaction.feedback) && Nullish(interaction.responsesFromCustomerSupport) ==> m == ""
  {
    var chosen := Coalesce(interaction.feedback, Coalesce(interaction.responsesFromCustomerSupport, Defined("")));
    chosen.value
  }

  /**
   * The text of a message cell: the dash for an empty message, a message of
   * at most 120 characters as it is, a longer one cut to its first 120
   * characters followed by the ellipsis.
   */
  function MessageCell(interaction: Interaction): (text: string)
    ensures |text| <= MessageLength + 1
    ensures MessageOf(interaction) == "" ==> text == Dash
    ensures MessageOf(interaction) != "" && |MessageOf(interaction)| <= MessageLength ==>
      text == MessageOf(interaction)
    ensures |MessageOf(interaction)| > MessageLength ==>
      text == MessageOf(interaction)[..MessageLength] + [Ellipsis]
  {
    Truncate(Defined(MessageOf(interaction)), MessageLength)
  }

  /** "Showing n of m record(s)": the plural ends in "s" exactly when the total is not 1. */
  function ResultsDescription(data: Page<Interaction>): (d: string)
    ensures |d| > 8 && d[..8] == "Showing "
    ensures data.totalElements == 1 ==> d[|d| - 7..] == " record"
    ensures data.totalElements != 1 ==> d[|d| - 8..] == " records"
    ensures d[|d| - 1] == 's' <==> data.totalElements != 1
  {
    "Showing " + IntToString(|data.content|) + " of " + IntToString(data.totalElements)
      + " record" + (if data.totalElements == 1 then "" else "s")
  }

  class InteractionsPage {
    var form: Form
    const hook: InteractionsHook

    /** The page as it mounts: a blank form and a hook with no initial query. */
    constructor ()
      ensures form == DefaultForm && fresh(hook)
      ensures hook.State() == HookState(EmptyPage(DefaultPageSize), false, Wrappers.None, InitialQuery(map[]))
    {
      form := DefaultForm;
      hook := new InteractionsHook();
    }

    /** An input changed: only that field of the form is replaced. */
    method HandleChange(field: FormField, value: string)
      modifies this
      ensures form == WithField(old(form), field, value)
    {
      form := WithField(form, field, value);
    }

    /** Submitting searches with page 0 and all four filters taken from the form. */
    method HandleSubmit(toNumber: string -> int, toIso: string -> string, get: Transport)
      modifies hook
      ensures form == old(form)
      ensures var requested := Normalize(old(hook.query), BuildQuery(form, NumVal(0), toNumber, toIso));
        hook.State() == Settle(old(hook.State()), requested, get(InteractionsPath, Params(requested)))
    {
      hook.Search(BuildQuery(form, NumVal(0), toNumber, toIso), get);
    }

    /** Reset blanks the form but searches with only page 0, so the hook's filters stay. */
    method HandleReset(get: Transport)
      modifies this, hook
      ensures form == DefaultForm
      ensures var requested := Normalize(old(hook.query), map[PageKey := NumVal(0)]);
        hook.State() == Settle(old(hook.State()), requested, get(InteractionsPath, Params(requested)))
    {
      form := DefaultForm;
      hook.Search(map[PageKey := NumVal(0)], get);
    }

    /** The Previous and Next buttons: a page change through the hook. */
    method HandlePageChange(page: int, get: Transport)
      modifies hook
      ensures var requested := Normalize(old(hook.query), map[PageKey := NumVal(page)]);
        hook.State() == Settle(old(hook.State()), requested, get(InteractionsPath, Params(requested)))
    {
      hook.SetPage(page, get);
    }
  }

  /**
   * A submit requests page 0 with every filter input in the query: an emptied
   * input is `undefined` there, so it is not sent and, once the load succeeds,
   * it is `undefined` in the hook's query too; a filled input is never
   * `undefined`. `productId`, which has no input, carries over from the
   * previous query.
   */
  lemma SubmitClearsEmptiedFilters(before: HookState, form: Form, field: FormField, page: Page<Interaction>,
                                   toNumber: string -> int, toIso: string -> string)
    ensures var q := Normalize(before.query, BuildQuery(form, NumVal(0), toNumber, toIso));
      && q[PageKey] == NumVal(0)
      && (q[FieldKey(field)] == Undefined <==> FieldText(form, field) == "")
      && (FieldText(form, field) == "" ==>
            && FieldKey(field) !in Params(q)
            && Settle(before, q, Fetched(page)).query[FieldKey(field)] == Undefined)
      && (ProductIdKey in before.query ==> ProductIdKey in q && q[ProductIdKey] == before.query[ProductIdKey])
  {
  }

  /** After a reset, every filter of the hook's query is still there; the page is 0. */
  lemma ResetKeepsFilters(query: Query)
    ensures var q := Normalize(query, map[PageKey := NumVal(0)]);
      && q[PageKey] == NumVal(0)
      && forall k :: k in query && k != PageKey && k != SizeKey ==> k in q && q[k] == query[k]
  {
  }
}
