/** The interaction record as the frontend receives it in a page of results. */
module InteractionRecord {
  import opened JsValues
  import opened InteractionTypes

  datatype Interaction = Interaction(
    id: int,
    productId: int,
    customerId: int,
    interactionType: InteractionType,
    customerRating: Nullable<int>,
    feedback: Nullable<string>,
    interactionDate: string,
    responsesFromCustomerSupport: Nullable<string>)
}
