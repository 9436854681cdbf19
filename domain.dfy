/**
 * The backend's records. Every field is a nullable Java reference; dates
 * and timestamps are integers ordered like the instants they stand for.
 */
module Domain {
  import opened Wrappers
  import opened InteractionTypes

  /** The transfer object used for JSON, CSV rows and responses. */
  datatype InteractionLogDto = InteractionLogDto(
    id: Option<int>,
    productId: Option<int>,
    customerId: Option<int>,
    interactionType: Option<InteractionType>,
    customerRating: Option<int>,
    feedback: Option<string>,
    interactionDate: Option<int>,
    responsesFromCustomerSupport: Option<string>)

  /** The persisted entity: the transfer fields plus the version and the two audit timestamps. */
  datatype InteractionLog = InteractionLog(
    id: Option<int>,
    productId: Option<int>,
    customerId: Option<int>,
    interactionType: Option<InteractionType>,
    customerRating: Option<int>,
    feedback: Option<string>,
    interactionDate: Option<int>,
    responsesFromCustomerSupport: Option<string>,
    version: Option<int>,
    dateCreated: Option<int>,
    dateUpdated: Option<int>)

  /** The filters of a search; every one may be null. */
  datatype InteractionSearchCriteria = InteractionSearchCriteria(
    customerId: Option<int>,
    productId: Option<int>,
    interactionType: Option<InteractionType>,
    startDate: Option<int>,
    endDate: Option<int>)
}
