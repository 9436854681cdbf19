/** Field-by-field copies between the transfer object and the entity. */
module Mappers {
  import opened Wrappers
  import opened Domain

  /** The entity with the same eight fields; version and timestamps are left null. */
  function ToEntity(dto: InteractionLogDto): (e: InteractionLog)
    ensures e.version == None && e.dateCreated == None && e.dateUpdated == None
    ensures ToDto(e) == dto
  {
    InteractionLog(dto.id, dto.productId, dto.customerId, dto.interactionType, dto.customerRating,
                   dto.feedback, dto.interactionDate, dto.responsesFromCustomerSupport,
                   None, None, None)
  }

  /** The transfer object with the entity's eight shared fields; the entity-only ones are dropped. */
  function ToDto(e: InteractionLog): (dto: InteractionLogDto)
    ensures dto.id == e.id && dto.productId == e.productId && dto.customerId == e.customerId
    ensures dto.interactionType == e.interactionType && dto.customerRating == e.customerRating
    ensures dto.feedback == e.feedback && dto.interactionDate == e.interactionDate
    ensures dto.responsesFromCustomerSupport == e.responsesFromCustomerSupport
  {
    InteractionLogDto(e.id, e.productId, e.customerId, e.interactionType, e.customerRating,
                      e.feedback, e.interactionDate, e.responsesFromCustomerSupport)
  }

  /** Mapping a transfer object to an entity and back gives it back unchanged. */
  lemma DtoRoundTrip(dto: InteractionLogDto)
    ensures ToDto(ToEntity(dto)) == dto
  {
  }

  /** Mapping an entity to a transfer object and back loses exactly the version and the timestamps. */
  lemma EntityRoundTrip(e: InteractionLog)
    ensures ToEntity(ToDto(e)) == e.(version := None, dateCreated := None, dateUpdated := None)
  {
  }

  /** The entities for a list of transfer objects, in order. */
  function ToEntities(dtos: seq<InteractionLogDto>): (es: seq<InteractionLog>)
    ensures |es| == |dtos|
    ensures forall i :: 0 <= i < |dtos| ==> es[i] == ToEntity(dtos[i])
  {
    seq(|dtos|, i requires 0 <= i < |dtos| => ToEntity(dtos[i]))
  }

  /** The transfer objects for a list of entities, in order. */
  function ToDtos(es: seq<InteractionLog>): (dtos: seq<InteractionLogDto>)
    ensures |dtos| == |es|
    ensures forall i :: 0 <= i < |es| ==> dtos[i] == ToDto(es[i])
  {
    seq(|es|, i requires 0 <= i < |es| => ToDto(es[i]))
  }
}
