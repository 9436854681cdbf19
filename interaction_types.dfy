/** The interaction kinds, shared by the backend enum and the frontend string union. */
module InteractionTypes {

  datatype InteractionType = CHAT | EMAIL | TICKET | FORM
}
