/** The review slot filled by "Sync Reviews". */
module Reviews {

  /** One guest review as delivered by the reputation source. */
  datatype Review = Review(source: string, guest: string, text: string)
}
