/** What can become of a request to another process. */
module Environment {

  /** It never arrived; it took effect but its answer was lost; it was answered. */
  datatype Delivery = Unsent | Unanswered | Answered
}
