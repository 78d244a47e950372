/** A route handler's answer: a JSON body with a status, or an error status
    with its message. Request fields read from a query string or a JSON
    body are `Option`s; `None` stands for an absent key or a null. */
module Http {
  import opened Wrappers

  datatype Response<T> = Json(status: int, body: T) | Failure(status: int, message: string)

  /** JavaScript truthiness of a text field: present and not empty. */
  predicate TruthyText(o: Option<string>) {
    o.Some? && o.value != ""
  }

  /** JavaScript truthiness of a numeric field: present and not zero. */
  predicate TruthyNumber(o: Option<int>) {
    o.Some? && o.value != 0
  }
}
