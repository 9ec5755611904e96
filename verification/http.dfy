/** What a route handler sends back, and the store it leaves behind. */
module Http {
  import opened JsValue

  /** `res.json({ message })`, the login reply `res.json({ message, subscribed })`,
      or a plain `res.send(text)`. */
  datatype Body =
    | Json(message: string)
    | LoginJson(message: string, subscribed: Value)
    | Text(text: string)

  datatype Response = Response(status: int, body: Body)

  /** The response of one request together with the list saved afterwards
      (the loaded list itself when the handler saves nothing). */
  datatype Reply<T> = Reply(response: Response, store: seq<T>)
}
