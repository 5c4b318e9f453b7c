/** Values shared by the entity and the agent: Java's nullable references and
    the opaque JSON documents the agent passes through. */
module Values {

  /** A nullable Java reference: `None` stands for `null`. */
  datatype Option<+T> = None | Some(value: T)

  /** A Java `String` that may be `null`. */
  type JString = Option<string>

  /** A JSON document (a Jackson `ObjectNode` or `ArrayNode`) the agent never
      looks into; only its textual form matters to the model. */
  datatype Json = Json(text: string)
}
