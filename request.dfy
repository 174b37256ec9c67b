/** Values that arrive in a request (query string or JSON body) and the two
    conventions every bridge applies to them: JavaScript truthiness of the
    `message` field, and the `'normal'` default of the `priority` field. */
module Request {

  /** A request field that may be absent (`undefined` in the handler). */
  datatype Option<T> = None | Some(value: T)

  /** `!message` is false exactly for a present, non-empty string:
      `undefined` and `""` are the falsy strings. */
  predicate Truthy(field: Option<string>) {
    field.Some? && field.value != ""
  }

  /** The destructuring default `priority = 'normal'` applies only when the
      field is absent; a present empty string is kept as it is. */
  const DefaultPriority: string := "normal"

  function PriorityOrDefault(priority: Option<string>): string {
    match priority
    case None => DefaultPriority
    case Some(p) => p
  }

  /** The two fixed role names every bridge writes into its entries. */
  const Gpt: string := "GPT"
  const Claude: string := "Claude"
}
