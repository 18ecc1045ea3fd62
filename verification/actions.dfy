/** A recorded interaction event, as `WebAgent.record_action` builds it
    (src/agent.py:90-94): a timestamp, a type name and a parameter mapping. */
module Actions {

  /** A parameter value: the recorder stores integers (coordinates, scroll
      amounts) and strings (URLs, scroll directions). */
  datatype Value = Num(n: int) | Str(s: string)

  type Params = map<string, Value>

  /** `timestamp` is the clock reading at recording time, in microseconds
      (the source stores an ISO-8601 string of the same instant). */
  datatype Action = Action(timestamp: int, kind: string, params: Params)

  // The event types the browser wrappers record.
  const NavigateKind: string := "navigate"
  const ClickKind: string := "click"
  const ScrollKind: string := "scroll"

  // The parameter names the browser wrappers use.
  const UrlKey: string := "url"
  const XKey: string := "x"
  const YKey: string := "y"
  const DirectionKey: string := "direction"
  const AmountKey: string := "amount"
}
