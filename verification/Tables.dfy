/** Header tables: string keys, values of any type of which only strings matter here. */
module Tables {

  datatype HeaderValue = Text(text: string) | Other(value: int)
  type Table = map<string, HeaderValue>

  const EXPIRED: string := "expired"

  /** The text under a key; "" when it is absent or not a string, as `v, ok := h[key].(string)`. */
  function TextAt(headers: Table, key: string): string {
    if key in headers && headers[key].Text? then headers[key].text else ""
  }

  /** A map on the heap, as Go's header tables are. */
  class HeaderMap {
    var entries: Table

    constructor (entries: Table)
      ensures this.entries == entries
    {
      this.entries := entries;
    }

    /** `mapToAMQPTable` and `amqpTableToMap`: a map of its own with the same entries. */
    method Copy() returns (copy: HeaderMap)
      ensures fresh(copy) && copy.entries == entries
    {
      copy := new HeaderMap(map[]);
      var rest := entries.Keys;
      while rest != {}
        invariant fresh(copy) && rest <= entries.Keys
        invariant copy.entries.Keys == entries.Keys - rest
        invariant forall key :: key in copy.entries ==> copy.entries[key] == entries[key]
        decreases rest
      {
        var key :| key in rest;
        copy.entries := copy.entries[key := entries[key]];
        rest := rest - {key};
      }
    }
  }
}
