/** The messages exchanged over the socket, as already-parsed values. */
module Protocol {
  import Extractor

  const ExtractAction := "extract_dom"

  /** A parsed inbound command `{action, node_id}`. */
  datatype Request = Request(action: string, nodeId: string)

  /** What `JSON.parse(event.data)` gives: a command, or the message of the
      exception it threw. */
  datatype Inbound = Parsed(request: Request) | Unparseable(error: string)

  /** What goes out on the socket: the keep-alive `{action: 'ping'}` or a
      reply object. */
  datatype Outbound = Ping | Reply(result: Extractor.ExtractionResult)
}
