/** The agent's output stream: `Event` of internal/agent/agent.go and the sink it is emitted to. */
module Events {

  datatype EventType = Token | Tool | Done | Error

  datatype Event = Event(kind: EventType, text: string, tool: string, status: string)

  function TokenEvent(text: string): (e: Event)
    ensures e.kind == Token && e.text == text && e.tool == "" && e.status == ""
  {
    Event(Token, text, "", "")
  }

  function ToolEvent(name: string, status: string): (e: Event)
    ensures e.kind == Tool && e.text == "" && e.tool == name && e.status == status
  {
    Event(Tool, "", name, status)
  }

  function ErrorEvent(text: string): (e: Event)
    ensures e.kind == Error && e.text == text && e.tool == "" && e.status == ""
  {
    Event(Error, text, "", "")
  }

  const DONE := Event(Done, "", "", "")

  class Sink {
    var events: seq<Event>

    constructor ()
      ensures events == []
    {
      events := [];
    }

    method Emit(e: Event)
      modifies this
      ensures events == old(events) + [e]
    {
      events := events + [e];
    }
  }
}
