/** The parts of the browser the client touches: `window.localStorage`
    (a string-to-string map) and the events dispatched on `window`. */
module Browser {

  /** `new CustomEvent(name, { detail: { id } })`. */
  datatype Event = CustomEvent(name: string, detailId: string)

  class Window {
    var localStorage: map<string, string>
    /** Every event dispatched on the window so far, oldest first. */
    var events: seq<Event>

    constructor (storage: map<string, string>)
      ensures localStorage == storage && events == []
    {
      localStorage := storage;
      events := [];
    }
  }
}
