/** The calendar view (eagle-task/src/components/Calendar.jsx): fetches the
    user's events with the stored token and renders loading, the error, an
    empty notice, or the event list, in that priority. The request's result
    is the `outcome` parameter. */
module Calendar {
  import opened Outcomes
  import Storage

  datatype CalendarEvent = CalendarEvent(title: string, contextName: string, startAt: string, htmlUrl: string)

  const MissingKeyText := "API key not found. Please log in again."
  const FetchFailedText := "Failed to load calendar events. Please try again."

  datatype Screen = LoadingText | ErrorText(message: string) | NoEvents | EventList(events: seq<CalendarEvent>)

  /** The render branch: loading, then a truthy error, then the empty list,
      then the list. */
  function SelectScreen(loading: bool, error: Option<string>, events: seq<CalendarEvent>): (s: Screen)
    ensures loading ==> s == LoadingText
    ensures !loading && error.Some? && error.value != "" ==> s == ErrorText(error.value)
    ensures !loading && (error.None? || error.value == "") && events == [] ==> s == NoEvents
    ensures !loading && (error.None? || error.value == "") && events != [] ==> s == EventList(events)
  {
    if loading then LoadingText
    else if error.Some? && error.value != "" then ErrorText(error.value)
    else if |events| == 0 then NoEvents
    else EventList(events)
  }

  class CalendarView {
    var events: seq<CalendarEvent>
    var loading: bool
    var error: Option<string>

    /** First render, before the mount effect's fetch resolves. */
    constructor()
      ensures events == [] && loading && error == None
    {
      events, loading, error := [], true, None;
    }

    /** `fetchCalendar` up to its `await`: loading set and the error cleared;
        with no (or an empty) stored token it stops here with the missing-key
        error and `loading` false. Returns the token when a request is made. */
    method BeginFetch(store: Storage.LocalStorage) returns (token: Option<string>)
      modifies this
      ensures events == old(events)
      ensures Storage.Truthy(store.GetItem(Storage.ApiKeyKey)) ==>
        token == store.GetItem(Storage.ApiKeyKey) && loading && error == None
      ensures !Storage.Truthy(store.GetItem(Storage.ApiKeyKey)) ==>
        token == None && !loading && error == Some(MissingKeyText)
    {
      loading := true;
      error := None;
      var stored := store.GetItem(Storage.ApiKeyKey);
      if !Storage.Truthy(stored) {
        error := Some(MissingKeyText);
        loading := false;
        return None;
      }
      token := stored;
    }

    /** `fetchCalendar` after its `await`: the events are replaced on
        success; on failure the error is set and the events are kept. */
    method FinishFetch(outcome: Outcome<seq<CalendarEvent>>)
      modifies this
      ensures !loading
      ensures outcome.Success? ==> events == outcome.payload && error == old(error)
      ensures outcome.Failure? ==> events == old(events) && error == Some(FetchFailedText)
    {
      match outcome {
        case Success(data) => events := data;
        case Failure => error := Some(FetchFailedText);
      }
      loading := false;
    }

    /** `fetchCalendar` with no other event between its two halves. */
    method FetchCalendar(store: Storage.LocalStorage, outcome: Outcome<seq<CalendarEvent>>)
      modifies this
      ensures !loading
      ensures !Storage.Truthy(store.GetItem(Storage.ApiKeyKey)) ==>
        events == old(events) && error == Some(MissingKeyText)
      ensures Storage.Truthy(store.GetItem(Storage.ApiKeyKey)) && outcome.Success? ==>
        events == outcome.payload && error == None
      ensures Storage.Truthy(store.GetItem(Storage.ApiKeyKey)) && outcome.Failure? ==>
        events == old(events) && error == Some(FetchFailedText)
    {
      var token := BeginFetch(store);
      if token.Some? {
        FinishFetch(outcome);
      }
    }
  }
}
