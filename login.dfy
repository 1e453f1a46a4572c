/** The login form (eagle-task/src/components/Login.jsx): the typed token is
    used to fetch the graded courses; on success the token and the course
    snapshot are stored and the app is told the user is logged in. The
    fetch's result is the `outcome` parameter, carrying the snapshot already
    in its stored (JSON) text form. */
module Login {
  import opened Outcomes
  import Storage

  const FailureText := "Failed to retrieve data. Please check your API key and try again."
  const HomeRoute := "/"

  /** What the component renders: the start-up screen while loading,
      otherwise the form, with the error paragraph when an error is set. */
  datatype Screen = LoadingScreen | Form(errorShown: Option<string>)

  class LoginView {
    var apiKey: string
    var error: string
    var loading: bool
    /** The effects of the `setLoggedIn` callback and of `navigate`. */
    var loggedIn: bool
    var route: Option<string>

    constructor()
      ensures apiKey == "" && error == "" && !loading && !loggedIn && route == None
    {
      apiKey, error, loading := "", "", false;
      loggedIn, route := false, None;
    }

    method OnKeyChange(text: string)
      modifies this
      ensures apiKey == text
      ensures error == old(error) && loading == old(loading) && loggedIn == old(loggedIn) && route == old(route)
    {
      apiKey := text;
    }

    /** `handleSubmit` up to its `await`. */
    method BeginSubmit()
      modifies this
      ensures loading
      ensures apiKey == old(apiKey) && error == old(error) && loggedIn == old(loggedIn) && route == old(route)
    {
      loading := true;
    }

    /** `handleSubmit` after its `await`. On success both keys are written,
        then `setLoggedIn(true)` and `navigate("/")` run; when the parent did
        not pass `setLoggedIn`, calling it throws after the writes and the
        `catch` sets the error instead of navigating. On failure storage is
        untouched and only the error is set. `loading` ends false either way. */
    method FinishSubmit(outcome: Outcome<string>, store: Storage.LocalStorage, hasSetLoggedIn: bool)
      modifies this, store
      ensures !loading && apiKey == old(apiKey)
      ensures outcome.Failure? ==>
        store.items == old(store.items) && error == FailureText
        && loggedIn == old(loggedIn) && route == old(route)
      ensures outcome.Success? ==>
        store.items == old(store.items)[Storage.ApiKeyKey := apiKey][Storage.GradesKey := outcome.payload]
      ensures outcome.Success? && hasSetLoggedIn ==>
        loggedIn && route == Some(HomeRoute) && error == old(error)
      ensures outcome.Success? && !hasSetLoggedIn ==>
        error == FailureText && loggedIn == old(loggedIn) && route == old(route)
    {
      match outcome {
        case Success(snapshot) =>
          store.SetItem(Storage.ApiKeyKey, apiKey);
          store.SetItem(Storage.GradesKey, snapshot);
          if hasSetLoggedIn {
            loggedIn := true;
            route := Some(HomeRoute);
          } else {
            error := FailureText;
          }
        case Failure =>
          error := FailureText;
      }
      loading := false;
    }

    /** `handleSubmit` with no other event between its two halves. */
    method HandleSubmit(outcome: Outcome<string>, store: Storage.LocalStorage, hasSetLoggedIn: bool)
      modifies this, store
      ensures !loading && apiKey == old(apiKey)
      ensures outcome.Failure? ==>
        store.items == old(store.items) && error == FailureText
        && loggedIn == old(loggedIn) && route == old(route)
      ensures outcome.Success? ==>
        store.items == old(store.items)[Storage.ApiKeyKey := apiKey][Storage.GradesKey := outcome.payload]
      ensures outcome.Success? && hasSetLoggedIn ==>
        loggedIn && route == Some(HomeRoute) && error == old(error)
      ensures outcome.Success? && !hasSetLoggedIn ==>
        error == FailureText && loggedIn == old(loggedIn) && route == old(route)
    {
      BeginSubmit();
      FinishSubmit(outcome, store, hasSetLoggedIn);
    }

    /** The rendered screen. */
    function View(): (s: Screen)
      reads this
      ensures s.LoadingScreen? <==> loading
      ensures s.Form? ==> (s.errorShown.Some? <==> error != "")
      ensures s.Form? && s.errorShown.Some? ==> s.errorShown.value == error
    {
      if loading then LoadingScreen
      else if error != "" then Form(Some(error))
      else Form(None)
    }
  }
}
