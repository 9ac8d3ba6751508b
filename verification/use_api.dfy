/** The `useApi` hook: the request URL built from the base URL and its
    parameters, and the `data`/`loading`/`error` state a fetch moves through. */
module UseApi {
  import opened Wrappers
  import opened SearchParams
  import opened ApiTypes

  /** Parameter entries in object order; `None` is an `undefined` or `null` value. */
  type Entries = seq<(string, Option<string>)>

  /** The entries that carry a value, in order, as search parameters. */
  function Present(entries: Entries): (ps: Pairs)
    ensures |ps| <= |entries|
    decreases |entries|
  {
    if entries == [] then []
    else
      var last := entries[|entries| - 1];
      Present(entries[..|entries| - 1]) + (if last.1.Some? then [(last.0, last.1.value)] else [])
  }

  /** A pair is kept exactly when an entry gives that key that value. */
  lemma {:induction false} PresentKeepsValued(entries: Entries)
    ensures forall k, v :: (k, v) in Present(entries) <==> (k, Some(v)) in entries
    decreases |entries|
  {
    if entries != [] {
      var init := entries[..|entries| - 1];
      PresentKeepsValued(init);
      assert entries == init + [entries[|entries| - 1]];
    }
  }

  /** Nothing is kept exactly when no entry carries a value. */
  lemma {:induction false} PresentEmptyIff(entries: Entries)
    ensures Present(entries) == [] <==> forall i :: 0 <= i < |entries| ==> entries[i].1.None?
    decreases |entries|
  {
    if entries != [] {
      var init := entries[..|entries| - 1];
      PresentEmptyIff(init);
      assert forall i :: 0 <= i < |init| ==> init[i] == entries[i];
    }
  }

  /** Present entries keep their relative order. */
  lemma {:induction false} PresentKeepsOrder(front: Entries, back: Entries)
    ensures Present(front + back) == Present(front) + Present(back)
    decreases |back|
  {
    if back == [] {
      assert front + back == front;
    } else {
      var init := back[..|back| - 1];
      PresentKeepsOrder(front, init);
      assert (front + back)[..|front + back| - 1] == front + init;
    }
  }

  /** `buildUrl()`: the base URL, followed by `?` and the query string when
      there is one; `params` is `None` when no parameters were passed. */
  method BuildUrl(url: string, params: Option<Entries>) returns (full: string)
    ensures params.None? ==> full == url
    ensures params.Some? && Present(params.value) == [] ==> full == url
    ensures params.Some? && Present(params.value) != [] ==> full == url + "?" + Serialize(Present(params.value))
  {
    if params.None? {
      return url;
    }
    var entries := params.value;
    var searchParams: Pairs := [];
    for i := 0 to |entries|
      invariant searchParams == Present(entries[..i])
    {
      assert entries[..i + 1][..i] == entries[..i];
      if entries[i].1.Some? {
        searchParams := searchParams + [(entries[i].0, entries[i].1.value)];
      }
    }
    assert entries[..|entries|] == entries;
    var queryString := Serialize(searchParams);
    full := if queryString != "" then url + "?" + queryString else url;
  }

  /** The answer to one fetch: the parsed body with the response's `ok`
      flag, or a thrown value (its message when it is an `Error`). */
  datatype FetchOutcome<T> =
    | Received(ok: bool, body: ApiResponse<T>)
    | Failed(errorMessage: Option<string>)

  /** The error a fetch ends with, if any: for a server answer, its
      message when it is not empty, else a fixed text; for a thrown `Error`,
      its message as it is (even empty); for any other thrown value, a fixed
      text. */
  function FetchError<T>(outcome: FetchOutcome<T>): (e: Option<string>)
    ensures e.None? <==> outcome.Received? && outcome.ok && outcome.body.error.None?
    ensures outcome.Received? && e.Some? ==> e.value != ""
    ensures outcome.Received? && e.Some? && outcome.body.error.Some? && outcome.body.error.value.message != "" ==>
              e.value == outcome.body.error.value.message
    ensures outcome.Failed? ==> e == Some(if outcome.errorMessage.Some? then outcome.errorMessage.value
                                          else "An unknown error occurred")
  {
    match outcome
    case Received(ok, body) =>
      if !ok || body.error.Some? then
        Some(if body.error.Some? && body.error.value.message != "" then body.error.value.message
             else "Failed to fetch data")
      else None
    case Failed(message) =>
      Some(if message.Some? then message.value else "An unknown error occurred")
  }

  /** The hook's state cells. */
  class ApiState<T> {
    var data: Option<T>
    var loading: bool
    var error: Option<string>

    /** The first render: `initialData || null`, where `initialTruthy` says
        whether the initial data is a truthy value. */
    constructor(initialData: Option<T>, initialTruthy: bool, immediate: bool)
      ensures data == (if initialData.Some? && initialTruthy then initialData else None)
      ensures loading == immediate && error.None?
    {
      data := if initialData.Some? && initialTruthy then initialData else None;
      loading := immediate;
      error := None;
    }

    /** The start of `fetchData`: loading, with the error cleared. */
    method BeginFetch()
      modifies this
      ensures loading && error.None? && data == old(data)
    {
      loading := true;
      error := None;
    }

    /** The end of `fetchData`: on success the body's data, on failure the
        error text and no data; never loading. */
    method FinishFetch(outcome: FetchOutcome<T>)
      modifies this
      ensures !loading
      ensures error == (if FetchError(outcome).Some? then FetchError(outcome) else old(error))
      ensures data == (if FetchError(outcome).Some? then None else outcome.body.data)
    {
      match outcome {
        case Received(ok, body) =>
          if !ok || body.error.Some? {
            var errorMessage := if body.error.Some? && body.error.value.message != "" then body.error.value.message
                                else "Failed to fetch data";
            error := Some(errorMessage);
            data := None;
          } else {
            data := body.data;
          }
        case Failed(message) =>
          error := Some(if message.Some? then message.value else "An unknown error occurred");
          data := None;
      }
      loading := false;
    }

    /** `fetchData()` from start to end: afterwards the state holds either
        the data and no error, or an error and no data. */
    method Fetch(outcome: FetchOutcome<T>)
      modifies this
      ensures !loading
      ensures error == FetchError(outcome)
      ensures error.None? ==> data == outcome.body.data
      ensures error.Some? ==> data.None?
      ensures outcome.Received? && error.Some? ==> error.value != ""
    {
      BeginFetch();
      FinishFetch(outcome);
    }
  }
}
