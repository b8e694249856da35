/** The browser and network as the components see them: optional values,
    the two HTTP clients' outcomes, user-visible effects and localStorage. */
module Browser {

  /** A JavaScript value that may be null or undefined. */
  datatype Option<T> = None | Some(value: T)

  /** JavaScript truthiness of a string that may be missing: null, undefined
      and "" are falsy. */
  predicate Truthy(s: Option<string>)
  {
    s.Some? && s.value != ""
  }

  /** `s || fallback` on a string that may be missing. */
  function OrElse(s: Option<string>, fallback: string): string
  {
    if Truthy(s) then s.value else fallback
  }

  /** What `await fetch(...)` followed by `await response.json()` yields: the
      decoded body (whatever the HTTP status), or a rejection that lands in
      the handler's catch block. */
  datatype FetchOutcome<T> = Fetched(data: T) | FetchFailed

  /** What an axios request yields: the response body on a 2xx status, or a
      thrown error whose `err.response?.status` is `status` (None when no
      response arrived). */
  datatype HttpOutcome<T> = Ok(data: T) | HttpError(status: Option<int>)

  /** What a handler does that the user sees, in order: `alert(message)`,
      `navigate(path)`, `navigate(-1)`, or a call of a callback prop. */
  datatype Effect = Alert(message: string) | Navigate(path: string) | NavigateBack | Callback(name: string)

  /** A map position `{ lat, lng }` as the map widget hands it over. */
  datatype LatLng = LatLng(lat: real, lng: real)

  /** The key under which the login stores the access token. */
  const ACCESS_TOKEN_KEY: string := "accessToken"

  /** `localStorage.getItem(key)` on a snapshot of storage: null when the
      key is absent. */
  function StoredValue(items: map<string, string>, key: string): (v: Option<string>)
    ensures v.Some? <==> key in items
    ensures key in items ==> v.value == items[key]
  {
    if key in items then Some(items[key]) else None
  }

  /** The browser's localStorage: a mutable map from keys to strings. */
  class LocalStorage {
    var items: map<string, string>

    constructor (initial: map<string, string>)
      ensures items == initial
    {
      items := initial;
    }

    /** `localStorage.getItem(key)`. */
    method GetItem(key: string) returns (v: Option<string>)
      ensures v == StoredValue(items, key)
    {
      v := StoredValue(items, key);
    }

    method SetItem(key: string, value: string)
      modifies this
      ensures items == old(items)[key := value]
    {
      items := items[key := value];
    }

    method RemoveItem(key: string)
      modifies this
      ensures items == old(items) - {key}
    {
      items := items - {key};
    }

    method Clear()
      modifies this
      ensures items == map[]
    {
      items := map[];
    }
  }
}
