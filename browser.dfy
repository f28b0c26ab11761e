/**
 * The two browser services the pages touch: `localStorage`, a string-keyed store,
 * and the router's `navigate`, recorded as the path it was given.
 */
module Browser {
  import opened Wrappers

  /**
   * What one key of `localStorage` holds. `Json(value)` is the text
   * `JSON.stringify(value)` wrote; `Text(text)` is any other string (a token,
   * or text that was not written by this application).
   */
  datatype Stored<T> = Text(text: string) | Json(value: T) {
    /** The result of `getItem` used as a condition: only the empty string is falsy,
        and a serialised record is never empty. */
    predicate Truthy() {
      Json? || text != ""
    }

    /** `JSON.parse` of the stored text: a serialised record reads back as itself;
        other text is taken not to be a record, and parsing it throws. */
    function Parse(): (r: Option<T>)
      ensures r.Some? <==> Json?
    {
      match this
      case Json(v) => Some(v)
      case Text(_) => None
    }
  }

  /** `window.localStorage`, holding values of one kind. */
  class LocalStorage<T> {
    var entries: map<string, Stored<T>>

    constructor(initial: map<string, Stored<T>>)
      ensures entries == initial
    {
      entries := initial;
    }

    /** `getItem(key)` taken as a condition: the key is there and its text is not empty. */
    predicate Has(key: string)
      reads this
    {
      key in entries && entries[key].Truthy()
    }

    /** `setItem(key, value)` */
    method SetItem(key: string, value: Stored<T>)
      modifies this
      ensures entries == old(entries)[key := value]
    {
      entries := entries[key := value];
    }

    /** `removeItem(key)`; removing a missing key is harmless. */
    method RemoveItem(key: string)
      modifies this
      ensures entries == old(entries) - {key}
    {
      entries := entries - {key};
    }
  }

  /** A call to `navigate(path, { state: { email } })`; `email` is `None` when no state is passed. */
  datatype Navigation = Navigation(path: string, email: Option<string>)

  const SignInPath := "/signin"
  const VerifyEmailPath := "/auth/verify-email"
}
