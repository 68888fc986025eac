/**
 * The session helpers: storing a value under a key and reading it back,
 * optionally removing it. A request is modelled by its session (`null` for a
 * missing request); a key is falsy when it is empty.
 */
module SessionUtils {
  import opened Wrappers

  /** The session dictionary of one request. */
  class Session<V> {
    var data: map<string, V>

    constructor ()
      ensures data == map[]
    {
      data := map[];
    }
  }

  /** `store_in_session(request, key, value)`. */
  method StoreInSession<V>(request: Session?<V>, key: string, value: V) returns (stored: bool)
    modifies request
    ensures stored <==> request != null && key != ""
    ensures stored ==> request.data == old(request.data)[key := value]
    ensures !stored && request != null ==> request.data == old(request.data)
  {
    if request != null && key != "" {
      request.data := request.data[key := value];
      return true;
    }
    return false;
  }

  /** `get_from_session(request, key, pop)`: the stored value, or `None` when
      the key is absent (a failed `pop` raises `KeyError`, which is caught) or
      the request or key is falsy. Only a successful `pop` changes the session. */
  method GetFromSession<V>(request: Session?<V>, key: string, pop: bool) returns (value: Option<V>)
    modifies request
    ensures request == null || key == "" ==> value == None
    ensures request != null && key != "" ==>
              value == if key in old(request.data) then Some(old(request.data)[key]) else None
    ensures request != null ==>
              request.data == if pop && key != "" then old(request.data) - {key} else old(request.data)
  {
    value := None;
    if request != null && key != "" {
      if pop {
        if key in request.data {
          value := Some(request.data[key]);
          request.data := request.data - {key};
        }
      } else if key in request.data {
        value := Some(request.data[key]);
      }
    }
  }

  /** Storing a value, popping it and reading again: the pop returns the value,
      the second read finds nothing, and the other keys are as before. */
  method StoreThenPop<V>(request: Session<V>, key: string, value: V) returns (first: Option<V>, second: Option<V>)
    requires key != ""
    modifies request
    ensures first == Some(value) && second == None
    ensures request.data == old(request.data) - {key}
  {
    var stored := StoreInSession(request, key, value);
    first := GetFromSession(request, key, true);
    second := GetFromSession(request, key, false);
  }
}
