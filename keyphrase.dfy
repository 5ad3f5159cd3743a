/**
 * The session keyphrase slot `session_keyphrase` (src/clone.c:28-35) and its
 * R entry point `R_set_session_keyphrase` (src/clone.c:347-352).
 *
 * The slot is a function-level `static char *`, one per process, NULL until
 * first set. An R value is modelled as None when it is not a character vector
 * and Some(v) with its strings when it is.
 */
module Keyphrase {
  import opened Wrappers

  class SessionKeyphrase {
    var key: Option<string>

    /** Process start: the static pointer is NULL. */
    constructor ()
      ensures key == None
    {
      key := None;
    }

    /**
     * `session_keyphrase(set)`: a non-NULL argument is stored (a copy of it)
     * and NULL is returned; a NULL argument returns the stored value.
     */
    method Call(newKey: Option<string>) returns (r: Option<string>)
      modifies this
      ensures newKey.Some? ==> r == None && key == newKey
      ensures newKey.None? ==> r == old(key) && key == old(key)
    {
      if newKey.Some? {
        key := newKey;
        return None;
      }
      return key;
    }

    /**
     * `R_set_session_keyphrase`: an argument that is not a non-empty character
     * vector raises "Need to pass a string" and leaves the slot alone; otherwise
     * its first string is stored.
     */
    method SetSessionKeyphrase(arg: Option<seq<string>>) returns (res: Result<()>)
      modifies this
      ensures res.Ok? <==> arg.Some? && |arg.value| > 0
      ensures res.Ok? ==> key == Some(arg.value[0])
      ensures res.Err? ==> res.message == "Need to pass a string" && key == old(key)
    {
      if arg.None? || |arg.value| == 0 {
        return Err("Need to pass a string");
      }
      var _ := Call(Some(arg.value[0]));
      return Ok(());
    }
  }

  /**
   * Reading before any set gives NULL; a set followed by a read gives the value
   * set; a second set fully overwrites the first.
   */
  method SetThenGet(a: string, b: string) returns (before: Option<string>, first: Option<string>, second: Option<string>)
    ensures before == None && first == Some(a) && second == Some(b)
  {
    var slot := new SessionKeyphrase();
    before := slot.Call(None);
    var _ := slot.Call(Some(a));
    first := slot.Call(None);
    var _ := slot.Call(Some(b));
    second := slot.Call(None);
  }

  /** A rejected argument does not disturb a keyphrase set earlier. */
  method RejectedSetKeepsValue(a: string) returns (res: Result<()>, after: Option<string>)
    ensures res == Err("Need to pass a string") && after == Some(a)
  {
    var slot := new SessionKeyphrase();
    var _ := slot.SetSessionKeyphrase(Some([a]));
    res := slot.SetSessionKeyphrase(Some([]));
    after := slot.Call(None);
  }
}
