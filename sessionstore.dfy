/**
 * The saved playback state in the tab's session storage.  The store maps
 * keys to stored values; a value is either the state a save wrote or text
 * that does not parse.  When storage is unavailable every access throws,
 * and the callers swallow the error.
 */
module SessionStore {
  import opened Wrappers

  /** The one key the tour uses. */
  const StateKey: string := "cursorFlowState"

  /** The essentials a save keeps: playing flag, step index and session id. */
  datatype Saved = Saved(isPlaying: bool, currentStep: nat, sessionId: Option<string>)

  /** A stored value: a saved state, or text `JSON.parse` rejects. */
  datatype Stored = Json(state: Saved) | Malformed

  /** The store after `setItem(StateKey, JSON.stringify(s))`; unchanged when storage throws. */
  function AfterSave(entries: map<string, Stored>, available: bool, s: Saved): (r: map<string, Stored>)
    ensures available ==> StateKey in r && r[StateKey] == Json(s)
    ensures !available ==> r == entries
    ensures forall k :: k in entries && k != StateKey ==> k in r && r[k] == entries[k]
    ensures forall k :: k in r && k != StateKey ==> k in entries
  {
    if available then entries[StateKey := Json(s)] else entries
  }

  /** The store after `removeItem(StateKey)`; unchanged when storage throws. */
  function AfterClear(entries: map<string, Stored>, available: bool): (r: map<string, Stored>)
    ensures available ==> StateKey !in r
    ensures !available ==> r == entries
    ensures forall k :: k in entries && k != StateKey ==> k in r && r[k] == entries[k]
    ensures forall k :: k in r ==> k in entries
  {
    if available then entries - {StateKey} else entries
  }

  /** What `restore` returns: the parsed state, or null when absent, malformed or unreadable. */
  function Restored(entries: map<string, Stored>, available: bool): (r: Option<Saved>)
    ensures r.Some? <==> available && StateKey in entries && entries[StateKey].Json?
    ensures r.Some? ==> r.value == entries[StateKey].state
  {
    if available && StateKey in entries then
      match entries[StateKey]
      case Json(s) => Some(s)
      case Malformed => None
    else None
  }

  /** A save followed by a restore gives back the saved state. */
  lemma SaveRestoreRoundTrip(entries: map<string, Stored>, s: Saved)
    ensures Restored(AfterSave(entries, true, s), true) == Some(s)
  {
  }

  /** Saving twice keeps only the second state. */
  lemma SaveOverwrites(entries: map<string, Stored>, available: bool, s1: Saved, s2: Saved)
    ensures Restored(AfterSave(AfterSave(entries, available, s1), available, s2), available)
         == Restored(AfterSave(entries, available, s2), available)
  {
  }

  /** After a clear nothing is restored. */
  lemma ClearForgets(entries: map<string, Stored>, available: bool)
    ensures Restored(AfterClear(entries, available), available) == None
  {
  }

  /** Unavailable storage restores nothing and is never written. */
  lemma UnavailableSwallows(entries: map<string, Stored>, s: Saved)
    ensures Restored(entries, false) == None
    ensures AfterSave(entries, false, s) == entries && AfterClear(entries, false) == entries
  {
  }

  /** `sessionStorage` together with whether accessing it throws. */
  class SessionStorage {
    var entries: map<string, Stored>
    var available: bool

    constructor (initial: map<string, Stored>, usable: bool)
      ensures entries == initial && available == usable
    {
      entries := initial;
      available := usable;
    }

    /** `StateManager.save` */
    method Save(s: Saved)
      modifies this
      ensures entries == AfterSave(old(entries), old(available), s)
      ensures available == old(available)
    {
      if available {
        entries := entries[StateKey := Json(s)];
      }
    }

    /** `StateManager.restore` */
    method Restore() returns (r: Option<Saved>)
      ensures r == Restored(entries, available)
    {
      r := None;
      if available && StateKey in entries {
        var stored := entries[StateKey];
        if stored.Json? {
          r := Some(stored.state);
        }
      }
    }

    /** `StateManager.clear` */
    method Clear()
      modifies this
      ensures entries == AfterClear(old(entries), old(available))
      ensures available == old(available)
    {
      if available {
        entries := entries - {StateKey};
      }
    }
  }
}
