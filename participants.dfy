/**
 * The participant list of the meeting page (js/meeting.js), kept as the set
 * of names that have a `.participant[data-name=...]` element. js/signaling.js
 * adds to it on `existing-peer`, `new-peer` and `refresh-peer` and removes
 * from it on `peer-left`.
 */
module Participants {

  class Roster {
    var names: set<string>

    constructor ()
      ensures names == {}
    {
      names := {};
    }

    /** `addParticipant(name)`: does nothing when an element for `name` exists. */
    method Add(name: string)
      modifies this
      ensures names == old(names) + {name}
      ensures name in old(names) ==> names == old(names)
    {
      if name in names {
        return;
      }
      names := names + {name};
    }

    /** The `el.remove()` of the `peer-left` handler, when the element exists. */
    method Remove(name: string)
      modifies this
      ensures names == old(names) - {name}
      ensures name !in old(names) ==> names == old(names)
    {
      if name in names {
        names := names - {name};
      }
    }
  }

  /** Adding a participant twice leaves the same list as adding once. */
  method AddTwice(r: Roster, name: string)
    modifies r
    ensures r.names == old(r.names) + {name}
  {
    r.Add(name);
    ghost var once := r.names;
    r.Add(name);
    assert r.names == once;
  }
}
