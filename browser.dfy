/** The browser's `localStorage`, shared by every page. */
module Browser {
  import opened Js

  /** The three keys a signed-in session keeps. */
  const SessionKeys: set<string> := {"token", "role", "userId"}

  class LocalStorage {
    var items: map<string, string>

    constructor ()
      ensures items == map[]
    {
      items := map[];
    }

    /** `getItem(k)`: `null` (here None) when the key was never set. */
    function GetItem(k: string): (r: Option<string>)
      reads this
      ensures r.Some? <==> k in items
      ensures r.Some? ==> r.value == items[k]
    {
      if k in items then Some(items[k]) else None
    }

    /** The truthy reading of a key, as the pages test `if (!token)`. */
    function Read(k: string): (r: string)
      reads this
      ensures r == Get(items, k)
    {
      Get(items, k)
    }

    method SetItem(k: string, v: string)
      modifies this
      ensures items == old(items)[k := v]
    {
      items := items[k := v];
    }

    method RemoveItem(k: string)
      modifies this
      ensures items == old(items) - {k}
    {
      items := items - {k};
    }

    /** Removes `token`, `role` and `userId`, one after the other. */
    method ClearSession()
      modifies this
      ensures items == old(items) - SessionKeys
      ensures forall k :: k in SessionKeys ==> GetItem(k).None?
    {
      RemoveItem("token");
      RemoveItem("role");
      RemoveItem("userId");
    }
  }
}
