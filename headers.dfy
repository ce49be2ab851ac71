/**
 * The forwarded request's header dictionary. Header names arrive lower-cased
 * from the web framework; the forwarder deletes the "host" entry in place so
 * that the outbound request names its own destination.
 */
module Headers {

  /** The dictionary without its "host" entry. */
  function WithoutHost(h: map<string, string>): (r: map<string, string>)
    ensures "host" !in r
    ensures r.Keys == h.Keys - {"host"}
    ensures forall k :: k in r ==> r[k] == h[k]
  {
    h - {"host"}
  }

  /** A mutable header dictionary, shared between the route handler and the forwarder. */
  class HeaderDict {
    var entries: map<string, string>

    constructor (entries: map<string, string>)
      ensures this.entries == entries
    {
      this.entries := entries;
    }

    /** Deletes the entry for key, as the dictionary's `del` statement does. */
    method Delete(key: string)
      requires key in entries
      modifies this
      ensures entries.Keys == old(entries).Keys - {key}
      ensures forall k :: k in entries ==> entries[k] == old(entries)[k]
    {
      entries := entries - {key};
    }
  }
}
