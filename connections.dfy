/** The database connection manager (`db_utils.DatabaseService`), which is
    outside this model. Only its observable effects are kept: which
    configurations were opened and closed, and in which order. */
module Connections {
  import opened Records

  datatype Event = Opened(props: Record) | Closed(props: Record)

  /** Opened minus closed connections in an event log. */
  function OpenHandles(log: seq<Event>): int {
    if log == [] then 0
    else OpenHandles(log[..|log| - 1]) + (if log[|log| - 1].Opened? then 1 else -1)
  }

  lemma {:induction false} OpenHandlesAppend(a: seq<Event>, b: seq<Event>)
    ensures OpenHandles(a + b) == OpenHandles(a) + OpenHandles(b)
    decreases |b|
  {
    if b == [] {
      assert a + b == a;
    } else {
      var b' := b[..|b| - 1];
      assert (a + b)[..|a + b| - 1] == a + b';
      OpenHandlesAppend(a, b');
    }
  }

  lemma OpenThenClose(log: seq<Event>, p: Record, q: Record)
    ensures OpenHandles(log + [Opened(p), Closed(q)]) == OpenHandles(log)
  {
    var pair := [Opened(p), Closed(q)];
    assert pair[..1] == [Opened(p)];
    assert [Opened(p)][..0] == [];
    assert OpenHandles([Opened(p)]) == 1;
    assert OpenHandles(pair) == 0;
    OpenHandlesAppend(log, pair);
  }

  class Connector {
    /** What the foreign open returns for a configuration: nothing on success. */
    const refusal: Record -> Option<Error>
    var log: seq<Event>

    constructor (refusal: Record -> Option<Error>)
      ensures this.refusal == refusal && log == []
    {
      this.refusal := refusal;
      log := [];
    }

    /** `OpenDatabaseService(props)`. */
    method Open(props: Record) returns (err: Option<Error>)
      modifies this
      ensures err == refusal(props)
      ensures log == old(log) + (if err.None? then [Opened(props)] else [])
    {
      err := refusal(props);
      if err.None? {
        log := log + [Opened(props)];
      }
    }

    /** `CloseDatabaseService()`. */
    method Close(props: Record)
      modifies this
      ensures log == old(log) + [Closed(props)]
    {
      log := log + [Closed(props)];
    }
  }
}
