/**
 * The persisted state store used by the compose manager: for each
 * invocation identity it keeps the descriptor paths and the environment of
 * the last successful composition. The on-disk encoding and the workspace
 * directory are not part of this model; the store is a map held by an object.
 */
module State {

  /** An environment: variable name to value. */
  type Env = map<string, string>

  /** One persisted record: the resolved descriptor files and the environment used. */
  datatype Record<P> = Record(paths: seq<P>, env: Env)

  /** What `Recover` yields for `id` in `records`: the stored environment, or the empty map. */
  function Recovered<P>(records: map<string, Record<P>>, id: string): Env
  {
    if id in records then records[id].env else map[]
  }

  /** A record written by an update is what the next recover returns: the last write wins. */
  lemma RecoverAfterUpdate<P>(records: map<string, Record<P>>, id: string, paths: seq<P>, env: Env)
    ensures Recovered(records[id := Record(paths, env)], id) == env
  {
  }

  /** After a destroy, recover returns the empty environment, whatever was stored. */
  lemma RecoverAfterDestroy<P>(records: map<string, Record<P>>, id: string)
    ensures Recovered(records - {id}, id) == map[]
  {
  }

  class StateStore<P> {
    var records: map<string, Record<P>>

    constructor ()
      ensures records == map[]
    {
      records := map[];
    }

    /** The persisted environment for `id`; a missing record is the empty environment. */
    method Recover(id: string) returns (env: Env)
      ensures id in records ==> env == records[id].env
      ensures id !in records ==> env == map[]
    {
      if id in records {
        env := records[id].env;
      } else {
        env := map[];
      }
    }

    /** Replaces the record for `id` wholesale; every other record is kept. */
    method Update(id: string, paths: seq<P>, env: Env)
      modifies this
      ensures records == old(records)[id := Record(paths, env)]
    {
      records := records[id := Record(paths, env)];
    }

    /** Removes the record for `id`; removing a missing record changes nothing. */
    method Destroy(id: string)
      modifies this
      ensures records == old(records) - {id}
    {
      records := records - {id};
    }
  }
}
