/**
  The benchmark's view of the store client: a command is an opaque
  `(verb, key, field, value)` tuple, a request an ordered list of commands
  sent in one round trip, and the connection a recorder. `AsyncExec` records
  the request together with the completion handler it was submitted with;
  `Complete` records that the handler of one submission has run, and with
  which outcome. Every submission completes at most once.
 */
module Redis {

  datatype Command = Command(verb: string, key: string, field: string, value: string)

  type Request = seq<Command>

  class Connection<Handler> {
    var submitted: seq<Request>
    var handlers: seq<Handler>
    var results: map<nat, bool>

    /** One handler per submission; only submitted requests have completed. */
    ghost predicate Valid()
      reads this
    {
      && |handlers| == |submitted|
      && forall k :: k in results ==> k < |submitted|
    }

    constructor ()
      ensures Valid()
      ensures submitted == [] && handlers == [] && results == map[]
    {
      submitted := [];
      handlers := [];
      results := map[];
    }

    /** Submissions whose completion handler has not run yet. */
    function Pending(): (p: set<nat>)
      reads this
    {
      set k: nat | k < |submitted| && k !in results
    }

    /** Queues one round trip; its handler runs later, through `Complete`. */
    method AsyncExec(request: Request, handler: Handler)
      requires Valid()
      modifies this
      ensures Valid()
      ensures submitted == old(submitted) + [request]
      ensures handlers == old(handlers) + [handler]
      ensures results == old(results)
    {
      submitted := submitted + [request];
      handlers := handlers + [handler];
    }

    /** The round trip of submission `k` resolves, once, with outcome `ok`. */
    method Complete(k: nat, ok: bool)
      requires Valid() && k in Pending()
      modifies this
      ensures Valid()
      ensures submitted == old(submitted) && handlers == old(handlers)
      ensures results == old(results)[k := ok]
      ensures Pending() == old(Pending()) - {k}
    {
      results := results[k := ok];
    }
  }
}
