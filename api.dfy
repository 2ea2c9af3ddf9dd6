/**
 * What the REST endpoints share: the answer a request gets, the session
 * commit that either stores the changes or fails on a UNIQUE constraint,
 * the page-size clamp of the listings, and ISO 8601 parsing supplied by the
 * caller.
 */
module Api {
  import opened Common
  import opened Schema
  import opened Storage

  /** The HTTP answer of an endpoint. */
  datatype Reply =
    | Done(code: int, id: nat)             // a success about the row `id`: 200 or 201
    | Refused(code: int, message: string)  // `jsonify({"message": ...}), code`
    | NotFound                             // `get_or_404` aborted with 404
    | Crashed                              // an exception escaped the handler: 500, nothing stored

  /** The database after the request, and its answer. */
  datatype Answer = Answer(db: Db, reply: Reply)

  const NotJson: string := "Format JSON requis"

  /**
   * `db.session.commit()` of the changes `after`: the UNIQUE constraints are
   * checked at commit time, and a violation raises, so the request ends with
   * a 500 and the session is rolled back to `before`.
   */
  function Committed(before: Db, after: Db, reply: Reply): (r: Answer)
    ensures Integrity(after) ==> r == Answer(after, reply)
    ensures !Integrity(after) ==> r == Answer(before, Crashed)
  {
    if Integrity(after) then Answer(after, reply) else Answer(before, Crashed)
  }

  /** The commit that ends a request whose changes are in `s` and whose answer on success is `done`. */
  method Commit(s: Store, before: Db, done: Reply) returns (reply: Reply)
    modifies s
    ensures Answer(s.Snapshot(), reply) == Committed(before, old(s.Snapshot()), done)
  {
    if !Integrity(s.Snapshot()) {
      s.Restore(before);
      return Crashed;
    }
    reply := done;
  }

  /** A committed request leaves the database well formed when the changes keep keys and owners sound. */
  lemma CommittedWf(before: Db, after: Db, reply: Reply)
    requires Wf(before)
    requires Sound(after)
    ensures Wf(Committed(before, after, reply).db)
    ensures Committed(before, after, reply).reply.Crashed? || Committed(before, after, reply).db == after
  {
  }

  const DefaultPerPage: int := 20
  const MaxPerPage: int := 100

  /** `min(request.args.get('per_page', 20, type=int), 100)`; `None` when the argument is absent or not an integer. */
  function PerPage(arg: Option<int>): (r: int)
    ensures r <= MaxPerPage
    ensures arg.None? ==> r == DefaultPerPage
    ensures arg.Some? && arg.value <= MaxPerPage ==> r == arg.value
    ensures arg.Some? && arg.value > MaxPerPage ==> r == MaxPerPage
  {
    var asked := arg.GetOr(DefaultPerPage);
    if asked < MaxPerPage then asked else MaxPerPage
  }

  /**
   * `datetime.fromisoformat(s).date()` and `datetime.fromisoformat(s).time()`:
   * `None` where Python raises `ValueError`.
   */
  datatype Iso = Iso(date: string -> Option<Date>, time: string -> Option<Minute>)
}
