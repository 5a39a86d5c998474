/** What a Flask route handler sees and returns: the query string, and a JSON reply or
    an exception caught by the handler's `except Exception` clause. */
module Http {
  import opened Common
  import opened Records

  /** A query string as werkzeug keeps it: its (name, value) pairs in order. */
  type Args = seq<(string, string)>

  /** `request.args.get(key)`: the value of the first pair with that name. */
  function ArgGet(args: Args, key: string): (r: Option<string>)
    ensures r.None? <==> forall i :: 0 <= i < |args| ==> args[i].0 != key
    ensures r.Some? ==> exists i :: 0 <= i < |args| && args[i] == (key, r.value)
                                    && forall j :: 0 <= j < i ==> args[j].0 != key
  {
    match FindIndex(args, (a: (string, string)) => a.0 == key)
    case None => None
    case Some(i) => Some(args[i].1)
  }

  /** `request.args.get(key, default)`. */
  function ArgGetOr(args: Args, key: string, default: string): (r: string)
    ensures ArgGet(args, key).None? ==> r == default
    ensures ArgGet(args, key).Some? ==> r == ArgGet(args, key).value
  {
    match ArgGet(args, key)
    case None => default
    case Some(v) => v
  }

  /** `request.args.to_dict()`: the first value under each name. */
  function ArgsToDict(args: Args): (d: map<string, string>)
    ensures forall k :: k in d <==> ArgGet(args, k).Some?
    ensures forall k :: k in d ==> d[k] == ArgGet(args, k).value
  {
    if args == [] then map[]
    else ArgsToDict(args[1..])[args[0].0 := args[0].1]
  }

  /** The exceptions a handler can catch: the NotFound that `get_or_404` raises for a
      missing key, and anything else (a failed `int()`, a NOT NULL or UNIQUE violation
      at commit, a missing actor dereferenced). */
  datatype Fault = NotFound | Failed

  datatype Response =
    | Reply(status: nat, body: Json)   // `return jsonify(body), status`
    | Raised(fault: Fault)              // an exception reached the handler's `except` clause

  /** What a handler decides before it writes anything: an answer that leaves the
      database as it was, or the value to commit. */
  datatype Outcome<T> = Answer(response: Response) | Commit(value: T)

  /** `jsonify({'error': msg}), status`. */
  function Error(status: nat, msg: string): Response {
    Reply(status, JObj(map["error" := JStr(msg)]))
  }

  function Message(status: nat, msg: string): Response {
    Reply(status, JObj(map["message" := JStr(msg)]))
  }

  /** The status code the client receives, as the handlers are written: their
      `except Exception` also catches get_or_404's NotFound and answers 500. */
  function StatusAsWritten(r: Response): nat {
    match r
    case Reply(s, _) => s
    case Raised(_) => 500
  }

  /** The status code the client receives once a missing key keeps its 404. */
  function StatusOf(r: Response): (s: nat)
    ensures r.Raised? ==> (s == 404 <==> r.fault == NotFound)
    ensures r.Raised? ==> (s == 500 <==> r.fault == Failed)
  {
    match r
    case Reply(s, _) => s
    case Raised(NotFound) => 404
    case Raised(Failed) => 500
  }

  /** A request for a missing key: as written the client is told 500, as intended 404.
      The two readings differ on exactly this response. */
  lemma MissingKeyAnswers500()
    ensures StatusAsWritten(Raised(NotFound)) == 500
    ensures StatusOf(Raised(NotFound)) == 404
    ensures forall r: Response :: StatusAsWritten(r) != StatusOf(r) <==> r == Raised(NotFound)
  {
  }

  function Ok(body: Json): Response { Reply(200, body) }
  function Created(body: Json): Response { Reply(201, body) }

  const PermissaoNegada := "Permissão negada"
}
