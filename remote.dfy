/**
 * The network side of ApiNotesService.js: the `api(path, options)` wrapper
 * over `fetch`. The transport is a caller-supplied script of replies, one per
 * call in call order; the model keeps the wrapper's status rules (a non-ok
 * status is a failure, 204 yields `null`) and logs every request issued.
 */
module Remote {
  import opened Wrappers
  import opened NoteModel

  /** The four requests the client issues. `PutNote` carries the JSON body:
      the patch, plus `updatedAt` when the caller adds one. */
  datatype Request =
    | GetNotes                                                    // GET /notes
    | PostNote(note: Note)                                        // POST /notes
    | PutNote(id: string, patch: Patch, updatedAt: Option<int>)   // PUT /notes/{id}
    | DeleteNote(id: string)                                      // DELETE /notes/{id}

  /** A parsed response body: `null`, a note, or an array of notes. */
  datatype Body = NullBody | NoteBody(note: Note) | NoteListBody(notes: seq<Note>)

  /** What the network does with one request: it fails (no connection, or a
      body that is not JSON), or the server answers with a status and a body. */
  datatype Reply = Unreachable | Response(status: int, body: Body)

  /** What `api()` does: throws (`Failed`) or resolves to a value. */
  datatype ApiResult = Failed | Returned(value: Body)

  /** `res.ok` is a status in 200..299. */
  predicate IsOk(status: int) {
    200 <= status <= 299
  }

  /** `api()`: a transport failure or a non-ok status throws; 204 resolves to
      `null` whatever the body; any other ok status resolves to the body. */
  function Interpret(reply: Reply): (r: ApiResult)
    ensures r.Failed? <==> (reply.Unreachable? || !IsOk(reply.status))
    ensures reply.Response? && reply.status == 204 ==> r == Returned(NullBody)
    ensures r.Returned? && reply.status != 204 ==> r.value == reply.body
  {
    match reply
    case Unreachable => Failed
    case Response(status, body) =>
      if !IsOk(status) then Failed
      else if status == 204 then Returned(NullBody)
      else Returned(body)
  }

  /** The replies still scripted and the requests issued so far. */
  datatype RemoteState = RemoteState(replies: seq<Reply>, requests: seq<Request>)

  /** The `i`-th scripted reply; past the end of the script the network is unreachable. */
  function ReplyAt(replies: seq<Reply>, i: nat): Reply {
    if i < |replies| then replies[i] else Unreachable
  }

  /** The script without its first `n` replies. */
  function Drop(replies: seq<Reply>, n: nat): seq<Reply> {
    if n <= |replies| then replies[n..] else []
  }

  /** One call of `api()` for `req`: it consumes the next reply and is logged. */
  function Exchange(r: RemoteState, req: Request): (ApiResult, RemoteState) {
    (Interpret(ReplyAt(r.replies, 0)), RemoteState(Drop(r.replies, 1), r.requests + [req]))
  }

  /** The network as the client sees it. */
  class RemoteApi {
    var replies: seq<Reply>
    var requests: seq<Request>

    function State(): RemoteState
      reads this
    {
      RemoteState(replies, requests)
    }

    constructor (script: seq<Reply>)
      ensures State() == RemoteState(script, [])
    {
      replies, requests := script, [];
    }

    /** `api(path, options)` for `req`. */
    method Call(req: Request) returns (res: ApiResult)
      modifies this
      ensures (res, State()) == Exchange(old(State()), req)
    {
      requests := requests + [req];
      var reply := Unreachable;
      if replies != [] {
        reply := replies[0];
        replies := replies[1..];
      }
      match reply {
        case Unreachable =>
          res := Failed;
        case Response(status, body) =>
          if !IsOk(status) {
            res := Failed;
          } else if status == 204 {
            res := Returned(NullBody);
          } else {
            res := Returned(body);
          }
      }
    }
  }
}
