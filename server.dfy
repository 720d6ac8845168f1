/**
 * The drawing store behind `/v2/post`, `/v2/get/:id` and `/v2/delete/:id`:
 * an in-memory map from id to the posted bytes, backed by one file per id
 * in the data directory (the `disk` map).  Request bodies, ids and the
 * outcome of the file write are parameters.
 */
module DrawingServer {
  import opened Wrappers

  newtype byte = b: int | 0 <= b < 256

  /** The size limit of a posted body: 50 MiB. */
  const MaxBody: nat := 50 * 1024 * 1024

  /** The reply of a handler, one constructor per JSON or binary response. */
  datatype Response =
    | Saved(id: string)
    | Body(bytes: seq<byte>)
    | Deleted
    | BadRequest
    | TooLarge
    | NotFound
    | ServerError

  /** The HTTP status each reply is sent with. */
  function Status(r: Response): (code: int)
    ensures code == 200 <==> r.Saved? || r.Body? || r.Deleted?
    ensures r.BadRequest? <==> code == 400
    ensures r.TooLarge? <==> code == 413
    ensures r.NotFound? <==> code == 404
    ensures r.ServerError? <==> code == 500
  {
    match r
    case Saved(_) => 200
    case Body(_) => 200
    case Deleted => 200
    case BadRequest => 400
    case TooLarge => 413
    case NotFound => 404
    case ServerError => 500
  }

  /** Both tiers of the store. */
  datatype Tiers = Tiers(memory: map<string, seq<byte>>, disk: map<string, seq<byte>>)

  /** The outcome of a handler: the new tiers and the reply. */
  datatype Outcome = Outcome(after: Tiers, reply: Response)

  /**
   * `POST /v2/post` with `body` (`None` when no binary body was parsed),
   * the generated `freshId`, and whether the file write succeeds.  The
   * emptiness check precedes the size check; the memory entry is set
   * before the write, so a failed write still leaves it in memory.
   */
  function Post(t: Tiers, body: Option<seq<byte>>, freshId: string, diskOk: bool): (o: Outcome)
    ensures body.None? || |body.value| == 0 ==> o == Outcome(t, BadRequest)
    ensures body.Some? && |body.value| > MaxBody ==> o == Outcome(t, TooLarge)
    ensures body.Some? && 0 < |body.value| <= MaxBody ==>
              && o.after.memory == t.memory[freshId := body.value]
              && o.after.disk == (if diskOk then t.disk[freshId := body.value] else t.disk)
              && o.reply == (if diskOk then Saved(freshId) else ServerError)
  {
    if body.None? || |body.value| == 0 then Outcome(t, BadRequest)
    else if |body.value| > MaxBody then Outcome(t, TooLarge)
    else
      var inMemory := t.(memory := t.memory[freshId := body.value]);
      if diskOk then Outcome(inMemory.(disk := t.disk[freshId := body.value]), Saved(freshId))
      else Outcome(inMemory, ServerError)
  }

  /**
   * `GET /v2/get/:id`: the memory copy if there is one; else the file,
   * which is then cached in memory; else 404.
   */
  function Get(t: Tiers, id: string): (o: Outcome)
    ensures o.reply.Body? <==> id in t.memory || id in t.disk
    ensures id in t.memory ==> o == Outcome(t, Body(t.memory[id]))
    ensures id !in t.memory && id in t.disk ==>
              o == Outcome(t.(memory := t.memory[id := t.disk[id]]), Body(t.disk[id]))
    ensures id !in t.memory && id !in t.disk ==> o == Outcome(t, NotFound)
  {
    if id in t.memory then Outcome(t, Body(t.memory[id]))
    else if id in t.disk then Outcome(t.(memory := t.memory[id := t.disk[id]]), Body(t.disk[id]))
    else Outcome(t, NotFound)
  }

  /** `DELETE /v2/delete/:id`: drop the id from both tiers; a missing file is not an error. */
  function Delete(t: Tiers, id: string): (o: Outcome)
    ensures o.reply == Deleted
    ensures id !in o.after.memory && id !in o.after.disk
    ensures forall k :: k in t.memory && k != id ==> k in o.after.memory && o.after.memory[k] == t.memory[k]
    ensures forall k :: k in t.disk && k != id ==> k in o.after.disk && o.after.disk[k] == t.disk[k]
    ensures o.after.memory.Keys <= t.memory.Keys && o.after.disk.Keys <= t.disk.Keys
  {
    Outcome(Tiers(t.memory - {id}, t.disk - {id}), Deleted)
  }

  /** Memory never disagrees with the file of the same id. */
  ghost predicate Coherent(t: Tiers) {
    forall k :: k in t.memory && k in t.disk ==> t.memory[k] == t.disk[k]
  }

  /** A successful post followed by a get of the returned id yields the posted bytes and changes nothing. */
  lemma PostThenGet(t: Tiers, body: seq<byte>, freshId: string)
    requires 0 < |body| <= MaxBody
    ensures var p := Post(t, Some(body), freshId, true);
      p.reply == Saved(freshId) && Get(p.after, freshId) == Outcome(p.after, Body(body))
  {
  }

  /** Even when the file write fails, the bytes stay retrievable from memory. */
  lemma FailedWriteStillServes(t: Tiers, body: seq<byte>, freshId: string)
    requires 0 < |body| <= MaxBody
    ensures var p := Post(t, Some(body), freshId, false);
      p.reply == ServerError && Get(p.after, freshId).reply == Body(body)
  {
  }

  /** A rejected post leaves both tiers as they were. */
  lemma RejectedPostChangesNothing(t: Tiers, body: Option<seq<byte>>, freshId: string, diskOk: bool)
    requires body.None? || |body.value| == 0 || |body.value| > MaxBody
    ensures Post(t, body, freshId, diskOk).after == t
    ensures Status(Post(t, body, freshId, diskOk).reply) in {400, 413}
  {
  }

  /** A get does not change what any later get returns (the memory fill copies the file). */
  lemma GetIsStable(t: Tiers, id: string, other: string)
    requires Coherent(t)
    ensures var g := Get(t, id);
      Coherent(g.after) && Get(g.after, other).reply == Get(t, other).reply
  {
  }

  /** Deleting twice is deleting once, and a deleted id is not found. */
  lemma DeleteIsIdempotent(t: Tiers, id: string)
    ensures var d := Delete(t, id).after;
      Delete(d, id) == Delete(t, id) && Get(d, id) == Outcome(d, NotFound)
  {
  }

  /** Every handler keeps memory coherent with disk, given a fresh id for posts. */
  lemma HandlersKeepCoherence(t: Tiers, body: Option<seq<byte>>, freshId: string, diskOk: bool,
                              id: string)
    requires Coherent(t)
    requires freshId !in t.disk
    ensures Coherent(Post(t, body, freshId, diskOk).after)
    ensures Coherent(Get(t, id).after)
    ensures Coherent(Delete(t, id).after)
  {
  }

  /** The store itself: the module-level `drawings` map and the data directory. */
  class DrawingStore {
    var memory: map<string, seq<byte>>
    var disk: map<string, seq<byte>>

    function State(): Tiers
      reads this
    {
      Tiers(memory, disk)
    }

    /** A fresh server: empty cache, the files already in the data directory. */
    constructor (files: map<string, seq<byte>>)
      ensures State() == Tiers(map[], files)
    {
      memory, disk := map[], files;
    }

    /** The `/v2/post` handler; the uuid is fresh in both tiers. */
    method HandlePost(body: Option<seq<byte>>, freshId: string, diskOk: bool) returns (reply: Response)
      requires freshId !in memory && freshId !in disk
      modifies this
      ensures Outcome(State(), reply) == Post(old(State()), body, freshId, diskOk)
    {
      if body.None? || |body.value| == 0 {
        return BadRequest;
      }
      var buffer := body.value;
      if |buffer| > MaxBody {
        return TooLarge;
      }
      memory := memory[freshId := buffer];
      if !diskOk {
        return ServerError;
      }
      disk := disk[freshId := buffer];
      return Saved(freshId);
    }

    /** The `/v2/get/:id` handler. */
    method HandleGet(id: string) returns (reply: Response)
      modifies this
      ensures Outcome(State(), reply) == Get(old(State()), id)
    {
      if id in memory {
        return Body(memory[id]);
      }
      if id !in disk {
        return NotFound;
      }
      var buffer := disk[id];
      memory := memory[id := buffer];
      return Body(buffer);
    }

    /** The `/v2/delete/:id` handler. */
    method HandleDelete(id: string) returns (reply: Response)
      modifies this
      ensures Outcome(State(), reply) == Delete(old(State()), id)
    {
      memory := memory - {id};
      disk := disk - {id};
      return Deleted;
    }
  }
}
