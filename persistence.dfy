/**
 * The local drawing cache (the `drawings` storage entry: a list of records
 * keyed by id) and the outcomes of the remote save/load calls.
 */
module Persistence {
  import opened Wrappers
  import opened Elements

  /** One saved drawing as both pages write it. */
  datatype Record = Record(id: string, name: string, elements: seq<Element>,
                           appState: AppState, time: string)

  /** What the remote save call resolved to: the reply's `id` (if any), or a rejection. */
  datatype SaveReply = SaveOk(returnedId: Option<string>) | SaveFailed

  /** The decoded remote document: either field may be absent. */
  datatype RemoteDrawing = RemoteDrawing(elements: Option<seq<Element>>, appState: Option<AppState>)

  /** What the remote load call resolved to. */
  datatype LoadReply = LoadOk(data: RemoteDrawing) | LoadFailed

  /**
   * The acknowledgement the user sees (one toast per outcome).  `LoadAborted`
   * is a load whose cached fallback could not be drawn either: the error
   * escapes the handler and no toast is shown.
   */
  datatype SaveAck = SavedRemotely | SavedLocally
  datatype LoadAck = Loaded | LoadedLocally | NotLoaded | LoadAborted

  /** `drawings.findIndex(d => d.id === id)`: the first record with the id. */
  function FindIndex(cache: seq<Record>, id: string): (r: Option<nat>)
    ensures r.Some? ==> r.value < |cache| && cache[r.value].id == id
    ensures r.Some? ==> forall j :: 0 <= j < r.value ==> cache[j].id != id
    ensures r.None? <==> forall j :: 0 <= j < |cache| ==> cache[j].id != id
  {
    if cache == [] then None
    else if cache[0].id == id then Some(0)
    else match FindIndex(cache[1..], id)
      case Some(i) => Some(i + 1)
      case None => None
  }

  /** `drawings.find(d => d.id === id)`. */
  function FindRecord(cache: seq<Record>, id: string): (r: Option<Record>)
    ensures r.Some? ==> r.value in cache && r.value.id == id
    ensures r.Some? ==> exists i :: 0 <= i < |cache| && cache[i] == r.value && forall j :: 0 <= j < i ==> cache[j].id != id
    ensures r.None? <==> forall j :: 0 <= j < |cache| ==> cache[j].id != id
  {
    match FindIndex(cache, id)
    case Some(i) => Some(cache[i])
    case None => None
  }

  /**
   * Replace the first record with the same id in place, or append when there
   * is none.
   */
  function Upsert(cache: seq<Record>, rec: Record): (r: seq<Record>)
    ensures FindIndex(cache, rec.id).Some? ==>
              var i := FindIndex(cache, rec.id).value;
              |r| == |cache| && r[i] == rec && forall j :: 0 <= j < |r| && j != i ==> r[j] == cache[j]
    ensures FindIndex(cache, rec.id).None? ==> r == cache + [rec]
  {
    match FindIndex(cache, rec.id)
    case Some(i) => cache[i := rec]
    case None => cache + [rec]
  }

  /** The first index carrying the id is the one found. */
  lemma FindIndexIsFirst(cache: seq<Record>, id: string, k: nat)
    requires k < |cache| && cache[k].id == id
    requires forall j :: 0 <= j < k ==> cache[j].id != id
    ensures FindIndex(cache, id) == Some(k)
  {
    var f := FindIndex(cache, id);
    assert f.Some?;
    assert !(f.value < k) && !(k < f.value);
  }

  /** After an upsert, looking the id up finds exactly the record written. */
  lemma UpsertThenFind(cache: seq<Record>, rec: Record)
    ensures FindRecord(Upsert(cache, rec), rec.id) == Some(rec)
  {
    var r := Upsert(cache, rec);
    match FindIndex(cache, rec.id)
    case Some(i) =>
      FindIndexIsFirst(r, rec.id, i);
    case None =>
      FindIndexIsFirst(r, rec.id, |cache|);
  }

  /** An upsert does not change what any other id finds. */
  lemma UpsertKeepsOthers(cache: seq<Record>, rec: Record, id: string)
    requires id != rec.id
    ensures FindRecord(Upsert(cache, rec), id) == FindRecord(cache, id)
  {
    var r := Upsert(cache, rec);
    match FindIndex(cache, id)
    case Some(k) =>
      assert r[k] == cache[k];
      FindIndexIsFirst(r, id, k);
    case None =>
      assert forall j :: 0 <= j < |r| ==> r[j].id != id;
  }

  /** Appending a record whose id is new makes it the one found. */
  lemma AppendThenFind(cache: seq<Record>, rec: Record)
    requires FindRecord(cache, rec.id).None?
    ensures FindRecord(cache + [rec], rec.id) == Some(rec)
  {
    FindIndexIsFirst(cache + [rec], rec.id, |cache|);
  }

  /** Appending a record whose id is already cached leaves the older record the one found. */
  lemma AppendIsShadowed(cache: seq<Record>, rec: Record)
    requires FindRecord(cache, rec.id).Some?
    ensures FindRecord(cache + [rec], rec.id) == FindRecord(cache, rec.id)
  {
    var i := FindIndex(cache, rec.id).value;
    FindIndexIsFirst(cache + [rec], rec.id, i);
  }
}
