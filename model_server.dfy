/**
 * The registry and reconciliation logic of `FlowsheetServer`: the settings block,
 * the in-memory flowsheet map, the datastore manager (a map from identifier to
 * datastore) and the update/merge step that runs on every read of a flowsheet.
 */
module ModelServer {
  import opened Common
  import opened CanonicalName

  /** A flowsheet identifier. */
  type Id = string

  /** A JSON value: a flowsheet document or a setting value. */
  datatype Json =
    | JNull
    | JBool(b: bool)
    | JNumber(n: int)
    | JString(s: string)
    | JArray(items: seq<Json>)
    | JObject(fields: map<string, Json>)

  /** Why a `ProcessingError` was raised. */
  datatype Cause =
    | CannotSerialize   // the serializer failed inside `update_flowsheet`
    | SaveFailed        // the datastore raised `DatastoreError` while saving
    | UnknownStore      // the datastore manager raised `KeyError`: no store for the identifier
    | InvalidJson       // the text given to the datastore manager does not parse as JSON

  /** The exceptions the core raises. */
  datatype Error =
    | FlowsheetUnknown(id: Id)
    | FlowsheetNotFoundInDatastore(id: Id)
    | FlowsheetNotFoundInMemory(id: Id)
    | ProcessingError(cause: Cause)
    | DatastoreError
    | SerializerError   // `AttributeError` or `KeyError` from the serializer, not wrapped
  {
    /** The two subclasses of `FlowsheetNotFound`. */
    predicate IsFlowsheetNotFound() {
      FlowsheetNotFoundInDatastore? || FlowsheetNotFoundInMemory?
    }
  }

  /** A datastore as the manager sees it: the document it holds, if one was ever
      written, and whether writing to it succeeds. */
  datatype DataStore = DataStore(doc: Option<Json>, writable: bool)

  /** What a PUT hands to `save_flowsheet`: a document, or JSON text still to be parsed. */
  datatype Payload = Document(doc: Json) | Text(text: string)

  /**
   * The collaborators whose code is not part of this model.
   * - `serialize(obj, id)`: `FlowsheetSerializer(obj, id).as_dict()`, `None` when it raises
   *   `AttributeError` or `KeyError`;
   * - `parse(text)`: the JSON parsing done by the datastore when it is handed text;
   * - `diffEmpty(saved, current)`: `not FlowsheetDiff(saved, current)`;
   * - `merged(saved, current)`: `FlowsheetDiff(saved, current).merged()`.
   */
  datatype Collaborators<!Obj> = Collaborators(
    serialize: (Obj, Id) -> Option<Json>,
    parse: string -> Option<Json>,
    diffEmpty: (Json, Json) -> bool,
    merged: (Json, Json) -> Json)

  /** The result of an operation on the datastore manager together with the stores afterwards. */
  datatype Effect<T> = Effect(result: Result<T, Error>, stores: map<Id, DataStore>)

  /** `store.save(doc)`: succeeds exactly when the store is writable. */
  function WriteStore(store: DataStore, doc: Json): (r: Result<DataStore, Error>)
    ensures r.Ok? <==> store.writable
    ensures r.Ok? ==> r.value.doc == Some(doc) && r.value.writable
    ensures r.Err? ==> r.error == DatastoreError
  {
    if store.writable then Ok(store.(doc := Some(doc))) else Err(DatastoreError)
  }

  /** `save_flowsheet(id, payload)` on the stores `stores`. */
  function Save<Obj>(c: Collaborators<Obj>, stores: map<Id, DataStore>, id: Id, payload: Payload): (e: Effect<()>)
    ensures id !in stores ==> e.result == Err(ProcessingError(UnknownStore))
    ensures id in stores && payload.Text? && c.parse(payload.text).None? ==> e.result == Err(ProcessingError(InvalidJson))
    ensures e.result.Err? ==> e.result.error.ProcessingError? && e.stores == stores
    ensures e.result.Ok? <==> id in stores && stores[id].writable && (payload.Text? ==> c.parse(payload.text).Some?)
    ensures e.result.Ok? ==> e.stores.Keys == stores.Keys
    ensures e.result.Ok? ==> forall other :: other in stores && other != id ==> e.stores[other] == stores[other]
    ensures e.result.Ok? ==> e.stores[id].doc == Some(if payload.Document? then payload.doc else c.parse(payload.text).value)
    ensures e.result.Ok? ==> e.stores == stores[id := stores[id].(doc := e.stores[id].doc)]
  {
    if id !in stores then Effect(Err(ProcessingError(UnknownStore)), stores)
    else
      var doc := if payload.Document? then Some(payload.doc) else c.parse(payload.text);
      if doc.None? then Effect(Err(ProcessingError(InvalidJson)), stores)
      else match WriteStore(stores[id], doc.value)
        case Ok(store) => Effect(Ok(()), stores[id := store])
        case Err(_) => Effect(Err(ProcessingError(SaveFailed)), stores)
  }

  /** `update_flowsheet(id)`: load the saved document, serialize the live flowsheet,
      write the merge back when they differ, and return the merge. */
  function Reconcile<Obj>(c: Collaborators<Obj>, flowsheets: map<Id, Obj>, stores: map<Id, DataStore>, id: Id): (e: Effect<Json>)
    // the checks happen in this order, and the first that fails decides the error
    ensures id !in stores ==> e.result == Err(FlowsheetUnknown(id))
    ensures id in stores && stores[id].doc.None? ==> e.result == Err(FlowsheetNotFoundInDatastore(id))
    ensures id in stores && stores[id].doc.Some? && id !in flowsheets ==> e.result == Err(FlowsheetNotFoundInMemory(id))
    ensures id in stores && stores[id].doc.Some? && id in flowsheets && c.serialize(flowsheets[id], id).None? ==>
              e.result == Err(ProcessingError(CannotSerialize))
    // no other error escapes, and a failed update leaves the stores as they were
    ensures e.result.Err? ==> e.result.error.FlowsheetUnknown? || e.result.error.IsFlowsheetNotFound() || e.result.error.ProcessingError?
    ensures e.result.Err? ==> e.stores == stores
    // only the flowsheet's own store can change
    ensures e.stores.Keys == stores.Keys
    ensures forall other :: other in stores && other != id ==> e.stores[other] == stores[other]
    // with both documents at hand: the result is their merge, written back exactly when they differ
    ensures id in stores && stores[id].doc.Some? && id in flowsheets && c.serialize(flowsheets[id], id).Some? ==>
              var saved, live := stores[id].doc.value, c.serialize(flowsheets[id], id).value;
              var m := c.merged(saved, live);
              if c.diffEmpty(saved, live) then e == Effect(Ok(m), stores)
              else if stores[id].writable then e == Effect(Ok(m), stores[id := DataStore(Some(m), true)])
              else e == Effect(Err(ProcessingError(SaveFailed)), stores)
  {
    if id !in stores then Effect(Err(FlowsheetUnknown(id)), stores)
    else if stores[id].doc.None? then Effect(Err(FlowsheetNotFoundInDatastore(id)), stores)
    else if id !in flowsheets then Effect(Err(FlowsheetNotFoundInMemory(id)), stores)
    else
      var saved := stores[id].doc.value;
      var live := c.serialize(flowsheets[id], id);
      if live.None? then Effect(Err(ProcessingError(CannotSerialize)), stores)
      else
        var m := c.merged(saved, live.value);
        if c.diffEmpty(saved, live.value) then Effect(Ok(m), stores)
        else
          var w := Save(c, stores, id, Document(m));
          if w.result.Err? then Effect(Err(w.result.error), stores)
          else Effect(Ok(m), w.stores)
  }

  /** Reconciling again, with the live flowsheet unchanged, leaves the stores as the first
      reconciliation left them, provided merging is idempotent: merging the live document into
      a merge again changes nothing. */
  lemma RepeatedReconcileKeepsStores<Obj>(c: Collaborators<Obj>, flowsheets: map<Id, Obj>, stores: map<Id, DataStore>, id: Id)
    requires Reconcile(c, flowsheets, stores, id).result.Ok?
    requires forall saved, live :: c.merged(c.merged(saved, live), live) == c.merged(saved, live)
    ensures var first := Reconcile(c, flowsheets, stores, id);
            Reconcile(c, flowsheets, first.stores, id) == first
  {
  }

  /**
   * The visualisation server's state. The HTTP server it derives from (host,
   * port, the serving thread) is not part of this model.
   */
  class FlowsheetServer<Obj> {
    const collab: Collaborators<Obj>
    /** `_flowsheets`: the live flowsheet objects. */
    var flowsheets: map<Id, Obj>
    /** `_settings_block`. */
    var settings: map<string, Json>
    /** `_dsm`: one datastore per flowsheet identifier. */
    var stores: map<Id, DataStore>

    /** Every identifier was registered through `add_flowsheet`, so it is canonical. */
    ghost predicate Valid()
      reads this
    {
      (forall id :: id in flowsheets ==> IsCanonical(id)) &&
      (forall id :: id in stores ==> IsCanonical(id))
    }

    constructor (collab: Collaborators<Obj>)
      ensures Valid()
      ensures this.collab == collab
      ensures flowsheets == map[] && settings == map[] && stores == map[]
    {
      this.collab := collab;
      flowsheets := map[];
      settings := map[];
      stores := map[];
    }

    /** `add_setting(key, value)`. */
    method AddSetting(key: string, value: Json)
      requires Valid()
      modifies this`settings
      ensures Valid()
      ensures settings == old(settings)[key := value]
    {
      settings := settings[key := value];
    }

    /** `get_setting(key)`: the value last added under `key`; `None` (not an error) for a key never added. */
    function GetSetting(key: string): (v: Option<Json>)
      reads this`settings
      ensures v.Some? <==> key in settings
      ensures v.Some? ==> v.value == settings[key]
    {
      if key !in settings then None else Some(settings[key])
    }

    /** `save_flowsheet(id, payload)`: `DatastoreError` and `KeyError` surface as `ProcessingError`. */
    method SaveFlowsheet(id: Id, payload: Payload) returns (r: Result<(), Error>)
      requires Valid()
      modifies this`stores
      ensures Valid()
      ensures Effect(r, stores) == Save(collab, old(stores), id, payload)
    {
      if id !in stores {
        return Err(ProcessingError(UnknownStore));
      }
      var doc := if payload.Document? then Some(payload.doc) else collab.parse(payload.text);
      if doc.None? {
        return Err(ProcessingError(InvalidJson));
      }
      var written := WriteStore(stores[id], doc.value);
      if written.Err? {
        return Err(ProcessingError(SaveFailed));
      }
      stores := stores[id := written.value];
      return Ok(());
    }

    /** `update_flowsheet(id)`. */
    method UpdateFlowsheet(id: Id) returns (r: Result<Json, Error>)
      requires Valid()
      modifies this`stores
      ensures Valid()
      ensures Effect(r, stores) == Reconcile(collab, flowsheets, old(stores), id)
    {
      if id !in stores {
        return Err(FlowsheetUnknown(id));
      }
      var saved := stores[id].doc;
      if saved.None? {
        return Err(FlowsheetNotFoundInDatastore(id));
      }
      if id !in flowsheets {
        return Err(FlowsheetNotFoundInMemory(id));
      }
      var current := collab.serialize(flowsheets[id], id);
      if current.None? {
        return Err(ProcessingError(CannotSerialize));
      }
      var merged := collab.merged(saved.value, current.value);
      if !collab.diffEmpty(saved.value, current.value) {
        var written := SaveFlowsheet(id, Document(merged));
        if written.Err? {
          return Err(written.error);
        }
      }
      return Ok(merged);
    }

    /** `add_flowsheet(name, obj, store)`: register under the canonical name, then
        reconcile; a store that holds no document yet receives the serialized flowsheet. */
    method AddFlowsheet(name: string, obj: Obj, store: DataStore) returns (r: Result<Id, Error>)
      requires Valid()
      modifies this`flowsheets, this`stores
      ensures Valid()
      ensures var id := Canonical(name);
              && flowsheets == old(flowsheets)[id := obj]
              && id in stores
              && (r.Ok? ==> r.value == id)
              && (store.doc.Some? ==>
                    var e := Reconcile(collab, flowsheets, old(stores)[id := store], id);
                    stores == e.stores && r == (if e.result.Ok? then Ok(id) else Err(e.result.error)))
              && (store.doc.None? ==>
                    match collab.serialize(obj, id)
                    case None => r == Err(SerializerError) && stores == old(stores)[id := store]
                    case Some(doc) =>
                      if store.writable then r == Ok(id) && stores == old(stores)[id := DataStore(Some(doc), true)]
                      else r == Err(DatastoreError) && stores == old(stores)[id := store])
    {
      var id := Canonical(name);
      flowsheets := flowsheets[id := obj];
      stores := stores[id := store];
      var updated := UpdateFlowsheet(id);
      if updated.Err? {
        if updated.error.FlowsheetNotFoundInDatastore? {
          var doc := collab.serialize(obj, id);
          if doc.None? {
            return Err(SerializerError);
          }
          var written := WriteStore(store, doc.value);
          if written.Err? {
            return Err(written.error);
          }
          stores := stores[id := written.value];
        } else {
          return Err(updated.error);
        }
      }
      return Ok(id);
    }
  }
}
