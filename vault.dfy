/** The process-wide secret store: one JSON document mapping node ids to
  * arbitrary values, loaded lazily and reloaded before every write. The file
  * is modelled as a field holding its parsed contents. */
module Vault {
  import opened Base
  import opened Js

  /** `vault[id]`, `undefined` for an id that has no entry. */
  function Entry(doc: map<string, JsValue>, id: string): JsValue {
    if id in doc then doc[id] else Undefined
  }

  /** The document after `vault[id] = obj`. */
  function Stored(doc: map<string, JsValue>, id: string, obj: JsValue): (r: map<string, JsValue>)
    ensures Entry(r, id) == obj
    ensures forall k :: k != id ==> Entry(r, k) == Entry(doc, k)
    ensures r.Keys == doc.Keys + {id}
  {
    doc[id := obj]
  }

  /** The document `init` leaves in memory: the file's contents, or `{}` when
    * the file did not exist (it is then created empty). */
  function Loaded(disk: Option<map<string, JsValue>>): (r: map<string, JsValue>)
    ensures disk.None? ==> r == map[]
    ensures disk.Some? ==> r == disk.value
  {
    disk.GetOr(map[])
  }

  class MainVault {
    /** The vault file: `None` while it does not exist. */
    var disk: Option<map<string, JsValue>>
    /** The module-level `vault` variable: `None` until first loaded. */
    var doc: Option<map<string, JsValue>>

    constructor (disk: Option<map<string, JsValue>>)
      ensures this.disk == disk && doc == None
    {
      this.disk := disk;
      doc := None;
    }

    /** Creates the file as `{}` when missing, then (re)reads it. */
    method Init()
      modifies this
      ensures disk == Some(Loaded(old(disk)))
      ensures doc == disk
    {
      if disk.None? {
        disk := Some(map[]);
      }
      doc := disk;
    }

    /** Rewrites the whole file from the in-memory document. */
    method Save()
      requires doc.Some?
      modifies this
      ensures doc == old(doc) && disk == doc
    {
      disk := doc;
    }

    /** `MainVault.get(node)` for a node whose `_id` is `id` ("" when it has none). */
    method Get(id: string) returns (v: JsValue)
      modifies this
      ensures id == "" ==> v == Undefined && disk == old(disk) && doc == old(doc)
      ensures id != "" && old(doc).Some? ==> doc == old(doc) && disk == old(disk)
      ensures id != "" && old(doc).None? ==> disk == Some(Loaded(old(disk))) && doc == disk
      ensures id != "" ==> doc.Some? && v == Entry(doc.value, id)
    {
      if id == "" {
        return Undefined;
      }
      if doc.None? {
        Init();
      }
      v := Entry(doc.value, id);
    }

    /** `MainVault.set(node, obj)`: reload, replace the node's entry, rewrite.
      * Entries of other nodes keep what the file held. */
    method Set(id: string, obj: JsValue)
      modifies this
      ensures id == "" ==> disk == old(disk) && doc == old(doc)
      ensures id != "" ==> disk == Some(Stored(Loaded(old(disk)), id, obj)) && doc == disk
    {
      if id == "" {
        return;
      }
      Init();
      doc := Some(Stored(doc.value, id, obj));
      Save();
    }
  }
}
