/** The provenance store as the core uses it: an append-only log of Items,
    Events, ItemEvents (here `Fact`) and Metadata. The ORM behind it is not
    part of this model; its `[0]` lookups are "first match in append order"
    and an Event's timestamp is its position in the log. */
module Store {
  import opened Base
  import opened Paths

  /** An ItemEvent's result type: 'C', 'M', 'D', 'U', or the `?` that
      `get_status` gives for a path that is neither on disk nor recorded. */
  datatype Code = Created | Modified | Deleted | Unchanged | Unknown

  datatype Item = Item(path: Path)

  datatype Event = Event(cmd: string, uuid: Option<string>, group: Option<nat>)

  /** An ItemEvent: at Event `event`, Item `item` had `digest`. `result` is
      `None` where the source passes `status=False`. */
  datatype Fact = Fact(item: nat, event: nat, result: Option<Code>, digest: Bytes)

  datatype Metadatum = Metadatum(event: nat, category: string, key: string, value: string)

  datatype Db = Db(items: seq<Item>, events: seq<Event>, facts: seq<Fact>, metadata: seq<Metadatum>)

  /** The digest a Deleted fact carries. */
  const Sentinel: Bytes := [48]

  /** Python truthiness of an optional uuid string. */
  predicate Truthy(uuid: Option<string>) {
    uuid.Some? && uuid.value != ""
  }

  predicate HasFact(db: Db, i: nat) {
    exists k :: 0 <= k < |db.facts| && db.facts[k].item == i
  }

  /** The store's integrity: references resolve, item paths are unique, every
      item has a fact, and no two events share a (truthy) uuid. */
  predicate Valid(db: Db) {
    && (forall k :: 0 <= k < |db.facts| ==> db.facts[k].item < |db.items| && db.facts[k].event < |db.events|)
    && (forall k :: 0 <= k < |db.metadata| ==> db.metadata[k].event < |db.events|)
    && (forall i, j :: 0 <= i < j < |db.items| ==> db.items[i].path != db.items[j].path)
    && (forall i :: 0 <= i < |db.items| ==> HasFact(db, i))
    && (forall i, j :: 0 <= i < j < |db.events| && Truthy(db.events[i].uuid) ==> db.events[i].uuid != db.events[j].uuid)
  }

  /** The log only grows: every older entry is still there, unchanged. */
  predicate Extends(db: Db, db': Db) {
    && db.items <= db'.items
    && db.events <= db'.events
    && db.facts <= db'.facts
    && db.metadata <= db'.metadata
  }

  /** `Item.query.filter(Item.path == path)[0]` */
  function FindItem(db: Db, path: Path): (r: Option<nat>)
    ensures r.Some? ==> r.value < |db.items| && db.items[r.value].path == path
    ensures r.Some? ==> forall i :: 0 <= i < r.value ==> db.items[i].path != path
    ensures r.None? ==> forall i :: 0 <= i < |db.items| ==> db.items[i].path != path
  {
    FindItemFrom(db.items, path, 0)
  }

  function FindItemFrom(items: seq<Item>, path: Path, i: nat): (r: Option<nat>)
    requires i <= |items|
    ensures r.Some? ==> i <= r.value < |items| && items[r.value].path == path
    ensures r.Some? ==> forall j :: i <= j < r.value ==> items[j].path != path
    ensures r.None? ==> forall j :: i <= j < |items| ==> items[j].path != path
    decreases |items| - i
  {
    if i == |items| then None
    else if items[i].path == path then Some(i)
    else FindItemFrom(items, path, i + 1)
  }

  /** `Event.query.filter(Event.uuid == uuid)[0]` */
  function FindEvent(db: Db, uuid: string): (r: Option<nat>)
    ensures r.Some? ==> r.value < |db.events| && db.events[r.value].uuid == Some(uuid)
    ensures r.Some? ==> forall i :: 0 <= i < r.value ==> db.events[i].uuid != Some(uuid)
    ensures r.None? ==> forall i :: 0 <= i < |db.events| ==> db.events[i].uuid != Some(uuid)
  {
    FindEventFrom(db.events, uuid, 0)
  }

  function FindEventFrom(events: seq<Event>, uuid: string, i: nat): (r: Option<nat>)
    requires i <= |events|
    ensures r.Some? ==> i <= r.value < |events| && events[r.value].uuid == Some(uuid)
    ensures r.Some? ==> forall j :: i <= j < r.value ==> events[j].uuid != Some(uuid)
    ensures r.None? ==> forall j :: i <= j < |events| ==> events[j].uuid != Some(uuid)
    decreases |events| - i
  {
    if i == |events| then None
    else if events[i].uuid == Some(uuid) then Some(i)
    else FindEventFrom(events, uuid, i + 1)
  }

  /** The digest of an item's latest fact (`get_last_digest`). */
  function LastDigest(facts: seq<Fact>, item: nat): (r: Option<Bytes>)
    ensures r.Some? <==> exists k :: 0 <= k < |facts| && facts[k].item == item
    decreases |facts|
  {
    if facts == [] then None
    else if facts[|facts| - 1].item == item then Some(facts[|facts| - 1].digest)
    else
      var r := LastDigest(facts[..|facts| - 1], item);
      assert forall k :: 0 <= k < |facts| - 1 ==> facts[..|facts| - 1][k] == facts[k];
      r
  }

  /** `get_file_record(path)` followed by `get_last_digest()`: the last digest
      recorded for the path, or `None` when the store has no Item for it. */
  function RecordedDigest(db: Db, cwd: Path, path: Path): Option<Bytes> {
    match FindItem(db, Abspath(cwd, path))
    case None => None
    case Some(i) => LastDigest(db.facts, i)
  }

  /** In a valid store, a recorded path always has a last digest. */
  lemma RecordedHasDigest(db: Db, cwd: Path, path: Path)
    requires Valid(db)
    ensures FindItem(db, Abspath(cwd, path)).Some? <==> RecordedDigest(db, cwd, path).Some?
  {
    var r := FindItem(db, Abspath(cwd, path));
    if r.Some? {
      assert HasFact(db, r.value);
    }
  }

  function MetaRows(event: nat, meta: seq<(string, string, string)>): (rows: seq<Metadatum>)
    ensures |rows| == |meta|
    ensures forall k :: 0 <= k < |rows| ==> rows[k] == Metadatum(event, meta[k].0, meta[k].1, meta[k].2)
    decreases |meta|
  {
    if meta == [] then []
    else MetaRows(event, meta[..|meta| - 1]) + [Metadatum(event, meta[|meta| - 1].0, meta[|meta| - 1].1, meta[|meta| - 1].2)]
  }

  function FileMetaRows(event: nat, path: Path, fileMeta: seq<(string, string)>): (rows: seq<Metadatum>)
    ensures |rows| == |fileMeta|
    ensures forall k :: 0 <= k < |rows| ==> rows[k] == Metadatum(event, path, fileMeta[k].0, fileMeta[k].1)
    decreases |fileMeta|
  {
    if fileMeta == [] then []
    else FileMetaRows(event, path, fileMeta[..|fileMeta| - 1]) + [Metadatum(event, path, fileMeta[|fileMeta| - 1].0, fileMeta[|fileMeta| - 1].1)]
  }

  /** `if group_id: group = EventGroup.query.get(group_id)` (0 is falsy). */
  function GroupOf(groupId: Option<nat>): Option<nat> {
    if groupId.Some? && groupId.value != 0 then groupId else None
  }

  /** The item an `add_file_record` for `path` attaches its fact to. */
  function ItemFor(db: Db, cwd: Path, path: Path): nat {
    match FindItem(db, Abspath(cwd, path))
    case Some(i) => i
    case None => |db.items|
  }

  /** The event it attaches its fact to: the first with the same uuid, or a new one. */
  function EventFor(db: Db, uuid: Option<string>): nat {
    if Truthy(uuid) && FindEvent(db, uuid.value).Some? then FindEvent(db, uuid.value).value
    else |db.events|
  }

  /** `add_file_record(path, cmd_str, status, meta=meta, uuid=uuid, group_id=group_id)`.
      `meta` is the `meta[mcat][key]` table in iteration order, `fileMeta`
      what `attempt_parse_type` returns for the item's path, and `digest` the
      digest the new ItemEvent stores. */
  function AddRecord(db: Db, cwd: Path, path: Path, cmd: string, status: Option<Code>,
                     meta: seq<(string, string, string)>, uuid: Option<string>,
                     groupId: Option<nat>, fileMeta: seq<(string, string)>, digest: Bytes): (db': Db)
    // an Item is created exactly when none has the path
    ensures FindItem(db, Abspath(cwd, path)).Some? ==> db'.items == db.items
    ensures FindItem(db, Abspath(cwd, path)).None? ==> db'.items == db.items + [Item(path)]
    // an Event with the same uuid is reused; only a new Event gets the metadata
    ensures EventFor(db, uuid) < |db.events| ==> db'.events == db.events
    ensures EventFor(db, uuid) == |db.events| ==> db'.events == db.events + [Event(cmd, uuid, GroupOf(groupId))]
    // exactly one ItemEvent is appended
    ensures db'.facts == db.facts + [Fact(ItemFor(db, cwd, path), EventFor(db, uuid), status, digest)]
    ensures ItemFor(db, cwd, path) < |db'.items|
    // metadata: the command's only for a new event; the file type's unless status is 'D'
    ensures db'.metadata ==
      db.metadata
      + (if EventFor(db, uuid) == |db.events| then MetaRows(EventFor(db, uuid), meta) else [])
      + (if status != Some(Deleted) then FileMetaRows(EventFor(db, uuid), db'.items[ItemFor(db, cwd, path)].path, fileMeta) else [])
    ensures Extends(db, db')
  {
    var item := ItemFor(db, cwd, path);
    var items := if item == |db.items| then db.items + [Item(path)] else db.items;
    var event := EventFor(db, uuid);
    var isNew := event == |db.events|;
    var events := if isNew then db.events + [Event(cmd, uuid, GroupOf(groupId))] else db.events;
    var metadata := db.metadata + (if isNew then MetaRows(event, meta) else []);
    var metadata' := metadata + (if status != Some(Deleted) then FileMetaRows(event, items[item].path, fileMeta) else []);
    Db(items, events, db.facts + [Fact(item, event, status, digest)], metadata')
  }

  /** After a record, the path is found and its last digest is the new one. */
  lemma AddRecordThenLookup(db: Db, cwd: Path, path: Path, cmd: string, status: Option<Code>,
                            meta: seq<(string, string, string)>, uuid: Option<string>,
                            groupId: Option<nat>, fileMeta: seq<(string, string)>, digest: Bytes)
    requires Abspath(cwd, path) == path
    ensures var db' := AddRecord(db, cwd, path, cmd, status, meta, uuid, groupId, fileMeta, digest);
            FindItem(db', Abspath(cwd, path)) == Some(ItemFor(db, cwd, path)) &&
            LastDigest(db'.facts, ItemFor(db, cwd, path)) == Some(digest)
  {
    var db' := AddRecord(db, cwd, path, cmd, status, meta, uuid, groupId, fileMeta, digest);
    if FindItem(db, Abspath(cwd, path)).None? {
      assert db'.items[|db.items|].path == path;
    }
  }

  /** Recording keeps the store valid. */
  lemma AddRecordValid(db: Db, cwd: Path, path: Path, cmd: string, status: Option<Code>,
                       meta: seq<(string, string, string)>, uuid: Option<string>,
                       groupId: Option<nat>, fileMeta: seq<(string, string)>, digest: Bytes)
    requires Valid(db)
    requires Abspath(cwd, path) == path
    ensures Valid(AddRecord(db, cwd, path, cmd, status, meta, uuid, groupId, fileMeta, digest))
  {
    var db' := AddRecord(db, cwd, path, cmd, status, meta, uuid, groupId, fileMeta, digest);
    var item := ItemFor(db, cwd, path);
    var n := |db.facts|;
    assert db'.facts[n].item == item;
    forall i | 0 <= i < |db'.items| ensures HasFact(db', i) {
      if i < |db.items| {
        assert HasFact(db, i);
        var k :| 0 <= k < |db.facts| && db.facts[k].item == i;
        assert db'.facts[k].item == i;
      } else {
        assert i == item;
      }
    }
    forall i, j | 0 <= i < j < |db'.events| && Truthy(db'.events[i].uuid)
      ensures db'.events[i].uuid != db'.events[j].uuid
    {
      if j == |db.events| {
        assert EventFor(db, uuid) == |db.events|;
        assert db'.events[j].uuid == uuid;
      }
    }
  }

  /** `record.db.session` as the core sees it: four append-only tables. */
  class ProvenanceStore {
    var items: seq<Item>
    var events: seq<Event>
    var facts: seq<Fact>
    var metadata: seq<Metadatum>

    function Value(): Db
      reads this
    {
      Db(items, events, facts, metadata)
    }

    constructor ()
      ensures Value() == Db([], [], [], [])
    {
      items, events, facts, metadata := [], [], [], [];
    }

    /** `add_file_record`: the item, the event, the metadata rows and the
        ItemEvent, added one after the other. */
    method AddFileRecord(cwd: Path, path: Path, cmd: string, status: Option<Code>,
                         meta: seq<(string, string, string)>, uuid: Option<string>,
                         groupId: Option<nat>, fileMeta: seq<(string, string)>, digest: Bytes)
      modifies this
      ensures Value() == AddRecord(old(Value()), cwd, path, cmd, status, meta, uuid, groupId, fileMeta, digest)
    {
      ghost var db := Value();
      var item := TouchItem(cwd, path);
      assert EventFor(Value(), uuid) == EventFor(db, uuid);
      var e := TouchEvent(cmd, uuid, groupId, meta);
      var itemPath := items[item].path;
      ghost var spec := AddRecord(db, cwd, path, cmd, status, meta, uuid, groupId, fileMeta, digest);
      assert items == spec.items && events == spec.events;
      facts := facts + [Fact(item, e, status, digest)];
      if status != Some(Deleted) {
        AttachFileMeta(e, itemPath, fileMeta);
      }
      assert metadata == spec.metadata;
    }

    /** The Item with the same absolute path, or a new one added last. */
    method TouchItem(cwd: Path, path: Path) returns (item: nat)
      modifies this`items
      ensures item == ItemFor(old(Value()), cwd, path) && item < |items|
      ensures items == if item < |old(items)| then old(items) else old(items) + [Item(path)]
    {
      var found := FindItem(Value(), Abspath(cwd, path));
      if found.None? {
        items := items + [Item(path)];
        item := |items| - 1;
      } else {
        item := found.value;
      }
    }

    /** The Event with the same uuid, or a new one added last with the
        command's metadata. */
    method TouchEvent(cmd: string, uuid: Option<string>, groupId: Option<nat>,
                      meta: seq<(string, string, string)>) returns (e: nat)
      modifies this`events, this`metadata
      ensures e == EventFor(old(Value()), uuid)
      ensures events == if e < |old(events)| then old(events) else old(events) + [Event(cmd, uuid, GroupOf(groupId))]
      ensures metadata == old(metadata) + (if e == |old(events)| then MetaRows(e, meta) else [])
    {
      var event: Option<nat> := None;
      if uuid.Some? && uuid.value != "" {
        event := FindEvent(Value(), uuid.value);
      }
      if event.None? {
        events := events + [Event(cmd, uuid, GroupOf(groupId))];
        e := |events| - 1;
        AttachMeta(e, meta);
      } else {
        e := event.value;
      }
    }

    /** `for mcat in meta: for key in meta[mcat]: session.add(Metadatum(...))` */
    method AttachMeta(e: nat, meta: seq<(string, string, string)>)
      modifies this`metadata
      ensures metadata == old(metadata) + MetaRows(e, meta)
    {
      var k := 0;
      while k < |meta|
        invariant k <= |meta|
        invariant metadata == old(metadata) + MetaRows(e, meta[..k])
      {
        assert meta[..k + 1][..k] == meta[..k];
        metadata := metadata + [Metadatum(e, meta[k].0, meta[k].1, meta[k].2)];
        k := k + 1;
      }
      assert meta[..k] == meta;
    }

    /** `for key in f_meta: session.add(Metadatum(event, item.path, key, f_meta[key]))` */
    method AttachFileMeta(e: nat, path: Path, fileMeta: seq<(string, string)>)
      modifies this`metadata
      ensures metadata == old(metadata) + FileMetaRows(e, path, fileMeta)
    {
      var k := 0;
      while k < |fileMeta|
        invariant k <= |fileMeta|
        invariant metadata == old(metadata) + FileMetaRows(e, path, fileMeta[..k])
      {
        assert fileMeta[..k + 1][..k] == fileMeta[..k];
        metadata := metadata + [Metadatum(e, path, fileMeta[k].0, fileMeta[k].1)];
        k := k + 1;
      }
      assert fileMeta[..k] == fileMeta;
    }
  }
}
