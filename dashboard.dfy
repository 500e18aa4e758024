/**
 * The dashboard's data shaping: the statistics fold over the user's schema
 * documents, the live-collaborator filter, the activity chart series, and the
 * store updates of the "new schema" and "edit schema" actions.
 */
module Dashboard {
  import opened JsValues
  import opened Graph
  import SchemaSlice

  // ---------------------------------------------------------------------------
  // Statistics.

  datatype Stats = Stats(totalSchemas: nat, sharedSchemas: nat, totalTables: nat, totalRelationships: nat)

  /** `schema.collaborators?.length > 0`: a non-empty array (or, were the
      field a string, a non-empty string); an absent field or any other value
      has no length and is not shared. */
  function IsShared(r: SchemaRecord): (b: bool)
    ensures r.collaborators.Arr? ==> (b <==> r.collaborators.items != [])
    ensures r.collaborators.NotArr? && r.collaborators.other.Str? ==> (b <==> r.collaborators.other.s != [])
    ensures r.collaborators.NotArr? && !r.collaborators.other.Str? ==> !b
  {
    LengthOr0(r.collaborators) > 0
  }

  /** The sum of `nodes?.length || 0` over the documents. */
  function TablesIn(docs: seq<SchemaRecord>): nat {
    if docs == [] then 0 else TablesIn(docs[..|docs| - 1]) + LengthOr0(docs[|docs| - 1].nodes)
  }

  /** The sum of `edges?.length || 0` over the documents. */
  function RelationshipsIn(docs: seq<SchemaRecord>): nat {
    if docs == [] then 0 else RelationshipsIn(docs[..|docs| - 1]) + LengthOr0(docs[|docs| - 1].edges)
  }

  /** The number of documents with a non-empty collaborator list. */
  function SharedIn(docs: seq<SchemaRecord>): nat {
    if docs == [] then 0 else SharedIn(docs[..|docs| - 1]) + (if IsShared(docs[|docs| - 1]) then 1 else 0)
  }

  /** The statistics of a query snapshot: one schema per document, of which
      at most all are shared. */
  function StatsOf(docs: seq<SchemaRecord>): (r: Stats)
    ensures r.totalSchemas == |docs| && r.sharedSchemas <= r.totalSchemas
  {
    SharedAtMostTotal(docs);
    Stats(|docs|, SharedIn(docs), TablesIn(docs), RelationshipsIn(docs))
  }

  /** The `forEach` over the snapshot's documents, then `setStats`. */
  method ComputeStats(docs: seq<SchemaRecord>) returns (stats: Stats)
    ensures stats == StatsOf(docs)
    ensures stats.sharedSchemas <= stats.totalSchemas
  {
    var totalTables, totalRelationships, sharedCount := 0, 0, 0;
    var i := 0;
    while i < |docs|
      invariant 0 <= i <= |docs|
      invariant totalTables == TablesIn(docs[..i])
      invariant totalRelationships == RelationshipsIn(docs[..i])
      invariant sharedCount == SharedIn(docs[..i])
    {
      assert docs[..i + 1][..i] == docs[..i];
      var schema := docs[i];
      totalTables := totalTables + LengthOr0(schema.nodes);
      totalRelationships := totalRelationships + LengthOr0(schema.edges);
      if LengthOr0(schema.collaborators) > 0 {
        sharedCount := sharedCount + 1;
      }
      i := i + 1;
    }
    assert docs[..i] == docs;
    SharedAtMostTotal(docs);
    stats := Stats(|docs|, sharedCount, totalTables, totalRelationships);
  }

  /** Shared schemas never outnumber schemas. */
  lemma {:induction false} SharedAtMostTotal(docs: seq<SchemaRecord>)
    ensures SharedIn(docs) <= |docs|
  {
    if docs != [] {
      SharedAtMostTotal(docs[..|docs| - 1]);
    }
  }

  /** No document holds more tables than the total, which is 0 exactly when
      no document holds any. */
  lemma {:induction false} TablesBound(docs: seq<SchemaRecord>)
    ensures forall k :: 0 <= k < |docs| ==> LengthOr0(docs[k].nodes) <= TablesIn(docs)
    ensures TablesIn(docs) == 0 <==> forall k :: 0 <= k < |docs| ==> LengthOr0(docs[k].nodes) == 0
  {
    if docs != [] {
      var init := docs[..|docs| - 1];
      TablesBound(init);
      assert forall k :: 0 <= k < |init| ==> init[k] == docs[k];
    }
  }

  /** No document holds more relationships than the total, which is 0
      exactly when no document holds any. */
  lemma {:induction false} RelationshipsBound(docs: seq<SchemaRecord>)
    ensures forall k :: 0 <= k < |docs| ==> LengthOr0(docs[k].edges) <= RelationshipsIn(docs)
    ensures RelationshipsIn(docs) == 0 <==> forall k :: 0 <= k < |docs| ==> LengthOr0(docs[k].edges) == 0
  {
    if docs != [] {
      var init := docs[..|docs| - 1];
      RelationshipsBound(init);
      assert forall k :: 0 <= k < |init| ==> init[k] == docs[k];
    }
  }

  /** The shared count is 0 exactly when no document is shared. */
  lemma {:induction false} SharedZeroIff(docs: seq<SchemaRecord>)
    ensures SharedIn(docs) == 0 <==> forall k :: 0 <= k < |docs| ==> !IsShared(docs[k])
  {
    if docs != [] {
      var init := docs[..|docs| - 1];
      SharedZeroIff(init);
      assert forall k :: 0 <= k < |init| ==> init[k] == docs[k];
    }
  }

  /** Each statistic is 0 exactly when no document contributes to it. */
  lemma StatsZeroIff(docs: seq<SchemaRecord>)
    ensures StatsOf(docs).sharedSchemas == 0 <==> forall k :: 0 <= k < |docs| ==> !IsShared(docs[k])
    ensures StatsOf(docs).totalTables == 0 <==> forall k :: 0 <= k < |docs| ==> LengthOr0(docs[k].nodes) == 0
    ensures StatsOf(docs).totalRelationships == 0 <==> forall k :: 0 <= k < |docs| ==> LengthOr0(docs[k].edges) == 0
  {
    SharedZeroIff(docs);
    TablesBound(docs);
    RelationshipsBound(docs);
  }

  /** The shared count is the length of the list of shared documents. */
  lemma {:induction false} SharedIsFilterLength(docs: seq<SchemaRecord>)
    ensures SharedIn(docs) == |Filter(docs, IsShared)|
  {
    if docs != [] {
      var init, last := docs[..|docs| - 1], docs[|docs| - 1];
      SharedIsFilterLength(init);
      assert docs == init + [last];
      FilterConcat(init, [last], IsShared);
      assert [last][1..] == [];
    }
  }

  /** Every count is additive over two batches of documents. */
  lemma {:induction false} StatsAppend(a: seq<SchemaRecord>, b: seq<SchemaRecord>)
    ensures SharedIn(a + b) == SharedIn(a) + SharedIn(b)
    ensures TablesIn(a + b) == TablesIn(a) + TablesIn(b)
    ensures RelationshipsIn(a + b) == RelationshipsIn(a) + RelationshipsIn(b)
  {
    if b == [] {
      assert a + b == a;
    } else {
      var init := b[..|b| - 1];
      StatsAppend(a, init);
      assert (a + b)[..|a + b| - 1] == a + init;
      assert (a + b)[|a + b| - 1] == b[|b| - 1];
    }
  }

  // ---------------------------------------------------------------------------
  // Live collaborators.

  /** An entry of the `activeUsers` map. */
  datatype User = User(id: Value, props: map<string, Value>)

  /** The collaborator list after one `activeUsers` snapshot: a missing
      (falsy) snapshot keeps the previous list; otherwise every entry whose id
      is not the current user's, in order. */
  function ActiveCollaborators(previous: seq<User>, snapshot: Option<seq<User>>, uid: string): (r: seq<User>)
    ensures snapshot.None? ==> r == previous
    ensures snapshot.Some? ==> |r| <= |snapshot.value|
    ensures snapshot.Some? ==> forall u :: u in r <==> u in snapshot.value && u.id != Str(uid)
  {
    match snapshot
    case None => previous
    case Some(users) => Filter(users, (u: User) => u.id != Str(uid))
  }

  /** An entry is dropped exactly when it is the current user. */
  lemma OnlyCurrentUserDropped(users: seq<User>, uid: string)
    requires forall k :: 0 <= k < |users| ==> users[k].id != Str(uid)
    ensures ActiveCollaborators([], Some(users), uid) == users
  {
    FilterKeepsAll(users, (u: User) => u.id != Str(uid));
  }

  // ---------------------------------------------------------------------------
  // Activity series.

  /** An `activity` document: a timestamp and an optional action count. */
  datatype ActivityDoc = ActivityDoc(timestamp: Value, actions: Value)

  /** A point of the chart. The day is the document's timestamp; its locale
      rendering is not modelled. */
  datatype ActivityPoint = ActivityPoint(day: Value, actions: Value)

  function Reverse<T>(s: seq<T>): (r: seq<T>)
    ensures |r| == |s|
    ensures forall k :: 0 <= k < |s| ==> r[k] == s[|s| - 1 - k]
  {
    if s == [] then [] else Reverse(s[1..]) + [s[0]]
  }

  /** `docs.map(...)` then `.reverse()`: the query returns the newest first,
      so the chart runs oldest to newest; a missing action count is 0. */
  function ShapeActivity(docs: seq<ActivityDoc>): (r: seq<ActivityPoint>)
    ensures |r| == |docs|
    ensures forall k :: 0 <= k < |docs| ==>
              r[k] == ActivityPoint(docs[|docs| - 1 - k].timestamp, Or(docs[|docs| - 1 - k].actions, Num(0)))
  {
    Reverse(seq(|docs|, k requires 0 <= k < |docs| => ActivityPoint(docs[k].timestamp, Or(docs[k].actions, Num(0)))))
  }

  lemma {:induction false} ReverseReverse<T>(s: seq<T>)
    ensures Reverse(Reverse(s)) == s
  {
    var r := Reverse(Reverse(s));
    assert |r| == |s|;
    forall k | 0 <= k < |s| ensures r[k] == s[k] {
      assert r[k] == Reverse(s)[|s| - 1 - k];
    }
  }

  /** Every point carries a truthy count or exactly 0, and the newest
      document is the last point. */
  lemma ActivityCounts(docs: seq<ActivityDoc>)
    requires docs != []
    ensures forall k :: 0 <= k < |docs| ==> Truthy(ShapeActivity(docs)[k].actions) || ShapeActivity(docs)[k].actions == Num(0)
    ensures ShapeActivity(docs)[|docs| - 1].day == docs[0].timestamp
  {
  }

  // ---------------------------------------------------------------------------
  // New schema and edit schema.

  /** The document `handleCreateNewSchema` writes. */
  function NewSchemaRecord(uid: string, now: int): (r: SchemaRecord)
    ensures r.userId == uid && r.lastModifiedBy == uid && r.lastModified == now
    ensures r.name == UntitledSchema
    ensures r.nodes == Arr([]) && r.edges == Arr([]) && r.collaborators == Arr([])
  {
    SchemaRecord(uid, UntitledSchema, Arr([]), Arr([]), now, uid, Arr([]))
  }

  /** A new schema adds one schema and nothing else to the statistics. */
  lemma NewSchemaStats(docs: seq<SchemaRecord>, uid: string, now: int)
    ensures StatsOf(docs + [NewSchemaRecord(uid, now)])
            == StatsOf(docs).(totalSchemas := |docs| + 1)
  {
    var n := NewSchemaRecord(uid, now);
    assert (docs + [n])[..|docs|] == docs;
  }

  /** `x || []`: a falsy non-array becomes the empty array. */
  function OrEmpty<T>(x: MaybeArray<T>): (r: MaybeArray<T>)
    ensures x.Arr? ==> r == x
    ensures x.NotArr? && !Truthy(x.other) ==> r == Arr([])
    ensures x.NotArr? && Truthy(x.other) ==> r == x
  {
    if x.NotArr? && !Truthy(x.other) then Arr([]) else x
  }

  /** The `|| []` default adds nothing once the reducer coerces non-arrays. */
  lemma OrEmptyRedundant<T>(x: MaybeArray<T>)
    ensures ArrayOr(OrEmpty(x)) == ArrayOr(x)
  {
  }

  /** `handleEditSchema`: loads the chosen schema into the store (navigation
      is not modelled). */
  method EditSchema(store: SchemaSlice.SchemaStore, schema: StoredSchema)
    modifies store`nodes, store`edges, store`currentSchemaId, store`schemaName
    ensures store.nodes == ArrayOr(schema.record.nodes) && store.edges == ArrayOr(schema.record.edges)
    ensures store.currentSchemaId == Some(schema.id)
    ensures store.schemaName == Or(schema.record.name, UntitledSchema)
  {
    store.SetNodes(OrEmpty(schema.record.nodes));
    store.SetEdges(OrEmpty(schema.record.edges));
    store.SetCurrentSchemaId(Some(schema.id));
    store.SetSchemaName(Or(schema.record.name, UntitledSchema));
  }

  /** `handleCreateNewSchema`. `docId` is the id `addDoc` returns, `None` when
      it fails; `realtimeOk` is the outcome of the realtime write. The store is
      reset only after both writes succeed; the record written is returned. */
  method CreateNewSchema(store: SchemaSlice.SchemaStore, uid: string, now: int, docId: Option<string>, realtimeOk: bool)
    returns (written: Option<SchemaRecord>)
    modifies store`nodes, store`edges, store`currentSchemaId, store`schemaName
    ensures written == if docId.Some? then Some(NewSchemaRecord(uid, now)) else None
    ensures docId.Some? && realtimeOk ==>
              && store.nodes == [] && store.edges == []
              && store.currentSchemaId == docId && store.schemaName == UntitledSchema
    ensures !(docId.Some? && realtimeOk) ==>
              && store.nodes == old(store.nodes) && store.edges == old(store.edges)
              && store.currentSchemaId == old(store.currentSchemaId) && store.schemaName == old(store.schemaName)
  {
    var schemaData := NewSchemaRecord(uid, now);
    if docId.None? {
      return None;
    }
    written := Some(schemaData);
    if !realtimeOk {
      return;
    }
    store.SetNodes(Arr([]));
    store.SetEdges(Arr([]));
    store.SetCurrentSchemaId(docId);
    store.SetSchemaName(UntitledSchema);
  }

  /** Creating a schema and then opening it for editing leaves the same store
      contents as the creation alone. */
  method CreateThenEdit(uid: string, now: int, docId: string)
    returns (nodes: seq<Node>, edges: seq<Edge>, id: Option<string>, name: Value)
    ensures nodes == [] && edges == [] && id == Some(docId) && name == UntitledSchema
  {
    var store := new SchemaSlice.SchemaStore();
    var written := CreateNewSchema(store, uid, now, Some(docId), true);
    EditSchema(store, StoredSchema(docId, written.value));
    nodes, edges, id, name := store.nodes, store.edges, store.currentSchemaId, store.schemaName;
  }
}
