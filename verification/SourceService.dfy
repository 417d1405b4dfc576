/** The API services: database transactions with object-store compensation. */
module SourceService {
  import opened Entities
  import opened JobSql
  import opened DocumentSql
  import opened TableInvariant
  import opened Rows
  import opened Persistence
  import opened Text
  import ApiSpec

  type Bytes = seq<bv8>

  type Objects = map<string, Bytes>

  class ObjectStore {
    var objects: Objects
    var faults: nat                  // calls that raised
    ghost var touched: set<string>   // keys that a put or a delete has named

    constructor ()
      ensures objects == map[] && touched == {} && faults == 0
    {
      objects, touched, faults := map[], {}, 0;
    }

    /** A put that raises may still have stored the object. */
    method Put(key: string, content: Bytes) returns (r: Outcome<()>)
      modifies this
      ensures touched == old(touched) + {key} && faults == old(faults) + if r.Raised? then 1 else 0
      ensures objects == old(objects)[key := content] || (r.Raised? && objects == old(objects))
    {
      var stored: bool, acknowledged: bool := *, *;
      touched := touched + {key};
      if stored { objects := objects[key := content]; }
      if stored && acknowledged { return Value(()); }
      faults := faults + 1;
      return Raised;
    }

    /** A delete that raises may still have removed the object. */
    method Delete(key: string) returns (r: Outcome<()>)
      modifies this
      ensures touched == old(touched) + {key} && faults == old(faults) + if r.Raised? then 1 else 0
      ensures objects == old(objects) - {key} || (r.Raised? && objects == old(objects))
    {
      var gone: bool, acknowledged: bool := *, *;
      touched := touched + {key};
      if gone { objects := objects - {key}; }
      if gone && acknowledged { return Value(()); }
      faults := faults + 1;
      return Raised;
    }
  }

  ghost predicate IsCommittedKey(t: Tables, key: string) {
    exists d, n :: d in t.documents && n in t.documents[d].revisions && t.documents[d].revisions[n].objectKey == key
  }

  ghost predicate SourceIntact(t: Tables, objects: Objects, sha: Bytes -> string, d: Uuid, n: int) {
    d in t.documents && n in t.documents[d].revisions ==>
      && n >= 1 && t.documents[d].revisions[n].objectKey == ObjectKey(t.documents[d].workspace, d, n)
      && t.documents[d].revisions[n].objectKey in objects
      && sha(objects[t.documents[d].revisions[n].objectKey]) == t.documents[d].revisions[n].contentHash
  }

  /** Every committed revision has its own key, and bytes there that hash to its content hash. */
  ghost predicate SourcesIntact(t: Tables, objects: Objects, sha: Bytes -> string) {
    forall d, n :: SourceIntact(t, objects, sha, d, n)
  }

  /** The key of a revision that is not committed yet is no committed key. */
  lemma NewKeyIsNotCommitted(t: Tables, objects: Objects, sha: Bytes -> string, ws: Uuid, id: Uuid, revision: nat)
    requires SourcesIntact(t, objects, sha)
    requires id in t.documents ==> revision !in t.documents[id].revisions
    ensures !IsCommittedKey(t, ObjectKey(ws, id, revision))
  {
    forall d, n | d in t.documents && n in t.documents[d].revisions
      ensures t.documents[d].revisions[n].objectKey != ObjectKey(ws, id, revision)
    {
      assert SourceIntact(t, objects, sha, d, n);
      if ObjectKey(t.documents[d].workspace, d, n) == ObjectKey(ws, id, revision) {
        ObjectKeyIsInjective(t.documents[d].workspace, d, n, ws, id, revision);
      }
    }
  }

  /** Objects may change freely at keys that no committed revision names. */
  lemma ForeignKeyIsHarmless(t: Tables, objects: Objects, objects': Objects, sha: Bytes -> string, key: string)
    requires SourcesIntact(t, objects, sha) && !IsCommittedKey(t, key)
    requires forall k | k != key :: (k in objects <==> k in objects') && (k in objects ==> objects'[k] == objects[k])
    ensures SourcesIntact(t, objects', sha)
  {
    forall d, n ensures SourceIntact(t, objects', sha, d, n) {
      assert SourceIntact(t, objects, sha, d, n);
    }
  }

  /** `t'` is `t` with one revision more, stored under its own key. */
  ghost predicate AddsRevision(t: Tables, t': Tables, ws: Uuid, id: Uuid, revision: int, source: Source) {
    && id in t'.documents && t'.documents[id].workspace == ws && revision in t'.documents[id].revisions
    && t'.documents[id].revisions[revision].objectKey == source.objectKey
    && t'.documents[id].revisions[revision].contentHash == source.contentHash
    && (forall d | d != id :: (d in t'.documents <==> d in t.documents)
                              && (d in t.documents ==> t'.documents[d] == t.documents[d]))
    && (id in t.documents ==> t.documents[id].workspace == ws)
    && (forall n | n != revision ::
          (n in t'.documents[id].revisions <==> id in t.documents && n in t.documents[id].revisions)
          && (n in t'.documents[id].revisions ==> t'.documents[id].revisions[n] == t.documents[id].revisions[n]))
  }

  /** After the revision is committed, the sources are intact exactly when its bytes are there. */
  lemma IntactIffStored(t: Tables, t': Tables, objects: Objects, sha: Bytes -> string,
                        ws: Uuid, id: Uuid, revision: int, source: Source)
    requires AddsRevision(t, t', ws, id, revision, source) && revision >= 1
    requires source.objectKey == ObjectKey(ws, id, revision)
    requires SourcesIntact(t, objects, sha)
    ensures SourcesIntact(t', objects, sha) <==>
            source.objectKey in objects && sha(objects[source.objectKey]) == source.contentHash
  {
    if source.objectKey in objects && sha(objects[source.objectKey]) == source.contentHash {
      forall d, n ensures SourceIntact(t', objects, sha, d, n) {
        assert SourceIntact(t, objects, sha, d, n);
      }
    } else {
      assert !SourceIntact(t', objects, sha, id, revision);
    }
  }

  datatype UpsertAction = Created | Updated | Unchanged

  // ----- what a compensating delete does

  /** What other calls commit and store meanwhile, as a function of what they find. */
  type Others = (Tables, Objects) -> (Tables, Objects)

  /** Others retract no revision, leave the objects of committed ones alone, and lose no source of
      their own. */
  ghost predicate Spares(t: Tables, objects: Objects, t': Tables, objects': Objects, sha: Bytes -> string) {
    && (forall k {:trigger IsCommittedKey(t', k)} | IsCommittedKey(t, k) ::
          IsCommittedKey(t', k) && (k in objects' <==> k in objects) && (k in objects ==> objects'[k] == objects[k]))
    && (SourcesIntact(t', objects', sha) <==> SourcesIntact(t, objects, sha))
  }

  ghost predicate Considerate(others: Others, sha: Bytes -> string) {
    forall t, objects :: Spares(t, objects, others(t, objects).0, others(t, objects).1, sha)
  }

  /** Committed or not, the revision leaves all sources intact unless it is committed after its object
      was removed. */
  lemma IntactUnlessLate(t: Tables, t': Tables, objects: Objects, objects': Objects, late: bool,
                         sha: Bytes -> string, ws: Uuid, id: Uuid, revision: int, source: Source, content: Bytes)
    requires SourcesIntact(t, objects, sha) && !IsCommittedKey(t, source.objectKey)
    requires revision >= 1 && source == Source(ObjectKey(ws, id, revision), sha(content))
    requires forall k | k != source.objectKey ::
               (k in objects <==> k in objects') && (k in objects ==> objects'[k] == objects[k])
    requires t' == t || (&& AddsRevision(t, t', ws, id, revision, source)
                         && if late then source.objectKey !in objects'
                            else source.objectKey in objects' && objects'[source.objectKey] == content)
    ensures SourcesIntact(t', objects', sha) <==> !(t' != t && late)
    ensures IsCommittedKey(t', source.objectKey) <==> t' != t
  {
    ForeignKeyIsHarmless(t, objects, objects', sha, source.objectKey);
    if t' != t {
      IntactIffStored(t, t', objects', sha, ws, id, revision, source);
      assert IsCommittedKey(t', source.objectKey) by {
        assert id in t'.documents && revision in t'.documents[id].revisions;
      }
    }
  }

  /** After others have acted and the delete has or has not removed an object, the sources are intact
      unless a revision committed by then had it, or its object was lost before. */
  lemma IntactUnlessDeleted(t: Tables, objects: Objects, lost: bool, t': Tables, found: Objects, objects': Objects,
                            deleted: bool, sha: Bytes -> string, key: string)
    requires Spares(t, objects, t', found, sha)
    requires SourcesIntact(t, objects, sha) <==> !(IsCommittedKey(t, key) && lost)
    requires objects' == (if deleted then found - {key} else found)
    ensures SourcesIntact(t', objects', sha) <==>
            !(IsCommittedKey(t', key) && deleted) && !(IsCommittedKey(t, key) && lost)
  {
    if deleted && IsCommittedKey(t', key) {
      var d, n :| d in t'.documents && n in t'.documents[d].revisions && t'.documents[d].revisions[n].objectKey == key;
      assert !SourceIntact(t', objects', sha, d, n);
    } else if deleted {
      ForeignKeyIsHarmless(t', found, objects', sha, key);
    }
  }

  /** The first create of a workspace, its commit unacknowledged and its object removed again. */
  lemma LostAcknowledgementLosesSource(sha: Bytes -> string, content: Bytes)
    ensures
      var t := Tables(map[], map[], map[0 := Workspace(true, Contract(1, ""))]);
      var key := ObjectKey(0, 0, 1);
      var t' := ApiSpec.Store(t, 0, 0, Source(key, sha(content)), 0, 0);
      && SourcesIntact(t, map[], sha) && t'.Some?
      && SourcesIntact(t'.value, map[key := content], sha) && !SourcesIntact(t'.value, map[key := content] - {key}, sha)
  {
    var t := Tables(map[], map[], map[0 := Workspace(true, Contract(1, ""))]);
    var key := ObjectKey(0, 0, 1);
    var source := Source(key, sha(content));
    assert SourcesIntact(t, map[], sha);
    assert SourcesIntact(t, map[key := content], sha);
    StoreAddsRevision(t, 0, 0, source, 0, 0);
    var t' := ApiSpec.Store(t, 0, 0, source, 0, 0).value;
    IntactIffStored(t, t', map[key := content], sha, 0, 0, 1, source);
    assert !SourceIntact(t', map[key := content] - {key}, sha, 0, 1);
  }

  /** Two uploads of one new document: the first fails and releases its lock, the second takes the
      same number and commits, and then the object is removed by the compensation of the first. */
  lemma LateCompensationLosesSource(sha: Bytes -> string, first: Bytes, second: Bytes)
    ensures
      var t := Tables(map[], map[], map[0 := Workspace(true, Contract(1, ""))]);
      var key := ObjectKey(0, 0, 1);
      var t' := ApiSpec.Store(t, 0, 0, Source(key, sha(second)), 0, 0);
      && SourcesIntact(t, map[key := first], sha) && t'.Some?
      && Spares(t, map[key := first], t'.value, map[key := second], sha)
      && !SourcesIntact(t'.value, map[key := second] - {key}, sha)
  {
    var t := Tables(map[], map[], map[0 := Workspace(true, Contract(1, ""))]);
    assert SourcesIntact(t, map[ObjectKey(0, 0, 1) := first], sha);
    LostAcknowledgementLosesSource(sha, second);
  }

  lemma StoreAddsRevision(t: Tables, ws: Uuid, id: Uuid, source: Source, job: Uuid, now: Time)
    requires ApiSpec.Store(t, ws, id, source, job, now).Some?
    ensures id !in t.documents
    ensures AddsRevision(t, ApiSpec.Store(t, ws, id, source, job, now).value, ws, id, 1, source)
  {}

  lemma ReplaceAddsRevision(t: Tables, ws: Uuid, id: Uuid, source: Source, job: Uuid, now: Time)
    requires TablesOk(t) && ApiSpec.Replace(t, ws, id, source, job, now).Some?
    ensures id in t.documents
    ensures
      var revision := MaxRevision(t.documents[id]) + 1;
      AddsRevision(t, ApiSpec.Replace(t, ws, id, source, job, now).value, ws, id, revision, source)
  {
    ReplaceResult(t, ws, id, source, job, now);
    assert DocumentOk(t, t.documents[id]);
    MaxIs(t.documents[id], t.documents[id].active.value);
  }

  function NextNumber(t: Tables, id: Uuid): int {
    if id in t.documents then MaxRevision(t.documents[id]) + 1 else 1
  }

  lemma UpsertAddsRevision(t: Tables, t': Tables, ws: Uuid, id: Uuid, source: Source, revision: int, job: Uuid, now: Time)
    requires id in t.documents ==> TablesOk(t)
    requires revision == NextNumber(t, id)
    requires || ApiSpec.Store(t, ws, id, source, job, now) == Some(t')
             || ApiSpec.Replace(t, ws, id, source, job, now) == Some(t')
    ensures AddsRevision(t, t', ws, id, revision, source)
  {
    if ApiSpec.Store(t, ws, id, source, job, now) == Some(t') {
      StoreAddsRevision(t, ws, id, source, job, now);
    } else {
      ReplaceAddsRevision(t, ws, id, source, job, now);
    }
  }

  lemma NextKeyIsNew(t: Tables, objects: Objects, sha: Bytes -> string, ws: Uuid, id: Uuid, revision: int)
    requires TablesOk(t) && SourcesIntact(t, objects, sha)
    requires revision == NextNumber(t, id)
    ensures revision >= 1 && !IsCommittedKey(t, ObjectKey(ws, id, revision))
  {
    if id in t.documents {
      assert DocumentOk(t, t.documents[id]) && 1 in t.documents[id].revisions;
    }
    NewKeyIsNotCommitted(t, objects, sha, ws, id, revision);
  }

  /** An upload, committed or not, leaves the sources intact unless its revision is committed after its
      object was removed. */
  lemma UploadLeaves(t: Tables, t': Tables, objects: Objects, objects': Objects, late: bool, sha: Bytes -> string,
                     ws: Uuid, id: Uuid, revision: int, source: Source, content: Bytes, job: Uuid, now: Time)
    requires (id in t.documents ==> TablesOk(t)) && SourcesIntact(t, objects, sha) && !IsCommittedKey(t, source.objectKey)
    requires revision == NextNumber(t, id) && revision >= 1
    requires source == Source(ObjectKey(ws, id, revision), sha(content))
    requires forall k | k != source.objectKey ::
               (k in objects <==> k in objects') && (k in objects ==> objects'[k] == objects[k])
    requires || t' == t || ApiSpec.Store(t, ws, id, source, job, now) == Some(t')
             || ApiSpec.Replace(t, ws, id, source, job, now) == Some(t')
    requires t' != t ==> if late then source.objectKey !in objects'
                         else source.objectKey in objects' && objects'[source.objectKey] == content
    ensures SourcesIntact(t', objects', sha) <==> !(t' != t && late)
    ensures IsCommittedKey(t', source.objectKey) <==> t' != t
  {
    if t' != t { UpsertAddsRevision(t, t', ws, id, source, revision, job, now); }
    IntactUnlessLate(t, t', objects, objects', late, sha, ws, id, revision, source, content);
  }

  /** The document is in this workspace, and its active or else its newest revision has this hash. */
  predicate SameContent(t: Tables, ws: Uuid, id: Uuid, hash: string) {
    && id in t.documents && t.documents[id].workspace == ws
    && var d := t.documents[id];
       var n := if d.active.Some? then d.active.value else MaxRevision(d);
       n in d.revisions && d.revisions[n].contentHash == hash
  }

  /** The answer of an upsert: the content is that of the current revision and nothing changes, or it
      is another content of a known document, or the document is new. */
  predicate Answers(t: Tables, t': Tables, ws: Uuid, id: Uuid, source: Source, job: Uuid, now: Time, action: UpsertAction) {
    match action
    case Unchanged => SameContent(t, ws, id, source.contentHash) && t' == t
    case Created => id !in t.documents && ApiSpec.Store(t, ws, id, source, job, now) == Some(t')
    case Updated =>
      && id in t.documents && !SameContent(t, ws, id, source.contentHash)
      && ApiSpec.Replace(t, ws, id, source, job, now) == Some(t')
  }

  /** What the service itself refuses: a document of another workspace, or a state that does not
      admit the create or the replacement. */
  predicate UpsertRefused(t: Tables, ws: Uuid, id: Uuid, source: Source, job: Uuid, now: Time) {
    if id in t.documents
    then t.documents[id].workspace != ws || ApiSpec.Replace(t, ws, id, source, job, now) == None
    else ApiSpec.Store(t, ws, id, source, job, now) == None
  }

  /** A document that cannot be deleted now: foreign, being deleted without a job, or not ready. */
  predicate DeleteRefused(t: Tables, ws: Uuid, id: Uuid, job: Uuid, now: Time) {
    || id !in t.documents || t.documents[id].workspace != ws
    || (t.documents[id].status.Deleting? && !HasActiveJob(t, id))
    || (!t.documents[id].status.Deleting? && !t.documents[id].status.Deleted? && ApiSpec.Delete(t, ws, id, job, now) == None)
  }

  lemma Readable(t: Tables, id: Uuid)
    requires TablesOk(t) && id in t.documents
    ensures CurrentRevision(t.documents[id]).Some?
  {
    assert DocumentOk(t, t.documents[id]);
    ActiveRevisionIsReadable(t.documents[id]);
  }

  class DocumentSourceService {
    const connection: Connection
    const documents: DocumentRepository
    const jobs: JobRepository
    const store: ObjectStore
    const sha: Bytes -> string   // SHA-256, uninterpreted

    var storedKey: Option<string>   // the object that a failure must compensate
    ghost var left: Tables          // what the call left committed when it released its lock
    ghost var leftObjects: Objects  // and in the store
    ghost var late: bool            // an earlier upload's delete emptied the key between put and commit
    ghost var deleted: bool         // the compensation of this call removed an object

    constructor (connection: Connection, store: ObjectStore, sha: Bytes -> string)
      ensures this.connection == connection && this.store == store && this.sha == sha
      ensures documents.connection == jobs.connection == connection
    {
      this.connection, this.store, this.sha := connection, store, sha;
      documents := new DocumentRepository(connection);
      jobs := new JobRepository(connection);
      storedKey, left, leftObjects, late, deleted := None, connection.committed, store.objects, false, false;
    }

    /** A call of the database or the object store broke. */
    twostate predicate Broke()
      reads this, connection, store
    {
      connection.faults > old(connection.faults) || store.faults > old(store.faults)
    }

    ghost predicate Bound()
      reads this
    {
      documents.connection == jobs.connection == connection
    }

    ghost predicate Intact()
      reads this, connection, store
    {
      SourcesIntact(connection.committed, store.objects, sha)
    }

    /** What every call guarantees about the keys it touches. */
    twostate predicate TouchesOnly(key: string)
      reads this, connection, store
    {
      store.touched <= old(store.touched) + {key}
    }

    /** `except BaseException`: roll back, which releases the lock of the document, then try to delete
        what was stored. Others act in between. */
    method Compensate(key: Option<string>, others: Others)
      requires Bound()
      modifies this`left, this`leftObjects, this`deleted
      modifies connection`committed, connection`pending, connection`own, store
      ensures connection.pending == connection.committed && store.faults >= old(store.faults)
      ensures left == old(connection.committed) && leftObjects == old(store.objects)
      ensures key.None? ==> store.objects == old(store.objects) && store.touched == old(store.touched)
                            && connection.committed == left && !deleted
      ensures key.Some? ==>
                var (t, found) := others(left, leftObjects);
                && connection.committed == t && store.touched == old(store.touched) + {key.value}
                && store.objects == (if deleted then found - {key.value} else found)
                && (key.value in store.objects ==> store.faults > old(store.faults))
                && (deleted ==> key.value !in store.objects)
    {
      connection.Rollback();
      left, leftObjects, deleted := connection.committed, store.objects, false;
      if key.Some? {
        OthersAct(others);
        ghost var found := store.objects;
        var _ := store.Delete(key.value); // a storage error is swallowed
        deleted := key.value in found && key.value !in store.objects;
      }
    }

    method OthersAct(others: Others)
      modifies connection`committed, connection`pending, store`objects
      ensures connection.pending == connection.committed
      ensures (connection.committed, store.objects) == others(old(connection.committed), old(store.objects))
    {
      var (t, objects) := others(connection.committed, store.objects);
      connection.committed, connection.pending, store.objects := t, t, objects;
    }

    /** The compensation of an earlier upload that had taken the same number may still be on its way. */
    method LateDelete(key: string)
      modifies this`late, store`objects
      ensures store.objects == if late then old(store.objects) - {key} else old(store.objects)
    {
      var arrives: bool := *;
      late := arrives;
      if arrives { store.objects := store.objects - {key}; }
    }

    method StoreForIndexing(ws: Uuid, id: Uuid, content: Bytes, job: Uuid, now: Time, others: Others) returns (r: Outcome<()>)
      requires Bound() && Intact() && id !in connection.committed.documents && Considerate(others, sha)
      modifies this, connection, store
      ensures
        var source := Source(ObjectKey(ws, id, 1), sha(content));
        var stored := ApiSpec.Store(old(connection.committed), ws, id, source, job, now);
        && (r.Value? ==> stored == Some(connection.committed))
        && (r.Raised? ==> if connection.ackLost then stored == Some(left) else left == old(connection.committed))
        && (r.Raised? ==> Broke() || stored == None)
      ensures r.Raised? ==> connection.committed == left || connection.committed == others(left, leftObjects).0
      ensures TouchesOnly(ObjectKey(ws, id, 1)) && !IsCommittedKey(old(connection.committed), ObjectKey(ws, id, 1))
      ensures IsCommittedKey(left, ObjectKey(ws, id, 1)) <==> left != old(connection.committed)
      ensures r.Value? ==> left == connection.committed && !deleted && Intact()
      ensures Intact() <==> !(IsCommittedKey(connection.committed, ObjectKey(ws, id, 1)) && deleted)
      ensures r.Raised? && store.faults == old(store.faults) ==> ObjectKey(ws, id, 1) !in store.objects
    {
      var key := ObjectKey(ws, id, 1);
      var source := Source(key, sha(content));
      NewKeyIsNotCommitted(connection.committed, store.objects, sha, ws, id, 1);
      ghost var t, before := connection.committed, store.objects;
      connection.Begin();
      r := store.Put(key, content);
      if r.Raised? {
        ForeignKeyIsHarmless(t, before, store.objects, sha, key);
        left, leftObjects, deleted := t, store.objects, false;
        return;
      }
      r := InsertAndCommit(ws, id, source, job, now);
      UploadLeaves(t, connection.committed, before, store.objects, false, sha, ws, id, 1, source, content, job, now);
      left, leftObjects, deleted := connection.committed, store.objects, false;
      if r.Raised? { CompensateUpload(Some(key), others, key, false); }
    }

    /** The statements of a create: document with revision 1, job, commit. */
    method InsertAndCommit(ws: Uuid, id: Uuid, source: Source, job: Uuid, now: Time) returns (r: Outcome<()>)
      requires Bound() && connection.pending == connection.committed && !connection.ackLost
      modifies connection
      ensures
        var stored := ApiSpec.Store(old(connection.committed), ws, id, source, job, now);
        && (r.Value? ==> stored == Some(connection.committed) && !connection.ackLost)
        && (r.Raised? ==> if connection.ackLost then stored == Some(connection.committed)
                          else connection.committed == old(connection.committed))
        && (r.Raised? ==> connection.faults > old(connection.faults) || stored == None)
        && connection.faults >= old(connection.faults)
    {
      var _ :- documents.Create(ws, id, source, now);
      var _ :- jobs.Create(job, id, 1, IndexDocument, now);
      r := connection.Commit();
    }

    /** Creates, returns unchanged, or enqueues a replacement. */
    method UpsertForIndexing(ws: Uuid, id: Uuid, content: Bytes, job: Uuid, now: Time, others: Others)
      returns (r: Outcome<UpsertAction>, ghost source: Source, ghost revision: int)
      requires Bound() && Intact() && TablesOk(connection.committed) && Considerate(others, sha)
      modifies this, connection, store
      ensures revision == NextNumber(old(connection.committed), id)
      ensures revision >= 1 && source == Source(ObjectKey(ws, id, revision), sha(content))
      ensures r.Value? ==> Answers(old(connection.committed), connection.committed, ws, id, source, job, now, r.value)
      ensures r.Value? && r.value.Unchanged? ==> store.touched == old(store.touched)
      ensures r.Raised? && SameContent(old(connection.committed), ws, id, sha(content)) ==>
                Broke() && connection.committed == old(connection.committed) && store.touched == old(store.touched)
      ensures r.Raised? && left != old(connection.committed) ==>
                && connection.ackLost
                && (|| ApiSpec.Store(old(connection.committed), ws, id, source, job, now) == Some(left)
                    || ApiSpec.Replace(old(connection.committed), ws, id, source, job, now) == Some(left))
      ensures r.Raised? ==> connection.committed == left || connection.committed == others(left, leftObjects).0
      ensures r.Raised? ==> Broke() || UpsertRefused(old(connection.committed), ws, id, source, job, now)
      ensures TouchesOnly(source.objectKey) && !IsCommittedKey(old(connection.committed), source.objectKey)
      ensures IsCommittedKey(left, source.objectKey) <==> left != old(connection.committed)
      ensures r.Value? ==> left == connection.committed && !deleted && (r.value.Unchanged? || !late ==> Intact())
      ensures Intact() <==>
              && !(IsCommittedKey(connection.committed, source.objectKey) && deleted)
              && !(left != old(connection.committed) && late)
      ensures r.Raised? && store.faults == old(store.faults) ==>
                store.objects == old(store.objects) || source.objectKey !in store.objects
    {
      revision := NextNumber(connection.committed, id);
      NextKeyIsNew(connection.committed, store.objects, sha, ws, id, revision);
      source := Source(ObjectKey(ws, id, revision), sha(content));
      r := Upload(ws, id, content, job, now, source, revision);
      if r.Raised? { CompensateUpload(storedKey, others, source.objectKey, late); }
    }

    /** The call up to its compensation. */
    method Upload(ws: Uuid, id: Uuid, content: Bytes, job: Uuid, now: Time, ghost source: Source, ghost revision: int)
      returns (r: Outcome<UpsertAction>)
      requires Bound() && Intact() && TablesOk(connection.committed) && revision == NextNumber(connection.committed, id)
      requires revision >= 1 && source == Source(ObjectKey(ws, id, revision), sha(content))
      requires !IsCommittedKey(connection.committed, source.objectKey)
      modifies this, connection, store
      ensures left == connection.committed && !deleted && (storedKey.Some? ==> storedKey.value == source.objectKey)
      ensures storedKey.None? ==> store.objects == old(store.objects) && store.touched == old(store.touched)
                                  && left == old(connection.committed)
      ensures r.Value? ==> Answers(old(connection.committed), left, ws, id, source, job, now, r.value)
      ensures r.Value? && r.value.Unchanged? ==> storedKey.None?
      ensures r.Raised? && SameContent(old(connection.committed), ws, id, sha(content)) ==> Broke() && storedKey.None?
      ensures r.Raised? && left != old(connection.committed) ==>
                && connection.ackLost
                && (|| ApiSpec.Store(old(connection.committed), ws, id, source, job, now) == Some(left)
                    || ApiSpec.Replace(old(connection.committed), ws, id, source, job, now) == Some(left))
      ensures r.Raised? ==> Broke() || UpsertRefused(old(connection.committed), ws, id, source, job, now)
      ensures TouchesOnly(source.objectKey) && store.faults >= old(store.faults)
      ensures IsCommittedKey(left, source.objectKey) <==> left != old(connection.committed)
      ensures Intact() <==> !(left != old(connection.committed) && late)
    {
      ghost var t, before := connection.committed, store.objects;
      storedKey, late := None, false;
      connection.Begin();
      r := UpsertBody(ws, id, content, job, now, source, revision);
      UploadLeaves(t, connection.committed, before, store.objects, late, sha, ws, id, revision, source, content, job, now);
      left, leftObjects, deleted := connection.committed, store.objects, false;
    }

    /** The sources are intact unless the delete removes the object of a revision committed by then, or
        that of this call's own committed revision was lost before. */
    method CompensateUpload(stored: Option<string>, others: Others, ghost key: string, ghost lost: bool)
      requires Bound() && Considerate(others, sha) && (stored.Some? ==> stored.value == key)
      requires Intact() <==> !(IsCommittedKey(connection.committed, key) && lost)
      modifies this`left, this`leftObjects, this`deleted
      modifies connection`committed, connection`pending, connection`own, store
      ensures left == old(connection.committed) && store.faults >= old(store.faults)
      ensures connection.committed == left || (stored.Some? && connection.committed == others(left, leftObjects).0)
      ensures TouchesOnly(key) && (stored.None? ==> store.touched == old(store.touched))
      ensures Intact() <==>
              !(IsCommittedKey(connection.committed, key) && deleted) && !(IsCommittedKey(left, key) && lost)
      ensures if stored.None? then store.objects == old(store.objects)
              else key in store.objects ==> store.faults > old(store.faults)
    {
      Compensate(stored, others);
      if stored.Some? {
        IntactUnlessDeleted(left, leftObjects, lost, connection.committed, others(left, leftObjects).1,
                            store.objects, deleted, sha, key);
      }
    }

    /** Stores the object, and remembers first that a failure must remove it. */
    method PutSource(key: string, content: Bytes) returns (r: Outcome<()>)
      modifies this`storedKey, this`late, store
      ensures storedKey == Some(key) && store.touched == old(store.touched) + {key}
      ensures store.faults == old(store.faults) + if r.Raised? then 1 else 0
      ensures forall k | k != key ::
                (k in old(store.objects) <==> k in store.objects)
                && (k in store.objects ==> store.objects[k] == old(store.objects)[k])
      ensures r.Value? ==> if late then key !in store.objects
                           else key in store.objects && store.objects[key] == content
    {
      storedKey := Some(key);
      r := store.Put(key, content);
      LateDelete(key);
    }

    /** The `try` block; `storedKey` is set just before the first put. */
    method UpsertBody(ws: Uuid, id: Uuid, content: Bytes, job: Uuid, now: Time, ghost source: Source, ghost revision: int)
      returns (r: Outcome<UpsertAction>)
      requires Bound() && connection.pending == connection.committed && !connection.ackLost && storedKey.None?
      requires TablesOk(connection.committed)
      requires revision == NextNumber(connection.committed, id)
      requires revision >= 1 && source == Source(ObjectKey(ws, id, revision), sha(content))
      modifies this`storedKey, this`late, connection, store
      ensures storedKey.Some? ==> storedKey.value == source.objectKey
      ensures storedKey.None? ==> store.objects == old(store.objects) && store.touched == old(store.touched)
                                  && connection.committed == old(connection.committed)
      ensures store.touched <= old(store.touched) + {source.objectKey}
      ensures forall k | k != source.objectKey ::
                (k in old(store.objects) <==> k in store.objects)
                && (k in store.objects ==> store.objects[k] == old(store.objects)[k])
      ensures r.Value? ==> Answers(old(connection.committed), connection.committed, ws, id, source, job, now, r.value)
      ensures r.Value? && r.value.Unchanged? ==> storedKey.None?
      ensures r.Raised? && SameContent(old(connection.committed), ws, id, sha(content)) ==> Broke() && storedKey.None?
      ensures r.Value? ==> !connection.ackLost
      ensures r.Raised? ==> Broke() || UpsertRefused(old(connection.committed), ws, id, source, job, now)
      ensures store.faults >= old(store.faults) && connection.faults >= old(connection.faults)
      ensures connection.committed != old(connection.committed) ==>
                && (r.Raised? ==> connection.ackLost)
                && storedKey.Some?
                && (if late then source.objectKey !in store.objects
                    else source.objectKey in store.objects && store.objects[source.objectKey] == content)
                && (|| ApiSpec.Store(old(connection.committed), ws, id, source, job, now) == Some(connection.committed)
                    || ApiSpec.Replace(old(connection.committed), ws, id, source, job, now) == Some(connection.committed))
    {
      if id in connection.committed.documents {
        Readable(connection.committed, id);
        CurrentRevisionIs(connection.committed.documents[id]);
      }
      var existing :- documents.LockForUpsert(ws, id);
      if existing.Some? {
        var d := existing.value;
        if d.revisions[CurrentRevision(d).value].contentHash == sha(content) {
          var _ :- connection.Commit();
          return Value(Unchanged);
        }
        var number :- documents.NextRevision(ws, id);
        var key := ObjectKey(ws, id, number);
        var _ :- PutSource(key, content);
        var _ :- ReplaceAndCommit(ws, id, number, Source(key, sha(content)), job, now);
        return Value(Updated);
      }
      var key := ObjectKey(ws, id, 1);
      var _ :- PutSource(key, content);
      var _ :- InsertAndCommit(ws, id, Source(key, sha(content)), job, now);
      return Value(Created);
    }

    /** The statements of a replacement: revision, status, job, commit. */
    method ReplaceAndCommit(ws: Uuid, id: Uuid, revision: int, source: Source, job: Uuid, now: Time) returns (r: Outcome<()>)
      requires Bound() && connection.pending == connection.committed && !connection.ackLost
      requires id in connection.committed.documents && connection.committed.documents[id].workspace == ws
      requires revision == MaxRevision(connection.committed.documents[id]) + 1
      modifies connection
      ensures
        var replaced := ApiSpec.Replace(old(connection.committed), ws, id, source, job, now);
        && (r.Value? ==> replaced == Some(connection.committed) && !connection.ackLost)
        && (r.Raised? ==> if connection.ackLost then replaced == Some(connection.committed)
                          else connection.committed == old(connection.committed))
        && (r.Raised? ==> connection.faults > old(connection.faults) || replaced == None)
        && connection.faults >= old(connection.faults)
    {
      var _ :- documents.InsertRevision(ws, id, revision, source, now);
      var _ :- documents.TransitionStatus(ws, id, Ready, Updating);
      var _ :- jobs.Create(job, id, revision, IndexDocument, now);
      r := connection.Commit();
    }

    /** Enqueues the deletion of a ready document; repeated calls return the same job or none. */
    method DeleteForIndexing(ws: Uuid, id: Uuid, job: Uuid, now: Time) returns (r: Outcome<Option<Uuid>>)
      requires Bound() && TablesOk(connection.committed)
      modifies connection
      ensures connection.committed == old(connection.committed)
              || ApiSpec.Delete(old(connection.committed), ws, id, job, now) == Some(connection.committed)
      ensures r.Value? && r.value == Some(job) && job !in old(connection.committed).jobs ==>
                ApiSpec.Delete(old(connection.committed), ws, id, job, now) == Some(connection.committed)
      ensures r.Value? && r.value.None? ==>
                connection.committed == old(connection.committed) && id in connection.committed.documents
                && connection.committed.documents[id].status.Deleted?
      ensures r.Value? && r.value.Some? ==>
                && r.value.value in connection.committed.jobs
                && var j := connection.committed.jobs[r.value.value];
                   j.document == id && j.kind.DeleteDocument? && Active(j)
      ensures r.Raised? && connection.committed != old(connection.committed) ==> connection.ackLost
      ensures r.Raised? ==> connection.faults > old(connection.faults)
                            || DeleteRefused(old(connection.committed), ws, id, job, now)
      ensures r.Value? ==> id in old(connection.committed).documents && old(connection.committed).documents[id].workspace == ws
      ensures r.Value? ==>
                || old(connection.committed).documents[id].status.Deleted?
                || old(connection.committed).documents[id].status.Deleting?
                || r.value == Some(job)
    {
      connection.Begin();
      r := DeleteBody(ws, id, job, now);
      if r.Raised? { connection.Rollback(); }
    }

    method DeleteBody(ws: Uuid, id: Uuid, job: Uuid, now: Time) returns (r: Outcome<Option<Uuid>>)
      requires Bound() && TablesOk(connection.committed)
      requires connection.pending == connection.committed && !connection.ackLost
      modifies connection
      ensures r.Value? ==> !connection.ackLost
      ensures r.Value? && r.value == Some(job) && job !in old(connection.committed).jobs ==>
                ApiSpec.Delete(old(connection.committed), ws, id, job, now) == Some(connection.committed)
      ensures r.Value? && r.value.None? ==>
                connection.committed == old(connection.committed) && id in connection.committed.documents
                && connection.committed.documents[id].status.Deleted?
      ensures r.Value? && r.value.Some? ==>
                && r.value.value in connection.committed.jobs
                && var j := connection.committed.jobs[r.value.value];
                   j.document == id && j.kind.DeleteDocument? && Active(j)
      ensures connection.committed == old(connection.committed)
              || (ApiSpec.Delete(old(connection.committed), ws, id, job, now) == Some(connection.committed)
                  && (r.Raised? ==> connection.ackLost))
      ensures r.Raised? ==> connection.faults > old(connection.faults)
                            || DeleteRefused(old(connection.committed), ws, id, job, now)
      ensures r.Value? ==> id in old(connection.committed).documents && old(connection.committed).documents[id].workspace == ws
      ensures r.Value? ==>
                || old(connection.committed).documents[id].status.Deleted?
                || old(connection.committed).documents[id].status.Deleting?
                || r.value == Some(job)
    {
      if id in connection.committed.documents { Readable(connection.committed, id); }
      var found :- documents.LockForUpsert(ws, id);
      if found.None? { return Raised; }
      var d := found.value;
      if d.status.Deleted? {
        var _ :- connection.Commit();
        return Value(None);
      }
      if d.status.Deleting? {
        var existing :- jobs.GetActiveForDocument(id);
        if existing.None? || !connection.pending.jobs[existing.value].kind.DeleteDocument? {
          assert existing.Some? ==> JobOk(connection.committed, connection.committed.jobs[existing.value]);
          return Raised;
        }
        var _ :- connection.Commit();
        return Value(existing);
      }
      if d.active.None? { return Raised; }
      var _ :- documents.TransitionStatus(ws, id, Ready, Deleting);
      var _ :- jobs.Create(job, id, d.active.value, DeleteDocument, now);
      var _ :- connection.Commit();
      return Value(Some(job));
    }
  }

  /** The contract is in force, each document that needed a reindex job has a new one, and none is
      left that needs one. */
  ghost predicate Enqueued(t: Tables, t': Tables, ws: Uuid, c: Contract, ids: map<Uuid, Uuid>, now: Time) {
    && FreshIdsFor(ApiSpec.Reconciled(t, ws, c), ws, ids)
    && t' == ApiSpec.Enqueue(t, ws, c, ids, now)
    && NothingToReindex(t', ws)
  }

  class WorkspaceReindexService {
    const connection: Connection
    const workspaces: WorkspaceRepository
    const jobs: JobRepository
    const contract: Contract

    constructor (connection: Connection, contract: Contract)
      ensures this.connection == connection && this.contract == contract
      ensures workspaces.connection == jobs.connection == connection
    {
      this.connection, this.contract := connection, contract;
      workspaces := new WorkspaceRepository(connection);
      jobs := new JobRepository(connection);
    }

    /** Contract change and reindex jobs commit together or not at all; `newId` gives the primary
        key generated for each document. */
    method Enqueue(ws: Uuid, newId: Uuid -> Uuid, now: Time) returns (r: Outcome<()>, ghost ids: map<Uuid, Uuid>)
      requires workspaces.connection == jobs.connection == connection
      modifies connection
      ensures r.Value? || connection.ackLost ==>
                Enqueued(old(connection.committed), connection.committed, ws, contract, ids, now)
      ensures r.Raised? ==>
                && (connection.ackLost || connection.committed == old(connection.committed))
                && (|| connection.faults > old(connection.faults)
                    || IdsTaken(ApiSpec.Reconciled(old(connection.committed), ws, contract), ws, newId))
    {
      connection.Begin();
      r, ids := EnqueueBody(ws, newId, now);
      if r.Raised? { connection.Rollback(); }
    }

    method EnqueueBody(ws: Uuid, newId: Uuid -> Uuid, now: Time) returns (r: Outcome<()>, ghost ids: map<Uuid, Uuid>)
      requires workspaces.connection == jobs.connection == connection
      requires connection.pending == connection.committed && !connection.ackLost
      modifies connection
      ensures r.Value? || connection.ackLost ==>
                Enqueued(old(connection.committed), connection.committed, ws, contract, ids, now)
      ensures r.Raised? ==>
                && (connection.ackLost || connection.committed == old(connection.committed))
                && (|| connection.faults > old(connection.faults)
                    || IdsTaken(ApiSpec.Reconciled(old(connection.committed), ws, contract), ws, newId))
    {
      r, ids := Statements(ws, newId, now);
      if r.Value? { r := connection.Commit(); }
    }

    method Statements(ws: Uuid, newId: Uuid -> Uuid, now: Time) returns (r: Outcome<()>, ghost ids: map<Uuid, Uuid>)
      requires workspaces.connection == jobs.connection == connection
      modifies connection`pending, connection`own, connection`faults
      ensures r.Value? ==> Enqueued(old(connection.pending), connection.pending, ws, contract, ids, now)
                           && connection.faults == old(connection.faults)
      ensures connection.faults >= old(connection.faults)
      ensures r.Raised? ==> connection.faults > old(connection.faults)
                            || IdsTaken(ApiSpec.Reconciled(old(connection.pending), ws, contract), ws, newId)
    {
      ids := map[];
      var workspace := workspaces.EnsureIndexContract(ws, contract);
      if workspace.Raised? { return Outcome.Raised, ids; }
      var inserted := jobs.CreateWorkspaceReindex(ws, newId, now);
      if inserted.Raised? { return Outcome.Raised, ids; }
      return Value(()), inserted.value;
    }
  }
}
