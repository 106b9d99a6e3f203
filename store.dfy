/**
 * The animation records of backend/server.py as they travel through MongoDB:
 * the record `create_animation` builds and stores, and the merge that
 * `update_animation` sends as a `$set`. The collection is a map from the
 * record's `id` to the stored document.
 */
module AnimationStore {
  import opened Wrappers
  import opened JsonModel
  import opened MongoCodec

  /** The stored documents, by `id`. */
  type Collection = map<string, seq<Field>>

  /** The value stored under `k`: that of the first entry with this key. */
  function Lookup(fs: seq<Field>, k: string): Option<Json>
  {
    if fs == [] then None
    else if fs[0].key == k then Some(fs[0].value)
    else Lookup(fs[1..], k)
  }

  /** A key reads a value exactly when the dict has it. */
  lemma {:induction false} LookupFound(fs: seq<Field>, k: string)
    ensures Lookup(fs, k).Some? <==> k in Keys(fs)
  {
    if fs != [] {
      assert Keys(fs) == [fs[0].key] + Keys(fs[1..]);
      LookupFound(fs[1..], k);
    }
  }

  /** No key occurs twice, as in a Python dict or a MongoDB document. */
  predicate UniqueKeys(fs: seq<Field>) {
    forall i, j :: 0 <= i < j < |fs| ==> fs[i].key != fs[j].key
  }

  // ---------------------------------------------------------------- create

  /** The body of POST /api/animations. */
  datatype AnimationCreate = AnimationCreate(name: string, url: string, animationData: seq<Field>)

  /**
   * `Animation(**animation.dict())` as a dict: a fresh `id`, no thumbnail or settings,
   * and two separate readings of the clock for `created_at` and `updated_at`.
   */
  function NewAnimation(req: AnimationCreate, id: string, createdAt: Timestamp, updatedAt: Timestamp): seq<Field>
  {
    [ Field("id", Str(id)), Field("name", Str(req.name)), Field("url", Str(req.url)),
      Field("animationData", Obj(req.animationData)), Field("thumbnail", Null), Field("settings", Null),
      Field("created_at", DateTime(createdAt)), Field("updated_at", DateTime(updatedAt)) ]
  }

  /**
   * What `get_animations` reads back is what `create_animation` built, provided the
   * Lottie document itself holds no `datetime` and no ISO string under a timestamp key.
   */
  lemma CreateThenRead(toIso: Timestamp -> string, fromIso: string -> Option<Timestamp>,
                       req: AnimationCreate, id: string, createdAt: Timestamp, updatedAt: Timestamp)
    requires forall t :: fromIso(toIso(t)) == Some(t)
    requires Storable(fromIso, Obj(req.animationData))
    ensures ParseFromMongo(fromIso, PrepareForMongo(toIso, Obj(NewAnimation(req, id, createdAt, updatedAt))))
      == Obj(NewAnimation(req, id, createdAt, updatedAt))
  {
    var fs := NewAnimation(req, id, createdAt, updatedAt);
    assert StorableValue(fromIso, fs[3].key, fs[3].value);
    assert Storable(fromIso, Obj(fs));
    StoreReadRoundTrip(toIso, fromIso, Obj(fs));
  }

  // ---------------------------------------------------------------- update

  /** The body of PUT /api/animations/{id}: every field optional. */
  datatype AnimationUpdate = AnimationUpdate(name: Option<string>, animationData: Option<seq<Field>>, settings: Option<seq<Field>>)

  /** The fields of `update_data` that are not `None`, in declaration order, then `updated_at`. */
  function UpdateDict(u: AnimationUpdate, now: Timestamp): seq<Field>
  {
    IfSet("name", if u.name.Some? then Some(Str(u.name.value)) else None)
    + (IfSet("animationData", if u.animationData.Some? then Some(Obj(u.animationData.value)) else None)
    + (IfSet("settings", if u.settings.Some? then Some(Obj(u.settings.value)) else None)
    + [Field("updated_at", DateTime(now))]))
  }

  /** The entry for an optional field, kept only when it is not `None`. */
  function IfSet(k: string, v: Option<Json>): seq<Field> {
    if v.Some? then [Field(k, v.value)] else []
  }

  /** The keys of the update: the fields the request set, in declaration order, then `updated_at`. */
  function UpdateKeys(u: AnimationUpdate): seq<string> {
    (if u.name.Some? then ["name"] else [])
    + (if u.animationData.Some? then ["animationData"] else [])
    + (if u.settings.Some? then ["settings"] else [])
    + ["updated_at"]
  }

  /** Looking up a key in a dict that starts with `f`. */
  lemma LookupCons(f: Field, rest: seq<Field>, k: string)
    ensures Lookup([f] + rest, k) == if f.key == k then Some(f.value) else Lookup(rest, k)
  {
    assert ([f] + rest)[1..] == rest;
  }

  /** The update holds exactly the fields the request set, then `updated_at`, each key once. */
  lemma UpdateDictKeys(u: AnimationUpdate, now: Timestamp)
    ensures Keys(UpdateDict(u, now)) == UpdateKeys(u)
    ensures UniqueKeys(UpdateDict(u, now))
  {
    var d := UpdateDict(u, now);
    var ks := UpdateKeys(u);
    assert Keys(d) == ks;
    forall i, j | 0 <= i < j < |d| ensures d[i].key != d[j].key {
      assert Keys(d)[i] == ks[i] && Keys(d)[j] == ks[j];
    }
  }

  /** The optional value the request gives for `name`, `animationData` and `settings`. */
  function Requested(u: AnimationUpdate, k: string): Option<Json> {
    if k == "name" && u.name.Some? then Some(Str(u.name.value))
    else if k == "animationData" && u.animationData.Some? then Some(Obj(u.animationData.value))
    else if k == "settings" && u.settings.Some? then Some(Obj(u.settings.value))
    else None
  }

  /** Each field the request set carries the requested value, `updated_at` the current instant, and no other key is present. */
  lemma UpdateDictValues(u: AnimationUpdate, now: Timestamp, k: string)
    ensures Lookup(UpdateDict(u, now), k) ==
      if k == "updated_at" then Some(DateTime(now)) else Requested(u, k)
  {
    var na := if u.name.Some? then Some(Str(u.name.value)) else None;
    var ad := if u.animationData.Some? then Some(Obj(u.animationData.value)) else None;
    var st := if u.settings.Some? then Some(Obj(u.settings.value)) else None;
    var a, b, c := IfSet("name", na), IfSet("animationData", ad), IfSet("settings", st);
    var d: seq<Field> := [Field("updated_at", DateTime(now))];
    LookupConcat(a, b + (c + d), k);
    LookupConcat(b, c + d, k);
    LookupConcat(c, d, k);
    LookupIfSet("name", na, k);
    LookupIfSet("animationData", ad, k);
    LookupIfSet("settings", st, k);
    LookupCons(Field("updated_at", DateTime(now)), [], k);
    assert [Field("updated_at", DateTime(now))] + [] == d;
  }

  /** An optional single entry holds the value under its key and nothing else. */
  lemma LookupIfSet(k: string, v: Option<Json>, q: string)
    ensures Lookup(IfSet(k, v), q) == if k == q then v else None
  {
    if v.Some? { assert IfSet(k, v)[1..] == []; }
  }

  /** A key reads from the first part of a concatenation that holds it. */
  lemma {:induction false} LookupConcat(a: seq<Field>, b: seq<Field>, k: string)
    ensures Lookup(a + b, k) == if Lookup(a, k).Some? then Lookup(a, k) else Lookup(b, k)
  {
    if a == [] {
      assert a + b == b;
    } else {
      assert (a + b)[1..] == a[1..] + b;
      LookupConcat(a[1..], b, k);
    }
  }

  /** Entries with `f`'s key take `f`'s value, in place. */
  function Replace(doc: seq<Field>, f: Field): (r: seq<Field>)
    ensures Keys(r) == Keys(doc)
  {
    if doc == [] then []
    else
      var r := [if doc[0].key == f.key then f else doc[0]] + Replace(doc[1..], f);
      assert Keys(doc) == [doc[0].key] + Keys(doc[1..]);
      assert Keys(r) == [r[0].key] + Keys(r[1..]);
      r
  }

  /** MongoDB's `$set` of one field: overwrite it where it is, or append it. */
  function SetField(doc: seq<Field>, f: Field): seq<Field>
  {
    if f.key in Keys(doc) then Replace(doc, f) else doc + [f]
  }

  /** `$set` of several fields, one after the other. */
  function SetFields(doc: seq<Field>, upd: seq<Field>): seq<Field>
    decreases |upd|
  {
    if upd == [] then doc else SetFields(SetField(doc, upd[0]), upd[1..])
  }

  lemma {:induction false} LookupReplace(doc: seq<Field>, f: Field, k: string)
    ensures Lookup(Replace(doc, f), k) ==
      if k == f.key && k in Keys(doc) then Some(f.value) else Lookup(doc, k)
  {
    if doc != [] {
      assert Keys(doc) == [doc[0].key] + Keys(doc[1..]);
      LookupReplace(doc[1..], f, k);
      LookupFound(doc[1..], k);
    }
  }

  lemma {:induction false} LookupAppend(doc: seq<Field>, f: Field, k: string)
    ensures Lookup(doc + [f], k) == if Lookup(doc, k).Some? then Lookup(doc, k) else if k == f.key then Some(f.value) else None
  {
    if doc == [] {
      assert doc + [f] == [f];
    } else {
      assert (doc + [f])[1..] == doc[1..] + [f];
      LookupAppend(doc[1..], f, k);
    }
  }

  /** After `$set` of one field, that key reads the new value and every other key reads as before. */
  lemma LookupSetField(doc: seq<Field>, f: Field, k: string)
    ensures Lookup(SetField(doc, f), k) == if k == f.key then Some(f.value) else Lookup(doc, k)
  {
    LookupFound(doc, k);
    if f.key in Keys(doc) { LookupReplace(doc, f, k); } else { LookupAppend(doc, f, k); }
  }

  /** After `$set`, the keys it names read its values and every other key of the document is untouched. */
  lemma {:induction false} LookupSetFields(doc: seq<Field>, upd: seq<Field>, k: string)
    requires UniqueKeys(upd)
    ensures Lookup(SetFields(doc, upd), k) == if Lookup(upd, k).Some? then Lookup(upd, k) else Lookup(doc, k)
    decreases |upd|
  {
    if upd != [] {
      var rest := upd[1..];
      assert Keys(upd) == [upd[0].key] + Keys(rest);
      assert UniqueKeys(rest) by {
        forall i, j | 0 <= i < j < |rest| ensures rest[i].key != rest[j].key {
          assert rest[i] == upd[i + 1] && rest[j] == upd[j + 1];
        }
      }
      LookupSetFields(SetField(doc, upd[0]), rest, k);
      LookupSetField(doc, upd[0], k);
      LookupFound(rest, k);
      if k == upd[0].key {
        assert k !in Keys(rest) by {
          forall i | 0 <= i < |rest| ensures Keys(rest)[i] != k {
            assert rest[i] == upd[i + 1];
          }
        }
      }
    }
  }

  /**
   * What `update_animation` answers: the record read back, 404 for an unknown id, or
   * 500 when the record read back does not validate as an `Animation`. The `$set` has
   * been applied by then, so a 500 still carries the updated collection.
   */
  datatype UpdateOutcome =
    | Updated(collection: Collection, animation: Json)
    | NotFound
    | ServerError(collection: Collection)

  /** `update_dict` after `prepare_for_mongo`: what the `$set` carries. */
  function PreparedUpdate(u: AnimationUpdate, now: Timestamp, toIso: Timestamp -> string): seq<Field> {
    PrepareForMongo(toIso, Obj(UpdateDict(u, now))).fields
  }

  /**
   * `update_animation`: 404 for an unknown id; otherwise the prepared update is `$set`
   * on the stored document and the stored result is read back through `parse_from_mongo`
   * and `Animation(**...)`. `validates` is whether that model accepts the record read
   * back; a rejection raises inside the `try` and is answered with 500.
   */
  function UpdateAnimation(db: Collection, id: string, u: AnimationUpdate, now: Timestamp,
                           toIso: Timestamp -> string, fromIso: string -> Option<Timestamp>,
                           validates: Json -> bool): (r: UpdateOutcome)
    ensures r.NotFound? <==> id !in db
    ensures !r.NotFound? ==>
      (r.collection.Keys == db.Keys && forall other :: other in db && other != id ==> r.collection[other] == db[other])
    ensures r.Updated? ==>
      (r.animation == ParseFromMongo(fromIso, Obj(r.collection[id])) && validates(r.animation))
    ensures r.ServerError? <==> id in db && !validates(ParseFromMongo(fromIso, Obj(r.collection[id])))
  {
    if id !in db then NotFound
    else
      var stored := SetFields(db[id], PreparedUpdate(u, now, toIso));
      var readBack := ParseFromMongo(fromIso, Obj(stored));
      if validates(readBack) then Updated(db[id := stored], readBack)
      else ServerError(db[id := stored])
  }

  /**
   * After an update, a key the request set reads its prepared value, `updated_at` reads
   * the ISO string of the instant, and every other stored field is as it was; this holds
   * whether or not the record read back validates.
   */
  lemma UpdateStores(db: Collection, id: string, u: AnimationUpdate, now: Timestamp,
                     toIso: Timestamp -> string, fromIso: string -> Option<Timestamp>,
                     validates: Json -> bool, k: string)
    requires id in db
    ensures Lookup(UpdateDict(u, now), k).Some? ==>
      Lookup(UpdateAnimation(db, id, u, now, toIso, fromIso, validates).collection[id], k)
        == Some(PrepareValue(toIso, Lookup(UpdateDict(u, now), k).value))
    ensures Lookup(UpdateDict(u, now), k).None? ==>
      Lookup(UpdateAnimation(db, id, u, now, toIso, fromIso, validates).collection[id], k) == Lookup(db[id], k)
  {
    var d := UpdateDict(u, now);
    UpdateDictKeys(u, now);
    var setDoc := PreparedUpdate(u, now, toIso);
    PrepareShape(toIso, Obj(d));
    assert Keys(setDoc) == Keys(d);
    assert UniqueKeys(setDoc) by {
      forall i, j | 0 <= i < j < |setDoc| ensures setDoc[i].key != setDoc[j].key {
        assert Keys(setDoc)[i] == Keys(d)[i] && Keys(setDoc)[j] == Keys(d)[j];
      }
    }
    LookupSetFields(db[id], setDoc, k);
    LookupPrepared(toIso, d, k);
  }

  /** The `$set` is applied before the record is validated: a 500 leaves the same collection as a success. */
  lemma UpdateWritesBeforeValidating(db: Collection, id: string, u: AnimationUpdate, now: Timestamp,
                                     toIso: Timestamp -> string, fromIso: string -> Option<Timestamp>,
                                     validates: Json -> bool, accepts: Json -> bool)
    requires id in db
    ensures UpdateAnimation(db, id, u, now, toIso, fromIso, validates).collection
      == UpdateAnimation(db, id, u, now, toIso, fromIso, accepts).collection
  {
  }

  /** The stored `updated_at` is the ISO string of the update's instant. */
  lemma UpdateStoresTimestamp(db: Collection, id: string, u: AnimationUpdate, now: Timestamp,
                              toIso: Timestamp -> string, fromIso: string -> Option<Timestamp>,
                              validates: Json -> bool)
    requires id in db
    ensures Lookup(UpdateAnimation(db, id, u, now, toIso, fromIso, validates).collection[id], "updated_at")
      == Some(Str(toIso(now)))
  {
    UpdateDictValues(u, now, "updated_at");
    UpdateStores(db, id, u, now, toIso, fromIso, validates, "updated_at");
  }

  /** Preparing a dict prepares the value each key reads. */
  lemma {:induction false} LookupPrepared(toIso: Timestamp -> string, fs: seq<Field>, k: string)
    ensures Lookup(PrepareForMongo(toIso, Obj(fs)).fields, k) ==
      match Lookup(fs, k) case Some(v) => Some(PrepareValue(toIso, v)) case None => None
  {
    if fs != [] {
      var p := PrepareForMongo(toIso, Obj(fs)).fields;
      assert p[1..] == PrepareForMongo(toIso, Obj(fs[1..])).fields;
      LookupPrepared(toIso, fs[1..], k);
    }
  }

  /** Read back after an update, `updated_at` is the update's own instant, when `fromisoformat` inverts `isoformat`. */
  lemma UpdateReadsBackTimestamp(db: Collection, id: string, u: AnimationUpdate, now: Timestamp,
                                 toIso: Timestamp -> string, fromIso: string -> Option<Timestamp>,
                                 validates: Json -> bool)
    requires forall t :: fromIso(toIso(t)) == Some(t)
    requires id in db
    ensures UpdateAnimation(db, id, u, now, toIso, fromIso, validates).Updated? ==>
      Lookup(UpdateAnimation(db, id, u, now, toIso, fromIso, validates).animation.fields, "updated_at")
        == Some(DateTime(now))
  {
    var stored := UpdateAnimation(db, id, u, now, toIso, fromIso, validates).collection[id];
    UpdateStoresTimestamp(db, id, u, now, toIso, fromIso, validates);
    LookupParsed(fromIso, stored, "updated_at");
    assert fromIso(toIso(now)) == Some(now);
  }

  /** Parsing a dict parses the value each key reads. */
  lemma {:induction false} LookupParsed(fromIso: string -> Option<Timestamp>, fs: seq<Field>, k: string)
    ensures Lookup(ParseFromMongo(fromIso, Obj(fs)).fields, k) ==
      match Lookup(fs, k) case Some(v) => Some(ParseValue(fromIso, k, v)) case None => None
  {
    if fs != [] {
      var p := ParseFromMongo(fromIso, Obj(fs)).fields;
      assert p[1..] == ParseFromMongo(fromIso, Obj(fs[1..])).fields;
      LookupParsed(fromIso, fs[1..], k);
    }
  }
}
