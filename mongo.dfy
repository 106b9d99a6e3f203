/**
 * The two helpers in backend/server.py that convert documents on their way
 * into and out of MongoDB: `prepare_for_mongo` turns `datetime` values into
 * ISO-8601 strings, `parse_from_mongo` turns the strings stored under
 * `created_at` and `updated_at` back into `datetime` values.
 *
 * `datetime.isoformat` and `datetime.fromisoformat` belong to Python's library;
 * they are the parameters `toIso` and `fromIso` (`None` where `fromisoformat` raises).
 */
module MongoCodec {
  import opened Wrappers
  import opened JsonModel

  /** The two keys whose string values `parse_from_mongo` tries to read as datetimes. */
  predicate IsTimestampKey(k: string) {
    k == "created_at" || k == "updated_at"
  }

  // ---------------------------------------------------------------- prepare

  /** `prepare_for_mongo`: a dict is rebuilt entry by entry; anything else comes back unchanged. */
  function PrepareForMongo(toIso: Timestamp -> string, data: Json): (r: Json)
    decreases data, 0
  {
    match data
    case Obj(fs) =>
      Obj(seq(|fs|, i requires 0 <= i < |fs| => Field(fs[i].key, PrepareValue(toIso, fs[i].value))))
    case _ => data
  }

  /** How `prepare_for_mongo` converts one dict value. */
  function PrepareValue(toIso: Timestamp -> string, v: Json): (r: Json)
    decreases v, 1
  {
    match v
    case DateTime(t) => Str(toIso(t))
    case Obj(_) => PrepareForMongo(toIso, v)
    case Arr(items) =>
      Arr(seq(|items|, k requires 0 <= k < |items| =>
        if items[k].Obj? then PrepareForMongo(toIso, items[k]) else items[k]))
    case _ => v
  }

  // ---------------------------------------------------------------- parse

  /** `parse_from_mongo`: a dict is rebuilt entry by entry; anything else comes back unchanged. */
  function ParseFromMongo(fromIso: string -> Option<Timestamp>, item: Json): (r: Json)
    decreases item, 0
  {
    match item
    case Obj(fs) =>
      Obj(seq(|fs|, i requires 0 <= i < |fs| => Field(fs[i].key, ParseValue(fromIso, fs[i].key, fs[i].value))))
    case _ => item
  }

  /** How `parse_from_mongo` converts the value stored under key `k`. */
  function ParseValue(fromIso: string -> Option<Timestamp>, k: string, v: Json): (r: Json)
    decreases v, 1
  {
    if IsTimestampKey(k) && v.Str? then
      match fromIso(v.s)
      case Some(t) => DateTime(t)
      case None => v
    else
      match v
      case Obj(_) => ParseFromMongo(fromIso, v)
      case Arr(items) =>
        Arr(seq(|items|, k requires 0 <= k < |items| =>
          if items[k].Obj? then ParseFromMongo(fromIso, items[k]) else items[k]))
      case _ => v
  }

  // ---------------------------------------------------------------- what prepare produces

  /** No dict reachable through dicts and lists of dicts holds a `datetime` value: what MongoDB is given. */
  predicate DictsHoldNoDateTime(j: Json)
    decreases j, 0
  {
    match j
    case Obj(fs) => forall i :: 0 <= i < |fs| ==> ValueHoldsNoDateTime(fs[i].value)
    case _ => true
  }

  /** A dict value that is not a `datetime` and, when it is a dict or a list, holds none in its dicts. */
  predicate ValueHoldsNoDateTime(v: Json)
    decreases v, 1
  {
    match v
    case DateTime(_) => false
    case Obj(_) => DictsHoldNoDateTime(v)
    case Arr(items) => forall k :: 0 <= k < |items| && items[k].Obj? ==> DictsHoldNoDateTime(items[k])
    case _ => true
  }

  /**
   * A non-dict comes back unchanged; a dict keeps exactly its keys in their order,
   * entry i holding the i-th value converted, and what comes out has no `datetime`
   * left in any dict.
   */
  lemma {:induction false} PrepareShape(toIso: Timestamp -> string, data: Json)
    ensures !data.Obj? ==> PrepareForMongo(toIso, data) == data
    ensures data.Obj? ==>
      (PrepareForMongo(toIso, data).Obj? && Keys(PrepareForMongo(toIso, data).fields) == Keys(data.fields))
    ensures data.Obj? ==>
      (|PrepareForMongo(toIso, data).fields| == |data.fields| &&
       forall i :: 0 <= i < |data.fields| ==>
         PrepareForMongo(toIso, data).fields[i] == Field(data.fields[i].key, PrepareValue(toIso, data.fields[i].value)))
    ensures DictsHoldNoDateTime(PrepareForMongo(toIso, data))
    decreases data, 0
  {
    if data.Obj? {
      var fs := data.fields;
      var r := PrepareForMongo(toIso, data);
      forall i | 0 <= i < |fs| ensures ValueHoldsNoDateTime(r.fields[i].value) {
        PrepareValueClean(toIso, fs[i].value);
      }
    }
  }

  lemma {:induction false} PrepareValueClean(toIso: Timestamp -> string, v: Json)
    ensures ValueHoldsNoDateTime(PrepareValue(toIso, v))
    decreases v, 1
  {
    match v
    case Obj(_) => PrepareShape(toIso, v);
    case Arr(items) =>
      var r := PrepareValue(toIso, v);
      forall k | 0 <= k < |items| && r.items[k].Obj? ensures DictsHoldNoDateTime(r.items[k]) {
        PrepareShape(toIso, items[k]);
      }
    case _ =>
  }

  /**
   * A `datetime` stored as a dict value becomes its ISO string; every other scalar,
   * a string included, is kept as it is.
   */
  lemma PrepareValueScalars(toIso: Timestamp -> string, v: Json)
    requires !v.Obj? && !v.Arr?
    ensures v.DateTime? ==> PrepareValue(toIso, v) == Str(toIso(v.t))
    ensures !v.DateTime? ==> PrepareValue(toIso, v) == v
  {
  }

  /**
   * A list stored as a dict value keeps its length; its dict elements are prepared and
   * every other element, a nested list or a `datetime` included, is kept as it is.
   */
  lemma PrepareList(toIso: Timestamp -> string, items: seq<Json>)
    ensures PrepareValue(toIso, Arr(items)).Arr?
    ensures |PrepareValue(toIso, Arr(items)).items| == |items|
    ensures forall k :: 0 <= k < |items| ==>
      PrepareValue(toIso, Arr(items)).items[k] ==
        (if items[k].Obj? then PrepareForMongo(toIso, items[k]) else items[k])
  {
  }

  /** A document already free of `datetime` values is not changed by `prepare_for_mongo`. */
  lemma {:induction false} PrepareKeepsClean(toIso: Timestamp -> string, data: Json)
    requires DictsHoldNoDateTime(data)
    ensures PrepareForMongo(toIso, data) == data
    decreases data, 0
  {
    if data.Obj? {
      var fs := data.fields;
      var r := PrepareForMongo(toIso, data);
      forall i | 0 <= i < |fs| ensures r.fields[i] == fs[i] {
        PrepareValueKeepsClean(toIso, fs[i].value);
      }
      assert r.fields == fs;
    }
  }

  lemma {:induction false} PrepareValueKeepsClean(toIso: Timestamp -> string, v: Json)
    requires ValueHoldsNoDateTime(v)
    ensures PrepareValue(toIso, v) == v
    decreases v, 1
  {
    match v
    case Obj(_) => PrepareKeepsClean(toIso, v);
    case Arr(items) =>
      var r := PrepareValue(toIso, v);
      forall k | 0 <= k < |items| ensures r.items[k] == items[k] {
        if items[k].Obj? { PrepareKeepsClean(toIso, items[k]); }
      }
      assert r.items == items;
    case _ =>
  }

  /** Preparing a prepared document changes nothing more. */
  lemma PrepareIdempotent(toIso: Timestamp -> string, data: Json)
    ensures PrepareForMongo(toIso, PrepareForMongo(toIso, data)) == PrepareForMongo(toIso, data)
  {
    PrepareShape(toIso, data);
    PrepareKeepsClean(toIso, PrepareForMongo(toIso, data));
  }

  // ---------------------------------------------------------------- what parse changes

  /**
   * `parse_from_mongo` touches only strings stored under `created_at` or `updated_at`:
   * such a string becomes the datetime it denotes, or stays when it does not parse;
   * every other scalar, a `datetime` included, is kept.
   */
  lemma ParseValueScalars(fromIso: string -> Option<Timestamp>, k: string, v: Json)
    requires !v.Obj? && !v.Arr?
    ensures IsTimestampKey(k) && v.Str? && fromIso(v.s).Some? ==>
      ParseValue(fromIso, k, v) == DateTime(fromIso(v.s).value)
    ensures !(IsTimestampKey(k) && v.Str? && fromIso(v.s).Some?) ==>
      ParseValue(fromIso, k, v) == v
  {
  }

  /**
   * Dicts keep their keys in order under `parse_from_mongo`, each value parsed under its
   * own key; anything else is returned unchanged.
   */
  lemma ParseShape(fromIso: string -> Option<Timestamp>, item: Json)
    ensures !item.Obj? ==> ParseFromMongo(fromIso, item) == item
    ensures item.Obj? ==>
      (ParseFromMongo(fromIso, item).Obj? && Keys(ParseFromMongo(fromIso, item).fields) == Keys(item.fields))
    ensures item.Obj? ==>
      (|ParseFromMongo(fromIso, item).fields| == |item.fields| &&
       forall i :: 0 <= i < |item.fields| ==>
         ParseFromMongo(fromIso, item).fields[i] ==
           Field(item.fields[i].key, ParseValue(fromIso, item.fields[i].key, item.fields[i].value)))
  {
  }

  /**
   * A list stored as a dict value keeps its length under `parse_from_mongo`, whatever its
   * key; its dict elements are parsed and every other element, a nested list or a
   * string included, is kept as it is.
   */
  lemma ParseList(fromIso: string -> Option<Timestamp>, k: string, items: seq<Json>)
    ensures ParseValue(fromIso, k, Arr(items)).Arr?
    ensures |ParseValue(fromIso, k, Arr(items)).items| == |items|
    ensures forall j :: 0 <= j < |items| ==>
      ParseValue(fromIso, k, Arr(items)).items[j] ==
        (if items[j].Obj? then ParseFromMongo(fromIso, items[j]) else items[j])
  {
  }

  // ---------------------------------------------------------------- the store/read round trip

  /**
   * `datetime` values sit only under `created_at` or `updated_at`, and no string there
   * already reads as a datetime: the documents that survive a store and a read unchanged.
   */
  predicate Storable(fromIso: string -> Option<Timestamp>, d: Json)
    decreases d, 0
  {
    match d
    case Obj(fs) => forall i :: 0 <= i < |fs| ==> StorableValue(fromIso, fs[i].key, fs[i].value)
    case _ => true
  }

  predicate StorableValue(fromIso: string -> Option<Timestamp>, k: string, v: Json)
    decreases v, 1
  {
    match v
    case DateTime(_) => IsTimestampKey(k)
    case Str(s) => IsTimestampKey(k) ==> fromIso(s).None?
    case Obj(_) => Storable(fromIso, v)
    case Arr(items) => forall j :: 0 <= j < |items| && items[j].Obj? ==> Storable(fromIso, items[j])
    case _ => true
  }

  /**
   * Reading back what was stored gives the original document, for documents whose
   * datetimes sit only under the timestamp keys, when `fromisoformat` inverts `isoformat`.
   */
  lemma {:induction false} StoreReadRoundTrip(toIso: Timestamp -> string, fromIso: string -> Option<Timestamp>, d: Json)
    requires forall t :: fromIso(toIso(t)) == Some(t)
    requires Storable(fromIso, d)
    ensures ParseFromMongo(fromIso, PrepareForMongo(toIso, d)) == d
    decreases d, 0
  {
    if d.Obj? {
      var fs := d.fields;
      var r := ParseFromMongo(fromIso, PrepareForMongo(toIso, d));
      forall i | 0 <= i < |fs| ensures r.fields[i] == fs[i] {
        StoreReadValueRoundTrip(toIso, fromIso, fs[i].key, fs[i].value);
      }
      assert r.fields == fs;
    }
  }

  lemma {:induction false} StoreReadValueRoundTrip(toIso: Timestamp -> string, fromIso: string -> Option<Timestamp>, k: string, v: Json)
    requires forall t :: fromIso(toIso(t)) == Some(t)
    requires StorableValue(fromIso, k, v)
    ensures ParseValue(fromIso, k, PrepareValue(toIso, v)) == v
    decreases v, 1
  {
    match v
    case DateTime(t) =>
      assert fromIso(toIso(t)) == Some(t);
    case Obj(_) =>
      PrepareShape(toIso, v);
      StoreReadRoundTrip(toIso, fromIso, v);
    case Arr(items) =>
      var p := PrepareValue(toIso, v);
      var r := ParseValue(fromIso, k, p);
      forall j | 0 <= j < |items| ensures r.items[j] == items[j] {
        if items[j].Obj? {
          PrepareShape(toIso, items[j]);
          StoreReadRoundTrip(toIso, fromIso, items[j]);
        }
      }
      assert r.items == items;
    case _ =>
  }

  /** A `datetime` under any other key comes back as its ISO string: the round trip needs its condition. */
  lemma DateTimeElsewhereStaysString(toIso: Timestamp -> string, fromIso: string -> Option<Timestamp>, k: string, t: Timestamp)
    requires !IsTimestampKey(k)
    ensures ParseFromMongo(fromIso, PrepareForMongo(toIso, Obj([Field(k, DateTime(t))])))
      == Obj([Field(k, Str(toIso(t)))])
  {
    var p := PrepareForMongo(toIso, Obj([Field(k, DateTime(t))]));
    assert p == Obj([Field(k, Str(toIso(t)))]);
  }
}
