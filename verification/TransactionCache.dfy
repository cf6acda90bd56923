/** The cached form of a transaction: strict JSON, validated on the way out and on the way in. */
module CacheFormat {
  import opened Domain

  /** What `JSON.parse` makes of a text. */
  datatype Json =
    | JNull
    | JBool(flag: bool)
    | JNumber(number: real)
    | JString(text: Text)
    | JArray(items: seq<Json>)
    | JObject(fields: map<string, Json>)

  /** What a GET may find under a key. */
  datatype Stored = NotText | NotJson | Parsed(json: Json)

  /** The runtime's renderings of ids and instants; `readDate` also says which texts pass `datetime()`. */
  datatype Runtime = Runtime(
    showId: Id -> Text,
    isUuid: Text -> bool,
    showDate: int -> Text,
    readDate: Text -> Option<int>)

  const FIELDS: set<string> :=
    {"id", "amount", "currency", "description", "providerTransactionId", "status", "createdAt"}

  const APPROVED: Text := [0x61, 0x70, 0x70, 0x72, 0x6F, 0x76, 0x65, 0x64]

  predicate Length(t: Text, low: nat, high: nat) {
    low <= |t| <= high
  }

  predicate ThreeCapitals(t: Text) {
    |t| == 3 && forall i :: 0 <= i < 3 ==> 0x41 <= t[i] <= 0x5A
  }

  /** The transactions the schema lets through. */
  predicate Encodable(rt: Runtime, tx: Transaction) {
    && rt.isUuid(rt.showId(tx.id))
    && 1 <= tx.amount <= MAX_SAFE_INTEGER
    && ThreeCapitals(tx.currency)
    && Length(tx.description, 1, 200)
    && Length(tx.providerTransactionId, 1, 200)
    && rt.readDate(rt.showDate(tx.createdAt)) == Some(tx.createdAt)
  }

  function Encode(rt: Runtime, tx: Transaction): Json {
    JObject(map[
      "id" := JString(rt.showId(tx.id)),
      "amount" := JNumber(tx.amount as real),
      "currency" := JString(tx.currency),
      "description" := JString(tx.description),
      "providerTransactionId" := JString(tx.providerTransactionId),
      "status" := JString(APPROVED),
      "createdAt" := JString(rt.showDate(tx.createdAt))])
  }

  function TextAt(fields: map<string, Json>, name: string): Option<Text> {
    if name in fields && fields[name].JString? then Some(fields[name].text) else None
  }

  /** A positive safe integer. */
  function AmountAt(fields: map<string, Json>): Option<int> {
    if "amount" in fields && fields["amount"].JNumber?
       && (fields["amount"].number.Floor as real) == fields["amount"].number
       && 1 <= fields["amount"].number.Floor <= MAX_SAFE_INTEGER
    then Some(fields["amount"].number.Floor) else None
  }

  /** Parse, validate strictly, compare the id, and rebuild the date; `None` for an invalid entry. */
  function Decode(rt: Runtime, stored: Stored, id: Id): Option<Transaction> {
    if !stored.Parsed? || !stored.json.JObject? || stored.json.fields.Keys != FIELDS then None
    else
      var f := stored.json.fields;
      var idText, amount := TextAt(f, "id"), AmountAt(f);
      var currency, description := TextAt(f, "currency"), TextAt(f, "description");
      var providerId, status := TextAt(f, "providerTransactionId"), TextAt(f, "status");
      var created := TextAt(f, "createdAt");
      if idText.Some? && rt.isUuid(idText.value) && amount.Some?
         && currency.Some? && ThreeCapitals(currency.value)
         && description.Some? && Length(description.value, 1, 200)
         && providerId.Some? && Length(providerId.value, 1, 200)
         && status == Some(APPROVED)
         && created.Some? && rt.readDate(created.value).Some?
         && idText.value == rt.showId(id)
      then Some(Transaction(id, amount.value, currency.value, description.value, providerId.value,
                            rt.readDate(created.value).value))
      else None
  }

  /** Reading back what was written gives the transaction, under its own id and no other. */
  lemma DecodeInvertsEncode(rt: Runtime, tx: Transaction, id: Id)
    requires Encodable(rt, tx)
    requires rt.showId(id) == rt.showId(tx.id) ==> id == tx.id
    ensures Decode(rt, Parsed(Encode(rt, tx)), id) == if id == tx.id then Some(tx) else None
  {
    var f := Encode(rt, tx).fields;
    assert f.Keys == FIELDS;
    assert (tx.amount as real).Floor == tx.amount;
  }

  /** The seven fields of an entry, by name, as they have to be for this transaction. */
  predicate Describes(rt: Runtime, f: map<string, Json>, tx: Transaction) {
    && f.Keys == {"id", "amount", "currency", "description", "providerTransactionId", "status", "createdAt"}
    && f["id"] == JString(rt.showId(tx.id)) && rt.isUuid(rt.showId(tx.id))
    && f["amount"] == JNumber(tx.amount as real) && 1 <= tx.amount <= 9007199254740991
    && f["currency"] == JString(tx.currency) && |tx.currency| == 3
    && (forall i :: 0 <= i < 3 ==> 0x41 <= tx.currency[i] <= 0x5A)
    && f["description"] == JString(tx.description) && 1 <= |tx.description| <= 200
    && f["providerTransactionId"] == JString(tx.providerTransactionId) && 1 <= |tx.providerTransactionId| <= 200
    && f["status"] == JString(APPROVED)
    && f["createdAt"].JString? && rt.readDate(f["createdAt"].text) == Some(tx.createdAt)
  }

  /** An entry is read as a transaction exactly if its fields describe it, under the id it was asked for. */
  lemma DecodesExactly(rt: Runtime, stored: Stored, id: Id, tx: Transaction)
    ensures Decode(rt, stored, id) == Some(tx) <==>
      tx.id == id && stored.Parsed? && stored.json.JObject? && Describes(rt, stored.json.fields, tx)
  {
    if stored.Parsed? && stored.json.JObject? && Describes(rt, stored.json.fields, tx) {
      assert (tx.amount as real).Floor == tx.amount;
    }
  }

  /** What is written describes the transaction, with its date as the runtime shows it. */
  lemma EncodesExactly(rt: Runtime, tx: Transaction)
    ensures Encodable(rt, tx) <==> Encode(rt, tx).JObject? && Describes(rt, Encode(rt, tx).fields, tx)
    ensures Encode(rt, tx).JObject? && "createdAt" in Encode(rt, tx).fields
      && Encode(rt, tx).fields["createdAt"] == JString(rt.showDate(tx.createdAt))
  {
    assert Encode(rt, tx).fields.Keys == FIELDS;
  }
}

/** A cache-aside read, with everything that can happen to cache and table around it. */
module CacheAside {
  import opened Domain
  import opened CacheFormat

  datatype Slot = Slot(value: Stored, expireAt: int)

  datatype World = World(now: int, rows: map<Id, Transaction>, cache: map<Id, Slot>)

  /** What others do: completions, other readers' fills, evictions, deletions, and rubbish. */
  datatype Event =
    | Passes(ms: nat)
    | Stores(transaction: Transaction)
    | Fills(id: Id, expireAt: int)
    | Evicts(id: Id)
    | Corrupts(id: Id, value: Stored, expireAt: int)

  /** Ids are fresh, a fill comes from the table, and rubbish does not pass the schema. */
  predicate Allowed(rt: Runtime, w: World, e: Event) {
    match e
    case Passes(_) => true
    case Stores(tx) => tx.id !in w.rows
    case Fills(id, _) => id in w.rows && Encodable(rt, w.rows[id])
    case Evicts(_) => true
    case Corrupts(id, value, _) => Decode(rt, value, id).None?
  }

  /** What cannot happen changes nothing. */
  function After(rt: Runtime, w: World, e: Event): World {
    if !Allowed(rt, w, e) then w
    else match e
    case Passes(ms) => w.(now := w.now + ms)
    case Stores(tx) => w.(rows := w.rows[tx.id := tx])
    case Fills(id, expireAt) => w.(cache := w.cache[id := Slot(Parsed(Encode(rt, w.rows[id])), expireAt)])
    case Evicts(id) => w.(cache := w.cache - {id})
    case Corrupts(id, value, expireAt) => w.(cache := w.cache[id := Slot(value, expireAt)])
  }

  function AfterAll(rt: Runtime, w: World, es: seq<Event>): World
    decreases |es|
  {
    if es == [] then w else AfterAll(rt, After(rt, w, es[0]), es[1..])
  }

  /** Ids have different renderings. */
  ghost predicate Injective(rt: Runtime) {
    forall i, j :: rt.showId(i) == rt.showId(j) ==> i == j
  }

  predicate SlotOk(rt: Runtime, w: World, id: Id)
    requires id in w.cache
  {
    var decoded := Decode(rt, w.cache[id].value, id);
    decoded.Some? ==> id in w.rows && w.rows[id] == decoded.value
  }

  /** Every valid entry equals the stored row. */
  ghost predicate CacheOk(rt: Runtime, w: World) {
    && (forall id :: id in w.rows ==> w.rows[id].id == id)
    && (forall id :: id in w.cache ==> SlotOk(rt, w, id))
  }

  /** Rows are only ever added. */
  ghost predicate RowsGrow(w: World, v: World) {
    forall id :: id in w.rows ==> id in v.rows && v.rows[id] == w.rows[id]
  }

  lemma EventKeepsCache(rt: Runtime, w: World, e: Event)
    requires Injective(rt) && CacheOk(rt, w)
    ensures CacheOk(rt, After(rt, w, e)) && RowsGrow(w, After(rt, w, e))
  {
    var v := After(rt, w, e);
    if e.Fills? && Allowed(rt, w, e) {
      DecodeInvertsEncode(rt, w.rows[e.id], e.id);
    }
    forall id | id in v.cache
      ensures SlotOk(rt, v, id)
    {
      if id in w.cache {
        assert SlotOk(rt, w, id);
      }
    }
  }

  lemma {:induction false} EventsKeepCache(rt: Runtime, w: World, es: seq<Event>)
    requires Injective(rt) && CacheOk(rt, w)
    ensures CacheOk(rt, AfterAll(rt, w, es)) && RowsGrow(w, AfterAll(rt, w, es))
    decreases |es|
  {
    if es != [] {
      EventKeepsCache(rt, w, es[0]);
      EventsKeepCache(rt, After(rt, w, es[0]), es[1..]);
    }
  }

  lemma DeletionKeepsCache(rt: Runtime, w: World, v: World, id: Id)
    requires CacheOk(rt, w) && v.rows == w.rows && (v.cache == w.cache || v.cache == w.cache - {id})
    ensures CacheOk(rt, v)
  {
    forall other | other in v.cache
      ensures SlotOk(rt, v, other)
    {
      assert SlotOk(rt, w, other);
    }
  }

  /** Whatever a miss did, with others in between, the cache is still right. */
  lemma MissKeepsCache(rt: Runtime, w: World, v: World, es: seq<Event>, id: Id)
    requires Injective(rt) && CacheOk(rt, w)
    requires v == w || v == AfterAll(rt, w, es)
      || v == AfterAll(rt, w, es).(cache := AfterAll(rt, w, es).cache - {id})
    ensures CacheOk(rt, v) && RowsGrow(w, v)
  {
    EventsKeepCache(rt, w, es);
    if v != w {
      DeletionKeepsCache(rt, AfterAll(rt, w, es), v, id);
    }
  }

  lemma FillKeepsCache(rt: Runtime, w: World, v: World, tx: Transaction)
    requires Injective(rt) && CacheOk(rt, w) && v.rows == w.rows
    requires tx.id in w.rows && w.rows[tx.id] == tx
    requires v.cache == w.cache || (Encodable(rt, tx) && v.cache.Keys == w.cache.Keys + {tx.id}
      && v.cache[tx.id].value == Parsed(Encode(rt, tx))
      && forall id :: id in w.cache && id != tx.id ==> v.cache[id] == w.cache[id])
    ensures CacheOk(rt, v)
  {
    forall id | id in v.cache
      ensures SlotOk(rt, v, id)
    {
      if id in w.cache && v.cache[id] == w.cache[id] {
        assert SlotOk(rt, w, id);
      } else {
        DecodeInvertsEncode(rt, tx, id);
      }
    }
  }

  function DirectRead(w: World, id: Id): Option<Transaction> {
    if id in w.rows then Some(w.rows[id]) else None
  }

  /** What the GET and the schema together deliver, when the GET gets through. */
  function Hit(rt: Runtime, w: World, id: Id): Option<Transaction> {
    if id in w.cache && w.now < w.cache[id].expireAt then Decode(rt, w.cache[id].value, id) else None
  }

  /** A hit is a live entry that describes the transaction; at its expiry it is none. */
  lemma HitsExactly(rt: Runtime, w: World, id: Id, tx: Transaction)
    ensures Hit(rt, w, id) == Some(tx) <==>
      && id in w.cache && w.now < w.cache[id].expireAt && tx.id == id
      && w.cache[id].value.Parsed? && w.cache[id].value.json.JObject?
      && Describes(rt, w.cache[id].value.json.fields, tx)
  {
    if id in w.cache {
      DecodesExactly(rt, w.cache[id].value, id, tx);
    }
  }

  /** The GET delivers something that is no valid entry. */
  predicate Invalid(rt: Runtime, w: World, id: Id) {
    id in w.cache && w.now < w.cache[id].expireAt && Decode(rt, w.cache[id].value, id).None?
  }

  /** Which cache commands of one read fail; a failed SET or DEL may have been carried out all the same. */
  datatype Faults = Faults(getFails: bool, delRuns: bool, setRuns: bool)

  /** The cache refuses to be built with any other time to live. */
  type Duration = k: int | k >= 1 witness 1

  class GetTransaction {
    const rt: Runtime
    const ttlMs: Duration
    var now: int
    var rows: map<Id, Transaction>
    var cache: map<Id, Slot>

    ghost function Model(): World
      reads this
    {
      World(now, rows, cache)
    }

    constructor (rt: Runtime, ttlSeconds: Duration)
      ensures this.rt == rt && ttlMs == 1000 * ttlSeconds && Model() == World(0, map[], map[])
    {
      this.rt, this.ttlMs := rt, 1000 * ttlSeconds;
      now, rows, cache := 0, map[], map[];
    }

    /** The rest of the world, between two of our commands. */
    method Interfere(es: seq<Event>)
      modifies this
      ensures Model() == AfterAll(rt, old(Model()), es)
    {
      var w := World(now, rows, cache);
      for i := 0 to |es|
        invariant AfterAll(rt, w, es[i..]) == AfterAll(rt, old(Model()), es)
      {
        assert es[i..][1..] == es[i + 1..];
        w := After(rt, w, es[i]);
      }
      now, rows, cache := w.now, w.rows, w.cache;
    }

    /** The repository's read. */
    method FindById(id: Id) returns (transaction: Option<Transaction>)
      ensures transaction == DirectRead(Model(), id)
    {
      transaction := if id in rows then Some(rows[id]) else None;
    }

    /**
     * `RedisTransactionCache.get`: a hit, a miss, or (for an error of any kind) nothing. An invalid
     * entry is deleted by a second command, and `between` is what others do before it: it may hit
     * whatever they put in its place.
     */
    method CacheGet(id: Id, between: seq<Event>, faults: Faults) returns (cached: Option<Transaction>)
      modifies this
      ensures cached == if faults.getFails then None else Hit(rt, old(Model()), id)
      ensures var w := old(Model());
        if faults.getFails || !Invalid(rt, w, id) then Model() == w
        else
          var later := AfterAll(rt, w, between);
          Model() == if faults.delRuns then later.(cache := later.cache - {id}) else later
    {
      if faults.getFails || id !in cache || now >= cache[id].expireAt {
        return None;
      }
      cached := Decode(rt, cache[id].value, id);
      if cached.None? {
        Interfere(between);
        if faults.delRuns {
          cache := cache - {id};
        }
      }
    }

    /** `RedisTransactionCache.set`: transactions outside the schema are not written. */
    method CacheSet(transaction: Transaction, faults: Faults)
      modifies this
      ensures rows == old(rows) && now == old(now)
      ensures cache ==
        if faults.setRuns && Encodable(rt, transaction)
        then old(cache)[transaction.id := Slot(Parsed(Encode(rt, transaction)), now + ttlMs)] else old(cache)
    {
      if faults.setRuns && Encodable(rt, transaction) {
        cache := cache[transaction.id := Slot(Parsed(Encode(rt, transaction)), now + ttlMs)];
      }
    }

    /** The rest of a read that found nothing in the cache: ask the repository, and fill the cache. */
    method ReadThrough(id: Id, second: seq<Event>, third: seq<Event>, faults: Faults)
      returns (answer: Option<Transaction>, ghost atRead: World)
      requires Injective(rt) && CacheOk(rt, Model())
      modifies this
      ensures atRead == AfterAll(rt, old(Model()), second) && answer == DirectRead(atRead, id)
      ensures RowsGrow(old(Model()), atRead) && RowsGrow(atRead, Model()) && CacheOk(rt, Model())
      ensures answer.Some? && faults.setRuns && Encodable(rt, answer.value) ==> Hit(rt, Model(), id) == answer
    {
      Interfere(second);
      EventsKeepCache(rt, old(Model()), second);
      atRead := Model();
      var read := FindById(id);
      if read.None? {
        return None, atRead;
      }
      var transaction := read.value;
      Interfere(third);
      EventsKeepCache(rt, atRead, third);
      ghost var found := Model();
      CacheSet(transaction, faults);
      FillKeepsCache(rt, found, Model(), transaction);
      if Encodable(rt, transaction) {
        DecodeInvertsEncode(rt, transaction, id);
      }
      return Some(transaction), atRead;
    }

    /**
     * One read. `first`, `second` and `third` are what others do before the GET, before the
     * repository read and before the SET, `cleanup` what they do before a DEL. The answer is what the
     * repository alone would have said at the GET or at its own read, and a transaction once found is
     * still there at the end.
     */
    method Execute(id: Id, first: seq<Event>, cleanup: seq<Event>, second: seq<Event>, third: seq<Event>,
                   faults: Faults)
      returns (answer: Option<Transaction>, ghost atGet: World, ghost atRead: World)
      requires Injective(rt) && CacheOk(rt, Model())
      modifies this
      ensures atGet == AfterAll(rt, old(Model()), first)
      ensures answer == DirectRead(atGet, id) || answer == DirectRead(atRead, id)
      ensures RowsGrow(old(Model()), atGet) && RowsGrow(atGet, atRead) && RowsGrow(atRead, Model())
      ensures answer.Some? ==> DirectRead(Model(), id) == answer
      ensures CacheOk(rt, Model())
      // A hit spares the repository; a miss asks it, and leaves what it said for the next reader.
      ensures var hit := if faults.getFails then None else Hit(rt, atGet, id);
        if hit.Some? then answer == hit && Model() == atGet else answer == DirectRead(atRead, id)
      ensures (answer.Some? && (faults.getFails || Hit(rt, atGet, id).None?)
               && faults.setRuns && Encodable(rt, answer.value))
        ==> Hit(rt, Model(), id) == answer
    {
      Interfere(first);
      atGet := Model();
      EventsKeepCache(rt, old(Model()), first);
      var cached := CacheGet(id, cleanup, faults);
      if cached.Some? {
        assert SlotOk(rt, atGet, id);
        atRead := atGet;
        return cached, atGet, atRead;
      }
      ghost var missed := Model();
      MissKeepsCache(rt, atGet, missed, cleanup, id);
      answer, atRead := ReadThrough(id, second, third, faults);
    }
  }
}
