/**
 * The chats cache: Telegram chats keyed by their Telegram id, held as
 * attribute records, written back to the chats table on sync.
 */
module Chats {
  import opened WriteBack

  /** The attributes of a cached chat, which are also the columns of its row. */
  const ChatFields: set<string> :=
    {"id", "tg_chat_id", "title", "username", "chat_type", "cluster_id", "is_active",
     "infinite_invite_link", "settings", "created_at"}

  /** The columns a sync compares on an existing row and writes when one differs. */
  const UpdatedFields: set<string> :=
    {"title", "username", "chat_type", "cluster_id", "is_active", "infinite_invite_link", "settings"}

  /** The columns a sync sets when it creates a missing row: no invite link. */
  const CreatedFields: set<string> :=
    {"tg_chat_id", "title", "username", "chat_type", "cluster_id", "is_active", "settings"}

  /** The defaults a new chat row starts from. */
  const DefaultChat: Record :=
    map["title" := Null, "username" := Null, "chat_type" := Null, "cluster_id" := Null,
        "is_active" := Bool(true), "infinite_invite_link" := Null, "settings" := Null]

  /** The repository's `{**safe_defaults, **defaults}`: the caller's values win. */
  function MergedDefaults(defaults: Record): (m: Record)
    ensures m.Keys == (DefaultChat.Keys - {"tg_chat_id"}) + defaults.Keys
    ensures forall f :: f in defaults ==> m[f] == defaults[f]
    ensures forall f :: f in DefaultChat && f !in defaults ==> m[f] == DefaultChat[f]
  {
    (map f | f in DefaultChat && f != "tg_chat_id" :: DefaultChat[f]) + defaults
  }

  /**
   * The row `get_or_create` inserts for `tg`: the key column is the
   * argument, every other column takes the merged defaults where they name
   * it; the store fills in the id and the creation time otherwise.
   */
  function NewRow(tg: int, merged: Record, id: int, now: int): (row: Record)
    ensures row.Keys == ChatFields
  {
    map f | f in ChatFields ::
      if f == "tg_chat_id" then Int(tg)
      else if f in merged then merged[f]
      else if f == "id" then Int(id)
      else if f == "created_at" then Int(now)
      else Null
  }

  /** A created chat starts from `DEFAULT_CHAT` (active) overlaid by the caller's defaults. */
  lemma CreatedChatDefaults(tg: int, defaults: Record, id: int, now: int)
    requires "id" !in defaults && "created_at" !in defaults
    ensures var row := NewRow(tg, MergedDefaults(defaults), id, now);
            row["tg_chat_id"] == Int(tg) && row["id"] == Int(id) && row["created_at"] == Int(now)
            && forall f :: f in UpdatedFields ==> row[f] == (if f in defaults then defaults[f] else DefaultChat[f])
  {
    FieldSetsAgree();
    NewRowTakesMerged(tg, MergedDefaults(defaults), id, now);
  }

  /** Every column of a new row but the key takes the merged value where there is one. */
  lemma NewRowTakesMerged(tg: int, merged: Record, id: int, now: int)
    ensures forall f :: f in ChatFields && f in merged && f != "tg_chat_id" ==> NewRow(tg, merged, id, now)[f] == merged[f]
  {
  }

  /** The compared columns are the defaulted ones, all of them chat columns other than the key. */
  lemma FieldSetsAgree()
    ensures UpdatedFields == DefaultChat.Keys && UpdatedFields <= ChatFields
    ensures "tg_chat_id" !in UpdatedFields && "id" !in UpdatedFields && "created_at" !in UpdatedFields
  {
  }

  /**
   * The row a sync creates for a cached chat that has no row: the created
   * columns come from the cache, the invite link is left at its default.
   */
  function CreatedRow(cached: Record): (row: Record)
    ensures row.Keys == ChatFields
  {
    map f | f in ChatFields :: if f == "infinite_invite_link" then Null else Attr(cached, f)
  }

  /**
   * What a successful flush leaves in the row of one payload: an existing
   * row is rewritten only when some compared column differs; a missing
   * row is created.
   */
  function FlushedRow(row: Option<Record>, cached: Record): Record
  {
    match row
    case Some(r) => if Differs(r, cached, UpdatedFields) then Overlay(r, cached, UpdatedFields) else r
    case None => CreatedRow(cached)
  }

  function Step(): (Option<Record>, int, Record) -> Option<Record>
  {
    (row: Option<Record>, k: int, cached: Record) => Some(FlushedRow(row, cached))
  }

  /** The chats table after a successful flush of `payloads`. */
  function Flushed(db: map<int, Record>, payloads: map<int, Record>): (d: map<int, Record>)
    ensures d.Keys == db.Keys + payloads.Keys
    ensures forall k :: k in db && k !in payloads ==> d[k] == db[k]
  {
    map k | k in db.Keys + payloads.Keys ::
      if k in payloads then FlushedRow(LookupIn(db, k), payloads[k]) else db[k]
  }

  /** The batch loop of a sync, one payload after another, leaves the table `Flushed` describes. */
  lemma FlushedIsBatchLoop(db: map<int, Record>, payloads: map<int, Record>)
    ensures FlushedWith(db, payloads, Step()) == Flushed(db, payloads)
  {
    var loop, expected := FlushedWith(db, payloads, Step()), Flushed(db, payloads);
    forall k | k in payloads
      ensures k in loop && loop[k] == expected[k]
    {
      assert Step()(LookupIn(db, k), k, payloads[k]) == Some(FlushedRow(LookupIn(db, k), payloads[k]));
    }
    assert loop.Keys == expected.Keys;
  }

  /**
   * A flushed chat that already had a row ends with every compared column
   * equal to the cache, the invite link included; the other columns are
   * those of the row.
   */
  lemma FlushUpdatesExistingRow(db: map<int, Record>, payloads: map<int, Record>, k: int, f: string)
    requires k in payloads && k in db && f in db[k]
    requires UpdatedFields <= db[k].Keys
    ensures Attr(Flushed(db, payloads)[k], f) == if f in UpdatedFields then Attr(payloads[k], f) else db[k][f]
  {
    if !Differs(db[k], payloads[k], UpdatedFields) && f in UpdatedFields {
      assert Attr(db[k], f) == Attr(payloads[k], f);
    }
  }

  /**
   * A flushed chat without a row is created with the cached title,
   * username, type, cluster, activity and settings, but without its
   * invite link.
   */
  lemma FlushCreatesMissingRow(db: map<int, Record>, payloads: map<int, Record>, k: int)
    requires k in payloads && k !in db
    ensures var row := Flushed(db, payloads)[k];
            (forall f :: f in CreatedFields ==> row[f] == Attr(payloads[k], f))
            && row["infinite_invite_link"] == Null
  {
  }

  /** Flushing nothing leaves the table as it was. */
  lemma FlushedNothing(db: map<int, Record>)
    ensures Flushed(db, map[]) == db
  {
  }

  predicate Same(a: Record, b: Record)
  {
    a == b
  }

  class ChatCache {
    /** The cached chats, by Telegram id. */
    var cache: map<int, Record>
    /** The keys whose records are waiting to be written back. */
    var dirty: set<int>
    /** The chats table, by Telegram id. */
    var db: map<int, Record>
    /** The id the store gives the next row it creates. */
    var nextId: int
    /** The number of repository calls made so far. */
    ghost var storeCalls: nat

    /**
     * Dirty keys are cached, and every cached record and every row has
     * exactly the chat columns.
     */
    ghost predicate Valid()
      reads this
    {
      && dirty <= cache.Keys
      && (forall k :: k in cache ==> cache[k].Keys == ChatFields)
      && (forall k :: k in db ==> db[k].Keys == ChatFields)
    }

    constructor (rows: map<int, Record>, firstId: int)
      requires forall k :: k in rows ==> rows[k].Keys == ChatFields
      ensures Valid()
      ensures cache == map[] && dirty == {} && db == rows && nextId == firstId && storeCalls == 0
    {
      cache := map[];
      dirty := {};
      db := rows;
      nextId := firstId;
      storeCalls := 0;
    }

    /** `ChatRepository.ensure_record`: get the row of `tg`, or create it from the defaults. */
    method EnsureRecord(tg: int, defaults: Record, now: int) returns (row: Record, created: bool)
      requires Valid()
      modifies this`db, this`nextId, this`storeCalls
      ensures Valid()
      ensures created == (tg !in old(db))
      ensures !created ==> row == old(db)[tg] && nextId == old(nextId)
      ensures created ==> row == NewRow(tg, MergedDefaults(defaults), old(nextId), now) && nextId == old(nextId) + 1
      ensures db == old(db)[tg := row]
      ensures storeCalls == old(storeCalls) + 1
    {
      var inserted := NewRow(tg, MergedDefaults(defaults), nextId, now);
      row, created := GetOrInsert(tg, inserted);
    }

    /** `Chat.get_or_create` on `tg`, inserting `inserted` when the row is missing. */
    method GetOrInsert(tg: int, inserted: Record) returns (row: Record, created: bool)
      requires Valid()
      requires inserted.Keys == ChatFields
      modifies this`db, this`nextId, this`storeCalls
      ensures Valid()
      ensures created == (tg !in old(db))
      ensures !created ==> row == old(db)[tg] && nextId == old(nextId)
      ensures created ==> row == inserted && nextId == old(nextId) + 1
      ensures db == old(db)[tg := row]
      ensures storeCalls == old(storeCalls) + 1
    {
      storeCalls := storeCalls + 1;
      if tg in db {
        row, created := db[tg], false;
      } else {
        row, created := inserted, true;
        db := db[tg := row];
        nextId := nextId + 1;
      }
    }

    /**
     * `_ensure_cached`: a cached key is returned as it is, with no store
     * call, so a second ensure keeps the first values; otherwise the row is
     * fetched or created and its copy cached.
     */
    method EnsureCached(tg: int, initial: Record, now: int) returns (r: Record)
      requires Valid()
      modifies this`cache, this`db, this`nextId, this`storeCalls
      ensures Valid()
      ensures cache == old(cache)[tg := r]
      ensures tg in old(cache) ==>
                r == old(cache)[tg] && db == old(db) && nextId == old(nextId) && storeCalls == old(storeCalls)
      ensures tg !in old(cache) ==>
                db == old(db)[tg := r] && storeCalls == old(storeCalls) + 1
                && (tg in old(db) ==> r == old(db)[tg] && nextId == old(nextId))
                && (tg !in old(db) ==> r == NewRow(tg, MergedDefaults(initial), old(nextId), now) && nextId == old(nextId) + 1)
    {
      if tg in cache {
        r := cache[tg];
      } else {
        var created;
        r, created := EnsureRecord(tg, initial, now);
        cache := cache[tg := r];
      }
    }

    /** `get(k)`, and `ChatManager.get_full(k)`: the cached record, or None. */
    function Get(k: int): (r: Option<Record>)
      reads this
      ensures r.Some? <==> k in cache
      ensures r.Some? ==> r.value == cache[k]
    {
      if k in cache then Some(cache[k]) else None
    }

    /** `get(k, "f")`: the attribute, or None when the key or the attribute is missing. */
    function GetField(k: int, f: string): (v: Val)
      reads this
      ensures k !in cache ==> v == Null
      ensures k in cache ==> v == Attr(cache[k], f)
    {
      if k in cache then Attr(cache[k], f) else Null
    }

    /** `get(k, (f, g, ...))`: a tuple of the attributes, all None when the key is missing. */
    function GetFields(k: int, fs: seq<string>): (t: seq<Val>)
      reads this
      ensures |t| == |fs|
      ensures forall i :: 0 <= i < |fs| ==> t[i] == GetField(k, fs[i])
      ensures k !in cache ==> forall i :: 0 <= i < |fs| ==> t[i] == Null
    {
      if k in cache then
        var rec := cache[k];
        seq(|fs|, i requires 0 <= i < |fs| => Attr(rec, fs[i]))
      else
        seq(|fs|, i => Null)
    }

    /**
     * `edit(k, **fields)`: ensure the key (creating its row from `fields`
     * when needed), set the attributes the record has, and mark it dirty.
     */
    method Edit(k: int, fields: Record, now: int)
      requires Valid()
      modifies this`cache, this`dirty, this`db, this`nextId, this`storeCalls
      ensures Valid()
      ensures k in cache && cache == old(cache)[k := cache[k]]
      ensures dirty == old(dirty) + {k}
      ensures k in old(cache) ==>
                cache[k] == Patched(old(cache)[k], fields) && db == old(db) && storeCalls == old(storeCalls)
                && nextId == old(nextId)
      ensures k !in old(cache) ==>
                k in db && cache[k] == Patched(db[k], fields)
                && db == old(db)[k := db[k]] && storeCalls == old(storeCalls) + 1
                && (k in old(db) ==> db[k] == old(db)[k] && nextId == old(nextId))
                && (k !in old(db) ==> db[k] == NewRow(k, MergedDefaults(fields), old(nextId), now) && nextId == old(nextId) + 1)
      ensures forall f :: f in fields && f in ChatFields ==> GetField(k, f) == fields[f]
    {
      var r := EnsureCached(k, fields, now);
      var patched := ApplyKnownFields(r, fields);
      UpdateTwice(old(cache), k, r, patched);
      cache := cache[k := patched];
      dirty := dirty + {k};
    }

    /**
     * `remove(k)`: evict from cache and dirty set before deleting the row;
     * an absent key is fine.
     */
    method Remove(k: int)
      requires Valid()
      modifies this`cache, this`dirty, this`db, this`storeCalls
      ensures Valid()
      ensures cache == old(cache) - {k} && dirty == old(dirty) - {k}
      ensures db == old(db) - {k}
      ensures storeCalls == old(storeCalls) + 1
      ensures Get(k) == None
    {
      if k in cache {
        dirty := dirty - {k};
        cache := cache - {k};
      }
      storeCalls := storeCalls + 1;
      db := db - {k};
    }

    /** The first half of `sync`, under the lock: copy the dirty records that are still cached. */
    method BeginSync() returns (payloads: map<int, Record>)
      requires Valid()
      ensures payloads == Snapshot(dirty, cache)
      ensures payloads.Keys == dirty
    {
      payloads := map k | k in dirty && k in cache :: cache[k];
    }

    /**
     * The batch loop of `sync`. `ok` is false when the store raised; the
     * exception is caught and nothing is written.
     */
    method Flush(payloads: map<int, Record>, ok: bool)
      requires Valid()
      modifies this`db, this`storeCalls
      ensures Valid()
      ensures db == if ok then Flushed(old(db), payloads) else old(db)
      ensures storeCalls == old(storeCalls) + 1
    {
      storeCalls := storeCalls + 1;
      if !ok {
        return;
      }
      var d := FlushLoop(db, payloads, Step());
      FlushedIsBatchLoop(db, payloads);
      db := d;
    }

    /**
     * The commit loop of `sync`: a flushed key leaves the dirty set only
     * when it is no longer cached or its whole record equals the copy.
     */
    method CommitSync(payloads: map<int, Record>)
      requires Valid()
      modifies this`dirty
      ensures Valid()
      ensures dirty == old(dirty) - RecheckCleared(payloads, cache, {}, Same)
    {
      var todo := payloads.Keys;
      while todo != {}
        invariant todo <= payloads.Keys
        invariant dirty == old(dirty) - (RecheckCleared(payloads, cache, {}, Same) - todo)
        decreases todo
      {
        ghost var w := Member(todo);
        var k :| k in todo;
        if k !in cache {
          dirty := dirty - {k};
        } else if cache[k] == payloads[k] {
          dirty := dirty - {k};
        }
        todo := todo - {k};
      }
    }

    /**
     * `sync`, run without interleaving: nothing happens while the dirty
     * set is empty; a failed flush leaves dirty as it was; a successful one
     * writes the snapshot and cleans every key.
     */
    method Sync(ok: bool) returns (payloads: map<int, Record>)
      requires Valid()
      modifies this`db, this`dirty, this`storeCalls
      ensures Valid()
      ensures payloads == Snapshot(old(dirty), cache) && payloads.Keys == old(dirty)
      ensures old(dirty) == {} ==> db == old(db) && dirty == old(dirty) && storeCalls == old(storeCalls)
      ensures old(dirty) != {} ==> storeCalls == old(storeCalls) + 1
      ensures db == if ok then Flushed(old(db), payloads) else old(db)
      ensures dirty == if ok then {} else old(dirty)
    {
      payloads := BeginSync();
      if dirty == {} {
        FlushedNothing(db);
        return;
      }
      Flush(payloads, ok);
      if ok {
        CommitSync(payloads);
        QuietRecheckCleansAllButSkipped(old(dirty), cache, {}, Same);
      }
    }

    /**
     * An edit that lands between the snapshot and the commit of a sync is
     * not lost: the key is still dirty afterwards.
     */
    method EditDuringSync(k: int, f: string, v: Val, now: int)
      requires Valid()
      requires k in cache && f in cache[k] && cache[k][f] != v
      modifies this`cache, this`dirty, this`db, this`nextId, this`storeCalls
      ensures Valid()
      ensures k in dirty && GetField(k, f) == v
    {
      var payloads := BeginSync();
      Edit(k, map[f := v], now);
      Flush(payloads, true);
      CommitSync(payloads);
      if k in payloads {
        RecheckRetainsRacedKey(old(dirty) + {k}, payloads, cache, {}, Same, k);
      }
    }

    /** `ChatManager.activate`: `edit(k, is_active=True)`. */
    method Activate(k: int, now: int)
      requires Valid()
      modifies this`cache, this`dirty, this`db, this`nextId, this`storeCalls
      ensures Valid()
      ensures k in cache && cache == old(cache)[k := cache[k]] && dirty == old(dirty) + {k}
      ensures GetField(k, "is_active") == Bool(true)
    {
      Edit(k, map["is_active" := Bool(true)], now);
    }

    /** `ChatManager.deactivate`: `edit(k, is_active=False)`. */
    method Deactivate(k: int, now: int)
      requires Valid()
      modifies this`cache, this`dirty, this`db, this`nextId, this`storeCalls
      ensures Valid()
      ensures k in cache && cache == old(cache)[k := cache[k]] && dirty == old(dirty) + {k}
      ensures GetField(k, "is_active") == Bool(false)
    {
      Edit(k, map["is_active" := Bool(false)], now);
    }
  }
}
