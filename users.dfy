/**
 * The users cache: Telegram users keyed by their Telegram id, held as
 * attribute records, written back to the users table on sync.
 */
module Users {
  import opened WriteBack

  /** The attributes of a cached user, which are also the columns of its row. */
  const UserFields: set<string> :=
    {"id", "tg_user_id", "username", "first_name", "last_name", "is_bot", "is_owner",
     "banned_until", "messages_count", "meta", "created_at", "last_seen"}

  /** The columns a sync compares on an existing row and writes when one differs. */
  const SyncedFields: set<string> :=
    {"username", "first_name", "last_name", "is_bot", "is_owner", "banned_until",
     "messages_count", "meta", "last_seen"}

  /** The defaults a new user row starts from. */
  const DefaultUser: Record :=
    map["username" := Null, "first_name" := Null, "last_name" := Null,
        "is_bot" := Bool(false), "is_owner" := Bool(false), "banned_until" := Null,
        "messages_count" := Int(0), "meta" := Null, "last_seen" := Null]

  /** The repository's `{**safe_defaults, **defaults}`: the caller's values win. */
  function MergedDefaults(defaults: Record): (m: Record)
    ensures m.Keys == (DefaultUser.Keys - {"tg_user_id"}) + defaults.Keys
    ensures forall f :: f in defaults ==> m[f] == defaults[f]
    ensures forall f :: f in DefaultUser && f !in defaults ==> m[f] == DefaultUser[f]
  {
    (map f | f in DefaultUser && f != "tg_user_id" :: DefaultUser[f]) + defaults
  }

  /**
   * The row `get_or_create` inserts for `tg`: the key column is the
   * argument, every other column takes the merged defaults where they name
   * it; the store fills in the id and the creation time otherwise.
   */
  function NewRow(tg: int, merged: Record, id: int, now: int): (row: Record)
    ensures row.Keys == UserFields
  {
    map f | f in UserFields ::
      if f == "tg_user_id" then Int(tg)
      else if f in merged then merged[f]
      else if f == "id" then Int(id)
      else if f == "created_at" then Int(now)
      else Null
  }

  /** A created user starts from `DEFAULT_USER` overlaid by the caller's defaults. */
  lemma CreatedUserDefaults(tg: int, defaults: Record, id: int, now: int)
    requires "id" !in defaults && "created_at" !in defaults
    ensures var row := NewRow(tg, MergedDefaults(defaults), id, now);
            row["tg_user_id"] == Int(tg) && row["id"] == Int(id) && row["created_at"] == Int(now)
            && forall f :: f in SyncedFields ==> row[f] == (if f in defaults then defaults[f] else DefaultUser[f])
  {
    FieldSetsAgree();
    NewRowTakesMerged(tg, MergedDefaults(defaults), id, now);
  }

  /** Every column of a new row but the key takes the merged value where there is one. */
  lemma NewRowTakesMerged(tg: int, merged: Record, id: int, now: int)
    ensures forall f :: f in UserFields && f in merged && f != "tg_user_id" ==> NewRow(tg, merged, id, now)[f] == merged[f]
  {
  }

  /** The synced columns are the defaulted ones, all of them user columns other than the key. */
  lemma FieldSetsAgree()
    ensures SyncedFields == DefaultUser.Keys && SyncedFields <= UserFields
    ensures "tg_user_id" !in SyncedFields && "id" !in SyncedFields && "created_at" !in SyncedFields
  {
  }

  /** The row a sync writes for a cached record that has no row yet. */
  function CreatedRow(cached: Record): (row: Record)
    ensures row.Keys == UserFields
    ensures forall f :: f in UserFields ==> row[f] == Attr(cached, f)
  {
    map f | f in UserFields :: Attr(cached, f)
  }

  /**
   * What a successful flush leaves in the row of one payload: an existing
   * row is rewritten only when some synced column differs; a missing row is
   * created from the cached record.
   */
  function FlushedRow(row: Option<Record>, cached: Record): Record
  {
    match row
    case Some(r) => if Differs(r, cached, SyncedFields) then Overlay(r, cached, SyncedFields) else r
    case None => CreatedRow(cached)
  }

  function Step(): (Option<Record>, int, Record) -> Option<Record>
  {
    (row: Option<Record>, k: int, cached: Record) => Some(FlushedRow(row, cached))
  }

  /** The users table after a successful flush of `payloads`. */
  function Flushed(db: map<int, Record>, payloads: map<int, Record>): (d: map<int, Record>)
    ensures d.Keys == db.Keys + payloads.Keys
    ensures forall k :: k in db && k !in payloads ==> d[k] == db[k]
  {
    map k | k in db.Keys + payloads.Keys ::
      if k in payloads then FlushedRow(LookupIn(db, k), payloads[k]) else db[k]
  }

  /** The batch loop of a sync, one payload after another, leaves the table `Flushed` describes. */
  lemma FlushedIsBatchLoop(db: map<int, Record>, payloads: map<int, Record>)
    ensures FlushedWith(db, payloads, Step()) == Flushed(db, payloads)
  {
    var loop, expected := FlushedWith(db, payloads, Step()), Flushed(db, payloads);
    forall k | k in payloads
      ensures k in loop && loop[k] == expected[k]
    {
      assert Step()(LookupIn(db, k), k, payloads[k]) == Some(FlushedRow(LookupIn(db, k), payloads[k]));
    }
    assert loop.Keys == expected.Keys;
  }

  /**
   * After a successful flush every payload's synced fields are in the
   * store, whether its row was updated, left alone because nothing
   * differed, or created.
   */
  lemma FlushStoresSyncedFields(db: map<int, Record>, payloads: map<int, Record>, k: int, f: string)
    requires k in payloads && f in SyncedFields
    requires k in db ==> SyncedFields <= db[k].Keys
    ensures Attr(Flushed(db, payloads)[k], f) == Attr(payloads[k], f)
  {
    if k in db && !Differs(db[k], payloads[k], SyncedFields) {
      assert Attr(db[k], f) == Attr(payloads[k], f);
    }
  }

  /** Flushing nothing leaves the table as it was. */
  lemma FlushedNothing(db: map<int, Record>)
    ensures Flushed(db, map[]) == db
  {
  }

  predicate Same(a: Record, b: Record)
  {
    a == b
  }

  /** Python whitespace, as `str.strip()` removes it. */
  predicate IsSpace(c: char)
  {
    c == ' ' || ('\U{9}' <= c <= '\U{D}') || ('\U{1C}' <= c <= '\U{1F}')
    || c == '\U{85}' || c == '\U{A0}' || c == '\U{1680}' || ('\U{2000}' <= c <= '\U{200A}')
    || c == '\U{2028}' || c == '\U{2029}' || c == '\U{202F}' || c == '\U{205F}' || c == '\U{3000}'
  }

  /** Every character of `s[lo..hi]` is whitespace. */
  predicate AllSpace(s: string, lo: int, hi: int)
    requires 0 <= lo <= hi <= |s|
  {
    forall n :: lo <= n < hi ==> IsSpace(s[n])
  }

  /** The first index from `i` on that holds no whitespace, or `|s|`. */
  function LeftCut(s: string, i: int): (k: int)
    requires 0 <= i <= |s|
    ensures i <= k <= |s| && AllSpace(s, i, k)
    ensures k < |s| ==> !IsSpace(s[k])
    decreases |s| - i
  {
    if i < |s| && IsSpace(s[i]) then LeftCut(s, i + 1) else i
  }

  /** The end of `s[lo..j]` once its trailing whitespace is cut off. */
  function RightCut(s: string, lo: int, j: int): (k: int)
    requires 0 <= lo <= j <= |s|
    ensures lo <= k <= j && AllSpace(s, k, j)
    ensures lo < k ==> !IsSpace(s[k - 1])
    decreases j
  {
    if lo < j && IsSpace(s[j - 1]) then RightCut(s, lo, j - 1) else j
  }

  /** `s.strip()`: `s` without its leading and trailing whitespace. */
  function Strip(s: string): (r: string)
    ensures exists i, j :: 0 <= i <= j <= |s| && r == s[i..j] && AllSpace(s, 0, i) && AllSpace(s, j, |s|)
    ensures r == [] || (!IsSpace(r[0]) && !IsSpace(r[|r| - 1]))
  {
    var i := LeftCut(s, 0);
    var j := RightCut(s, i, |s|);
    assert AllSpace(s, 0, i) && AllSpace(s, j, |s|);
    s[i..j]
  }

  /** Stripping a name with no whitespace at its ends gives the name back. */
  lemma {:induction false} StripOfTrimmed(s: string)
    requires s == [] || (!IsSpace(s[0]) && !IsSpace(s[|s| - 1]))
    ensures Strip(s) == s
  {
  }

  /** The parts of a display name: the truthy first and last names, in order. */
  function NameParts(first: Val, last: Val): seq<string>
  {
    (if first.Str? && first.s != "" then [first.s] else [])
    + (if last.Str? && last.s != "" then [last.s] else [])
  }

  /** `" ".join(parts)` for at most two parts. */
  function JoinSpace(parts: seq<string>): string
  {
    if |parts| == 0 then "" else if |parts| == 1 then parts[0] else parts[0] + " " + JoinSpace(parts[1..])
  }

  /**
   * `get_name` on the cached first and last name: None when both are None,
   * otherwise the non-empty parts joined by a space and stripped.
   */
  function DisplayName(first: Val, last: Val): (n: Option<string>)
    ensures n.None? <==> first == Null && last == Null
    ensures n.Some? ==> n.value == [] || (!IsSpace(n.value[0]) && !IsSpace(n.value[|n.value| - 1]))
  {
    if first == Null && last == Null then None
    else Some(Strip(JoinSpace(NameParts(first, last))))
  }

  /** A first and a last name join with one space between them. */
  lemma DisplayNameOfBoth(first: string, last: string)
    requires first != [] && !IsSpace(first[0]) && !IsSpace(first[|first| - 1])
    requires last != [] && !IsSpace(last[0]) && !IsSpace(last[|last| - 1])
    ensures DisplayName(Str(first), Str(last)) == Some(first + " " + last)
  {
    var j := first + " " + last;
    assert JoinSpace(NameParts(Str(first), Str(last))) == j;
    assert j[0] == first[0] && j[|j| - 1] == last[|last| - 1];
    StripOfTrimmed(j);
  }

  /** With only one name present the display name is that name, stripped. */
  lemma DisplayNameOfOne(name: string)
    ensures DisplayName(Str(name), Null) == Some(Strip(name))
    ensures DisplayName(Null, Str(name)) == Some(Strip(name))
  {
    var parts := NameParts(Str(name), Null);
    assert parts == NameParts(Null, Str(name)) == if name != "" then [name] else [];
    assert JoinSpace(parts) == name;
  }

  /** A string of whitespace only strips to the empty string. */
  lemma StripOfBlank(s: string)
    requires AllSpace(s, 0, |s|)
    ensures Strip(s) == ""
  {
  }

  /**
   * Names that are present but blank give the empty name, not None: the
   * truthy ones are joined and the join is all whitespace.
   */
  lemma DisplayNameOfBlank(first: string, last: string)
    requires AllSpace(first, 0, |first|) && AllSpace(last, 0, |last|)
    ensures DisplayName(Str(first), Str(last)) == Some("")
  {
    var parts := NameParts(Str(first), Str(last));
    var j := JoinSpace(parts);
    assert AllSpace(j, 0, |j|) by {
      if first != "" && last != "" {
        assert parts == [first, last] && parts[1..] == [last];
        assert JoinSpace(parts[1..]) == last;
        assert j == first + " " + last;
        forall n | 0 <= n < |j|
          ensures IsSpace(j[n])
        {
          if n < |first| {
            assert j[n] == first[n];
          } else if n > |first| {
            assert j[n] == last[n - |first| - 1];
          }
        }
      }
    }
    StripOfBlank(j);
  }

  /** `messages_count += 1` on a field value: booleans count as 0 and 1; other values raise. */
  function PlusOne(v: Val): (r: Result<Val>)
    ensures r.Ok? <==> v.Int? || v.Bool?
    ensures v.Int? ==> r == Ok(Int(v.i + 1))
  {
    match v
    case Int(n) => Ok(Int(n + 1))
    case Bool(b) => Ok(Int(if b then 2 else 1))
    case _ => Err(TypeMismatch)
  }

  class UserCache {
    /** The cached users, by Telegram id. */
    var cache: map<int, Record>
    /** The keys whose records are waiting to be written back. */
    var dirty: set<int>
    /** From a row's id to the Telegram id it belongs to. */
    var dbIdIndex: map<Val, Val>
    /** The users table, by Telegram id. */
    var db: map<int, Record>
    /** The id the store gives the next row it creates. */
    var nextId: int
    /** The number of repository calls made so far. */
    ghost var storeCalls: nat

    /**
     * Dirty keys are cached, and every cached record and every row has
     * exactly the user columns.
     */
    ghost predicate Valid()
      reads this
    {
      && dirty <= cache.Keys
      && (forall k :: k in cache ==> cache[k].Keys == UserFields)
      && (forall k :: k in db ==> db[k].Keys == UserFields)
    }

    constructor (rows: map<int, Record>, firstId: int)
      requires forall k :: k in rows ==> rows[k].Keys == UserFields
      ensures Valid()
      ensures cache == map[] && dirty == {} && dbIdIndex == map[]
      ensures db == rows && nextId == firstId && storeCalls == 0
    {
      cache := map[];
      dirty := {};
      dbIdIndex := map[];
      db := rows;
      nextId := firstId;
      storeCalls := 0;
    }

    /** `UserRepository.ensure_record`: get the row of `tg`, or create it from the defaults. */
    method EnsureRecord(tg: int, defaults: Record, now: int) returns (row: Record, created: bool)
      requires Valid()
      modifies this`db, this`nextId, this`storeCalls
      ensures Valid()
      ensures created == (tg !in old(db))
      ensures !created ==> row == old(db)[tg] && nextId == old(nextId)
      ensures created ==> row == NewRow(tg, MergedDefaults(defaults), old(nextId), now) && nextId == old(nextId) + 1
      ensures db == old(db)[tg := row]
      ensures storeCalls == old(storeCalls) + 1
    {
      var inserted := NewRow(tg, MergedDefaults(defaults), nextId, now);
      row, created := GetOrInsert(tg, inserted);
    }

    /** `User.get_or_create` on `tg`, inserting `inserted` when the row is missing. */
    method GetOrInsert(tg: int, inserted: Record) returns (row: Record, created: bool)
      requires Valid()
      requires inserted.Keys == UserFields
      modifies this`db, this`nextId, this`storeCalls
      ensures Valid()
      ensures created == (tg !in old(db))
      ensures !created ==> row == old(db)[tg] && nextId == old(nextId)
      ensures created ==> row == inserted && nextId == old(nextId) + 1
      ensures db == old(db)[tg := row]
      ensures storeCalls == old(storeCalls) + 1
    {
      storeCalls := storeCalls + 1;
      if tg in db {
        row, created := db[tg], false;
      } else {
        row, created := inserted, true;
        db := db[tg := row];
        nextId := nextId + 1;
      }
    }

    /**
     * `_ensure_cached`: a cached key is returned as it is, with no store
     * call; otherwise the row is fetched or created and its copy cached.
     */
    method EnsureCached(tg: int, initial: Record, now: int) returns (r: Record)
      requires Valid()
      modifies this`cache, this`dbIdIndex, this`db, this`nextId, this`storeCalls
      ensures Valid()
      ensures cache == old(cache)[tg := r]
      ensures tg in old(cache) ==>
                r == old(cache)[tg] && db == old(db) && dbIdIndex == old(dbIdIndex)
                && nextId == old(nextId) && storeCalls == old(storeCalls)
      ensures tg !in old(cache) ==>
                db == old(db)[tg := r] && storeCalls == old(storeCalls) + 1
                && (tg in old(db) ==> r == old(db)[tg] && nextId == old(nextId))
                && (tg !in old(db) ==> r == NewRow(tg, MergedDefaults(initial), old(nextId), now) && nextId == old(nextId) + 1)
                && dbIdIndex == (if Truthy(Attr(r, "id")) then old(dbIdIndex)[Attr(r, "id") := Attr(r, "tg_user_id")] else old(dbIdIndex))
    {
      if tg in cache {
        return cache[tg];
      }
      var model, _ := EnsureRecord(tg, initial, now);
      assert tg in db && db[tg] == model;
      cache := cache[tg := model];
      if Truthy(Attr(model, "id")) {
        dbIdIndex := dbIdIndex[Attr(model, "id") := Attr(model, "tg_user_id")];
      }
      r := model;
    }

    /** `get(k)`: the cached record, or None. */
    function Get(k: int): (r: Option<Record>)
      reads this
      ensures r.Some? <==> k in cache
      ensures r.Some? ==> r.value == cache[k]
    {
      if k in cache then Some(cache[k]) else None
    }

    /** `get(k, "f")`: the attribute, or None when the key or the attribute is missing. */
    function GetField(k: int, f: string): (v: Val)
      reads this
      ensures k !in cache ==> v == Null
      ensures k in cache ==> v == Attr(cache[k], f)
    {
      if k in cache then Attr(cache[k], f) else Null
    }

    /** `get(k, (f, g, ...))`: a tuple of the attributes, all None when the key is missing. */
    function GetFields(k: int, fs: seq<string>): (t: seq<Val>)
      reads this
      ensures |t| == |fs|
      ensures forall i :: 0 <= i < |fs| ==> t[i] == GetField(k, fs[i])
    {
      if k in cache then
        var rec := cache[k];
        seq(|fs|, i requires 0 <= i < |fs| => Attr(rec, fs[i]))
      else
        seq(|fs|, i => Null)
    }

    /**
     * `edit(k, **fields)`: ensure the key (creating its row from `fields`
     * when needed), set the attributes the record has, and mark it dirty.
     */
    method Edit(k: int, fields: Record, now: int)
      requires Valid()
      modifies this`cache, this`dirty, this`dbIdIndex, this`db, this`nextId, this`storeCalls
      ensures Valid()
      ensures k in cache && cache == old(cache)[k := cache[k]]
      ensures dirty == old(dirty) + {k}
      ensures k in old(cache) ==>
                cache[k] == Patched(old(cache)[k], fields)
                && db == old(db) && storeCalls == old(storeCalls) && dbIdIndex == old(dbIdIndex)
                && nextId == old(nextId)
      ensures k !in old(cache) ==>
                k in db && cache[k] == Patched(db[k], fields)
                && db == old(db)[k := db[k]] && storeCalls == old(storeCalls) + 1
                && (k in old(db) ==> db[k] == old(db)[k] && nextId == old(nextId))
                && (k !in old(db) ==> db[k] == NewRow(k, MergedDefaults(fields), old(nextId), now) && nextId == old(nextId) + 1)
                && dbIdIndex == (if Truthy(Attr(db[k], "id")) then old(dbIdIndex)[Attr(db[k], "id") := Attr(db[k], "tg_user_id")] else old(dbIdIndex))
      ensures forall f :: f in fields && f in UserFields ==> GetField(k, f) == fields[f]
    {
      var r := EnsureCached(k, fields, now);
      var patched := ApplyKnownFields(r, fields);
      UpdateTwice(old(cache), k, r, patched);
      cache := cache[k := patched];
      dirty := dirty + {k};
    }

    /** `remove(k)`: evict from cache, id index and dirty set, then delete the row. */
    method Remove(k: int)
      requires Valid()
      modifies this`cache, this`dirty, this`dbIdIndex, this`db, this`storeCalls
      ensures Valid()
      ensures cache == old(cache) - {k} && dirty == old(dirty) - {k}
      ensures dbIdIndex == if k in old(cache) && Truthy(Attr(old(cache)[k], "id"))
                           then old(dbIdIndex) - {old(cache)[k]["id"]} else old(dbIdIndex)
      ensures db == old(db) - {k}
      ensures storeCalls == old(storeCalls) + 1
      ensures Get(k) == None
    {
      if k in cache {
        var cached := cache[k];
        if Truthy(Attr(cached, "id")) {
          dbIdIndex := dbIdIndex - {cached["id"]};
        }
        dirty := dirty - {k};
        cache := cache - {k};
      }
      storeCalls := storeCalls + 1;
      db := db - {k};
    }

    /** The first half of `sync`, under the lock: copy the dirty records that are still cached. */
    method BeginSync() returns (payloads: map<int, Record>)
      requires Valid()
      ensures payloads == Snapshot(dirty, cache)
      ensures payloads.Keys == dirty
    {
      payloads := map k | k in dirty && k in cache :: cache[k];
    }

    /**
     * The batch loop of `sync`. `ok` is false when the store raised; the
     * exception is caught and nothing is written.
     */
    method Flush(payloads: map<int, Record>, ok: bool)
      requires Valid()
      modifies this`db, this`storeCalls
      ensures Valid()
      ensures db == if ok then Flushed(old(db), payloads) else old(db)
      ensures storeCalls == old(storeCalls) + 1
    {
      storeCalls := storeCalls + 1;
      if !ok {
        return;
      }
      var d := FlushLoop(db, payloads, Step());
      FlushedIsBatchLoop(db, payloads);
      db := d;
    }

    /**
     * The commit loop of `sync`: a flushed key leaves the dirty set only
     * when it is no longer cached or its whole record equals the copy.
     */
    method CommitSync(payloads: map<int, Record>)
      requires Valid()
      modifies this`dirty
      ensures Valid()
      ensures dirty == old(dirty) - RecheckCleared(payloads, cache, {}, Same)
    {
      var todo := payloads.Keys;
      while todo != {}
        invariant todo <= payloads.Keys
        invariant dirty == old(dirty) - (RecheckCleared(payloads, cache, {}, Same) - todo)
        decreases todo
      {
        ghost var w := Member(todo);
        var k :| k in todo;
        if k !in cache {
          dirty := dirty - {k};
        } else if cache[k] == payloads[k] {
          dirty := dirty - {k};
        }
        todo := todo - {k};
      }
    }

    /**
     * `sync`, run without interleaving: nothing happens while the dirty
     * set is empty; a failed flush leaves dirty as it was; a successful one
     * writes the snapshot and, nothing having raced it, cleans every key.
     */
    method Sync(ok: bool) returns (payloads: map<int, Record>)
      requires Valid()
      modifies this`db, this`dirty, this`storeCalls
      ensures Valid()
      ensures payloads == Snapshot(old(dirty), cache) && payloads.Keys == old(dirty)
      ensures old(dirty) == {} ==> db == old(db) && dirty == old(dirty) && storeCalls == old(storeCalls)
      ensures old(dirty) != {} ==> storeCalls == old(storeCalls) + 1
      ensures db == if ok then Flushed(old(db), payloads) else old(db)
      ensures dirty == if ok then {} else old(dirty)
    {
      payloads := BeginSync();
      if dirty == {} {
        FlushedNothing(db);
        return;
      }
      Flush(payloads, ok);
      if ok {
        CommitSync(payloads);
        QuietRecheckCleansAllButSkipped(old(dirty), cache, {}, Same);
      }
    }

    /**
     * An edit that lands between the snapshot and the commit of a sync is
     * not lost: the key is still dirty afterwards.
     */
    method EditDuringSync(k: int, f: string, v: Val, now: int)
      requires Valid()
      requires k in cache && f in cache[k] && cache[k][f] != v
      modifies this`cache, this`dirty, this`dbIdIndex, this`db, this`nextId, this`storeCalls
      ensures Valid()
      ensures k in dirty && GetField(k, f) == v
    {
      var payloads := BeginSync();
      Edit(k, map[f := v], now);
      Flush(payloads, true);
      CommitSync(payloads);
      if k in payloads {
        RecheckRetainsRacedKey(old(dirty) + {k}, payloads, cache, {}, Same, k);
      }
    }

    /**
     * `increment_messages_count(k)`: False when `k` is not cached;
     * otherwise the count goes up by one and `k` is dirty.
     */
    method IncrementMessagesCount(k: int) returns (r: Result<bool>)
      requires Valid()
      modifies this`cache, this`dirty
      ensures Valid()
      ensures k !in old(cache) ==> r == Ok(false) && cache == old(cache) && dirty == old(dirty)
      ensures k in old(cache) && PlusOne(Attr(old(cache)[k], "messages_count")).Ok? ==>
                r == Ok(true) && dirty == old(dirty) + {k}
                && cache == old(cache)[k := old(cache)[k]["messages_count" := PlusOne(Attr(old(cache)[k], "messages_count")).value]]
      ensures k in old(cache) && PlusOne(Attr(old(cache)[k], "messages_count")).Err? ==>
                r == Err(TypeMismatch) && cache == old(cache) && dirty == old(dirty)
    {
      if k !in cache {
        return Ok(false);
      }
      var obj := cache[k];
      var count := PlusOne(Attr(obj, "messages_count"));
      if count.Err? {
        return Err(TypeMismatch);
      }
      cache := cache[k := obj["messages_count" := count.value]];
      dirty := dirty + {k};
      r := Ok(true);
    }

    /** `UserManager.get_name`. */
    function GetName(k: int): (n: Option<string>)
      reads this
      ensures n.None? <==> GetField(k, "first_name") == Null && GetField(k, "last_name") == Null
      ensures k !in cache ==> n == None
      ensures n.Some? ==> n.value == [] || (!IsSpace(n.value[0]) && !IsSpace(n.value[|n.value| - 1]))
    {
      var t := GetFields(k, ["first_name", "last_name"]);
      DisplayName(t[0], t[1])
    }

    /**
     * `UserManager.get_by_username`: the first cached user, in the
     * dictionary's insertion order `order`, whose username is `name`; None
     * when there is none.
     */
    method GetByUsername(name: string, order: seq<int>) returns (r: Option<Record>)
      requires forall i :: 0 <= i < |order| ==> order[i] in cache
      requires forall k :: k in cache ==> k in order
      ensures r.None? <==> forall k :: k in cache ==> Attr(cache[k], "username") != Str(name)
      ensures r.Some? ==> exists i :: 0 <= i < |order| && r.value == cache[order[i]]
                                      && Attr(r.value, "username") == Str(name)
                                      && forall j :: 0 <= j < i ==> Attr(cache[order[j]], "username") != Str(name)
    {
      var i := 0;
      while i < |order|
        invariant 0 <= i <= |order|
        invariant forall j :: 0 <= j < i ==> Attr(cache[order[j]], "username") != Str(name)
      {
        if Attr(cache[order[i]], "username") == Str(name) {
          var k := order[i];
          assert k in cache && Attr(cache[k], "username") == Str(name);
          return Some(cache[k]);
        }
        i := i + 1;
      }
      return None;
    }

    /**
     * `UserManager.is_owner`: a user listed among the configured owners
     * whose record does not say so yet is marked owner through `edit`.
     */
    method IsOwner(k: int, owners: set<int>, now: int) returns (b: bool)
      requires Valid()
      modifies this`cache, this`dirty, this`dbIdIndex, this`db, this`nextId, this`storeCalls
      ensures Valid()
      ensures b == (Truthy(old(GetField(k, "is_owner"))) || k in owners)
      ensures !Truthy(old(GetField(k, "is_owner"))) && k in owners ==>
                k in cache && cache == old(cache)[k := cache[k]] && dirty == old(dirty) + {k}
                && GetField(k, "is_owner") == Bool(true)
      ensures Truthy(old(GetField(k, "is_owner"))) || k !in owners ==>
                cache == old(cache) && dirty == old(dirty) && db == old(db) && storeCalls == old(storeCalls)
    {
      var v := GetField(k, "is_owner");
      if !Truthy(v) && k in owners {
        Edit(k, map["is_owner" := Bool(true)], now);
        return true;
      }
      b := Truthy(v);
    }
  }
}
