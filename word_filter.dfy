/**
 * The word filter cache: the banned words of each chat, keyed by
 * (Telegram chat id, lower-cased word). Adding a word writes its row
 * straight away and then caches it; nothing is ever dirty, so a sync has
 * nothing to do.
 */
module WordFilter {
  import opened WriteBack

  /** (Telegram chat id, lower-cased word). */
  type Key = (int, string)

  /** `_CachedWordFilter`. */
  datatype WordRecord = WordRecord(id: int, tgChat: int, chatId: int, word: string, addedByTg: Option<int>, addedById: Option<int>, addedAt: int)

  /**
   * A row of the word filter table. Rows are indexed by their own id; the
   * table also keeps (chat, word) unique, which `Unique` states.
   */
  datatype WordRow = WordRow(chatId: int, word: string, addedById: Option<int>, addedAt: int)

  /** Some row of chat row `chatId` holds `word`. */
  predicate Holds(db: map<int, WordRow>, chatId: int, word: string)
  {
    exists i :: i in db && db[i].chatId == chatId && db[i].word == word
  }

  /** The `unique_together = (chat_id, word)` constraint of the table. */
  predicate Unique(db: map<int, WordRow>)
  {
    forall i, j :: i in db && j in db && db[i].chatId == db[j].chatId && db[i].word == db[j].word ==> i == j
  }

  predicate IsUpper(c: char)
  {
    'A' <= c <= 'Z'
  }

  /** `str.lower` on one character, for the ASCII letters. */
  function LowerChar(c: char): (d: char)
    ensures IsUpper(c) ==> d as int == c as int + 32
    ensures !IsUpper(c) ==> d == c
    ensures !IsUpper(d)
  {
    if IsUpper(c) then (c as int + 32) as char else c
  }

  /** `str.lower`, for the ASCII letters. */
  function Lower(s: string): (t: string)
    ensures |t| == |s|
    ensures forall i :: 0 <= i < |s| ==> t[i] == LowerChar(s[i])
  {
    if s == [] then [] else [LowerChar(s[0])] + Lower(s[1..])
  }

  /** A lower-cased word has no upper-case letter left. */
  lemma LowerHasNoUpper(s: string)
    ensures forall i :: 0 <= i < |Lower(s)| ==> !IsUpper(Lower(s)[i])
  {
  }

  /** Lower-casing twice is lower-casing once. */
  lemma LowerIdempotent(s: string)
    ensures Lower(Lower(s)) == Lower(s)
  {
    var t := Lower(s);
    assert forall i :: 0 <= i < |t| ==> Lower(t)[i] == LowerChar(LowerChar(s[i])) == t[i];
  }

  /** Two words that differ only in the case of their letters lower-case alike. */
  lemma LowerIgnoresCase(s: string, u: string)
    requires |s| == |u|
    requires forall i :: 0 <= i < |s| ==> LowerChar(s[i]) == LowerChar(u[i])
    ensures Lower(s) == Lower(u)
  {
  }

  /** `_make_cache_key`. */
  function CacheKey(tgChat: int, word: string): (k: Key)
    ensures k.0 == tgChat && k.1 == Lower(word)
    ensures forall i :: 0 <= i < |k.1| ==> !IsUpper(k.1[i])
  {
    LowerHasNoUpper(word);
    (tgChat, Lower(word))
  }

  /** Lower-casing the word before making the key, as `add_word` and `remove_word` do, changes nothing. */
  lemma CacheKeyOfLowered(tgChat: int, word: string)
    ensures CacheKey(tgChat, Lower(word)) == CacheKey(tgChat, word)
  {
    LowerIdempotent(word);
  }

  /**
   * Two words give the same key in a chat exactly when they have the same
   * length and agree letter by letter once lower-cased, so "BadWord" and
   * "badword" share one key.
   */
  lemma SameKeyIffEqualIgnoringCase(tgChat: int, s: string, u: string)
    ensures CacheKey(tgChat, s) == CacheKey(tgChat, u)
            <==> |s| == |u| && forall i :: 0 <= i < |s| ==> LowerChar(s[i]) == LowerChar(u[i])
  {
    if |s| == |u| && forall i :: 0 <= i < |s| ==> LowerChar(s[i]) == LowerChar(u[i]) {
      LowerIgnoresCase(s, u);
    }
    if CacheKey(tgChat, s) == CacheKey(tgChat, u) {
      assert Lower(s) == Lower(u);
      assert forall i :: 0 <= i < |s| ==> LowerChar(s[i]) == Lower(s)[i] == Lower(u)[i] == LowerChar(u[i]);
    }
  }

  class WordFilterCache {
    var cache: map<Key, WordRecord>
    /** The users table: Telegram id to row id. */
    var users: map<int, int>
    /** The chats table: Telegram id to row id. */
    var chats: map<int, int>
    /** The word filter table, by row id. */
    var db: map<int, WordRow>
    var nextId: int
    ghost var storeCalls: nat

    /**
     * A record is cached under its own chat and word, every row id is
     * below the next one to be handed out, and no chat holds a word twice
     * in the table.
     */
    ghost predicate Valid()
      reads this
    {
      && (forall k :: k in cache ==> cache[k].tgChat == k.0 && cache[k].word == k.1)
      && (forall i :: i in db ==> i < nextId)
      && Unique(db)
    }

    constructor (userRows: map<int, int>, chatRows: map<int, int>, wordRows: map<int, WordRow>, firstId: int)
      requires forall i :: i in wordRows ==> i < firstId
      requires Unique(wordRows)
      ensures Valid()
      ensures cache == map[] && users == userRows && chats == chatRows && db == wordRows
      ensures nextId == firstId && storeCalls == 0
    {
      cache := map[];
      users := userRows;
      chats := chatRows;
      db := wordRows;
      nextId := firstId;
      storeCalls := 0;
    }

    /** `WordFilterRepository.ensure_user`. */
    method EnsureUser(tg: int) returns (id: int)
      requires Valid()
      modifies this`users, this`nextId, this`storeCalls
      ensures Valid()
      ensures users == old(users)[tg := id]
      ensures tg in old(users) ==> id == old(users)[tg] && nextId == old(nextId)
      ensures tg !in old(users) ==> id == old(nextId) && nextId == old(nextId) + 1
      ensures storeCalls == old(storeCalls) + 1
    {
      storeCalls := storeCalls + 1;
      if tg in users {
        id := users[tg];
      } else {
        id := nextId;
        users := users[tg := id];
        nextId := nextId + 1;
      }
    }

    /** `WordFilterRepository.ensure_chat`. */
    method EnsureChat(tg: int) returns (id: int)
      requires Valid()
      modifies this`chats, this`nextId, this`storeCalls
      ensures Valid()
      ensures chats == old(chats)[tg := id]
      ensures tg in old(chats) ==> id == old(chats)[tg] && nextId == old(nextId)
      ensures tg !in old(chats) ==> id == old(nextId) && nextId == old(nextId) + 1
      ensures storeCalls == old(storeCalls) + 1
    {
      storeCalls := storeCalls + 1;
      if tg in chats {
        id := chats[tg];
      } else {
        id := nextId;
        chats := chats[tg := id];
        nextId := nextId + 1;
      }
    }

    /**
     * `add_word`: a word already cached for the chat (in any case) is left
     * alone with no store call; otherwise the chat and a truthy adder are
     * ensured and a row is created. When the chat's rows already hold the
     * lower-cased word (stored but not cached), the create raises
     * IntegrityError and nothing is cached; otherwise the word is cached
     * lower-cased under the new row's id. Other chats' words are untouched
     * either way, and an existing chat row is reused.
     */
    method AddWord(tgChat: int, word: string, addedByTg: Option<int>, now: int) returns (raised: Option<Error>)
      requires Valid()
      modifies this`cache, this`users, this`chats, this`db, this`nextId, this`storeCalls
      ensures Valid()
      ensures raised.None? ==> CacheKey(tgChat, word) in cache
      ensures CacheKey(tgChat, word) in old(cache) ==>
                raised.None?
                && cache == old(cache) && db == old(db) && users == old(users) && chats == old(chats)
                && nextId == old(nextId) && storeCalls == old(storeCalls)
      ensures CacheKey(tgChat, word) !in old(cache) ==>
                tgChat in chats && (tgChat in old(chats) ==> chats == old(chats))
                && (raised.Some? <==> Holds(old(db), chats[tgChat], Lower(word)))
      ensures raised.Some? ==> raised == Some(IntegrityError) && cache == old(cache) && db == old(db)
      ensures CacheKey(tgChat, word) !in old(cache) && raised.None? ==>
                var r := cache[CacheKey(tgChat, word)];
                && cache == old(cache)[CacheKey(tgChat, word) := r]
                && r.chatId == chats[tgChat]
                && r.word == Lower(word) && r.addedByTg == addedByTg && r.addedAt == now
                && (TruthyId(addedByTg) <==> r.addedById.Some?)
                && (TruthyId(addedByTg) ==> addedByTg.value in users && r.addedById == Some(users[addedByTg.value]))
                && r.id !in old(db)
                && db == old(db)[r.id := WordRow(r.chatId, r.word, r.addedById, now)]
      ensures forall c :: c != tgChat ==> GetChatWords(c) == old(GetChatWords(c))
    {
      var lowered := Lower(word);
      LowerIdempotent(word);
      var key := CacheKey(tgChat, lowered);
      if key in cache {
        return None;
      }
      raised := StoreWord(tgChat, lowered, addedByTg, now);
    }

    /**
     * The part of `add_word` past the cache lookup, for a lower-cased word
     * not cached for the chat: the parent rows are ensured, then the row is
     * created and, unless that raised, the word cached.
     */
    method StoreWord(tgChat: int, lowered: string, addedByTg: Option<int>, now: int) returns (raised: Option<Error>)
      requires Valid()
      requires Lower(lowered) == lowered && (tgChat, lowered) !in cache
      modifies this`cache, this`users, this`chats, this`db, this`nextId, this`storeCalls
      ensures Valid()
      ensures tgChat in chats && (tgChat in old(chats) ==> chats == old(chats))
      ensures raised.Some? <==> Holds(old(db), chats[tgChat], lowered)
      ensures raised.Some? ==> raised == Some(IntegrityError) && cache == old(cache) && db == old(db)
      ensures raised.None? ==>
                (tgChat, lowered) in cache
                && var r := cache[(tgChat, lowered)];
                && cache == old(cache)[(tgChat, lowered) := r]
                && r.chatId == chats[tgChat]
                && r.word == lowered && r.addedByTg == addedByTg && r.addedAt == now
                && (TruthyId(addedByTg) <==> r.addedById.Some?)
                && (TruthyId(addedByTg) ==> addedByTg.value in users && r.addedById == Some(users[addedByTg.value]))
                && r.id !in old(db)
                && db == old(db)[r.id := WordRow(r.chatId, r.word, r.addedById, now)]
    {
      var chatId := EnsureChat(tgChat);
      var addedById := None;
      if TruthyId(addedByTg) {
        var uid := EnsureUser(addedByTg.value);
        addedById := Some(uid);
      }
      var created := CreateRow(WordRow(chatId, lowered, addedById, now));
      if created.Err? {
        return Some(created.error);
      }
      cache := cache[(tgChat, lowered) := WordRecord(created.value, tgChat, chatId, lowered, addedByTg, addedById, now)];
      raised := None;
    }

    /**
     * The `WordFilter.create` call of `add_word`: IntegrityError when the
     * chat already holds the word in the table; otherwise the row is
     * inserted under a fresh id.
     */
    method CreateRow(row: WordRow) returns (r: Result<int>)
      requires Valid()
      modifies this`db, this`nextId, this`storeCalls
      ensures Valid()
      ensures r.Err? <==> Holds(old(db), row.chatId, row.word)
      ensures r.Err? ==> r.error == IntegrityError && db == old(db) && nextId == old(nextId)
      ensures r.Ok? ==> r.value !in old(db) && db == old(db)[r.value := row] && nextId > old(nextId)
      ensures storeCalls == old(storeCalls) + 1
    {
      storeCalls := storeCalls + 1;
      if exists i :: i in db && db[i].chatId == row.chatId && db[i].word == row.word {
        return Err(IntegrityError);
      }
      var id := nextId;
      db := db[id := row];
      nextId := nextId + 1;
      r := Ok(id);
    }

    /** `WordFilterRepository.delete_record`: when the chat has a row, delete every row of it holding the lower-cased word. */
    method DeleteRecord(tgChat: int, word: string)
      modifies this`db, this`storeCalls
      ensures tgChat !in chats ==> db == old(db)
      ensures tgChat in chats ==> db == map i | i in old(db) && !(old(db)[i].chatId == chats[tgChat] && old(db)[i].word == Lower(word)) :: old(db)[i]
      ensures storeCalls == old(storeCalls) + 1
    {
      storeCalls := storeCalls + 1;
      if tgChat !in chats {
        return;
      }
      var chatId := chats[tgChat];
      var w := Lower(word);
      db := map i | i in db && !(db[i].chatId == chatId && db[i].word == w) :: db[i];
    }

    /**
     * `remove_word`: evict the word (absent is fine), then delete its rows;
     * afterwards the chat's words no longer hold it, and when the chat has
     * a row no row of that chat holds it either.
     */
    method RemoveWord(tgChat: int, word: string)
      requires Valid()
      modifies this`cache, this`db, this`storeCalls
      ensures Valid()
      ensures cache == old(cache) - {CacheKey(tgChat, word)}
      ensures Lower(word) !in GetChatWords(tgChat)
      ensures forall c :: c != tgChat ==> GetChatWords(c) == old(GetChatWords(c))
      ensures db.Keys <= old(db).Keys
      ensures tgChat in chats ==> forall i :: i in db ==> !(db[i].chatId == chats[tgChat] && db[i].word == Lower(word))
      ensures tgChat in chats ==>
                db == map i | i in old(db) && !(old(db)[i].chatId == chats[tgChat] && old(db)[i].word == Lower(word)) :: old(db)[i]
      ensures tgChat !in chats ==> db == old(db)
    {
      var lowered := Lower(word);
      LowerIdempotent(word);
      var key := CacheKey(tgChat, lowered);
      cache := cache - {key};
      DeleteRecord(tgChat, lowered);
    }

    /** `get_chat_words(c)`: the words cached for chat `c`, each once. */
    function GetChatWords(tgChat: int): (r: set<string>)
      requires Valid()
      reads this
      ensures forall w :: w in r <==> (tgChat, w) in cache
    {
      set k | k in cache && k.0 == tgChat :: cache[k].word
    }

    /**
     * `get_chat_words` after `add_word`: the chat's words gain the
     * lower-cased word once, whatever they held before, unless the create
     * raised, in which case they are as they were.
     */
    method AddThenList(tgChat: int, word: string, addedByTg: Option<int>, now: int) returns (words: set<string>, raised: Option<Error>)
      requires Valid()
      modifies this`cache, this`users, this`chats, this`db, this`nextId, this`storeCalls
      ensures Valid()
      ensures raised.None? ==> words == old(GetChatWords(tgChat)) + {Lower(word)} && CacheKey(tgChat, word) in cache
      ensures raised.Some? ==> words == old(GetChatWords(tgChat))
      ensures raised.Some? ==>
                raised == Some(IntegrityError) && cache == old(cache) && db == old(db)
                && CacheKey(tgChat, word) !in cache
                && tgChat in chats && Holds(db, chats[tgChat], Lower(word))
      ensures words == GetChatWords(tgChat)
    {
      raised := AddWord(tgChat, word, addedByTg, now);
      words := GetChatWords(tgChat);
      if raised.None? {
        forall w | w in words
          ensures w in old(GetChatWords(tgChat)) + {Lower(word)}
        {
          assert (tgChat, w) in cache;
        }
        forall w | w in old(GetChatWords(tgChat)) + {Lower(word)}
          ensures w in words
        {
          if w != Lower(word) {
            assert (tgChat, w) in old(cache);
          }
        }
      }
    }

    /**
     * A second `add_word` of the same word, in any case, changes nothing
     * and calls no store after a first add that succeeded; after one that
     * raised, it raises again. Either way the chat's words are those left
     * by the first add.
     */
    method AddTwice(tgChat: int, word: string, again: string, addedByTg: Option<int>, now: int)
      returns (first: Option<Error>, second: Option<Error>)
      requires Valid()
      requires Lower(again) == Lower(word)
      modifies this`cache, this`users, this`chats, this`db, this`nextId, this`storeCalls
      ensures Valid()
      ensures second == first
      ensures first.None? ==> GetChatWords(tgChat) == old(GetChatWords(tgChat)) + {Lower(word)}
      ensures first.Some? ==> GetChatWords(tgChat) == old(GetChatWords(tgChat))
    {
      var words;
      words, first := AddThenList(tgChat, word, addedByTg, now);
      ghost var afterFirst := cache;
      assert CacheKey(tgChat, again) == CacheKey(tgChat, word);
      second := AddWord(tgChat, again, addedByTg, now);
      assert cache == afterFirst;
      assert GetChatWords(tgChat) == words;
    }

    /** `sync`: nothing is ever dirty, so there is nothing to write. */
    method Sync()
      ensures db == old(db) && cache == old(cache) && storeCalls == old(storeCalls)
    {
    }
  }
}
