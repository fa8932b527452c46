/** The memory of the search: pairs of a set of operations done and the state they led to,
    kept in buckets by the hash of the set. */
module Memo {
  import opened Bitset

  datatype CacheEntry<S> = CacheEntry(linearized: Bits, state: S)

  datatype Key = Key(hash: Word)

  /** Buckets by hash. */
  type Cache<S> = map<Key, seq<CacheEntry<S>>>

  /** What the word arrays of the stored sets hold. */
  type Contents = map<array<Word>, seq<Word>>

  /** The stored sets are still what they were when they were stored. */
  ghost predicate Kept(contents: Contents)
    reads contents.Keys
  {
    forall a :: a in contents ==> a[..] == contents[a]
  }

  ghost predicate IsPair<S>(e: CacheEntry<S>, p: (set<nat>, S), contents: Contents) {
    e.linearized.words in contents && (Members(contents[e.linearized.words]), e.state) == p
  }

  ghost predicate EntryOk<S>(e: CacheEntry<S>, key: Key, pairs: set<(set<nat>, S)>, width: nat, contents: Contents) {
    && e.linearized.words in contents && |contents[e.linearized.words]| == width
    && Key(Hash(contents[e.linearized.words])) == key
    && (Members(contents[e.linearized.words]), e.state) in pairs
  }

  ghost predicate Held<S>(cache: Cache<S>, key: Key, j: int, p: (set<nat>, S), contents: Contents) {
    key in cache && 0 <= j < |cache[key]| && IsPair(cache[key][j], p, contents)
  }

  /** The buckets hold exactly `pairs`, each in the bucket of its own hash. */
  ghost predicate Stores<S>(cache: Cache<S>, pairs: set<(set<nat>, S)>, width: nat, contents: Contents) {
    && (forall h, j {:trigger cache[h][j]} :: h in cache && 0 <= j < |cache[h]| ==> EntryOk(cache[h][j], h, pairs, width, contents))
    && (forall p :: p in pairs ==> exists h, j :: Held(cache, h, j, p, contents))
  }

  function Bucket<S>(cache: Cache<S>, key: Key): seq<CacheEntry<S>> {
    if key in cache then cache[key] else []
  }

  /** An equal pair can only be in the bucket of the set's own hash. */
  lemma HeldInBucket<S>(cache: Cache<S>, words: seq<Word>, state: S, pairs: set<(set<nat>, S)>, contents: Contents) returns (j: nat)
    requires Stores(cache, pairs, |words|, contents) && (Members(words), state) in pairs
    ensures Held(cache, Key(Hash(words)), j, (Members(words), state), contents)
  {
    var h, i :| Held(cache, h, i, (Members(words), state), contents);
    assert EntryOk(cache[h][i], h, pairs, |words|, contents);
    MembersDetermine(words, contents[cache[h][i].linearized.words]);
    j := i;
  }

  /** Whether an equal pair was stored, in whatever bucket. */
  method CacheContains<S(==)>(cache: Cache<S>, entry: CacheEntry<S>, ghost pairs: set<(set<nat>, S)>, ghost contents: Contents)
    returns (found: bool)
    requires Stores(cache, pairs, entry.linearized.words.Length, contents) && Kept(contents)
    ensures found <==> (entry.linearized.Elements(), entry.state) in pairs
  {
    hide Hash, Members;
    ghost var words := entry.linearized.words[..];
    var code := entry.linearized.HashCode();
    var bucket := Bucket(cache, Key(code));
    ghost var at := |bucket|;
    if (Members(words), entry.state) in pairs {
      at := HeldInBucket(cache, words, entry.state, pairs, contents);
    }
    var i := 0;
    while i < |bucket|
      invariant i <= |bucket|
      invariant (Members(words), entry.state) in pairs ==> i <= at
    {
      var elem := bucket[i];
      assert EntryOk(cache[Key(code)][i], Key(code), pairs, |words|, contents);
      var same := entry.linearized.Equals(elem.linearized);
      if same && entry.state == elem.state {
        return true;
      }
      i := i + 1;
    }
    return false;
  }

  function Added<S>(cache: Cache<S>, key: Key, entry: CacheEntry<S>): Cache<S> {
    cache[key := Bucket(cache, key) + [entry]]
  }

  /** Appending an entry to the bucket of its hash. */
  lemma AddStores<S>(cache: Cache<S>, entry: CacheEntry<S>, words: seq<Word>, pairs: set<(set<nat>, S)>, contents: Contents)
    requires Stores(cache, pairs, |words|, contents) && entry.linearized.words !in contents
    ensures Stores(Added(cache, Key(Hash(words)), entry), pairs + {(Members(words), entry.state)}, |words|,
                   contents[entry.linearized.words := words])
  {
    hide Hash, Members;
    var key, pair := Key(Hash(words)), (Members(words), entry.state);
    var cache', pairs', contents' := Added(cache, key, entry), pairs + {pair}, contents[entry.linearized.words := words];
    forall h, j | h in cache' && 0 <= j < |cache'[h]| ensures EntryOk(cache'[h][j], h, pairs', |words|, contents') {
      if h != key || j < |Bucket(cache, key)| {
        assert cache'[h][j] == cache[h][j] && EntryOk(cache[h][j], h, pairs, |words|, contents);
      }
    }
    forall p | p in pairs' ensures exists h, j :: Held(cache', h, j, p, contents') {
      if p in pairs {
        var h, j :| Held(cache, h, j, p, contents);
        assert Held(cache', h, j, p, contents');
      } else {
        assert Held(cache', key, |Bucket(cache, key)|, p, contents');
      }
    }
  }

  /** Remembers a pair unless an equal one is there already. */
  method Remember<S(==)>(cache: Cache<S>, entry: CacheEntry<S>, ghost pairs: set<(set<nat>, S)>, ghost contents: Contents)
    returns (isNew: bool, cache': Cache<S>, ghost contents': Contents)
    requires Stores(cache, pairs, entry.linearized.words.Length, contents) && Kept(contents) && entry.linearized.words !in contents
    ensures isNew <==> (entry.linearized.Elements(), entry.state) !in pairs
    ensures Stores(cache', if isNew then pairs + {(entry.linearized.Elements(), entry.state)} else pairs,
                   entry.linearized.words.Length, contents')
    ensures Kept(contents') && contents'.Keys <= contents.Keys + {entry.linearized.words}
  {
    var found := CacheContains(cache, entry, pairs, contents);
    cache', contents', isNew := cache, contents, !found;
    if !found {
      var hash := entry.linearized.HashCode();
      cache' := Added(cache, Key(hash), entry);
      contents' := contents[entry.linearized.words := entry.linearized.words[..]];
      AddStores(cache, entry, entry.linearized.words[..], pairs, contents);
    }
  }
}
