/**
 * The tenant-aware cache wrapper. It keeps two physical entries per logical one, under hashed names, in a base
 * strategy; it is proved to behave as one plain map per normalized tenant.
 */
module CacheService {
  import opened Options
  import opened CachePatterns
  import opened CacheKeys
  import opened Sequences

  // A cached value: a metadata record, a string, or anything else. `Nil` and the empty string are falsy.
  datatype Value = Metadata(key: string) | Text(text: string) | Opaque(id: nat) | Nil

  datatype Entry = Entry(value: Value, tags: set<string>)

  // The base strategy: a map that drops nothing by itself.
  class BaseStrategy {
    var entries: map<string, Entry>

    constructor ()
      ensures entries == map[]
    {
      entries := map[];
    }

    method Get(key: string) returns (value: Option<Value>)
      ensures value == if key in entries then Some(entries[key].value) else None
    {
      value := if key in entries then Some(entries[key].value) else None;
    }

    method Set(key: string, value: Value, tags: set<string>)
      modifies this
      ensures entries == old(entries)[key := Entry(value, tags)]
    {
      entries := entries[key := Entry(value, tags)];
    }

    method Has(key: string) returns (found: bool)
      ensures found == (key in entries)
    {
      found := key in entries;
    }

    method Delete(key: string) returns (found: bool)
      modifies this
      ensures found == (key in old(entries)) && entries == old(entries) - {key}
    {
      found := key in entries;
      entries := entries - {key};
    }

    method DeleteByTags(tags: set<string>) returns (removed: nat)
      modifies this
      ensures entries == map k | k in old(entries) && old(entries)[k].tags !! tags :: old(entries)[k]
      ensures removed == |set k | k in old(entries) && !(old(entries)[k].tags !! tags)|
    {
      removed := |set k | k in entries && !(entries[k].tags !! tags)|;
      entries := map k | k in entries && entries[k].tags !! tags :: entries[k];
    }

    // Every matching key once, in some order.
    method Keys(pattern: string) returns (keys: seq<string>)
      ensures forall k :: k in keys <==> k in entries && Matches(k, pattern)
      ensures Distinct(keys)
    {
      keys := [];
      var left := entries.Keys;
      while left != {}
        invariant left <= entries.Keys
        invariant forall k :: k in keys <==> k in entries.Keys - left && Matches(k, pattern)
        invariant Distinct(keys)
        decreases left
      {
        var k :| k in left;
        left := left - {k};
        var matched := MatchCacheKeyPattern(k, pattern);
        if matched { keys := keys + [k]; }
      }
    }
  }

  // What the caller sees of one entry.
  datatype Logical = Logical(value: Value, tags: set<string>)

  // What stands for one logical entry, and for which id a physical entry stands.
  ghost predicate Stands(hash: string -> string, entries: map<string, Entry>, id: Id, l: Logical) {
    && Clean(id.tenant)
    && Primary(hash, id) in entries && Meta(hash, id) in entries
    && entries[Primary(hash, id)] == Entry(l.value, TagSet(hash, id.tenant, l.tags, true))
    && entries[Meta(hash, id)] == Entry(Metadata(id.key), TagSet(hash, id.tenant, l.tags, true))
  }

  ghost predicate Owned(hash: string -> string, content: map<Id, Logical>, p: string) {
    exists id :: id in content && (p == Primary(hash, id) || p == Meta(hash, id))
  }

  // The physical entries are exactly the paired representation of the logical map.
  ghost predicate Represents(hash: string -> string, entries: map<string, Entry>, content: map<Id, Logical>) {
    && (forall id | id in content :: Stands(hash, entries, id, content[id]))
    && (forall p | p in entries :: Owned(hash, content, p))
  }

  // Deleting the entries of one id leaves every other id alone.
  lemma Others(hash: string -> string, id: Id, ids: set<Id>)
    requires HashOk(hash) && Clean(id.tenant) && forall o | o in ids :: Clean(o.tenant)
    ensures forall o | o in ids && o != id ::
              && Primary(hash, o) != Primary(hash, id) && Primary(hash, o) != Meta(hash, id)
              && Meta(hash, o) != Primary(hash, id) && Meta(hash, o) != Meta(hash, id)
  {
    forall o | o in ids && o != id
      ensures Primary(hash, o) != Primary(hash, id) && Primary(hash, o) != Meta(hash, id)
      ensures Meta(hash, o) != Primary(hash, id) && Meta(hash, o) != Meta(hash, id)
    {
      KeysDistinct(hash, o, id);
      KeysDistinct(hash, id, o);
    }
  }

  lemma NoEntryWithoutContent(hash: string -> string, entries: map<string, Entry>, content: map<Id, Logical>, id: Id)
    requires HashOk(hash) && Clean(id.tenant) && Represents(hash, entries, content)
    ensures Primary(hash, id) in entries <==> id in content
    ensures Meta(hash, id) in entries <==> id in content
  {
    hide Primary, Meta, TagSet, Clean, HashOk;
    Others(hash, id, content.Keys);
    KeysDistinct(hash, id, id);
  }

  function Written(hash: string -> string, entries: map<string, Entry>, id: Id, l: Logical): map<string, Entry> {
    var tags := TagSet(hash, id.tenant, l.tags, true);
    entries[Primary(hash, id) := Entry(l.value, tags)][Meta(hash, id) := Entry(Metadata(id.key), tags)]
  }

  lemma StandsNow(hash: string -> string, entries: map<string, Entry>, id: Id, l: Logical)
    requires HashOk(hash) && Clean(id.tenant)
    ensures Stands(hash, Written(hash, entries, id, l), id, l)
  {
    hide Primary, Meta, TagSet, Clean, HashOk;
    KeysDistinct(hash, id, id);
  }

  lemma StandsStill(hash: string -> string, entries: map<string, Entry>, id: Id, l: Logical, o: Id, m: Logical)
    requires HashOk(hash) && Clean(id.tenant) && o != id && Stands(hash, entries, o, m)
    ensures Stands(hash, Written(hash, entries, id, l), o, m)
  {
    hide Primary, Meta, TagSet, Clean, HashOk;
    KeysDistinct(hash, o, id);
    KeysDistinct(hash, id, o);
  }

  lemma OwnedStill(hash: string -> string, entries: map<string, Entry>, content: map<Id, Logical>, id: Id, l: Logical, p: string)
    requires p in Written(hash, entries, id, l) && (p in entries ==> Owned(hash, content, p))
    ensures Owned(hash, content[id := l], p)
  {
    hide Primary, Meta, TagSet;
    if p != Primary(hash, id) && p != Meta(hash, id) {
      var i :| i in content && (p == Primary(hash, i) || p == Meta(hash, i));
      assert i in content[id := l];
    } else {
      assert id in content[id := l];
    }
  }

  lemma RepresentsSet(hash: string -> string, entries: map<string, Entry>, content: map<Id, Logical>, id: Id, l: Logical)
    requires HashOk(hash) && Clean(id.tenant) && Represents(hash, entries, content)
    ensures Represents(hash, Written(hash, entries, id, l), content[id := l])
  {
    hide Primary, Meta, TagSet, Clean, HashOk, Stands, Owned, Written;
    var after := Written(hash, entries, id, l);
    StandsNow(hash, entries, id, l);
    forall o | o in content && o != id ensures Stands(hash, after, o, content[o]) {
      StandsStill(hash, entries, id, l, o, content[o]);
    }
    forall p | p in after ensures Owned(hash, content[id := l], p) {
      OwnedStill(hash, entries, content, id, l, p);
    }
  }

  // Removing both physical entries of a set of ids removes exactly those logical entries.
  lemma RepresentsRemove(hash: string -> string, entries: map<string, Entry>, entries': map<string, Entry>,
                         content: map<Id, Logical>, gone: set<Id>)
    requires HashOk(hash) && Represents(hash, entries, content)
    requires forall p | p in entries' :: p in entries && entries'[p] == entries[p]
    requires forall id | id in content && id in gone :: Primary(hash, id) !in entries' && Meta(hash, id) !in entries'
    requires forall id | id in content && id !in gone :: Primary(hash, id) in entries' && Meta(hash, id) in entries'
    ensures Represents(hash, entries', content - gone)
  {
    hide Primary, Meta, TagSet, Clean, HashOk;
    forall p | p in entries'
      ensures exists i :: i in content - gone && (p == Primary(hash, i) || p == Meta(hash, i))
    {
      var i :| i in content && (p == Primary(hash, i) || p == Meta(hash, i));
      assert i in content - gone;
    }
  }

  lemma StaysInMap<K, V>(m: map<K, V>, k: K, p: K, q: K)
    requires k in m && k != p && k != q
    ensures k in m - {p, q}
  {
  }

  lemma RemoveTwice<K, V>(m: map<K, V>, p: K, q: K)
    ensures m - {p} - {q} == m - {p, q}
  {
  }

  lemma GoneFromMap<K, V>(m: map<K, V>, p: K, q: K)
    ensures p !in m - {p, q} && q !in m - {p, q}
    ensures forall k | k in m - {p, q} :: k in m && (m - {p, q})[k] == m[k]
  {
  }

  lemma BothPresent(hash: string -> string, entries: map<string, Entry>, content: map<Id, Logical>, o: Id)
    requires Represents(hash, entries, content) && o in content
    ensures Primary(hash, o) in entries && Meta(hash, o) in entries && Clean(o.tenant)
  {
    hide Primary, Meta, TagSet, Clean;
  }

  lemma OthersStay(hash: string -> string, entries: map<string, Entry>, content: map<Id, Logical>, id: Id, o: Id)
    requires HashOk(hash) && Clean(id.tenant) && Represents(hash, entries, content) && o in content && o != id
    ensures Primary(hash, o) in entries - {Primary(hash, id), Meta(hash, id)}
    ensures Meta(hash, o) in entries - {Primary(hash, id), Meta(hash, id)}
  {
    hide *;
    BothPresent(hash, entries, content, o);
    KeysDistinct(hash, o, id);
    KeysDistinct(hash, id, o);
    StaysInMap(entries, Primary(hash, o), Primary(hash, id), Meta(hash, id));
    StaysInMap(entries, Meta(hash, o), Primary(hash, id), Meta(hash, id));
  }

  lemma RepresentsDelete(hash: string -> string, entries: map<string, Entry>, content: map<Id, Logical>, id: Id)
    requires HashOk(hash) && Clean(id.tenant) && Represents(hash, entries, content)
    ensures Represents(hash, entries - {Primary(hash, id), Meta(hash, id)}, content - {id})
  {
    hide *;
    var entries' := entries - {Primary(hash, id), Meta(hash, id)};
    forall o | o in content && o !in {id} ensures Primary(hash, o) in entries' && Meta(hash, o) in entries' {
      OthersStay(hash, entries, content, id, o);
    }
    GoneFromMap(entries, Primary(hash, id), Meta(hash, id));
    RepresentsRemove(hash, entries, entries', content, {id});
  }

  function Physical(hash: string -> string, ids: set<Id>): set<string> {
    (set id | id in ids :: Primary(hash, id)) + (set id | id in ids :: Meta(hash, id))
  }

  lemma PhysicalStep(hash: string -> string, rest: set<Id>, id: Id)
    requires HashOk(hash) && Clean(id.tenant) && id !in rest && forall o | o in rest :: Clean(o.tenant)
    ensures Physical(hash, rest + {id}) == Physical(hash, rest) + {Primary(hash, id)} + {Meta(hash, id)}
    ensures Primary(hash, id) !in Physical(hash, rest) && Meta(hash, id) !in Physical(hash, rest)
    ensures Primary(hash, id) != Meta(hash, id)
  {
    Others(hash, id, rest);
    KeysDistinct(hash, id, id);
    hide Primary, Meta, Clean, HashOk;
    var all := rest + {id};
    assert (set i | i in all :: Primary(hash, i)) == (set i | i in rest :: Primary(hash, i)) + {Primary(hash, id)};
    assert (set i | i in all :: Meta(hash, i)) == (set i | i in rest :: Meta(hash, i)) + {Meta(hash, id)};
  }

  lemma TwoMore(s: set<string>, p: string, m: string)
    requires p !in s && m !in s && p != m
    ensures |s + {p} + {m}| == |s| + 2
  {
    assert m !in s + {p};
  }

  // Two physical entries per logical one, no more and no less.
  lemma {:induction false} TwoPerId(hash: string -> string, ids: set<Id>)
    requires HashOk(hash) && forall id | id in ids :: Clean(id.tenant)
    ensures |Physical(hash, ids)| == 2 * |ids|
  {
    if ids == {} {
      assert Physical(hash, ids) == {};
    } else {
      hide *;
      var id :| id in ids;
      var rest := ids - {id};
      assert rest + {id} == ids && |ids| == |rest| + 1;
      TwoPerId(hash, rest);
      PhysicalStep(hash, rest, id);
      TwoMore(Physical(hash, rest), Primary(hash, id), Meta(hash, id));
    }
  }

  ghost predicate Shares(a: set<string>, b: set<string>) {
    exists x :: x in a && x in b && x != ""
  }

  // `normalizeDeletionCount`: half of the physical count, rounded up.
  function NormalizeDeletionCount(raw: nat): nat {
    (raw + 1) / 2
  }

  // The original key recorded under a metadata key; falsy values and other shapes record none.
  function OriginalOf(value: Value): Option<string> {
    match value
    case Metadata(key) => if key == "" then None else Some(key)
    case Text(text) => if text == "" then None else Some(text)
    case _ => None
  }

  // Trimmed, without the empty ones and without repetition.
  function NormalizePatterns(patterns: seq<string>): set<string> {
    set p | p in patterns && Trim(p) != "" :: Trim(p)
  }

  ghost predicate MatchesSome(key: string, patterns: set<string>) {
    exists p :: p in patterns && Matches(key, p)
  }

  ghost predicate Wanted(id: Id, patterns: set<string>) {
    id.key != "" && MatchesSome(id.key, patterns)
  }

  method AnyPatternMatches(key: string, patterns: set<string>) returns (found: bool)
    ensures found <==> MatchesSome(key, patterns)
  {
    var left := patterns;
    while left != {}
      invariant left <= patterns && forall p | p in patterns - left :: !Matches(key, p)
      decreases left
    {
      var p :| p in left;
      var matched := MatchCacheKeyPattern(key, p);
      if matched { return true; }
      left := left - {p};
    }
    found := false;
  }

  lemma MetaOfContent(hash: string -> string, entries: map<string, Entry>, content: map<Id, Logical>, id: Id)
    requires Represents(hash, entries, content) && id in content
    ensures Meta(hash, id) in entries && entries[Meta(hash, id)].value == Metadata(id.key)
  {
    hide Primary, Meta, TagSet, Clean;
  }

  lemma Owner(hash: string -> string, entries: map<string, Entry>, content: map<Id, Logical>, p: string)
    returns (id: Id)
    requires Represents(hash, entries, content) && p in entries
    ensures id in content && Clean(id.tenant) && (p == Primary(hash, id) || p == Meta(hash, id))
  {
    hide Primary, Meta, TagSet, Clean;
    id :| id in content && (p == Primary(hash, id) || p == Meta(hash, id));
  }

  // `ids` names, one by one, the logical entries behind a list of metadata keys.
  ghost predicate Behind(hash: string -> string, entries: map<string, Entry>, content: map<Id, Logical>,
                         metaKeys: seq<string>, ids: seq<Id>) {
    && |ids| == |metaKeys| && Distinct(ids)
    && (forall j | 0 <= j < |ids| :: ids[j] in content && Clean(ids[j].tenant) && metaKeys[j] == Meta(hash, ids[j]))
    && (forall j | 0 <= j < |ids| :: metaKeys[j] in entries && entries[metaKeys[j]].value == Metadata(ids[j].key))
  }

  lemma {:induction false} Owners(hash: string -> string, entries: map<string, Entry>, content: map<Id, Logical>,
                                  metaKeys: seq<string>) returns (ids: seq<Id>)
    requires Represents(hash, entries, content) && Distinct(metaKeys) && forall p | p in metaKeys :: p in entries
    requires forall id | id in content :: Primary(hash, id) !in metaKeys
    ensures Behind(hash, entries, content, metaKeys, ids)
  {
    hide Represents, Primary, Meta, Clean;
    if metaKeys == [] {
      ids := [];
    } else {
      var n := |metaKeys| - 1;
      ids := Owners(hash, entries, content, metaKeys[..n]);
      var id := Owner(hash, entries, content, metaKeys[n]);
      MetaOfContent(hash, entries, content, id);
      ids := ids + [id];
    }
  }

  // What the pattern of a tenant finds is the metadata of the entries of that tenant, all of them, each once.
  lemma IdsOfTenant(hash: string -> string, entries: map<string, Entry>, content: map<Id, Logical>, name: string,
                    metaKeys: seq<string>) returns (ids: seq<Id>)
    requires HashOk(hash) && Clean(name) && Represents(hash, entries, content) && Distinct(metaKeys)
    requires forall p :: p in metaKeys <==> p in entries && Matches(p, KeyPrefix(name) + "meta:" + "*")
    ensures Behind(hash, entries, content, metaKeys, ids)
    ensures forall id :: id in ids <==> id in content && id.tenant == name
  {
    forall id | id in content
      ensures Primary(hash, id) !in metaKeys && (Meta(hash, id) in metaKeys <==> id.tenant == name)
    {
      hide Represents, HashOk, Clean, KeyPrefix, Matches;
      BothPresent(hash, entries, content, id);
      TenantPattern(hash, name, id);
    }
    hide Represents, Primary, Meta, HashOk, Clean, KeyPrefix, Matches;
    ids := Owners(hash, entries, content, metaKeys);
    forall id ensures id in ids <==> id in content && id.tenant == name {
      MembersBehind(hash, entries, content, metaKeys, ids, id);
    }
  }

  lemma IdsOfAll(hash: string -> string, entries: map<string, Entry>, content: map<Id, Logical>, metaKeys: seq<string>)
    returns (ids: seq<Id>)
    requires HashOk(hash) && Represents(hash, entries, content) && Distinct(metaKeys)
    requires forall p :: p in metaKeys <==> p in entries && Matches(p, ALL_TENANTS_PATTERN)
    ensures Behind(hash, entries, content, metaKeys, ids)
    ensures forall id :: id in ids <==> id in content
  {
    forall id | id in content ensures Primary(hash, id) !in metaKeys && Meta(hash, id) in metaKeys {
      hide Represents, HashOk, Clean, Matches;
      BothPresent(hash, entries, content, id);
      AllTenantsPattern(hash, id);
    }
    hide Represents, Primary, Meta, HashOk, Clean, Matches;
    ids := Owners(hash, entries, content, metaKeys);
    forall id ensures id in ids <==> id in content {
      MembersBehind(hash, entries, content, metaKeys, ids, id);
    }
  }

  lemma MembersBehind(hash: string -> string, entries: map<string, Entry>, content: map<Id, Logical>,
                      metaKeys: seq<string>, ids: seq<Id>, id: Id)
    requires HashOk(hash) && Represents(hash, entries, content) && Behind(hash, entries, content, metaKeys, ids)
    ensures id in ids <==> id in content && Meta(hash, id) in metaKeys
  {
    hide Represents, Primary, Meta, HashOk, Clean;
    if id in content && Meta(hash, id) in metaKeys {
      var j :| 0 <= j < |metaKeys| && metaKeys[j] == Meta(hash, id);
      BothPresent(hash, entries, content, id);
      KeysDistinct(hash, id, ids[j]);
    }
  }

  ghost predicate Without(before: map<Id, Logical>, gone: set<Id>, after: map<Id, Logical>) {
    after == before - gone
  }

  lemma StillThere(before: map<Id, Logical>, gone: set<Id>, after: map<Id, Logical>, id: Id)
    requires Without(before, gone, after) && id in before && id !in gone
    ensures id in after
  {
  }

  lemma RemoveMore(before: map<Id, Logical>, done: set<Id>, now: map<Id, Logical>, more: set<Id>, after: map<Id, Logical>)
    requires Without(before, done, now) && Without(now, more, after)
    ensures Without(before, done + more, after)
  {
  }

  // `done` holds the `n` wanted ones among the first `i` ids.
  ghost predicate Collected(ids: seq<Id>, i: nat, patterns: set<string>, done: set<Id>, n: nat) {
    i <= |ids| && |done| == n && forall id :: id in done <==> id in ids[..i] && Wanted(id, patterns)
  }

  lemma CollectOne(ids: seq<Id>, i: nat, patterns: set<string>, done: set<Id>, n: nat)
    requires Distinct(ids) && i < |ids| && Collected(ids, i, patterns, done, n)
    ensures ids[i] !in done
    ensures Wanted(ids[i], patterns) ==> Collected(ids, i + 1, patterns, done + {ids[i]}, n + 1)
    ensures !Wanted(ids[i], patterns) ==> Collected(ids, i + 1, patterns, done + {}, n)
  {
    hide Wanted;
    assert ids[..i + 1] == ids[..i] + [ids[i]];
  }

  // What a caller can do under one tenant.
  datatype TenantOp =
    | Put(key: string, value: Value, tags: set<string>)
    | Remove(key: string)
    | RemoveTags(tags: set<string>)
    | RemoveAll

  // The entries of every tenant but `name` are the same.
  ghost predicate SameForOthers(before: map<Id, Logical>, after: map<Id, Logical>, name: string) {
    && (forall id | id in before && id.tenant != name :: id in after && after[id] == before[id])
    && (forall id | id in after && id.tenant != name :: id in before)
  }

  class TenantAwareCache {
    const hash: string -> string
    const base: BaseStrategy
    ghost var content: map<Id, Logical>

    ghost predicate Valid()
      reads this, base
    {
      HashOk(hash) && Represents(hash, base.entries, content)
    }

    constructor (hash: string -> string)
      requires HashOk(hash)
      ensures Valid() && fresh(base) && content == map[]
    {
      this.hash := hash;
      this.base := new BaseStrategy();
      this.content := map[];
    }

    method Get(tenant: Option<string>, key: string) returns (value: Option<Value>)
      requires Valid()
      ensures var id := Id(NormalizeTenantKey(tenant), key);
              value == if id in content then Some(content[id].value) else None
    {
      ghost var id := Id(NormalizeTenantKey(tenant), key);
      NormalizedIsClean(tenant);
      NoEntryWithoutContent(hash, base.entries, content, id);
      value := base.Get(Primary(hash, Id(NormalizeTenantKey(tenant), key)));
    }

    method Has(tenant: Option<string>, key: string) returns (found: bool)
      requires Valid()
      ensures found == (Id(NormalizeTenantKey(tenant), key) in content)
    {
      NormalizedIsClean(tenant);
      NoEntryWithoutContent(hash, base.entries, content, Id(NormalizeTenantKey(tenant), key));
      found := base.Has(Primary(hash, Id(NormalizeTenantKey(tenant), key)));
    }

    method Set(tenant: Option<string>, key: string, value: Value, tags: set<string>)
      requires Valid()
      modifies this, base
      ensures Valid() && content == old(content)[Id(NormalizeTenantKey(tenant), key) := Logical(value, tags)]
    {
      var id := Id(NormalizeTenantKey(tenant), key);
      NormalizedIsClean(tenant);
      RepresentsSet(hash, base.entries, content, id, Logical(value, tags));
      var hashedTags := TagSet(hash, id.tenant, tags, true);
      base.Set(Primary(hash, id), value, hashedTags);
      base.Set(Meta(hash, id), Metadata(key), hashedTags);
      content := content[id := Logical(value, tags)];
    }

    // Both physical entries of one logical entry go together.
    method DeletePair(ghost id: Id, primaryKey: string, metadataKey: string) returns (found: bool)
      requires Valid() && Clean(id.tenant)
      requires primaryKey == Primary(hash, id) && metadataKey == Meta(hash, id)
      modifies this, base
      ensures Valid() && found == (id in old(content)) && content == old(content) - {id}
    {
      NoEntryWithoutContent(hash, base.entries, content, id);
      RepresentsDelete(hash, base.entries, content, id);
      hide *;
      RemoveTwice(base.entries, primaryKey, metadataKey);
      found := base.Delete(primaryKey);
      var _ := base.Delete(metadataKey);
      content := content - {id};
    }

    method Delete(tenant: Option<string>, key: string) returns (found: bool)
      requires Valid()
      modifies this, base
      ensures Valid()
      ensures found == (Id(NormalizeTenantKey(tenant), key) in old(content))
      ensures content == old(content) - {Id(NormalizeTenantKey(tenant), key)}
    {
      var id := Id(NormalizeTenantKey(tenant), key);
      NormalizedIsClean(tenant);
      found := DeletePair(id, Primary(hash, id), Meta(hash, id));
    }

    // The ids a deletion by physical tags hits.
    ghost function Hit(tags: set<string>): set<Id>
      reads this
    {
      set id | id in content && !(TagSet(hash, id.tenant, content[id].tags, true) !! tags)
    }

    // Every physical entry carries the tags of its logical entry, so a tag deletion always removes whole pairs.
    method RemoveTagged(tags: set<string>) returns (removed: nat)
      requires Valid()
      modifies this, base
      ensures Valid() && content == old(content) - old(Hit(tags))
      ensures removed == 2 * |old(Hit(tags))|
    {
      ghost var gone := Hit(tags);
      ghost var doomed := set k | k in base.entries && !(base.entries[k].tags !! tags);
      assert doomed == Physical(hash, gone) by {
        forall k | k in doomed ensures k in Physical(hash, gone) {
          var id :| id in content && (k == Primary(hash, id) || k == Meta(hash, id));
          assert id in gone;
        }
      }
      assert forall id | id in gone :: Clean(id.tenant);
      TwoPerId(hash, gone);
      removed := base.DeleteByTags(tags);
      forall id | id in content && id in gone
        ensures Primary(hash, id) !in base.entries && Meta(hash, id) !in base.entries
      {
        assert Primary(hash, id) in Physical(hash, gone) && Meta(hash, id) in Physical(hash, gone);
      }
      RepresentsRemove(hash, old(base.entries), base.entries, content, gone);
      content := content - gone;
    }

    // The entries of this tenant that share a non-empty tag with the request.
    ghost function Tagged(tenant: string, tags: set<string>): set<Id>
      reads this
    {
      set id | id in content && id.tenant == tenant && Shares(content[id].tags, tags)
    }

    lemma HitIsTagged(name: string, tags: set<string>)
      requires Valid() && Clean(name)
      ensures Hit(TagSet(hash, name, tags, false)) == Tagged(name, tags)
    {
      hide TagSet, HashOk;
      var scopedTags := TagSet(hash, name, tags, false);
      forall id | id in content ensures id in Hit(scopedTags) <==> id in Tagged(name, tags) {
        TagHit(hash, id.tenant, name, content[id].tags, tags);
      }
    }

    lemma NoTagHitsNothing()
      ensures Hit({}) == {}
    {
    }

    method DeleteByTags(tenant: Option<string>, tags: set<string>) returns (removed: nat)
      requires Valid()
      modifies this, base
      ensures Valid()
      ensures content == old(content) - old(Tagged(NormalizeTenantKey(tenant), tags))
      ensures removed == |old(Tagged(NormalizeTenantKey(tenant), tags))|
    {
      var name := NormalizeTenantKey(tenant);
      NormalizedIsClean(tenant);
      var scopedTags := TagSet(hash, name, tags, false);
      HitIsTagged(name, tags);
      NoTagHitsNothing();
      hide Hit, Tagged, TagSet, Represents, HashOk, Clean, Shares;
      if scopedTags == {} { return 0; }
      var raw := RemoveTagged(scopedTags);
      removed := NormalizeDeletionCount(raw);
    }

    ghost function OfTenant(tenant: string): set<Id>
      reads this
    {
      set id | id in content && id.tenant == tenant
    }

    method Clear(tenant: Option<string>) returns (removed: nat)
      requires Valid()
      modifies this, base
      ensures Valid()
      ensures content == old(content) - old(OfTenant(NormalizeTenantKey(tenant)))
      ensures removed == |old(OfTenant(NormalizeTenantKey(tenant)))|
    {
      var name := NormalizeTenantKey(tenant);
      NormalizedIsClean(tenant);
      assert Hit({ScopeTag(name)}) == OfTenant(name) by {
        forall id | id in content ensures id in Hit({ScopeTag(name)}) <==> id in OfTenant(name) {
          ScopeHit(hash, id.tenant, name, content[id].tags);
        }
      }
      var raw := RemoveTagged({ScopeTag(name)});
      removed := NormalizeDeletionCount(raw);
    }

    // Any sequence of operations under one tenant.
    method Perform(tenant: Option<string>, ops: seq<TenantOp>)
      requires Valid()
      modifies this, base
      ensures Valid() && SameForOthers(old(content), content, NormalizeTenantKey(tenant))
    {
      hide NormalizeTenantKey, HashOk, Represents;
      var i := 0;
      while i < |ops|
        invariant 0 <= i <= |ops| && Valid() && SameForOthers(old(content), content, NormalizeTenantKey(tenant))
      {
        match ops[i] {
          case Put(key, value, tags) => Set(tenant, key, value, tags);
          case Remove(key) => var _ := Delete(tenant, key);
          case RemoveTags(tags) => var _ := DeleteByTags(tenant, tags);
          case RemoveAll => var _ := Clear(tenant);
        }
        i := i + 1;
      }
    }

    // The logical keys a listing of this tenant shows. The empty key is stored but never listed, and an empty
    // pattern filters nothing.
    ghost predicate Listed(name: string, pattern: Option<string>, key: string)
      reads this
    {
      Id(name, key) in content && key != "" && (pattern.None? || pattern.value == "" || Matches(key, pattern.value))
    }

    method Keys(tenant: Option<string>, pattern: Option<string>) returns (originals: seq<string>)
      requires Valid()
      ensures forall k :: k in originals <==> Listed(NormalizeTenantKey(tenant), pattern, k)
      ensures Distinct(originals)
    {
      var name := NormalizeTenantKey(tenant);
      NormalizedIsClean(tenant);
      hide NormalizeTenantKey, Clean, HashOk, Represents, Meta, Primary, KeyPrefix, Matches;
      var metaKeys := base.Keys(KeyPrefix(name) + "meta:" + "*");
      ghost var ids := IdsOfTenant(hash, base.entries, content, name, metaKeys);
      originals := [];
      var i := 0;
      while i < |metaKeys|
        invariant 0 <= i <= |metaKeys|
        invariant forall k :: k in originals <==> Listed(name, pattern, k) && Id(name, k) in ids[..i]
        invariant Distinct(originals)
      {
        assert ids[i] in ids && ids[..i + 1] == ids[..i] + [ids[i]];
        var value := base.Get(metaKeys[i]);
        var original := if value.Some? then OriginalOf(value.value) else None;
        if original.Some? {
          var wanted := true;
          if pattern.Some? && pattern.value != "" { wanted := MatchCacheKeyPattern(original.value, pattern.value); }
          if wanted { originals := originals + [original.value]; }
        }
        i := i + 1;
      }
      assert ids[..i] == ids;
    }

    // One round of the purge below: drop the entry behind a metadata key when its recorded key matches.
    method PurgeOne(ghost id: Id, metadataKey: string, normalizedPatterns: set<string>) returns (gone: bool)
      requires Valid() && id in content && Clean(id.tenant) && metadataKey == Meta(hash, id)
      modifies this, base
      ensures Valid() && gone == Wanted(id, normalizedPatterns)
      ensures Without(old(content), if gone then {id} else {}, content)
    {
      RebuildsPrimary(hash, id);
      MetaOfContent(hash, base.entries, content, id);
      hide HashOk, Represents, Meta, Primary, Matches, RebuildPrimary, Clean, MatchesSome;
      gone := false;
      var value := base.Get(metadataKey);
      var original := if value.Some? then OriginalOf(value.value) else None;
      if original.Some? {
        var wanted := AnyPatternMatches(original.value, normalizedPatterns);
        var primaryKey := RebuildPrimary(metadataKey);
        if wanted && primaryKey.Some? { gone := DeletePair(id, primaryKey.value, metadataKey); }
      }
    }

    // The entries of every tenant whose non-empty key matches one of the given patterns, trimmed and not blank.
    ghost function Purged(patterns: seq<string>): set<Id>
      reads this
    {
      set id | id in content && id.key != "" && exists p :: p in patterns && Trim(p) != "" && Matches(id.key, Trim(p))
    }

    lemma PurgedAreWanted(patterns: seq<string>)
      ensures forall id :: id in Purged(patterns) <==> id in content && Wanted(id, NormalizePatterns(patterns))
    {
      hide Matches, Trim;
      forall id | id in content ensures id in Purged(patterns) <==> Wanted(id, NormalizePatterns(patterns)) {
        if p :| p in patterns && Trim(p) != "" && Matches(id.key, Trim(p)) { assert Trim(p) in NormalizePatterns(patterns); }
      }
    }

    // The purge loop, over all the metadata keys.
    method PurgeEach(ghost ids: seq<Id>, metaKeys: seq<string>, normalizedPatterns: set<string>)
      returns (deleted: nat, ghost done: set<Id>)
      requires Valid() && Behind(hash, base.entries, content, metaKeys, ids)
      modifies this, base
      ensures Valid() && Without(old(content), done, content)
      ensures Collected(ids, |ids|, normalizedPatterns, done, deleted)
    {
      hide *;
      PurgeStart(hash, base.entries, content, metaKeys, ids, normalizedPatterns);
      ghost var kept := base.entries;
      done := {};
      deleted := 0;
      var i := 0;
      while i < |metaKeys|
        invariant 0 <= i <= |metaKeys|
        invariant Valid() && Without(old(content), done, content)
        invariant |ids| == |metaKeys| && Collected(ids, i, normalizedPatterns, done, deleted)
      {
        BehindAt(hash, kept, old(content), metaKeys, ids, i);
        CollectOne(ids, i, normalizedPatterns, done, deleted);
        StillThere(old(content), done, content, ids[i]);
        ghost var before := content;
        var gone := PurgeOne(ids[i], metaKeys[i], normalizedPatterns);
        ghost var more := if gone then {ids[i]} else {};
        RemoveMore(old(content), done, before, more, content);
        if gone { deleted := deleted + 1; }
        done := done + more;
        i := i + 1;
      }
    }

    method DeleteByPatternsAcrossScopes(patterns: seq<string>) returns (deleted: nat)
      requires Valid()
      modifies this, base
      ensures Valid()
      ensures content == old(content) - old(Purged(patterns))
      ensures deleted == |old(Purged(patterns))|
    {
      var normalizedPatterns := NormalizePatterns(patterns);
      ghost var purged := Purged(patterns);
      PurgedAreWanted(patterns);
      if normalizedPatterns == {} {
        assert purged == {};
        return 0;
      }
      hide Represents, Meta, Primary, HashOk, Matches, Wanted, NormalizePatterns, Purged;
      var metaKeys := base.Keys(ALL_TENANTS_PATTERN);
      ghost var ids := IdsOfAll(hash, base.entries, content, metaKeys);
      ghost var done: set<Id>;
      deleted, done := PurgeEach(ids, metaKeys, normalizedPatterns);
      assert done == purged by { assert ids[..|ids|] == ids; }
    }
  }

  ghost predicate PlainName(s: string) {
    s != "" && forall c | c in s :: 'a' <= c <= 'z' || 'A' <= c <= 'Z' || '0' <= c <= '9' || c in "._-"
  }

  // Two tenants whose names need no normalizing and differ: whatever is done under one of them, the other reads,
  // finds, lists and clears what it did before.
  method TenantsAreApart(cache: TenantAwareCache, a: string, b: string, ops: seq<TenantOp>, key: string, pattern: Option<string>)
    returns (valueBefore: Option<Value>, value: Option<Value>, keysBefore: seq<string>, keys: seq<string>, cleared: nat)
    requires cache.Valid() && a != b && PlainName(a) && PlainName(b)
    modifies cache, cache.base
    ensures cache.Valid() && value == valueBefore && multiset(keys) == multiset(keysBefore)
    ensures valueBefore == if Id(b, key) in old(cache.content) then Some(old(cache.content)[Id(b, key)].value) else None
    ensures cleared == |set id | id in old(cache.content) && id.tenant == b|
  {
    PlainTenantsKeepTheirNames(a);
    PlainTenantsKeepTheirNames(b);
    hide NormalizeTenantKey, HashOk, Represents, Matches;
    valueBefore := cache.Get(Some(b), key);
    keysBefore := cache.Keys(Some(b), pattern);
    cache.Perform(Some(a), ops);
    value := cache.Get(Some(b), key);
    keys := cache.Keys(Some(b), pattern);
    SameMembers(keys, keysBefore);
    assert cache.OfTenant(b) == old(cache.OfTenant(b));
    cleared := cache.Clear(Some(b));
  }

  lemma SameMembers<T>(a: seq<T>, b: seq<T>)
    requires Distinct(a) && Distinct(b) && forall x :: x in a <==> x in b
    ensures multiset(a) == multiset(b)
  {
    forall x ensures multiset(a)[x] == multiset(b)[x] {
      CountOfDistinct(a, x);
      CountOfDistinct(b, x);
    }
  }

  lemma {:induction false} CountOfDistinct<T>(s: seq<T>, x: T)
    requires Distinct(s)
    ensures multiset(s)[x] == if x in s then 1 else 0
  {
    if s != [] {
      var n := |s| - 1;
      CountOfDistinct(s[..n], x);
      assert s == s[..n] + [s[n]];
    }
  }

  lemma PurgeStart(hash: string -> string, entries: map<string, Entry>, content: map<Id, Logical>,
                   metaKeys: seq<string>, ids: seq<Id>, patterns: set<string>)
    requires Behind(hash, entries, content, metaKeys, ids)
    ensures |ids| == |metaKeys| && Without(content, {}, content) && Collected(ids, 0, patterns, {}, 0)
  {
    hide Wanted, Meta, Clean;
  }

  lemma BehindAt(hash: string -> string, entries: map<string, Entry>, content: map<Id, Logical>,
                 metaKeys: seq<string>, ids: seq<Id>, i: nat)
    requires Behind(hash, entries, content, metaKeys, ids) && i < |metaKeys|
    ensures |ids| == |metaKeys| && Distinct(ids)
    ensures ids[i] in content && Clean(ids[i].tenant) && metaKeys[i] == Meta(hash, ids[i])
  {
    hide Clean, Meta;
  }
}
