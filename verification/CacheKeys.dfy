/**
 * The physical names the tenant-aware cache gives to its entries: how a tenant is normalized, how the primary key,
 * the metadata key and the tags of a logical entry are spelled, and why no two of them ever collide.
 */
module CacheKeys {
  import opened Options
  import opened CachePatterns
  import opened Text

  // The digest is taken to be injective and to consist of lower-case hexadecimal digits.
  predicate IsHex(c: char) {
    '0' <= c <= '9' || 'a' <= c <= 'f'
  }

  ghost predicate HashOk(hash: string -> string) {
    && (forall a, b :: hash(a) == hash(b) ==> a == b)
    && (forall a, i :: 0 <= i < |hash(a)| ==> IsHex(hash(a)[i]))
  }

  function TrimStart(s: string): string {
    if s != "" && IsBlank(s[0]) then TrimStart(s[1..]) else s
  }

  function TrimEnd(s: string): string {
    if s != "" && IsBlank(s[|s| - 1]) then TrimEnd(s[..|s| - 1]) else s
  }

  function Trim(s: string): string {
    TrimEnd(TrimStart(s))
  }

  predicate IsTenantChar(c: char) {
    'a' <= c <= 'z' || 'A' <= c <= 'Z' || '0' <= c <= '9' || c == '.' || c == '_' || c == '-'
  }

  // Each UTF-16 unit that is no tenant character becomes an underscore; a character beyond the basic plane has two.
  function Sanitize(s: string): string {
    if s == "" then ""
    else (if IsTenantChar(s[0]) then [s[0]] else if s[0] > '\U{FFFF}' then "__" else "_") + Sanitize(s[1..])
  }

  lemma {:induction false} SanitizedIsClean(s: string)
    ensures forall c | c in Sanitize(s) :: IsTenantChar(c)
    ensures |Sanitize(s)| >= |s|
    ensures (forall c | c in s :: IsTenantChar(c)) ==> Sanitize(s) == s
  {
    if s != "" {
      SanitizedIsClean(s[1..]);
      assert s == [s[0]] + s[1..];
    }
  }

  function NormalizeTenantKey(raw: Option<string>): string {
    var value := if raw.Some? then Trim(raw.value) else "";
    if value == "" then "global" else Sanitize(value)
  }

  predicate Clean(tenant: string) {
    tenant != "" && forall c | c in tenant :: IsTenantChar(c)
  }

  lemma TrimKeeps(s: string)
    requires s != "" && IsTenantChar(s[0]) && IsTenantChar(s[|s| - 1])
    ensures Trim(s) == s
  {
  }

  // Normalizing yields a clean name, and normalizing again changes nothing.
  lemma NormalizedIsClean(raw: Option<string>)
    ensures Clean(NormalizeTenantKey(raw))
    ensures NormalizeTenantKey(Some(NormalizeTenantKey(raw))) == NormalizeTenantKey(raw)
  {
    var tenant := NormalizeTenantKey(raw);
    assert IsTenantChar('g') && IsTenantChar('l') && IsTenantChar('o') && IsTenantChar('b') && IsTenantChar('a');
    if raw.Some? { SanitizedIsClean(Trim(raw.value)); }
    SanitizedIsClean(tenant);
    hide Sanitize;
    assert tenant[0] in tenant && tenant[|tenant| - 1] in tenant;
    TrimKeeps(tenant);
  }

  ghost predicate AllWhite(s: string) {
    forall c | c in s :: c in WHITE_SPACE
  }

  // Nothing to trim: empty, or with other characters at both ends.
  ghost predicate Trimmed(s: string) {
    s == "" || (s[0] !in WHITE_SPACE && s[|s| - 1] !in WHITE_SPACE)
  }

  lemma {:induction false} TrimStartStrips(pre: string, rest: string)
    requires AllWhite(pre) && (rest != "" ==> rest[0] !in WHITE_SPACE)
    ensures TrimStart(pre + rest) == rest
  {
    if pre == "" {
      assert pre + rest == rest;
      if rest != "" { BlankSpelled(rest[0]); }
    } else {
      BlankSpelled(pre[0]);
      assert (pre + rest)[1..] == pre[1..] + rest && pre[0] in pre;
      TrimStartStrips(pre[1..], rest);
    }
  }

  lemma {:induction false} TrimEndStrips(core: string, post: string)
    requires AllWhite(post) && Trimmed(core)
    ensures TrimEnd(core + post) == core
  {
    if post == "" {
      assert core + post == core;
      if core != "" { BlankSpelled(core[|core| - 1]); }
    } else {
      var n := |post| - 1;
      BlankSpelled(post[n]);
      assert (core + post)[..|core + post| - 1] == core + post[..n] && post[n] in post;
      TrimEndStrips(core, post[..n]);
    }
  }

  lemma {:induction false} TrimStrips(pre: string, core: string, post: string)
    requires AllWhite(pre) && AllWhite(post) && Trimmed(core)
    ensures Trim(pre + core + post) == core
  {
    if core == "" {
      assert pre + core + post == (pre + post) + "";
      TrimStartStrips(pre + post, "");
    } else {
      assert pre + core + post == pre + (core + post);
      TrimStartStrips(pre, core + post);
      TrimEndStrips(core, post);
    }
  }

  lemma {:induction false} SanitizeConcat(a: string, b: string)
    ensures Sanitize(a + b) == Sanitize(a) + Sanitize(b)
  {
    if a == "" {
      assert a + b == b;
    } else {
      assert (a + b)[1..] == a[1..] + b;
      SanitizeConcat(a[1..], b);
    }
  }

  // What stands for one character of a raw tenant name.
  function Replacement(c: char): string {
    if 'a' <= c <= 'z' || 'A' <= c <= 'Z' || '0' <= c <= '9' || c in "._-" then [c]
    else if c > '\U{FFFF}' then "__" else "_"
  }

  lemma SanitizeOne(c: char)
    ensures Sanitize([c]) == Replacement(c)
  {
    assert [c][1..] == "";
    assert Sanitize([c]) == Replacement(c) + "";
  }

  // The name a raw tenant gets, however it is padded: none or only white space gives "global"; otherwise letters,
  // digits, dots, underscores and hyphens stay, any other character becomes one underscore, or two beyond the basic
  // plane, and the name of a text is put together from the names of its parts.
  lemma TenantNames(pre: string, core: string, post: string)
    requires AllWhite(pre) && AllWhite(post) && Trimmed(core)
    ensures NormalizeTenantKey(None) == "global"
    ensures core == "" ==> NormalizeTenantKey(Some(pre + core + post)) == "global"
    ensures core != "" ==> NormalizeTenantKey(Some(pre + core + post)) == Sanitize(core)
    ensures forall a, b | core == a + b :: Sanitize(core) == Sanitize(a) + Sanitize(b)
    ensures forall c: char :: Sanitize([c]) == Replacement(c)
  {
    TrimStrips(pre, core, post);
    forall a, b | core == a + b ensures Sanitize(core) == Sanitize(a) + Sanitize(b) { SanitizeConcat(a, b); }
    forall c: char ensures Sanitize([c]) == Replacement(c) { SanitizeOne(c); }
    hide Sanitize, TrimEnd, TrimStart;
  }

  // A name that needs no normalizing is its own: different such tenants are kept apart.
  lemma PlainTenantsKeepTheirNames(s: string)
    requires s != "" && forall c | c in s :: 'a' <= c <= 'z' || 'A' <= c <= 'Z' || '0' <= c <= '9' || c in "._-"
    ensures NormalizeTenantKey(Some(s)) == s
  {
    assert s[0] in s && s[|s| - 1] in s;
    TrimKeeps(s);
    SanitizedIsClean(s);
  }

  // A logical entry: a key of one normalized tenant.
  datatype Id = Id(tenant: string, key: string)

  const MARKER := ":key:meta:"

  function KeyPrefix(tenant: string): string {
    "tenant:" + tenant + ":key:"
  }

  function Primary(hash: string -> string, id: Id): string {
    KeyPrefix(id.tenant) + "k:" + hash(id.key)
  }

  function Meta(hash: string -> string, id: Id): string {
    KeyPrefix(id.tenant) + "meta:" + hash(id.key)
  }

  function ScopeTag(tenant: string): string {
    "tenant:" + tenant + ":tag:__scope__"
  }

  function HashedTag(hash: string -> string, tenant: string, tag: string): string {
    "tenant:" + tenant + ":tag:t:" + hash(tag)
  }

  // `buildTagSet`: empty tags are dropped.
  function TagSet(hash: string -> string, tenant: string, tags: set<string>, includeScope: bool): set<string> {
    (set tag | tag in tags && tag != "" :: HashedTag(hash, tenant, tag))
    + (if includeScope then {ScopeTag(tenant)} else {})
  }

  // ---------------------------------------------------------------------------------------------------------
  // Reading colon-separated names
  // ---------------------------------------------------------------------------------------------------------

  function Colons(s: string): nat {
    if s == "" then 0 else (if s[0] == ':' then 1 else 0) + Colons(s[1..])
  }

  lemma {:induction false} ColonsConcat(a: string, b: string)
    ensures Colons(a + b) == Colons(a) + Colons(b)
  {
    if a == "" { assert a + b == b; }
    else {
      ColonsConcat(a[1..], b);
      assert (a + b)[1..] == a[1..] + b;
    }
  }

  lemma {:induction false} NoColons(s: string)
    ensures Colons(s) == 0 <==> ':' !in s
  {
    if s != "" {
      NoColons(s[1..]);
      assert s == [s[0]] + s[1..];
    }
  }

  // The first field of a colon-separated name can be read off.
  lemma FirstField(a: string, b: string, a': string, b': string)
    requires ':' !in a && ':' !in a' && a + ":" + b == a' + ":" + b'
    ensures a == a' && b == b'
  {
    var s := a + ":" + b;
    assert s[|a|] == ':' && s[|a'|] == ':';
    assert forall i | 0 <= i < |a| :: s[i] == a[i];
    assert forall i | 0 <= i < |a'| :: s[i] == a'[i];
    assert |a| == |a'|;
    assert a == s[..|a|] && a' == s[..|a'|];
    assert b == s[|a| + 1..] && b' == s[|a'| + 1..];
  }

  lemma HashHasNoColon(hash: string -> string, key: string)
    requires HashOk(hash)
    ensures ':' !in hash(key)
  {
  }


  lemma SameTenant(t: string, u: string, rest: string, rest': string)
    requires Clean(t) && Clean(u) && "tenant:" + t + ":" + rest == "tenant:" + u + ":" + rest'
    ensures t == u && rest == rest'
  {
    assert ("tenant:" + t + ":" + rest)[7..] == t + ":" + rest;
    assert ("tenant:" + u + ":" + rest')[7..] == u + ":" + rest';
    FirstField(t, rest, u, rest');
  }

  lemma SpelledOut(hash: string -> string, id: Id)
    ensures Primary(hash, id) == "tenant:" + id.tenant + ":" + ("key:k:" + hash(id.key))
    ensures Meta(hash, id) == "tenant:" + id.tenant + ":" + ("key:meta:" + hash(id.key))
  {
    assert Primary(hash, id) == "tenant:" + id.tenant + ":" + ("key:k:" + hash(id.key));
    assert Meta(hash, id) == "tenant:" + id.tenant + ":" + ("key:meta:" + hash(id.key));
  }

  // No two physical keys collide, within a tenant or across tenants.
  lemma KeysDistinct(hash: string -> string, a: Id, b: Id)
    requires HashOk(hash) && Clean(a.tenant) && Clean(b.tenant)
    ensures Primary(hash, a) == Primary(hash, b) ==> a == b
    ensures Meta(hash, a) == Meta(hash, b) ==> a == b
    ensures Primary(hash, a) != Meta(hash, b)
  {
    SpelledOut(hash, a);
    SpelledOut(hash, b);
    var pa, pb := "key:k:" + hash(a.key), "key:k:" + hash(b.key);
    var ma, mb := "key:meta:" + hash(a.key), "key:meta:" + hash(b.key);
    assert pa[6..] == hash(a.key) && pb[6..] == hash(b.key) && ma[9..] == hash(a.key) && mb[9..] == hash(b.key);
    if Primary(hash, a) == Primary(hash, b) { SameTenant(a.tenant, b.tenant, pa, pb); }
    if Meta(hash, a) == Meta(hash, b) { SameTenant(a.tenant, b.tenant, ma, mb); }
    assert pa[4] == 'k' && mb[4] == 'm';
    if Primary(hash, a) == Meta(hash, b) { SameTenant(a.tenant, b.tenant, pa, mb); }
  }

  // Tags of different tenants never meet, and no user tag is mistaken for the scope tag.
  lemma TagsDistinct(hash: string -> string, t: string, u: string, x: string, y: string)
    requires HashOk(hash) && Clean(t) && Clean(u)
    ensures HashedTag(hash, t, x) == HashedTag(hash, u, y) ==> t == u && x == y
    ensures HashedTag(hash, t, x) != ScopeTag(u)
    ensures ScopeTag(t) == ScopeTag(u) ==> t == u
  {
    var hx, hy, sc := "tag:t:" + hash(x), "tag:t:" + hash(y), "tag:__scope__";
    assert HashedTag(hash, t, x) == "tenant:" + t + ":" + hx;
    assert HashedTag(hash, u, y) == "tenant:" + u + ":" + hy;
    assert ScopeTag(t) == "tenant:" + t + ":" + sc && ScopeTag(u) == "tenant:" + u + ":" + sc;
    assert hx[6..] == hash(x) && hy[6..] == hash(y) && hx[4] == 't' && sc[4] == '_';
    if HashedTag(hash, t, x) == HashedTag(hash, u, y) { SameTenant(t, u, hx, hy); }
    if HashedTag(hash, t, x) == ScopeTag(u) { SameTenant(t, u, hx, sc); }
    if ScopeTag(t) == ScopeTag(u) { SameTenant(t, u, sc, sc); }
  }

  // An entry written for tenant `t` with these tags is hit by a tag deletion of tenant `u` exactly when the tenants
  // agree and a non-empty tag is shared.
  lemma TagHit(hash: string -> string, t: string, u: string, stored: set<string>, asked: set<string>)
    requires HashOk(hash) && Clean(t) && Clean(u)
    ensures TagSet(hash, t, stored, true) !! TagSet(hash, u, asked, false)
            <==> !(t == u && exists x :: x in stored && x in asked && x != "")
  {
    forall x, y ensures HashedTag(hash, t, x) == HashedTag(hash, u, y) ==> t == u && x == y { TagsDistinct(hash, t, u, x, y); }
    forall y ensures HashedTag(hash, u, y) != ScopeTag(t) { TagsDistinct(hash, u, t, y, y); }
    if t == u && exists x :: x in stored && x in asked && x != "" {
      var x :| x in stored && x in asked && x != "";
      assert HashedTag(hash, t, x) in TagSet(hash, t, stored, true) && HashedTag(hash, t, x) in TagSet(hash, u, asked, false);
    }
  }

  lemma ScopeHit(hash: string -> string, t: string, u: string, stored: set<string>)
    requires HashOk(hash) && Clean(t) && Clean(u)
    ensures TagSet(hash, t, stored, true) !! {ScopeTag(u)} <==> t != u
  {
    forall x ensures HashedTag(hash, t, x) != ScopeTag(u) { TagsDistinct(hash, t, u, x, x); }
    TagsDistinct(hash, t, u, "", "");
    assert ScopeTag(t) in TagSet(hash, t, stored, true);
  }

  // ---------------------------------------------------------------------------------------------------------
  // Finding metadata keys by pattern, and the primary key behind a metadata key
  // ---------------------------------------------------------------------------------------------------------

  lemma CleanHasNoWildcard(tenant: string)
    requires Clean(tenant)
    ensures '*' !in KeyPrefix(tenant) + "meta:" && '?' !in KeyPrefix(tenant) + "meta:" && ':' !in tenant
  {
  }

  // The pattern of one tenant finds the metadata keys of that tenant and nothing else the cache writes.
  lemma TenantPattern(hash: string -> string, tenant: string, id: Id)
    requires HashOk(hash) && Clean(tenant) && Clean(id.tenant)
    ensures Matches(Meta(hash, id), KeyPrefix(tenant) + "meta:" + "*") <==> id.tenant == tenant
    ensures !Matches(Primary(hash, id), KeyPrefix(tenant) + "meta:" + "*")
  {
    var prefix := KeyPrefix(tenant) + "meta:";
    CleanHasNoWildcard(tenant);
    PrefixPattern(Meta(hash, id), prefix);
    PrefixPattern(Primary(hash, id), prefix);
    SpelledOut(hash, id);
    var m, p := "key:meta:" + hash(id.key), "key:k:" + hash(id.key);
    assert prefix == "tenant:" + tenant + ":" + "key:meta:";
    if prefix <= Meta(hash, id) {
      var rest := Meta(hash, id)[|prefix|..];
      assert Meta(hash, id) == "tenant:" + tenant + ":" + ("key:meta:" + rest);
      SameTenant(id.tenant, tenant, m, "key:meta:" + rest);
    }
    if prefix <= Primary(hash, id) {
      var rest := Primary(hash, id)[|prefix|..];
      assert Primary(hash, id) == "tenant:" + tenant + ":" + ("key:meta:" + rest);
      assert p[4] == 'k' && ("key:meta:" + rest)[4] == 'm';
      SameTenant(id.tenant, tenant, p, "key:meta:" + rest);
    }
  }

  // `needle` stands in `s` at index `i`.
  predicate OccursAt(s: string, needle: string, i: nat) {
    i + |needle| <= |s| && s[i..i + |needle|] == needle
  }

  // `String.prototype.lastIndexOf`.
  function LastIndexOf(s: string, needle: string): (i: int)
    ensures -1 <= i <= |s|
    ensures i >= 0 ==> OccursAt(s, needle, i)
    ensures forall j: nat | i < j :: !OccursAt(s, needle, j)
  {
    LastIndexUpTo(s, needle, |s|)
  }

  function LastIndexUpTo(s: string, needle: string, n: nat): (i: int)
    requires n <= |s|
    ensures -1 <= i <= n
    ensures i >= 0 ==> OccursAt(s, needle, i)
    ensures forall j: nat | i < j <= n :: !OccursAt(s, needle, j)
  {
    if OccursAt(s, needle, n) then n else if n == 0 then -1 else LastIndexUpTo(s, needle, n - 1)
  }

  lemma KindColons()
    ensures Colons(MARKER) == 3 && Colons(":key:k:") == 3
  {
    ColonsConcat(":key:", "meta:");
    ColonsConcat(":key:", "k:");
    ColonsConcat(":k", "ey:");
    ColonsConcat("me", "ta:");
    assert ":k" + "ey:" == ":key:" && "me" + "ta:" == "meta:";
    assert ":key:" + "meta:" == MARKER && ":key:" + "k:" == ":key:k:";
  }

  // Between the tenant and the end of a physical key there is no room for a second marker.
  lemma MarkerColons(s: string, i: nat)
    requires OccursAt(s, MARKER, i)
    ensures Colons(s) == Colons(s[..i]) + 3 + Colons(s[i + |MARKER|..])
  {
    assert s == s[..i] + (MARKER + s[i + |MARKER|..]);
    ColonsConcat(s[..i], MARKER + s[i + |MARKER|..]);
    ColonsConcat(MARKER, s[i + |MARKER|..]);
    KindColons();
  }

  lemma Tails(hash: string -> string, id: Id)
    ensures Primary(hash, id)[7..] == id.tenant + (":key:k:" + hash(id.key))
    ensures Meta(hash, id)[7..] == id.tenant + (MARKER + hash(id.key))
  {
    assert Primary(hash, id)[7..] == id.tenant + (":key:k:" + hash(id.key));
    assert Meta(hash, id)[7..] == id.tenant + (MARKER + hash(id.key));
  }

  lemma TailColons(hash: string -> string, id: Id)
    requires HashOk(hash) && Clean(id.tenant)
    ensures |Primary(hash, id)| >= 7 && Colons(Primary(hash, id)[7..]) == 3
    ensures |Meta(hash, id)| >= 7 && Colons(Meta(hash, id)[7..]) == 3
  {
    HashHasNoColon(hash, id.key);
    CleanHasNoWildcard(id.tenant);
    NoColons(hash(id.key));
    NoColons(id.tenant);
    KindColons();
    Tails(hash, id);
    hide Colons, Primary, Meta;
    ColonsConcat(id.tenant, ":key:k:" + hash(id.key));
    ColonsConcat(":key:k:", hash(id.key));
    ColonsConcat(id.tenant, MARKER + hash(id.key));
    ColonsConcat(MARKER, hash(id.key));
  }

  // In a name with three colons behind `tenant:`, a marker directly follows the tenant.
  lemma MarkerFollowsTenant(tail: string, tenant: string, rest: string, i: nat)
    requires ':' !in tenant && tail == tenant + ":" + rest && Colons(tail) == 3 && OccursAt(tail, MARKER, i)
    ensures i == |tenant| && rest == "key:meta:" + tail[i + |MARKER|..]
  {
    MarkerColons(tail, i);
    NoColons(tail[..i]);
    hide Colons;
    var after := tail[i + |MARKER|..];
    assert MARKER + after == ":" + ("key:meta:" + after);
    assert tail == tail[..i] + (MARKER + after);
    assert tail == tail[..i] + ":" + ("key:meta:" + after);
    FirstField(tenant, rest, tail[..i], "key:meta:" + after);
  }

  const ALL_TENANTS_PATTERN := "tenant:*:key:meta:*"

  lemma AllTenantsMeaning(key: string)
    ensures Matches(key, ALL_TENANTS_PATTERN) <==>
              "tenant:" <= key && exists k :: 0 <= k <= |key[7..]| && MARKER <= key[7..][k..]
  {
    assert ALL_TENANTS_PATTERN == "tenant:" + ("*" + (MARKER + "*"));
    LiteralFront(key, "tenant:", "*" + (MARKER + "*"));
    if "tenant:" <= key {
      var tail := key[7..];
      StarFront(tail, MARKER + "*");
      forall k | 0 <= k <= |tail| ensures Matches(tail[k..], MARKER + "*") <==> MARKER <= tail[k..] {
        PrefixPattern(tail[k..], MARKER);
      }
    }
  }

  // The cross-tenant pattern finds every metadata key and no primary key.
  lemma AllTenantsPattern(hash: string -> string, id: Id)
    requires HashOk(hash) && Clean(id.tenant)
    ensures Matches(Meta(hash, id), ALL_TENANTS_PATTERN)
    ensures !Matches(Primary(hash, id), ALL_TENANTS_PATTERN)
  {
    Tails(hash, id);
    AllTenantsMeaning(Meta(hash, id));
    AllTenantsMeaning(Primary(hash, id));
    var tail := Meta(hash, id)[7..];
    assert tail[|id.tenant|..] == MARKER + hash(id.key);
    var primary := Primary(hash, id)[7..];
    forall k | 0 <= k <= |primary| ensures !(MARKER <= primary[k..]) {
      NoMarkerInPrimary(hash, id, k);
    }
  }

  lemma NoMarkerInPrimary(hash: string -> string, id: Id, k: nat)
    requires HashOk(hash) && Clean(id.tenant)
    ensures !OccursAt(Primary(hash, id)[7..], MARKER, k)
  {
    TailColons(hash, id);
    Tails(hash, id);
    CleanHasNoWildcard(id.tenant);
    var primary := Primary(hash, id)[7..];
    var rest := "key:k:" + hash(id.key);
    assert primary == id.tenant + ":" + rest;
    assert rest[4] == 'k';
    if OccursAt(primary, MARKER, k) { MarkerFollowsTenant(primary, id.tenant, rest, k); }
  }

  // `deleteByPatternsAcrossScopes`: the primary key next to a metadata key.
  function RebuildPrimary(metaKey: string): Option<string> {
    var i := LastIndexOf(metaKey, MARKER);
    if i < 0 then None else Some(metaKey[..i] + ":key:k:" + metaKey[i + |MARKER|..])
  }

  lemma RebuildAt(prefix: string, rest: string)
    requires forall j: nat | |prefix| < j :: !OccursAt(prefix + MARKER + rest, MARKER, j)
    ensures RebuildPrimary(prefix + MARKER + rest) == Some(prefix + ":key:k:" + rest)
  {
    var key := prefix + MARKER + rest;
    assert key[|prefix|..|prefix| + |MARKER|] == MARKER;
    assert OccursAt(key, MARKER, |prefix|);
    hide OccursAt, LastIndexOf;
    assert LastIndexOf(key, MARKER) == |prefix|;
    assert key[..|prefix|] == prefix && key[|prefix| + |MARKER|..] == rest;
  }

  // Behind the marker that follows the tenant there is no other.
  lemma NoLaterMarker(hash: string -> string, id: Id, j: nat)
    requires HashOk(hash) && Clean(id.tenant) && j > 7 + |id.tenant|
    ensures !OccursAt(Meta(hash, id), MARKER, j)
  {
    TailColons(hash, id);
    Tails(hash, id);
    CleanHasNoWildcard(id.tenant);
    var key := Meta(hash, id);
    var tail := key[7..];
    hide Meta, Colons, HashOk, Clean;
    assert tail == id.tenant + ":" + ("key:meta:" + hash(id.key));
    if OccursAt(key, MARKER, j) {
      assert tail[j - 7..j - 7 + |MARKER|] == key[j..j + |MARKER|];
      MarkerFollowsTenant(tail, id.tenant, "key:meta:" + hash(id.key), j - 7);
    }
  }

  // Rebuilding undoes the naming: from its metadata key every entry gets its own primary key back.
  lemma RebuildsPrimary(hash: string -> string, id: Id)
    requires HashOk(hash) && Clean(id.tenant)
    ensures RebuildPrimary(Meta(hash, id)) == Some(Primary(hash, id))
  {
    var prefix, rest := "tenant:" + id.tenant, hash(id.key);
    assert Meta(hash, id) == prefix + MARKER + rest && Primary(hash, id) == prefix + ":key:k:" + rest;
    hide Meta, Primary, OccursAt, RebuildPrimary;
    forall j: nat | |prefix| < j ensures !OccursAt(prefix + MARKER + rest, MARKER, j) {
      NoLaterMarker(hash, id, j);
    }
    RebuildAt(prefix, rest);
  }
}
