/** How a model turns the texture files a material lists into textures:
    the per-model cache from file name to texture name, the six role
    groups of a material, the role defaults that stand in for an empty
    group, and what a mesh's texture table holds afterwards. */
module MaterialLoading {
  import opened CoreTypes
  import opened Meshes
  import opened SceneGraph

  /** The texture loader: (path, flip vertically, sRGB) to a texture name. */
  type Loader = (string, bool, bool) -> nat

  /** What a texture load depends on besides the file name and the role. */
  datatype LoadEnv = LoadEnv(loader: Loader, directory: string, flip: bool)

  /** The path a texture file is read from: "<directory>/<name>". */
  function PathOf(directory: string, name: string): (path: string)
  {
    directory + "/" + name
  }

  /** Colour textures are read as sRGB, and only they. */
  function IsSrgb(role: TextureType): (srgb: bool)
    ensures srgb <==> role == Albedo
  {
    role == Albedo
  }

  /** The texture name the loader gives for `name` read in `role`. */
  function Fetch(env: LoadEnv, name: string, role: TextureType): (id: nat) {
    env.loader(PathOf(env.directory, name), env.flip, IsSrgb(role))
  }

  // ---------------------------------------------------------------------
  // The load cache

  /** A texture list, a cache, and the file names loaded, in order. */
  datatype Loaded = Loaded(textures: seq<Texture>, cache: map<string, nat>, log: seq<string>)

  /** Offering `files`, in order, to the cache: a name already cached reuses
      its texture name, any other is loaded, cached and appended to the
      load log `log`. Every file yields one texture, tagged `role`. */
  function Offer(cache: map<string, nat>, log: seq<string>, files: seq<string>, env: LoadEnv, role: TextureType): (r: Loaded)
    ensures |r.textures| == |files|
    ensures forall name :: name in r.cache <==> name in cache || name in files
  {
    if files == [] then Loaded([], cache, log)
    else
      var acc := Offer(cache, log, files[..|files| - 1], env, role);
      var name := files[|files| - 1];
      assert files == files[..|files| - 1] + [name];
      if name in acc.cache then
        Loaded(acc.textures + [Texture(acc.cache[name], role)], acc.cache, acc.log)
      else
        var id := Fetch(env, name, role);
        Loaded(acc.textures + [Texture(id, role)], acc.cache[name := id], acc.log + [name])
  }

  /** Offering file `i` after the first `i`, as the loading loop does. */
  lemma OfferNext(cache: map<string, nat>, log: seq<string>, files: seq<string>, env: LoadEnv, role: TextureType, i: nat)
    requires i < |files|
    ensures var acc := Offer(cache, log, files[..i], env, role);
            var id := Fetch(env, files[i], role);
            Offer(cache, log, files[..i + 1], env, role)
              == if files[i] in acc.cache then Loaded(acc.textures + [Texture(acc.cache[files[i]], role)], acc.cache, acc.log)
                 else Loaded(acc.textures + [Texture(id, role)], acc.cache[files[i] := id], acc.log + [files[i]])
  {
    assert files[..i + 1][..i] == files[..i];
  }

  /** Every entry of `c0` is in `c1` with the same value. */
  ghost predicate CacheExtends(c0: map<string, nat>, c1: map<string, nat>) {
    forall name :: name in c0 ==> name in c1 && c1[name] == c0[name]
  }

  /** A name cached before keeps its texture name (it is not reloaded), and
      an offered name that was not cached is mapped to what the loader
      returned for it. */
  lemma {:induction false} OfferCache(cache: map<string, nat>, log: seq<string>, files: seq<string>, env: LoadEnv, role: TextureType)
    ensures CacheExtends(cache, Offer(cache, log, files, env, role).cache)
    ensures forall name :: name in files && name !in cache ==>
              Offer(cache, log, files, env, role).cache[name] == Fetch(env, name, role)
    decreases |files|
  {
    if files != [] {
      var front := files[..|files| - 1];
      OfferCache(cache, log, front, env, role);
      assert files == front + [files[|files| - 1]];
    }
  }

  ghost predicate NoRepeats<T>(s: seq<T>) {
    forall i, j :: 0 <= i < j < |s| ==> s[i] != s[j]
  }

  /** The load log only grows: offering with a log already started yields
      the same textures and cache as with an empty one, and that log
      followed by the names the empty one records. */
  lemma {:induction false} OfferLogShift(cache: map<string, nat>, log: seq<string>, files: seq<string>, env: LoadEnv, role: TextureType)
    ensures var r := Offer(cache, log, files, env, role);
            var r0 := Offer(cache, [], files, env, role);
            r.textures == r0.textures && r.cache == r0.cache && r.log == log + r0.log
    decreases |files|
  {
    if files != [] {
      var front := files[..|files| - 1];
      var name := files[|files| - 1];
      OfferLogShift(cache, log, front, env, role);
      var acc0 := Offer(cache, [], front, env, role);
      if name !in acc0.cache {
        assert (log + acc0.log) + [name] == log + (acc0.log + [name]);
      }
    }
  }

  /** The loader is called at most once per name, and exactly for the
      offered names that were not cached. */
  lemma {:induction false} OfferLog(cache: map<string, nat>, files: seq<string>, env: LoadEnv, role: TextureType)
    ensures NoRepeats(Offer(cache, [], files, env, role).log)
    ensures forall name :: name in Offer(cache, [], files, env, role).log <==> name in files && name !in cache
    decreases |files|
  {
    if files != [] {
      var front := files[..|files| - 1];
      OfferLog(cache, front, env, role);
      assert files == front + [files[|files| - 1]];
    }
  }

  /** Texture `i` is the cached texture of file `i`, tagged `role`. */
  ghost predicate TexturesMatch(textures: seq<Texture>, cache: map<string, nat>, files: seq<string>, role: TextureType) {
    |textures| == |files| &&
    forall i :: 0 <= i < |files| ==> files[i] in cache && textures[i] == Texture(cache[files[i]], role)
  }

  /** One file more, with a cache that only gained entries. */
  lemma TexturesMatchAppend(textures: seq<Texture>, c0: map<string, nat>, c1: map<string, nat>,
                            files: seq<string>, name: string, role: TextureType)
    requires TexturesMatch(textures, c0, files, role) && CacheExtends(c0, c1) && name in c1
    ensures TexturesMatch(textures + [Texture(c1[name], role)], c1, files + [name], role)
  {
    var ts := textures + [Texture(c1[name], role)];
    var fs := files + [name];
    forall i | 0 <= i < |fs| ensures fs[i] in c1 && ts[i] == Texture(c1[fs[i]], role) {
      if i < |files| {
        assert fs[i] == files[i] && ts[i] == textures[i];
      }
    }
  }

  /** Texture `i` of an offer is the cached texture of file `i`, tagged
      with the requested role. */
  lemma {:induction false} OfferTextures(cache: map<string, nat>, log: seq<string>, files: seq<string>, env: LoadEnv, role: TextureType)
    ensures var r := Offer(cache, log, files, env, role);
            TexturesMatch(r.textures, r.cache, files, role)
    decreases |files|
  {
    if files != [] {
      var front := files[..|files| - 1];
      var name := files[|files| - 1];
      assert files == front + [name];
      OfferTextures(cache, log, front, env, role);
      var acc := Offer(cache, log, front, env, role);
      if name in acc.cache {
        TexturesMatchAppend(acc.textures, acc.cache, acc.cache, front, name, role);
      } else {
        var id := Fetch(env, name, role);
        TexturesMatchAppend(acc.textures, acc.cache, acc.cache[name := id], front, name, role);
      }
    }
  }

  /** The file names loaded so far have no repeats and are exactly the
      cached names. */
  ghost predicate LogMatchesCache(log: seq<string>, cache: map<string, nat>) {
    NoRepeats(log) && forall name :: name in log <==> name in cache
  }

  /** An offer keeps the load log and the cache matched. */
  lemma OfferKeepsLogMatched(cache: map<string, nat>, log: seq<string>, files: seq<string>, env: LoadEnv, role: TextureType)
    requires LogMatchesCache(log, cache)
    ensures var r := Offer(cache, log, files, env, role);
            LogMatchesCache(r.log, r.cache)
  {
    var r0 := Offer(cache, [], files, env, role);
    OfferLogShift(cache, log, files, env, role);
    OfferLog(cache, files, env, role);
    var all := log + r0.log;
    forall i, j | 0 <= i < j < |all| ensures all[i] != all[j] {
      if j >= |log| && i < |log| {
        assert all[i] in log && all[j] in r0.log;
      }
    }
  }

  // ---------------------------------------------------------------------
  // The texture list of a material

  /** The importer slots read for a material and the role each becomes, in
      the order the list is built. */
  const Slots: seq<Slot> := [BaseColor, Metalness, DiffuseRoughness, AmbientOcclusionSlot, HeightSlot, AmbientSlot]
  const Roles: seq<TextureType> := [Albedo, Metallic, Roughness, AmbientOcclusion, Normal, Height]

  /** The role of slot `k` is the enumerator `k + 2`: the material roles
      are the enumeration from Albedo on, in slot order. */
  lemma RoleOrdinal(k: nat)
    requires k < 6
    ensures Ordinal(Roles[k]) == k + 2
  {
  }

  /** A group of textures, or the role's default when the group is empty
      and a default is set. */
  function WithDefault(group: seq<Texture>, role: TextureType, defaults: map<TextureType, Texture>): (r: seq<Texture>)
    ensures group != [] ==> r == group
    ensures group == [] && role in defaults ==> r == [defaults[role]]
    ensures group == [] && role !in defaults ==> r == []
  {
    if |group| == 0 && role in defaults then group + [defaults[role]] else group
  }

  /** The list, cache and log after the first `k` slots: each slot's
      files offered to the cache left by the slots before it, and the
      slot's group, or its role's default for an empty group, appended. */
  function MaterialFold(cache: map<string, nat>, log: seq<string>, material: Material, env: LoadEnv,
                        defaults: map<TextureType, Texture>, k: nat): (r: Loaded)
    requires k <= 6
  {
    if k == 0 then Loaded([], cache, log)
    else
      var acc := MaterialFold(cache, log, material, env, defaults, k - 1);
      var r := Offer(acc.cache, acc.log, TextureFiles(material, Slots[k - 1]), env, Roles[k - 1]);
      Loaded(acc.textures + WithDefault(r.textures, Roles[k - 1], defaults), r.cache, r.log)
  }

  /** The material's texture list, the cache after it and the files
      loaded for it: the six slots folded in order. */
  function MaterialTextures(cache: map<string, nat>, log: seq<string>, material: Material, env: LoadEnv,
                            defaults: map<TextureType, Texture>): (r: Loaded)
  {
    MaterialFold(cache, log, material, env, defaults, 6)
  }

  /** `ts` is `prev` with only textures of `role` appended. */
  ghost predicate AppendsRole(prev: seq<Texture>, ts: seq<Texture>, role: TextureType) {
    |prev| <= |ts| && ts[..|prev|] == prev &&
    forall i :: |prev| <= i < |ts| ==> ts[i].kind == role
  }

  /** One slot more: the list before slot `k - 1` is kept as a prefix and
      only textures of that slot's role are added; the cache only gains
      entries. */
  lemma MaterialFoldStep(cache: map<string, nat>, log: seq<string>, material: Material, env: LoadEnv,
                         defaults: map<TextureType, Texture>, k: nat)
    requires 0 < k <= 6 && KeyedByRole(defaults)
    ensures var fp := MaterialFold(cache, log, material, env, defaults, k - 1);
            var fk := MaterialFold(cache, log, material, env, defaults, k);
            AppendsRole(fp.textures, fk.textures, Roles[k - 1]) && CacheExtends(fp.cache, fk.cache)
  {
    var acc := MaterialFold(cache, log, material, env, defaults, k - 1);
    var files := TextureFiles(material, Slots[k - 1]);
    var r := Offer(acc.cache, acc.log, files, env, Roles[k - 1]);
    var g := WithDefault(r.textures, Roles[k - 1], defaults);
    var fk := MaterialFold(cache, log, material, env, defaults, k);
    assert fk.textures == acc.textures + g && fk.cache == r.cache;
    OfferTextures(acc.cache, acc.log, files, env, Roles[k - 1]);
    OfferCache(acc.cache, acc.log, files, env, Roles[k - 1]);
    forall i | 0 <= i < |g| ensures g[i].kind == Roles[k - 1] {
      if r.textures != [] {
        assert g[i] == Texture(r.cache[files[i]], Roles[k - 1]);
      }
    }
    AppendOfRole(acc.textures, g, Roles[k - 1]);
  }

  /** Appending textures that all have `role`. */
  lemma AppendOfRole(a: seq<Texture>, g: seq<Texture>, role: TextureType)
    requires forall i :: 0 <= i < |g| ==> g[i].kind == role
    ensures AppendsRole(a, a + g, role)
  {
    forall i | |a| <= i < |a + g| ensures (a + g)[i].kind == role {
      assert (a + g)[i] == g[i - |a|];
    }
  }

  /** `ts` is `prev` with only textures whose enumerators lie in
      `[lo, hi)` appended. */
  ghost predicate AppendsWithin(prev: seq<Texture>, ts: seq<Texture>, lo: int, hi: int) {
    |prev| <= |ts| && ts[..|prev|] == prev &&
    forall i :: |prev| <= i < |ts| ==> lo <= Ordinal(ts[i].kind) < hi
  }

  /** Appending textures of the role whose enumerator is `hi` widens the
      range by one. */
  lemma AppendsWithinRole(a: seq<Texture>, b: seq<Texture>, c: seq<Texture>, role: TextureType, lo: int, hi: int)
    requires lo <= hi && Ordinal(role) == hi
    requires AppendsWithin(a, b, lo, hi) && AppendsRole(b, c, role)
    ensures AppendsWithin(a, c, lo, hi + 1)
  {
    assert c[..|a|] == c[..|b|][..|a|];
    forall i | |a| <= i < |b| ensures c[i] == b[i] {
      assert c[i] == c[..|b|][i];
    }
  }

  /** Folding on from slot `k` to slot `j` keeps the list and the cache
      built so far, and adds only textures of the roles of slots `k` to
      `j - 1`, whose enumerators are `k + 2` to `j + 1`. */
  lemma {:induction false} MaterialFoldExtends(cache: map<string, nat>, log: seq<string>, material: Material, env: LoadEnv,
                                               defaults: map<TextureType, Texture>, k: nat, j: nat)
    requires k <= j <= 6 && KeyedByRole(defaults)
    ensures var fk := MaterialFold(cache, log, material, env, defaults, k);
            var fj := MaterialFold(cache, log, material, env, defaults, j);
            AppendsWithin(fk.textures, fj.textures, k + 2, j + 2) && CacheExtends(fk.cache, fj.cache)
    decreases j
  {
    var fk := MaterialFold(cache, log, material, env, defaults, k);
    if j == k {
      assert fk.textures[..|fk.textures|] == fk.textures;
    } else {
      MaterialFoldExtends(cache, log, material, env, defaults, k, j - 1);
      MaterialFoldStep(cache, log, material, env, defaults, j);
      RoleOrdinal(j - 1);
      var fp := MaterialFold(cache, log, material, env, defaults, j - 1);
      var fj := MaterialFold(cache, log, material, env, defaults, j);
      AppendsWithinRole(fk.textures, fp.textures, fj.textures, Roles[j - 1], k + 2, j + 1);
    }
  }

  /** The load log of a material only grows: the log before it is a
      prefix of the log after any number of its slots. */
  lemma {:induction false} MaterialFoldLogGrows(cache: map<string, nat>, log: seq<string>, material: Material,
                                                env: LoadEnv, defaults: map<TextureType, Texture>, k: nat)
    requires k <= 6
    ensures log <= MaterialFold(cache, log, material, env, defaults, k).log
  {
    if k > 0 {
      MaterialFoldLogGrows(cache, log, material, env, defaults, k - 1);
      var acc := MaterialFold(cache, log, material, env, defaults, k - 1);
      OfferLogShift(acc.cache, acc.log, TextureFiles(material, Slots[k - 1]), env, Roles[k - 1]);
    }
  }

  /** Every entry of a material's list has one of the six material roles —
      never Diffuse or Specular — and the entries are grouped by role in
      slot order: Albedo, Metallic, Roughness, AmbientOcclusion, Normal,
      Height. */
  lemma MaterialTexturesRoles(cache: map<string, nat>, log: seq<string>, material: Material, env: LoadEnv,
                              defaults: map<TextureType, Texture>)
    requires KeyedByRole(defaults)
    ensures var ts := MaterialTextures(cache, log, material, env, defaults).textures;
            (forall t :: t in ts ==> t.kind in Roles && t.kind != Diffuse && t.kind != Specular) &&
            (forall i, j :: 0 <= i < j < |ts| ==> Ordinal(ts[i].kind) <= Ordinal(ts[j].kind))
  {
    MaterialFoldSorted(cache, log, material, env, defaults, 6);
    MaterialFoldExtends(cache, log, material, env, defaults, 0, 6);
    var ts := MaterialTextures(cache, log, material, env, defaults).textures;
    forall t | t in ts ensures t.kind in Roles {
      var n := Ordinal(t.kind) - 2;
      RoleOrdinal(n);
      OrdinalInjective(t.kind, Roles[n]);
    }
  }

  /** Textures ordered by role enumerator. */
  ghost predicate SortedByRole(ts: seq<Texture>) {
    forall i, j :: 0 <= i < j < |ts| ==> Ordinal(ts[i].kind) <= Ordinal(ts[j].kind)
  }

  /** Every enumerator in `ts` is below `bound`. */
  ghost predicate RolesBelow(ts: seq<Texture>, bound: int) {
    forall i :: 0 <= i < |ts| ==> Ordinal(ts[i].kind) < bound
  }

  /** An ordered list stays ordered when textures of a role above every
      role in it are appended. */
  lemma SortedAppend(prev: seq<Texture>, ts: seq<Texture>, role: TextureType, bound: int)
    requires Ordinal(role) == bound
    requires SortedByRole(prev) && RolesBelow(prev, bound) && AppendsRole(prev, ts, role)
    ensures SortedByRole(ts) && RolesBelow(ts, bound + 1)
  {
    forall i | 0 <= i < |prev| ensures ts[i] == prev[i] {
      assert ts[i] == ts[..|prev|][i];
    }
  }

  /** The fold's list is ordered by role enumerator, and its enumerators
      are those of the roles of the first `k` slots at most. */
  lemma {:induction false} MaterialFoldSorted(cache: map<string, nat>, log: seq<string>, material: Material, env: LoadEnv,
                                              defaults: map<TextureType, Texture>, k: nat)
    requires k <= 6 && KeyedByRole(defaults)
    ensures var ts := MaterialFold(cache, log, material, env, defaults, k).textures;
            SortedByRole(ts) && RolesBelow(ts, k + 2)
  {
    if k > 0 {
      MaterialFoldSorted(cache, log, material, env, defaults, k - 1);
      MaterialFoldStep(cache, log, material, env, defaults, k);
      RoleOrdinal(k - 1);
      var prev := MaterialFold(cache, log, material, env, defaults, k - 1).textures;
      var ts := MaterialFold(cache, log, material, env, defaults, k).textures;
      assert AppendsRole(prev, ts, Roles[k - 1]);
      SortedAppend(prev, ts, Roles[k - 1], k + 1);
    }
  }

  /** Loading a material's textures only adds entries to the cache. */
  lemma MaterialCacheExtends(cache: map<string, nat>, log: seq<string>, material: Material, env: LoadEnv,
                             defaults: map<TextureType, Texture>)
    requires KeyedByRole(defaults)
    ensures CacheExtends(cache, MaterialTextures(cache, log, material, env, defaults).cache)
  {
    MaterialFoldExtends(cache, log, material, env, defaults, 0, 6);
  }

  /** What a texture table holds for slot `k` of a material: the texture
      of the slot's first file, as cached, when the slot lists files; else
      the role's default when one is set; else nothing. */
  ghost predicate SlotStored(table: map<TextureType, Texture>, material: Material,
                             defaults: map<TextureType, Texture>, cache: map<string, nat>, k: nat)
    requires k < 6
  {
    var files := TextureFiles(material, Slots[k]);
    var role := Roles[k];
    (role in table <==> files != [] || role in defaults) &&
    (files != [] ==> files[0] in cache && role in table && table[role] == Texture(cache[files[0]], role)) &&
    (files == [] && role in defaults ==> role in table && table[role] == defaults[role])
  }

  /** The texture table of a mesh built from a material: every slot as
      `SlotStored` says, and no diffuse or specular texture. */
  ghost predicate TableForMaterial(table: map<TextureType, Texture>, material: Material,
                                   defaults: map<TextureType, Texture>, cache: map<string, nat>)
  {
    (forall k :: 0 <= k < 6 ==> SlotStored(table, material, defaults, cache, k)) &&
    Diffuse !in table && Specular !in table
  }

  /** A table that is right for a cache stays right when the cache only
      gains entries. */
  lemma TableForMaterialExtends(table: map<TextureType, Texture>, material: Material,
                                defaults: map<TextureType, Texture>, c0: map<string, nat>, c1: map<string, nat>)
    requires TableForMaterial(table, material, defaults, c0) && CacheExtends(c0, c1)
    ensures TableForMaterial(table, material, defaults, c1)
  {
    forall k | 0 <= k < 6 ensures SlotStored(table, material, defaults, c1, k) {
      assert SlotStored(table, material, defaults, c0, k);
    }
  }

  /** When the entries of one role are exactly those at positions `n` to
      `m - 1`, an empty table offered the list stores the one at `n` for
      that role, and nothing for it when there are none. */
  lemma FirstPerTypeOfRun(all: seq<Texture>, n: nat, m: nat, role: TextureType)
    requires n <= m <= |all|
    requires forall i :: 0 <= i < |all| ==> (all[i].kind == role <==> n <= i < m)
    ensures role in FirstPerType(map[], all) <==> n < m
    ensures n < m ==> FirstPerType(map[], all)[role] == all[n]
  {
    FirstPerTypeRoles(map[], all);
    if n < m {
      FirstPerTypeFirst(map[], all, n);
    } else {
      assert role !in (set t | t in all :: t.kind);
    }
  }

  /** A list made of entries whose enumerators are below `b`, then
      entries of `role` (enumerator `b`), then entries whose enumerators
      are above `b`: the entries of `role` are exactly the middle run. */
  lemma RoleRun(pre: seq<Texture>, next: seq<Texture>, all: seq<Texture>, role: TextureType, b: int, hi: int)
    requires Ordinal(role) == b
    requires RolesBelow(pre, b) && AppendsRole(pre, next, role) && AppendsWithin(next, all, b + 1, hi)
    ensures |pre| <= |next| <= |all| && all[..|next|] == next
    ensures forall i :: 0 <= i < |all| ==> (all[i].kind == role <==> |pre| <= i < |next|)
  {
    forall i | 0 <= i < |all| ensures (all[i].kind == role <==> |pre| <= i < |next|) {
      if i < |next| {
        assert all[i] == all[..|next|][i] == next[i];
        if i < |pre| {
          assert next[i] == next[..|pre|][i] == pre[i];
        }
      }
    }
  }

  /** In the full list, the entries of slot `k`'s role are exactly those
      the fold adds for slot `k`. */
  lemma SlotRun(cache: map<string, nat>, log: seq<string>, material: Material, env: LoadEnv,
                defaults: map<TextureType, Texture>, k: nat)
    requires k < 6 && KeyedByRole(defaults)
    ensures var all := MaterialFold(cache, log, material, env, defaults, 6).textures;
            var next := MaterialFold(cache, log, material, env, defaults, k + 1).textures;
            var n := |MaterialFold(cache, log, material, env, defaults, k).textures|;
            n <= |next| <= |all| && all[..|next|] == next &&
            forall i :: 0 <= i < |all| ==> (all[i].kind == Roles[k] <==> n <= i < |next|)
  {
    var all := MaterialFold(cache, log, material, env, defaults, 6).textures;
    var pre := MaterialFold(cache, log, material, env, defaults, k).textures;
    var next := MaterialFold(cache, log, material, env, defaults, k + 1).textures;
    MaterialFoldSorted(cache, log, material, env, defaults, k);
    MaterialFoldStep(cache, log, material, env, defaults, k + 1);
    MaterialFoldExtends(cache, log, material, env, defaults, k + 1, 6);
    RoleOrdinal(k);
    RoleRun(pre, next, all, Roles[k], k + 2, 8);
  }

  /** Offering the material's list to an empty table stores, for slot `k`,
      what `SlotStored` says, with the cache as it is after the whole
      material. */
  lemma StoredTextureOfSlot(cache: map<string, nat>, log: seq<string>, material: Material, env: LoadEnv,
                            defaults: map<TextureType, Texture>, k: nat)
    requires k < 6 && KeyedByRole(defaults)
    ensures var spec := MaterialFold(cache, log, material, env, defaults, 6);
            SlotStored(FirstPerType(map[], spec.textures), material, defaults, spec.cache, k)
  {
    var all := MaterialFold(cache, log, material, env, defaults, 6);
    var pre := MaterialFold(cache, log, material, env, defaults, k);
    var next := MaterialFold(cache, log, material, env, defaults, k + 1);
    var files := TextureFiles(material, Slots[k]);
    var role := Roles[k];
    var r := Offer(pre.cache, pre.log, files, env, role);
    var g := WithDefault(r.textures, role, defaults);
    assert next.textures == pre.textures + g && next.cache == r.cache;
    SlotRun(cache, log, material, env, defaults, k);
    var n := |pre.textures|;
    FirstPerTypeOfRun(all.textures, n, |next.textures|, role);
    if g != [] {
      assert all.textures[n] == all.textures[..|next.textures|][n] == g[0];
    }
    if files != [] {
      OfferTextures(pre.cache, pre.log, files, env, role);
      MaterialFoldExtends(cache, log, material, env, defaults, k + 1, 6);
    }
  }

  /** The table a fresh mesh gets from a material's list is right for the
      material and the cache after it, and is keyed by role. */
  lemma MaterialTable(cache: map<string, nat>, log: seq<string>, material: Material, env: LoadEnv,
                      defaults: map<TextureType, Texture>)
    requires KeyedByRole(defaults)
    ensures var spec := MaterialTextures(cache, log, material, env, defaults);
            TableForMaterial(FirstPerType(map[], spec.textures), material, defaults, spec.cache) &&
            KeyedByRole(FirstPerType(map[], spec.textures))
  {
    var spec := MaterialTextures(cache, log, material, env, defaults);
    forall k | 0 <= k < 6 ensures SlotStored(FirstPerType(map[], spec.textures), material, defaults, spec.cache, k) {
      StoredTextureOfSlot(cache, log, material, env, defaults, k);
    }
    MaterialTexturesRoles(cache, log, material, env, defaults);
    FirstPerTypeRoles(map[], spec.textures);
    FirstPerTypeKeyedByRole(map[], spec.textures);
  }

  /** Binding the textures of a mesh built from a material never sets the
      diffuse or the specular sampler, always clears the specular flag, and
      sets the normal flag exactly when the material's height slot lists a
      file or a normal default is set. */
  lemma MaterialMeshBinding(table: map<TextureType, Texture>, material: Material,
                            defaults: map<TextureType, Texture>, cache: map<string, nat>, before: map<string, int>)
    requires TableForMaterial(table, material, defaults, cache)
    ensures var u := BindUniforms(before, table);
            Unwritten(before, u, DiffuseSamplerName) && Unwritten(before, u, SpecularSamplerName) &&
            u[UseSpecularName] == 0 &&
            (u[UseNormalName] == 1 <==> TextureFiles(material, HeightSlot) != [] || Normal in defaults)
  {
    assert SlotStored(table, material, defaults, cache, 4);
  }
}
