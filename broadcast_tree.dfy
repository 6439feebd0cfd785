/** The broadcast status tree written by the back end and read by clients:
    `category -> module -> action -> info` for the system categories and
    `'urbits' -> pier -> module -> action -> info` for piers. The logic is the
    same in api_backup/ws_util.py and api/broadcaster.py; both entry points
    delegate to the one `StatusTree` below. */
module BroadcastTree {
  import opened Json

  type Tree = map<string, Json>

  /** Categories `system_broadcast` accepts. */
  const Whitelist: set<string> := {"system", "updates"}

  /** The root key of the per-pier subtree. */
  const UrbitsKey := "urbits"

  datatype Outcome = Outcome(ok: bool, tree: Tree)

  /** `system_broadcast` as written: the mod-level guard tests
      `isinstance(self.structure[category], dict)` (always true at that point)
      instead of the module slot, so a module slot holding a truthy non-dict
      is kept and the final item assignment into it raises. */
  function SystemPublish(t: Tree, category: string, mod: string, action: string, info: Json): (r: Outcome)
    ensures category !in Whitelist ==> r == Outcome(false, t)
    ensures r.ok ==> (category in r.tree && r.tree[category].JObj?
      && mod in r.tree[category].fields && r.tree[category].fields[mod].JObj?
      && action in r.tree[category].fields[mod].fields
      && r.tree[category].fields[mod].fields[action] == info)
  {
    if category !in Whitelist then Outcome(false, t)
    else
      var t1 := EnsureDict(t, category);
      var cat := t1[category].fields;
      var cat1 := if HasTruthy(cat, mod) then cat else cat[mod := JObj(map[])];
      var slot := cat1[mod];
      if !slot.JObj? then Outcome(false, t1[category := JObj(cat1)])
      else Outcome(true, t1[category := JObj(cat1[mod := JObj(slot.fields[action := info])])])
  }

  /** `urbit_broadcast`: every intermediate level is checked with its own
      `isinstance`, so the write always succeeds. */
  function UrbitPublish(t: Tree, patp: string, mod: string, action: string, info: Json): (r: Tree)
    ensures UrbitsKey in r && r[UrbitsKey].JObj?
      && patp in r[UrbitsKey].fields && r[UrbitsKey].fields[patp].JObj?
      && mod in r[UrbitsKey].fields[patp].fields && r[UrbitsKey].fields[patp].fields[mod].JObj?
      && action in r[UrbitsKey].fields[patp].fields[mod].fields
      && r[UrbitsKey].fields[patp].fields[mod].fields[action] == info
  {
    var t1 := EnsureDict(t, UrbitsKey);
    var urbits := EnsureDict(t1[UrbitsKey].fields, patp);
    var pier := EnsureDict(urbits[patp].fields, mod);
    var leaves := pier[mod].fields;
    t1[UrbitsKey := JObj(urbits[patp := JObj(pier[mod := JObj(leaves[action := info])])])]
  }

  /** The module slot that makes `SystemPublish` fail: truthy, but not a dict. */
  predicate BlockedModule(t: Tree, category: string, mod: string)
  {
    category in t && t[category].JObj? && HasTruthy(t[category].fields, mod)
    && !t[category].fields[mod].JObj?
  }

  /** A whitelisted publish fails exactly on a blocked module slot, and a failed
      publish leaves the tree as it was. */
  lemma SystemPublishFailure(t: Tree, category: string, mod: string, action: string, info: Json)
    requires category in Whitelist
    ensures !SystemPublish(t, category, mod, action, info).ok <==> BlockedModule(t, category, mod)
    ensures !SystemPublish(t, category, mod, action, info).ok ==> SystemPublish(t, category, mod, action, info).tree == t
  {
    if BlockedModule(t, category, mod) {
      assert KeepsSlot(t, category);
      assert EnsureDict(t, category) == t;
      assert t[category := JObj(t[category].fields)] == t;
    }
  }

  /** A successful system publish changes only the leaf `[category][mod][action]`:
      other categories, other modules and, when the module slot already held a
      dict, the other actions under it are preserved. */
  lemma SystemPublishFrame(t: Tree, category: string, mod: string, action: string, info: Json)
    requires SystemPublish(t, category, mod, action, info).ok
    ensures var r := SystemPublish(t, category, mod, action, info).tree;
      && r.Keys == t.Keys + {category}
      && (forall c :: c in t && c != category ==> r[c] == t[c])
      && (category in t && t[category].JObj? ==>
            && r[category].fields.Keys == t[category].fields.Keys + {mod}
            && forall m :: m in t[category].fields && m != mod ==>
                 r[category].fields[m] == t[category].fields[m])
      && (category in t && t[category].JObj? && mod in t[category].fields
          && t[category].fields[mod].JObj? ==>
            && r[category].fields[mod].fields.Keys == t[category].fields[mod].fields.Keys + {action}
            && forall a :: a in t[category].fields[mod].fields && a != action ==>
                 r[category].fields[mod].fields[a] == t[category].fields[mod].fields[a])
  {
    if category in t && t[category].JObj? {
      EnsureDictKeepsDictionary(t, category);
      var cat := t[category].fields;
      if mod in cat && cat[mod].JObj? && !HasTruthy(cat, mod) {
        assert cat[mod] == JObj(map[]);
      }
    }
  }

  /** The per-pier publish changes only the leaf `['urbits'][patp][mod][action]`;
      sibling piers, modules and actions kept in dicts survive. */
  lemma UrbitPublishFrame(t: Tree, patp: string, mod: string, action: string, info: Json)
    ensures var r := UrbitPublish(t, patp, mod, action, info);
      && r.Keys == t.Keys + {UrbitsKey}
      && (forall c :: c in t && c != UrbitsKey ==> r[c] == t[c])
      && (UrbitsKey in t && t[UrbitsKey].JObj? ==>
            forall p :: p in t[UrbitsKey].fields && p != patp ==>
              p in r[UrbitsKey].fields && r[UrbitsKey].fields[p] == t[UrbitsKey].fields[p])
      && (UrbitsKey in t && t[UrbitsKey].JObj? && patp in t[UrbitsKey].fields
          && t[UrbitsKey].fields[patp].JObj? ==>
            forall m :: m in t[UrbitsKey].fields[patp].fields && m != mod ==>
              m in r[UrbitsKey].fields[patp].fields
              && r[UrbitsKey].fields[patp].fields[m] == t[UrbitsKey].fields[patp].fields[m])
      && (UrbitsKey in t && t[UrbitsKey].JObj? && patp in t[UrbitsKey].fields
          && t[UrbitsKey].fields[patp].JObj? && mod in t[UrbitsKey].fields[patp].fields
          && t[UrbitsKey].fields[patp].fields[mod].JObj? ==>
            forall a :: a in t[UrbitsKey].fields[patp].fields[mod].fields && a != action ==>
              a in r[UrbitsKey].fields[patp].fields[mod].fields
              && r[UrbitsKey].fields[patp].fields[mod].fields[a]
                 == t[UrbitsKey].fields[patp].fields[mod].fields[a])
  {
    if UrbitsKey in t && t[UrbitsKey].JObj? {
      EnsureDictKeepsDictionary(t, UrbitsKey);
      UrbitPublishKeepsPierLevel(t[UrbitsKey].fields, patp, mod, action, info);
    }
  }

  /** The frame of a per-pier publish below the 'urbits' dict `urbits`. */
  lemma UrbitPublishKeepsPierLevel(urbits: map<string, Json>, patp: string, mod: string, action: string, info: Json)
    ensures var u := EnsureDict(urbits, patp);
      var pier := EnsureDict(u[patp].fields, mod);
      var r := u[patp := JObj(pier[mod := JObj(pier[mod].fields[action := info])])];
      && (forall p :: p in urbits && p != patp ==> p in r && r[p] == urbits[p])
      && (patp in urbits && urbits[patp].JObj? ==>
            forall m :: m in urbits[patp].fields && m != mod ==>
              m in r[patp].fields && r[patp].fields[m] == urbits[patp].fields[m])
      && (patp in urbits && urbits[patp].JObj? && mod in urbits[patp].fields && urbits[patp].fields[mod].JObj? ==>
            forall a :: a in urbits[patp].fields[mod].fields && a != action ==>
              a in r[patp].fields[mod].fields && r[patp].fields[mod].fields[a] == urbits[patp].fields[mod].fields[a])
  {
    if patp in urbits && urbits[patp].JObj? {
      EnsureDictKeepsDictionary(urbits, patp);
      var pier := urbits[patp].fields;
      if mod in pier && pier[mod].JObj? {
        EnsureDictKeepsDictionary(pier, mod);
      }
    }
  }


  /** Last write wins: publishing twice to the same leaf leaves only the second
      value, exactly as if the first publish had not happened. */
  lemma {:induction false} SystemPublishLastWriteWins(t: Tree, category: string, mod: string, action: string, a: Json, b: Json)
    requires SystemPublish(t, category, mod, action, a).ok
    ensures var t1 := SystemPublish(t, category, mod, action, a).tree;
      SystemPublish(t1, category, mod, action, b) == SystemPublish(t, category, mod, action, b)
  {
    var t0 := EnsureDict(t, category);
    var cat := t0[category].fields;
    var catB := if HasTruthy(cat, mod) then cat else cat[mod := JObj(map[])];
    var leaves := catB[mod].fields;
    var cat1 := catB[mod := JObj(leaves[action := a])];
    var t1 := t0[category := JObj(cat1)];
    assert SystemPublish(t, category, mod, action, a).tree == t1;
    EnsureDictKeepsDictionary(t1, category);
    assert HasTruthy(cat1, mod) by {
      assert action in cat1[mod].fields;
    }
    assert leaves[action := a][action := b] == leaves[action := b];
    assert cat1[mod := JObj(leaves[action := b])] == catB[mod := JObj(leaves[action := b])];
    assert t1[category := JObj(catB[mod := JObj(leaves[action := b])])]
        == t0[category := JObj(catB[mod := JObj(leaves[action := b])])];
  }

  /** Last write wins for per-pier leaves too. */
  lemma {:induction false} UrbitPublishLastWriteWins(t: Tree, patp: string, mod: string, action: string, a: Json, b: Json)
    ensures UrbitPublish(UrbitPublish(t, patp, mod, action, a), patp, mod, action, b)
         == UrbitPublish(t, patp, mod, action, b)
  {
    var t0 := EnsureDict(t, UrbitsKey);
    var u0 := EnsureDict(t0[UrbitsKey].fields, patp);
    var p0 := EnsureDict(u0[patp].fields, mod);
    var leaves := p0[mod].fields;
    var p1 := p0[mod := JObj(leaves[action := a])];
    var u1 := u0[patp := JObj(p1)];
    var t1 := t0[UrbitsKey := JObj(u1)];
    assert UrbitPublish(t, patp, mod, action, a) == t1;
    assert leaves[action := a][action := b] == leaves[action := b];
    var p2 := p0[mod := JObj(leaves[action := b])];
    var u2 := u0[patp := JObj(p2)];
    RewriteSlot(p0, mod, leaves[action := a], leaves[action := b]);
    RewriteSlot(u0, patp, p1, p2);
    RewriteSlot(t0, UrbitsKey, u1, u2);
  }

  /** Rewriting a dict slot that already holds a dict: `EnsureDict` keeps it and
      the second write replaces the first. */
  lemma RewriteSlot(d: map<string, Json>, k: string, x: map<string, Json>, y: map<string, Json>)
    ensures EnsureDict(d[k := JObj(x)], k) == d[k := JObj(x)]
    ensures d[k := JObj(x)][k := JObj(y)] == d[k := JObj(y)]
  {
    EnsureDictKeepsDictionary(d[k := JObj(x)], k);
  }


  /** The quirk on a concrete tree: a module slot holding a non-empty string is
      kept by the guard, so the item assignment into it fails and nothing is written. */
  lemma StringModuleSlotBlocksPublish()
    ensures var t := map["system" := JObj(map["startram" := JStr("x")])];
      SystemPublish(t, "system", "startram", "register", JStr("registering")) == Outcome(false, t)
  {
    var t := map["system" := JObj(map["startram" := JStr("x")])];
    SystemPublishFailure(t, "system", "startram", "register", JStr("registering"));
  }

  /** `system_broadcast` as evidently intended: the module guard tests the module
      slot itself, so a whitelisted publish always lands. */
  function SystemPublishIntended(t: Tree, category: string, mod: string, action: string, info: Json): (r: Outcome)
    ensures r.ok <==> category in Whitelist
    ensures !r.ok ==> r.tree == t
    ensures r.ok ==> (category in r.tree && r.tree[category].JObj?
      && mod in r.tree[category].fields && r.tree[category].fields[mod].JObj?
      && action in r.tree[category].fields[mod].fields
      && r.tree[category].fields[mod].fields[action] == info)
  {
    if category !in Whitelist then Outcome(false, t)
    else
      var t1 := EnsureDict(t, category);
      var cat := EnsureDict(t1[category].fields, mod);
      Outcome(true, t1[category := JObj(cat[mod := JObj(cat[mod].fields[action := info])])])
  }

  /** The two guards differ only on a blocked module slot: everywhere else the
      publish as written is the intended one. */
  lemma SystemPublishAsIntended(t: Tree, category: string, mod: string, action: string, info: Json)
    requires !BlockedModule(t, category, mod)
    ensures SystemPublish(t, category, mod, action, info) == SystemPublishIntended(t, category, mod, action, info)
  {
    if category in Whitelist {
      var t1 := EnsureDict(t, category);
      var cat := t1[category].fields;
      if category in t && t[category].JObj? {
        EnsureDictKeepsDictionary(t, category);
      }
      assert !(HasTruthy(cat, mod) && !cat[mod].JObj?);
    }
  }

  /** On the tree that blocks the publish as written, the intended one writes the leaf. */
  lemma StringModuleSlotIntended()
    ensures var t := map["system" := JObj(map["startram" := JStr("x")])];
      SystemPublishIntended(t, "system", "startram", "register", JStr("registering"))
        == Outcome(true, map["system" := JObj(map["startram" := JObj(map["register" := JStr("registering")])])])
  {
    var t := map["system" := JObj(map["startram" := JStr("x")])];
    assert "startram" in t["system"].fields;
    assert KeepsSlot(t, "system");
    assert !KeepsSlot(t["system"].fields, "startram");
    var cat := EnsureDict(t["system"].fields, "startram");
    assert cat == map["startram" := JObj(map[])];
    assert cat["startram" := JObj(cat["startram"].fields["register" := JStr("registering")])]
        == map["startram" := JObj(map["register" := JStr("registering")])];
    assert EnsureDict(t, "system") == t;
    assert t["system" := JObj(map["startram" := JObj(map["register" := JStr("registering")])])]
        == map["system" := JObj(map["startram" := JObj(map["register" := JStr("registering")])])];
  }

  /** `depth` levels of dicts ending in string leaves. */
  predicate Shaped(j: Json, depth: nat)
  {
    if depth == 0 then j.JStr?
    else j.JObj? && forall k :: k in j.fields ==> Shaped(j.fields[k], depth - 1)
  }

  /** The typed view `category -> module -> action -> string` (and one level more
      under 'urbits'), in which every intermediate level is a dict. */
  predicate WellShaped(t: Tree)
  {
    forall c :: c in t ==> Shaped(t[c], if c == UrbitsKey then 3 else 2)
  }

  /** On a well-shaped tree a whitelisted publish of a string always succeeds and
      keeps the tree well-shaped, so the mod-level quirk never shows. */
  lemma SystemPublishKeepsShape(t: Tree, category: string, mod: string, action: string, info: string)
    requires WellShaped(t) && category in Whitelist
    ensures SystemPublish(t, category, mod, action, JStr(info)).ok
    ensures WellShaped(SystemPublish(t, category, mod, action, JStr(info)).tree)
  {
    SystemPublishFailure(t, category, mod, action, JStr(info));
    if category in t {
      assert Shaped(t[category], 2);
      EnsureDictKeepsDictionary(t, category);
      if mod in t[category].fields {
        assert Shaped(t[category].fields[mod], 1);
      }
    }
    var r := SystemPublish(t, category, mod, action, JStr(info)).tree;
    SystemPublishFrame(t, category, mod, action, JStr(info));
    assert Shaped(r[category].fields[mod], 1);
    assert Shaped(r[category], 2);
  }

  /** A per-pier publish of a string keeps a well-shaped tree well-shaped. */
  lemma UrbitPublishKeepsShape(t: Tree, patp: string, mod: string, action: string, info: string)
    requires WellShaped(t)
    ensures WellShaped(UrbitPublish(t, patp, mod, action, JStr(info)))
  {
    var r := UrbitPublish(t, patp, mod, action, JStr(info));
    UrbitPublishFrame(t, patp, mod, action, JStr(info));
    if UrbitsKey in t {
      assert Shaped(t[UrbitsKey], 3);
      EnsureDictKeepsDictionary(t, UrbitsKey);
      if patp in t[UrbitsKey].fields {
        assert Shaped(t[UrbitsKey].fields[patp], 2);
        EnsureDictKeepsDictionary(t[UrbitsKey].fields, patp);
        if mod in t[UrbitsKey].fields[patp].fields {
          assert Shaped(t[UrbitsKey].fields[patp].fields[mod], 1);
        }
      }
    }
    assert Shaped(r[UrbitsKey].fields[patp].fields[mod], 1);
    assert Shaped(r[UrbitsKey].fields[patp], 2);
    assert Shaped(r[UrbitsKey], 3);
  }

  /** The process-wide dictionary both back ends publish into. It is an object so
      that several holders (a class attribute, `state['broadcast']`) can share it. */
  class StatusTree {
    var entries: Tree

    constructor ()
      ensures entries == map[]
    {
      entries := map[];
    }

    /** Walks the category and module levels, creating missing dicts, then
        overwrites the action leaf. */
    method SystemBroadcast(category: string, mod: string, action: string, info: Json) returns (ok: bool)
      modifies this
      ensures Outcome(ok, entries) == SystemPublish(old(entries), category, mod, action, info)
    {
      if category !in Whitelist {
        return false;
      }
      if !KeepsSlot(entries, category) {
        entries := entries[category := JObj(map[])];
      }
      var root := entries[category].fields;
      if !HasTruthy(root, mod) {
        root := root[mod := JObj(map[])];
        entries := entries[category := JObj(root)];
      }
      var slot := root[mod];
      if !slot.JObj? {
        entries := entries[category := JObj(root)];
        return false;
      }
      entries := entries[category := JObj(root[mod := JObj(slot.fields[action := info])])];
      ok := true;
    }

    /** Walks 'urbits', the pier and the module level, creating each missing or
        non-dict level, then overwrites the action leaf. */
    method UrbitBroadcast(patp: string, mod: string, action: string, info: Json) returns (ok: bool)
      modifies this
      ensures ok && entries == UrbitPublish(old(entries), patp, mod, action, info)
    {
      if !KeepsSlot(entries, UrbitsKey) {
        entries := entries[UrbitsKey := JObj(map[])];
      }
      var urbits := entries[UrbitsKey].fields;
      if !KeepsSlot(urbits, patp) {
        urbits := urbits[patp := JObj(map[])];
      }
      var pier := urbits[patp].fields;
      if !KeepsSlot(pier, mod) {
        pier := pier[mod := JObj(map[])];
      }
      var leaves := pier[mod].fields;
      entries := entries[UrbitsKey := JObj(urbits[patp := JObj(pier[mod := JObj(leaves[action := info])])])];
      ok := true;
    }
  }
}
