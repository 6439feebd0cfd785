/** ui/src/lib/stores/websocket.js: the client's copy of the snapshot
    (`socketInfo`) and the three ways it changes — merging a broadcast into
    it, dropping a confirmed activity, and recording the socket's metadata. */
module SocketStore {
  import opened Json

  //
  //  The merge, as a specification
  //

  /** The slot `deepMerge` descends into for `key`: the existing value, or the
      empty object it creates when the target has no such key. */
  function Child(t: map<string, Json>, key: string): Json
  {
    if key in t then t[key] else JObj(map[])
  }

  /** Merging the source value under `key` completes without a TypeError. */
  predicate MergeableAt(t: map<string, Json>, source: Json, key: string)
    requires source.JObj? && key in source.fields
    decreases source, 0
  {
    source.fields[key].JObj? ==> Mergeable(Child(t, key), source.fields[key])
  }

  /** `deepMerge(target, source)` on an object source completes: either the
      source has no keys, or the target is an object and every key merges. A
      non-object target under a non-empty source raises a TypeError. */
  predicate Mergeable(target: Json, source: Json)
    requires source.JObj?
    decreases source, 1
  {
    source.fields == map[]
    || (target.JObj? && forall key :: key in source.fields ==> MergeableAt(target.fields, source, key))
  }

  /** The new value of `target[key]`: the recursive merge for an object, the
      source value itself for arrays, null and primitives. */
  function MergedAt(t: map<string, Json>, source: Json, key: string): Json
    requires source.JObj? && key in source.fields && MergeableAt(t, source, key)
    decreases source, 0
  {
    if source.fields[key].JObj? then Merged(Child(t, key), source.fields[key]) else source.fields[key]
  }

  /** The target's fields once the keys `done` of the source have been merged. */
  function MergeKeys(t: map<string, Json>, source: Json, done: set<string>): map<string, Json>
    requires source.JObj? && done <= source.fields.Keys
    requires forall key :: key in done ==> MergeableAt(t, source, key)
    decreases source, 1
  {
    map key | key in t.Keys + done :: if key in done then MergedAt(t, source, key) else t[key]
  }

  /** The result leaves the target alone outside the source's keys: a
      non-object target is returned as it is, an object target keeps every key
      the source does not mention, and gains no key but the source's. */
  predicate KeepsOutside(target: Json, source: Json, r: Json)
    requires source.JObj?
  {
    && (!target.JObj? ==> r == target)
    && (target.JObj? ==>
         && r.JObj?
         && r.fields.Keys <= target.fields.Keys + source.fields.Keys
         && forall key :: key in target.fields && key !in source.fields ==>
              key in r.fields && r.fields[key] == target.fields[key])
  }

  /** `r` carries every leaf of `source` at the same path: each key of the
      source is present, with the same value for arrays, null and primitives
      and, for objects, a value that in turn covers the source's object. */
  predicate Covers(r: Json, source: Json)
    requires source.JObj?
    decreases source
  {
    source.fields == map[]
    || (r.JObj? && forall key :: key in source.fields ==>
          key in r.fields
          && (if source.fields[key].JObj? then Covers(r.fields[key], source.fields[key])
              else r.fields[key] == source.fields[key]))
  }

  /** What a completed `deepMerge(target, source)` leaves in `target`: the
      source laid over the target, and the target as before where the source
      says nothing. */
  function Merged(target: Json, source: Json): (r: Json)
    requires source.JObj? && Mergeable(target, source)
    ensures KeepsOutside(target, source, r)
    ensures Covers(r, source)
    decreases source, 2
  {
    if source.fields == map[] then target
    else
      var r := JObj(MergeKeys(target.fields, source, source.fields.Keys));
      assert forall key :: key in source.fields ==>
        (key in r.fields &&
         if source.fields[key].JObj? then Covers(r.fields[key], source.fields[key])
         else r.fields[key] == source.fields[key]) by {
        forall key | key in source.fields
          ensures key in r.fields
          ensures if source.fields[key].JObj? then Covers(r.fields[key], source.fields[key])
                  else r.fields[key] == source.fields[key]
        {
          assert r.fields[key] == MergedAt(target.fields, source, key);
          if source.fields[key].JObj? {
            var c := Merged(Child(target.fields, key), source.fields[key]);
            assert r.fields[key] == c;
          }
        }
      }
      r
  }

  /** Merging the keys `done` and then `key` is merging `done + {key}`. */
  lemma MergeKeysStep(t: map<string, Json>, source: Json, done: set<string>, key: string)
    requires source.JObj? && done <= source.fields.Keys && key in source.fields && key !in done
    requires forall k :: k in done + {key} ==> MergeableAt(t, source, k)
    ensures MergeKeys(t, source, done + {key}) == MergeKeys(t, source, done)[key := MergedAt(t, source, key)]
  {
  }

  //
  //  Properties of the merge
  //

  /** A target that already covers the source is a fixed point of the merge. */
  lemma {:induction false} CoveredIsFixed(r: Json, source: Json)
    requires source.JObj? && Covers(r, source)
    ensures Mergeable(r, source)
    ensures Merged(r, source) == r
    decreases source
  {
    if source.fields != map[] {
      forall key | key in source.fields && source.fields[key].JObj?
        ensures Mergeable(Child(r.fields, key), source.fields[key])
        ensures Merged(Child(r.fields, key), source.fields[key]) == r.fields[key]
      {
        CoveredIsFixed(r.fields[key], source.fields[key]);
      }
      var m := MergeKeys(r.fields, source, source.fields.Keys);
      assert m.Keys == r.fields.Keys;
      forall key | key in m
        ensures m[key] == r.fields[key]
      {
        if key in source.fields {
          assert m[key] == MergedAt(r.fields, source, key);
        }
      }
      assert m == r.fields;
    }
  }

  /** Applying the same broadcast twice leaves the snapshot as applying it once. */
  lemma MergeIdempotent(target: Json, source: Json)
    requires source.JObj? && Mergeable(target, source)
    ensures Mergeable(Merged(target, source), source)
    ensures Merged(Merged(target, source), source) == Merged(target, source)
  {
    CoveredIsFixed(Merged(target, source), source);
  }

  /** Merging into an empty object rebuilds the source exactly: every object
      of the source is created afresh and every leaf is copied. */
  lemma {:induction false} MergeIntoEmpty(source: Json)
    requires source.JObj?
    ensures Mergeable(JObj(map[]), source)
    ensures Merged(JObj(map[]), source) == source
    decreases source
  {
    if source.fields != map[] {
      forall key | key in source.fields && source.fields[key].JObj?
        ensures Mergeable(Child(map[], key), source.fields[key])
        ensures Merged(Child(map[], key), source.fields[key]) == source.fields[key]
      {
        MergeIntoEmpty(source.fields[key]);
      }
      var m := MergeKeys(map[], source, source.fields.Keys);
      assert m.Keys == source.fields.Keys;
      forall key | key in m
        ensures m[key] == source.fields[key]
      {
        assert m[key] == MergedAt(map[], source, key);
      }
      assert m == source.fields;
    }
  }

  /** A null, array or primitive standing where the source has a non-empty
      object makes `deepMerge` throw. */
  lemma MergeFailsAt(target: Json, source: Json, key: string)
    requires source.JObj? && target.JObj? && key in source.fields && key in target.fields
    requires source.fields[key].JObj? && source.fields[key].fields != map[]
    requires !target.fields[key].JObj?
    ensures !Mergeable(target, source)
  {
    assert !MergeableAt(target.fields, source, key);
  }

  //
  //  The merge, as the client runs it
  //

  /** `deepMerge(target, source)`: walks the source's keys, creating an empty
      object for a missing key whose source value is an object and recursing
      into it, and overwriting the slot for every other kind of value. The
      writes happen in place, so when a write throws, the ones made before it
      stay in `r` and `ok` is false. */
  method DeepMerge(target: Json, source: Json) returns (r: Json, ok: bool)
    requires source.JObj?
    ensures ok <==> Mergeable(target, source)
    ensures ok ==> r == Merged(target, source)
    ensures KeepsOutside(target, source, r)
    decreases source
  {
    r := target;
    ok := true;
    var pending := source.fields.Keys;
    ghost var done: set<string> := {};
    while pending != {}
      invariant pending !! done && pending + done == source.fields.Keys
      invariant done == {} ==> r == target
      invariant done != {} ==> target.JObj?
      invariant target.JObj? ==> forall key :: key in done ==> MergeableAt(target.fields, source, key)
      invariant target.JObj? ==> r == JObj(MergeKeys(target.fields, source, done))
      decreases pending
    {
      var key :| key in pending;
      var value := source.fields[key];
      if !r.JObj? {
        // assigning a property of null, a primitive or an array: TypeError
        ok := false;
        return;
      }
      assert target.JObj?;
      if value.JObj? {
        var child := if key in r.fields then r.fields[key] else JObj(map[]);
        assert child == Child(target.fields, key);
        var merged, childOk := DeepMerge(child, value);
        if !childOk {
          assert !MergeableAt(target.fields, source, key);
          r := JObj(r.fields[key := merged]);
          ok := false;
          return;
        }
        assert merged == MergedAt(target.fields, source, key);
        MergeKeysStep(target.fields, source, done, key);
        r := JObj(r.fields[key := merged]);
      } else {
        MergeKeysStep(target.fields, source, done, key);
        r := JObj(r.fields[key := value]);
      }
      pending := pending - {key};
      done := done + {key};
    }
  }

  //
  //  The store
  //

  /** The store's value before any message: an empty activity map, a
      disconnected socket with no address, and no pier or system data. */
  const Initial := JObj(map[
    "activity" := JObj(map[]),
    "metadata" := JObj(map["address" := JStr(""), "connected" := JBool(false)]),
    "urbits" := JObj(map[]),
    "system" := JObj(map[])])

  /** `socketInfo`, the writable store holding the client's snapshot. */
  class SocketInfo {
    var info: Json

    /** The snapshot stays an object whatever is merged into it. */
    predicate Valid()
      reads this
    {
      info.JObj?
    }

    constructor ()
      ensures info == Initial && Valid()
    {
      info := Initial;
    }

    /** `updateData` on a message already parsed into an object: merges it
        into the snapshot. A merge that throws keeps the in-place writes it
        made before throwing. */
    method UpdateData(message: map<string, Json>) returns (ok: bool)
      requires Valid()
      modifies this
      ensures Valid()
      ensures ok <==> Mergeable(old(info), JObj(message))
      ensures ok ==> info == Merged(old(info), JObj(message))
      ensures KeepsOutside(old(info), JObj(message), info)
    {
      info, ok := DeepMerge(info, JObj(message));
    }

    /** `removeActivity(id)`: deletes the entry `id` of the activity map and
        returns true; nothing else changes. Deleting from a missing or null
        activity slot throws instead (`ok` false) and changes nothing. */
    method RemoveActivity(id: string) returns (ok: bool, result: bool)
      requires Valid()
      modifies this
      ensures Valid()
      ensures ok <==> "activity" in old(info).fields && old(info).fields["activity"].JObj?
      ensures ok ==> result
      ensures ok ==> info.fields.Keys == old(info).fields.Keys
      ensures ok ==> forall k :: k in old(info).fields && k != "activity" ==> info.fields[k] == old(info).fields[k]
      ensures ok ==> info.fields["activity"] == JObj(old(info).fields["activity"].fields - {id})
      ensures !ok ==> info == old(info) && !result
    {
      if "activity" in info.fields && info.fields["activity"].JObj? {
        var activity := info.fields["activity"].fields;
        info := JObj(info.fields["activity" := JObj(activity - {id})]);
        ok, result := true, true;
      } else {
        ok, result := false, false;
      }
    }

    /** `updateMetadata(item, val)`: "address" sets `metadata.address`,
        "connected" sets `metadata.connected`, any other item changes nothing.
        Writing into a missing or non-object metadata slot throws (`ok`
        false) and changes nothing. */
    method UpdateMetadata(item: string, val: Json) returns (ok: bool)
      requires Valid()
      modifies this
      ensures Valid()
      ensures item != "address" && item != "connected" ==> ok && info == old(info)
      ensures (item == "address" || item == "connected") ==>
        (ok <==> "metadata" in old(info).fields && old(info).fields["metadata"].JObj?)
      ensures !ok ==> info == old(info)
      ensures ok && (item == "address" || item == "connected") ==>
        && info.fields.Keys == old(info).fields.Keys
        && (forall k :: k in old(info).fields && k != "metadata" ==> info.fields[k] == old(info).fields[k])
        && info.fields["metadata"] == JObj(old(info).fields["metadata"].fields[item := val])
    {
      ok := true;
      if item == "address" || item == "connected" {
        if "metadata" in info.fields && info.fields["metadata"].JObj? {
          var metadata := info.fields["metadata"].fields;
          info := JObj(info.fields["metadata" := JObj(metadata[item := val])]);
        } else {
          ok := false;
        }
      }
    }
  }
}
