/** api/broadcaster.py: a publisher bound to the shared application state. The
    constructor keeps a reference to `state['broadcast']`, so every publish is
    visible to everyone else holding the state. */
module Broadcaster {
  import opened Json
  import opened BroadcastTree

  /** The shared application state; only its broadcast dictionary is modelled. */
  class AppState {
    var broadcast: StatusTree

    constructor (broadcast: StatusTree)
      ensures this.broadcast == broadcast
    {
      this.broadcast := broadcast;
    }
  }

  class Broadcaster {
    const state: AppState
    const structure: StatusTree

    constructor (state: AppState)
      ensures this.state == state && structure == state.broadcast
    {
      this.state := state;
      structure := state.broadcast;
    }

    method SystemBroadcast(category: string, mod: string, action: string, info: Json) returns (ok: bool)
      modifies structure
      ensures Outcome(ok, structure.entries) == SystemPublish(old(structure.entries), category, mod, action, info)
      ensures state.broadcast == old(state.broadcast)
    {
      ok := structure.SystemBroadcast(category, mod, action, info);
    }

    method UrbitBroadcast(patp: string, mod: string, action: string, info: Json) returns (ok: bool)
      modifies structure
      ensures ok && structure.entries == UrbitPublish(old(structure.entries), patp, mod, action, info)
      ensures state.broadcast == old(state.broadcast)
    {
      ok := structure.UrbitBroadcast(patp, mod, action, info);
    }
  }

  /** A caller's view: what a broadcaster publishes is read back through the
      state it was built from, and the second of two writes to one leaf wins. */
  method PublishThroughSharedState()
  {
    var tree := new StatusTree();
    var state := new AppState(tree);
    var b := new Broadcaster(state);
    var ok := b.SystemBroadcast("system", "startram", "register", JStr("registering"));
    assert ok;
    ok := b.SystemBroadcast("system", "startram", "endpoint", JStr("changing"));
    assert ok;
    var cat := state.broadcast.entries["system"].fields["startram"].fields;
    assert cat["register"] == JStr("registering") && cat["endpoint"] == JStr("changing");
    ok := b.SystemBroadcast("system", "startram", "register", JStr("success"));
    assert state.broadcast.entries["system"].fields["startram"].fields["register"] == JStr("success");
    ok := b.SystemBroadcast("network", "startram", "register", JStr("x"));
    assert !ok;
  }
}
