/**
 * The plugin's state file: a JSON object mapping attribute ids to attribute
 * names, shared by all drives, read on every call of `munin_state` and
 * rewritten only when an update changes it.
 */
module State {
  import opened Wrappers

  /**
   * The map a read of the file yields: its contents, or the empty map when
   * the file is missing or cannot be parsed (`None`).
   */
  function Load(stored: Option<map<string, string>>): map<string, string> {
    stored.GetOr(map[])
  }

  /** Some supplied key is absent from `state` or maps to another value there. */
  predicate Changed(state: map<string, string>, kw: map<string, string>) {
    exists k :: k in kw && (k !in state || state[k] != kw[k])
  }

  /** An update changes the state exactly when merging it gives a different map. */
  lemma ChangedIff(state: map<string, string>, kw: map<string, string>)
    ensures Changed(state, kw) <==> state + kw != state
  {
    if Changed(state, kw) {
      var k :| k in kw && (k !in state || state[k] != kw[k]);
      assert (state + kw)[k] == kw[k];
    } else {
      assert state + kw == state;
    }
  }

  /** The file after `munin_state(**kw)`: rewritten with the merged state only if it changed. */
  function Written(stored: Option<map<string, string>>, kw: map<string, string>): Option<map<string, string>> {
    if Changed(Load(stored), kw) then Some(Load(stored) + kw) else stored
  }

  /**
   * Whether or not the file is rewritten, the next read sees the merged
   * state: every supplied key with its supplied value, every other key as
   * before, no key removed.
   */
  lemma LoadAfterUpdate(stored: Option<map<string, string>>, kw: map<string, string>)
    ensures Load(Written(stored, kw)) == Load(stored) + kw
    ensures forall k :: k in kw ==> k in Load(Written(stored, kw)) && Load(Written(stored, kw))[k] == kw[k]
    ensures forall k :: k in Load(stored) && k !in kw ==> k in Load(Written(stored, kw)) && Load(Written(stored, kw))[k] == Load(stored)[k]
    ensures Load(stored).Keys <= Load(Written(stored, kw)).Keys
  {
    ChangedIff(Load(stored), kw);
  }

  /** Repeating an update finds nothing to change and leaves the file alone. */
  lemma UpdateIdempotent(stored: Option<map<string, string>>, kw: map<string, string>)
    ensures !Changed(Load(Written(stored, kw)), kw)
    ensures Written(Written(stored, kw), kw) == Written(stored, kw)
  {
    LoadAfterUpdate(stored, kw);
    var merged := Load(Written(stored, kw));
    ChangedIff(merged, kw);
    assert merged + kw == merged;
  }

  /** The entries of `kw` whose keys are in `keys`. */
  function Restrict(kw: map<string, string>, keys: set<string>): (r: map<string, string>)
    ensures r.Keys == kw.Keys * keys
    ensures forall k :: k in r ==> r[k] == kw[k]
  {
    map k | k in kw && k in keys :: kw[k]
  }

  /**
   * One turn of the merge loop: folding in one more supplied key updates
   * that key and raises the flag exactly when the key was absent or differed.
   */
  lemma MergeStep(base: map<string, string>, kw: map<string, string>, done: set<string>, key: string)
    requires key in kw && key !in done
    ensures var merged := base + Restrict(kw, done);
      && base + Restrict(kw, done + {key}) == merged[key := kw[key]]
      && (Changed(base, Restrict(kw, done + {key})) <==>
          Changed(base, Restrict(kw, done)) || key !in merged || merged[key] != kw[key])
  {
    var merged := base + Restrict(kw, done);
    var before := Restrict(kw, done);
    var after := Restrict(kw, done + {key});
    assert after == before[key := kw[key]];
    assert key !in before;
    if Changed(base, after) {
      var k :| k in after && (k !in base || base[k] != after[k]);
      if k != key {
        assert k in before && before[k] == after[k];
      }
    }
    if Changed(base, before) {
      var k :| k in before && (k !in base || base[k] != before[k]);
      assert k in after && after[k] == before[k];
    }
    if key !in merged || merged[key] != kw[key] {
      assert key !in base || base[key] != after[key];
    }
  }

  /** The state file: what it holds and how many times it has been written. */
  class StateFile {
    /** The parsed contents, or `None` when the file is missing or malformed. */
    var stored: Option<map<string, string>>
    /** How many times the plugin has rewritten the file. */
    var writes: nat

    constructor (initial: Option<map<string, string>>)
      ensures stored == initial && writes == 0
    {
      stored := initial;
      writes := 0;
    }

    /**
     * `munin_state(**kw)`: read the state, merge the updates, rewrite the
     * file if some update changed it, and return the merged state.
     */
    method Update(kw: map<string, string>) returns (state: map<string, string>)
      modifies this
      ensures state == Load(old(stored)) + kw
      ensures stored == Written(old(stored), kw)
      ensures writes == old(writes) + if Changed(Load(old(stored)), kw) then 1 else 0
    {
      state := Load(stored);
      ghost var base := state;
      var modified := false;
      var pending := kw.Keys;
      while pending != {}
        invariant stored == old(stored) && writes == old(writes)
        invariant pending <= kw.Keys
        invariant state == base + Restrict(kw, kw.Keys - pending)
        invariant modified == Changed(base, Restrict(kw, kw.Keys - pending))
        decreases pending
      {
        var key :| key in pending;
        MergeStep(base, kw, kw.Keys - pending, key);
        assert kw.Keys - (pending - {key}) == (kw.Keys - pending) + {key};
        if key !in state || state[key] != kw[key] {
          state := state[key := kw[key]];
          modified := true;
        }
        pending := pending - {key};
      }
      assert kw.Keys - pending == kw.Keys;
      assert Restrict(kw, kw.Keys) == kw;
      ChangedIff(base, kw);
      if modified {
        stored := Some(state);
        writes := writes + 1;
      }
    }
  }
}
