/**
 * The API key test both model-backed modules apply before creating a client, and the
 * module-level client variable each of them caches the client in.
 */
module ApiKey {
  import opened Wrappers
  import opened TextOps

  /** A key is usable when it is present, non-empty and mentions neither `dummy` nor `test`. */
  predicate UsableKey(key: Option<string>) {
    key.Some? && key.value != "" && !Contains(key.value, "dummy") && !Contains(key.value, "test")
  }

  /** Any key with `dummy` or `test` inside it is rejected, as are a missing and an empty key;
      every non-empty key with neither word is accepted, for instance `sk-` followed by any
      text without a `d` or a `t` and then `x`. */
  lemma PlaceholderKeysRejected(a: string, b: string, k: string)
    ensures !UsableKey(Some(a + "dummy" + b))
    ensures !UsableKey(Some(a + "test" + b))
    ensures !UsableKey(None) && !UsableKey(Some(""))
    ensures UsableKey(Some(k)) <==> k != "" && !Contains(k, "dummy") && !Contains(k, "test")
    ensures 'd' !in b && 't' !in b ==> UsableKey(Some("sk-" + b + "x"))
  {
    var d := a + "dummy" + b;
    assert d[|a|..|a| + 5] == "dummy";
    assert OccursAt(d, "dummy", |a|);
    var t := a + "test" + b;
    assert t[|a|..|a| + 4] == "test";
    assert OccursAt(t, "test", |a|);
    if 'd' !in b && 't' !in b {
      var sample := "sk-" + b + "x";
      assert 'd' !in sample && 't' !in sample;
      AbsentCharNotContained(sample, "dummy", 0);
      AbsentCharNotContained(sample, "test", 0);
    }
  }

  /** The module-level `openai` variable: empty until an initialisation finds a usable key,
      and kept from then on. */
  class ClientSlot {
    var ready: bool

    constructor ()
      ensures !ready
    {
      ready := false;
    }

    /** `if (!openai) openai = initializeOpenAI()`, with the key read from the environment
        passed in. */
    method EnsureInitialized(key: Option<string>)
      modifies this
      ensures ready == (old(ready) || UsableKey(key))
    {
      if !ready {
        ready := UsableKey(key);
      }
    }
  }
}
