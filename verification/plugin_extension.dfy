/**
 * Building the editor instance: the base instance, then each plugin's
 * extension merged in from left to right (`Object.assign` onto the
 * accumulator). A later plugin's keys overwrite earlier ones; a plugin
 * without `extendEditorInstance` contributes nothing. Instance members are
 * keys to opaque values.
 */
module PluginExtension {
  import opened Wrappers

  /** One step of the fold: a shallow overwrite by the plugin's extension, if it has one. */
  function Extend<K, V>(acc: map<K, V>, ext: Option<map<K, V>>): (r: map<K, V>)
    ensures ext.None? ==> r == acc
    ensures ext.Some? ==> r.Keys == acc.Keys + ext.value.Keys
    ensures ext.Some? ==> forall k :: k in ext.value ==> r[k] == ext.value[k]
    ensures forall k :: k in acc && !(ext.Some? && k in ext.value) ==> k in r && r[k] == acc[k]
  {
    match ext
    case None => acc
    case Some(e) => acc + e
  }

  /** The left fold over the plugins, applied to the base instance. */
  function MergeAll<K, V>(base: map<K, V>, plugins: seq<Option<map<K, V>>>): map<K, V>
    decreases |plugins|
  {
    if plugins == [] then base
    else Extend(MergeAll(base, plugins[..|plugins| - 1]), plugins[|plugins| - 1])
  }

  /** The plugin's extension exists and defines `k`. */
  predicate Defines<K, V>(plugin: Option<map<K, V>>, k: K)
  {
    plugin.Some? && k in plugin.value
  }

  /** A member is in the instance exactly when the base or some plugin defines it. */
  lemma {:induction false} MergeAllKeys<K, V>(base: map<K, V>, plugins: seq<Option<map<K, V>>>, k: K)
    ensures k in MergeAll(base, plugins) <==>
      k in base || exists j :: 0 <= j < |plugins| && Defines(plugins[j], k)
  {
    if plugins != [] {
      var n := |plugins| - 1;
      var front := plugins[..n];
      MergeAllKeys(base, front, k);
      if exists j :: 0 <= j < |plugins| && Defines(plugins[j], k) {
        var j :| 0 <= j < |plugins| && Defines(plugins[j], k);
        if j < n {
          assert Defines(front[j], k);
        }
      }
      if exists j :: 0 <= j < n && Defines(front[j], k) {
        var j :| 0 <= j < n && Defines(front[j], k);
        assert Defines(plugins[j], k);
      }
    }
  }

  /** The last plugin that defines a member decides its value. */
  lemma {:induction false} MergeAllLastWins<K, V>(base: map<K, V>, plugins: seq<Option<map<K, V>>>, k: K, j: nat)
    requires j < |plugins| && Defines(plugins[j], k)
    requires forall i :: j < i < |plugins| ==> !Defines(plugins[i], k)
    ensures k in MergeAll(base, plugins) && MergeAll(base, plugins)[k] == plugins[j].value[k]
  {
    var n := |plugins| - 1;
    if j < n {
      var front := plugins[..n];
      assert forall i :: j < i < |front| ==> front[i] == plugins[i];
      MergeAllLastWins(base, front, k, j);
    }
  }

  /** A base member that no plugin defines keeps its base value. */
  lemma {:induction false} MergeAllKeepsBase<K, V>(base: map<K, V>, plugins: seq<Option<map<K, V>>>, k: K)
    requires k in base
    requires forall i :: 0 <= i < |plugins| ==> !Defines(plugins[i], k)
    ensures k in MergeAll(base, plugins) && MergeAll(base, plugins)[k] == base[k]
  {
    if plugins != [] {
      var front := plugins[..|plugins| - 1];
      assert forall i :: 0 <= i < |front| ==> front[i] == plugins[i];
      MergeAllKeepsBase(base, front, k);
    }
  }

  /** A plugin without an extension can be dropped from the list, wherever it stands. */
  lemma {:induction false} MergeAllSkipsMissing<K, V>(base: map<K, V>, before: seq<Option<map<K, V>>>, after: seq<Option<map<K, V>>>)
    ensures MergeAll(base, before + [None] + after) == MergeAll(base, before + after)
    decreases |after|
  {
    if after == [] {
      assert (before + [None] + after)[..|before|] == before;
      assert before + after == before;
    } else {
      var n := |after| - 1;
      MergeAllSkipsMissing(base, before, after[..n]);
      assert (before + [None] + after)[..|before| + 1 + n] == before + [None] + after[..n];
      assert (before + after)[..|before| + n] == before + after[..n];
    }
  }

  /**
   * The `reduce` that builds the instance: starting from the base instance,
   * merge each plugin's extension into the accumulator in list order. An
   * absent plugin list is treated as empty.
   */
  method ExtendInstance<K, V>(base: map<K, V>, plugins: Option<seq<Option<map<K, V>>>>)
    returns (instance: map<K, V>)
    ensures plugins.None? ==> instance == base
    ensures plugins.Some? ==> instance == MergeAll(base, plugins.value)
  {
    var list := if plugins.Some? then plugins.value else [];
    instance := base;
    for i := 0 to |list|
      invariant instance == MergeAll(base, list[..i])
    {
      assert list[..i + 1][..i] == list[..i];
      match list[i]
      case None =>
      case Some(ext) =>
        instance := instance + ext;
    }
    assert list[..|list|] == list;
  }
}
