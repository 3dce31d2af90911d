/**
 Which observed events a job has already applied: a barrier remembers every key it ever processed and
 fails closed when the list is full, a single-session job remembers the last 128
 (internal/pluginstate/store.go).
 */
module EventKeys {
  import opened Wrappers
  import opened PluginJob

  /** appendProcessedEventKey: None when a barrier has no room left. */
  function AppendKey(policy: TriggerPolicy, keys: seq<Hash>, key: Hash): Option<seq<Hash>> {
    if policy == AfterAllStop then
      if |keys| >= MAXIMUM_BARRIER_EVENT_KEYS then None else Some(keys + [key])
    else
      var longer := keys + [key];
      Some(if |longer| > MAXIMUM_LEGACY_EVENT_KEYS then longer[|longer| - MAXIMUM_LEGACY_EVENT_KEYS..] else longer)
  }

  /** An event with this key is applied now: it is unknown, and there is room to remember it. */
  predicate Applies(policy: TriggerPolicy, keys: seq<Hash>, key: Hash) {
    key !in keys && AppendKey(policy, keys, key).Some?
  }

  /** The keys a job remembers after a sequence of offered events. */
  function Remembered(policy: TriggerPolicy, offered: seq<Hash>): seq<Hash> {
    if offered == [] then []
    else
      var keys := Remembered(policy, offered[..|offered| - 1]);
      var key := offered[|offered| - 1];
      if Applies(policy, keys, key) then AppendKey(policy, keys, key).value else keys
  }

  predicate AppliedAt(policy: TriggerPolicy, offered: seq<Hash>, i: nat)
    requires i < |offered|
  {
    Applies(policy, Remembered(policy, offered[..i]), offered[i])
  }

  /** Every key that was ever applied, in order. */
  function Applied(policy: TriggerPolicy, offered: seq<Hash>): seq<Hash> {
    if offered == [] then []
    else
      var n := |offered| - 1;
      Applied(policy, offered[..n]) + if AppliedAt(policy, offered, n) then [offered[n]] else []
  }

  predicate Distinct(keys: seq<Hash>) {
    forall i, k :: 0 <= i < k < |keys| ==> keys[i] != keys[k]
  }

  function Window(keys: seq<Hash>, n: nat): seq<Hash> {
    if |keys| > n then keys[|keys| - n..] else keys
  }

  /** What is remembered is a window on what was applied; for a barrier, all of it. */
  lemma {:induction false} RememberedIsApplied(policy: TriggerPolicy, offered: seq<Hash>)
    ensures policy == AfterAllStop ==>
      && Remembered(policy, offered) == Applied(policy, offered)
      && Distinct(Remembered(policy, offered)) && |Remembered(policy, offered)| <= MAXIMUM_BARRIER_EVENT_KEYS
    ensures policy != AfterAllStop ==>
      Remembered(policy, offered) == Window(Applied(policy, offered), MAXIMUM_LEGACY_EVENT_KEYS)
  {
    if offered != [] {
      RememberedIsApplied(policy, offered[..|offered| - 1]);
      var before := Applied(policy, offered[..|offered| - 1]);
      var key := offered[|offered| - 1];
      if policy != AfterAllStop {
        WindowSlides(before, key, MAXIMUM_LEGACY_EVENT_KEYS);
      }
    }
  }

  lemma WindowSlides(keys: seq<Hash>, key: Hash, n: nat)
    requires n > 0
    ensures Window(Window(keys, n) + [key], n) == Window(keys + [key], n)
  {
  }

  lemma {:induction false} AppliedGrows(policy: TriggerPolicy, offered: seq<Hash>, i: nat, j: nat)
    requires i <= j <= |offered|
    ensures Applied(policy, offered[..i]) <= Applied(policy, offered[..j])
  {
    if i < j {
      AppliedGrows(policy, offered, i, j - 1);
      assert offered[..j][..j - 1] == offered[..j - 1];
    }
  }

  /** A barrier applies each event at most once in its whole life. */
  lemma BarrierAppliesOnce(offered: seq<Hash>, i: nat, j: nat)
    requires i < j < |offered| && offered[i] == offered[j]
    requires AppliedAt(AfterAllStop, offered, i)
    ensures !AppliedAt(AfterAllStop, offered, j)
  {
    var key := offered[i];
    AppliedAfter(AfterAllStop, offered, i);
    AppliedGrows(AfterAllStop, offered, i + 1, j);
    RememberedIsApplied(AfterAllStop, offered[..j]);
    assert Applied(AfterAllStop, offered[..j])[|Applied(AfterAllStop, offered[..i])|] == key;
  }

  lemma AppliedAfter(policy: TriggerPolicy, offered: seq<Hash>, i: nat)
    requires i < |offered| && AppliedAt(policy, offered, i)
    ensures Applied(policy, offered[..i + 1]) == Applied(policy, offered[..i]) + [offered[i]]
  {
    assert offered[..i + 1][..i] == offered[..i];
  }

  /** A single-session job applies a key again only after at least 128 later ones. */
  lemma LegacyReappliesLate(policy: TriggerPolicy, offered: seq<Hash>, i: nat, j: nat)
    requires policy != AfterAllStop
    requires i < j < |offered| && offered[i] == offered[j]
    requires AppliedAt(policy, offered, i) && AppliedAt(policy, offered, j)
    ensures |Applied(policy, offered[..j])| - |Applied(policy, offered[..i + 1])| >= MAXIMUM_LEGACY_EVENT_KEYS
  {
    var key := offered[i];
    var p := |Applied(policy, offered[..i])|;
    var all := Applied(policy, offered[..j]);
    AppliedAfter(policy, offered, i);
    AppliedGrows(policy, offered, i + 1, j);
    RememberedIsApplied(policy, offered[..j]);
    assert all[p] == key;
    InWindow(all, p, MAXIMUM_LEGACY_EVENT_KEYS);
  }

  lemma InWindow(keys: seq<Hash>, p: nat, n: nat)
    requires p < |keys|
    ensures |keys| - p <= n ==> keys[p] in Window(keys, n)
  {
    var window := Window(keys, n);
    if |keys| - p <= n {
      assert window[|window| - (|keys| - p)] == keys[p];
    }
  }

  /** At capacity a barrier applies nothing any more. */
  lemma FullBarrierAppliesNothing(offered: seq<Hash>, i: nat, j: nat)
    requires i <= j < |offered| && |Remembered(AfterAllStop, offered[..i])| == MAXIMUM_BARRIER_EVENT_KEYS
    ensures !AppliedAt(AfterAllStop, offered, j)
  {
    RememberedIsApplied(AfterAllStop, offered[..i]);
    RememberedIsApplied(AfterAllStop, offered[..j]);
    AppliedGrows(AfterAllStop, offered, i, j);
  }
}
