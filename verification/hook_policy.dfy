/**
 The decision on a host's hook inventory (internal/hostauthority/policy.go).

 Event names, trust states and sources are given trimmed and lower-cased; keys are byte strings; a matcher is
 known by the DoneThen tools it matches. Reasons are texts and are sorted as texts. The fingerprint is a hash,
 hence its own contents.
 */
module HookPolicy {
  import opened Wrappers
  import Actions

  const TOOL_NAMES := ["mcp__done_then__arm", "mcp__done_then__finish", "mcp__done_then__pause",
                       "mcp__done_then__cancel", "mcp__done_then__status"]

  /** No or a blank matcher, one that does not compile, or one that matches these tool names. */
  datatype Matcher = Anything | Broken | Tools(names: set<string>)

  datatype Hook = Hook(
    key: string, enabled: bool, eventName: string, handlerType: string, matcher: Matcher,
    pluginID: Option<string>, source: string, trustStatus: string, currentHash: string)

  datatype Inventory = Inventory(cwdBlank: bool, errors: nat, warnings: nat, hooks: seq<Hook>)

  datatype Fingerprint = FingerprintOf(cwdBlank: bool, errors: nat, warnings: nat, hooks: multiset<Hook>)

  datatype Decision = Decision(compatible: bool, fingerprint: Fingerprint, reasons: seq<string>)

  predicate Trusted(status: string) {
    status == "trusted" || status == "managed"
  }

  predicate UnknownSource(source: string) {
    source == "" || source == "unknown"
  }

  predicate ToolEvent(eventName: string) {
    eventName == "pretooluse" || eventName == "permissionrequest" || eventName == "posttooluse"
  }

  predicate Relevant(hook: Hook) {
    hook.eventName == "stop" || ToolEvent(hook.eventName)
  }

  predicate ToolHookIntersects(hook: Hook) {
    && ToolEvent(hook.eventName)
    && (hook.handlerType != "command" || hook.matcher.Anything? || hook.matcher.Broken?
        || exists i :: 0 <= i < |TOOL_NAMES| && TOOL_NAMES[i] in hook.matcher.names)
  }

  function TrimLeft(text: string): string {
    if text != "" && Actions.IsSpace(text[0]) then TrimLeft(text[1..]) else text
  }

  function TrimRight(text: string): string {
    if text != "" && Actions.IsSpace(text[|text| - 1]) then TrimRight(text[..|text| - 1]) else text
  }

  function SafeKey(key: string): string {
    var trimmed := TrimRight(TrimLeft(key));
    if trimmed == "" then "<unknown>" else if |trimmed| > 48 then trimmed[..48] else trimmed
  }

  predicate IsDoneThen(hook: Hook, pluginID: string) {
    hook.enabled && hook.pluginID == Some(pluginID)
  }

  // ---------------------------------------------------------------- the reasons of one hook

  function When(condition: bool, reason: string): seq<string> {
    if condition then [reason] else []
  }

  function OwnReasons(hook: Hook, expected: map<string, string>): seq<string> {
    When(!Trusted(hook.trustStatus), "DoneThen hook " + SafeKey(hook.key) + " is not trusted")
    + When(hook.currentHash == "", "DoneThen hook " + SafeKey(hook.key) + " has no definition hash")
    + When(hook.key !in expected, "DoneThen hook " + SafeKey(hook.key) + " is not present in the installed policy")
    + When(hook.key in expected && expected[hook.key] != hook.currentHash,
           "DoneThen hook " + SafeKey(hook.key) + " hash changed")
  }

  function ForeignReasons(hook: Hook): seq<string> {
    if UnknownSource(hook.source) || !Trusted(hook.trustStatus) then
      When(Relevant(hook), "relevant hook " + SafeKey(hook.key) + " has unknown, modified, or untrusted provenance")
    else if hook.eventName == "stop" then ["non-DoneThen Stop hook " + SafeKey(hook.key) + " is enabled"]
    else When(ToolHookIntersects(hook), "hook " + SafeKey(hook.key) + " can match a DoneThen MCP tool")
  }

  function HookReasons(hook: Hook, pluginID: string, expected: map<string, string>): seq<string> {
    if !hook.enabled then []
    else if IsDoneThen(hook, pluginID) then OwnReasons(hook, expected)
    else ForeignReasons(hook)
  }

  function InventoryReasons(inventory: Inventory): seq<string> {
    When(inventory.cwdBlank, "hook inventory has no cwd")
    + When(inventory.errors != 0, "hook inventory contains discovery errors")
    + When(inventory.warnings != 0, "hook inventory contains warnings")
  }

  function PolicyReasons(pluginID: string, expected: map<string, string>, found: nat): seq<string> {
    if pluginID == "" then ["expected DoneThen plugin id is unavailable"]
    else if |expected| == 0 then ["expected DoneThen hook hash policy is unavailable"]
    else When(found == 0, "DoneThen hooks are absent from the effective inventory")
  }

  function KeyReason(key: string, count: nat): Option<string> {
    if count == 0 then Some("expected DoneThen hook " + SafeKey(key) + " is missing")
    else if count != 1 then Some("expected DoneThen hook " + SafeKey(key) + " appears more than once")
    else None
  }

  // ---------------------------------------------------------------- sums over the hooks

  ghost function Tally(hooks: seq<Hook>, f: Hook -> nat): nat {
    if hooks == [] then 0 else Tally(hooks[..|hooks| - 1], f) + f(hooks[|hooks| - 1])
  }

  lemma {:induction false} TallyAppends(a: seq<Hook>, b: seq<Hook>, f: Hook -> nat)
    ensures Tally(a + b, f) == Tally(a, f) + Tally(b, f)
  {
    if b == [] {
      assert a + b == a;
    } else {
      assert (a + b)[..|a + b| - 1] == a + b[..|b| - 1];
      TallyAppends(a, b[..|b| - 1], f);
    }
  }

  lemma TallyStep(hooks: seq<Hook>, i: nat, f: Hook -> nat)
    requires i < |hooks|
    ensures Tally(hooks[..i + 1], f) == Tally(hooks[..i], f) + f(hooks[i])
  {
    assert hooks[..i + 1][..i] == hooks[..i];
  }

  lemma WithoutOne<T>(items: seq<T>, i: nat)
    requires i < |items|
    ensures multiset(items[..i] + items[i + 1..]) == multiset(items) - multiset{items[i]}
  {
    assert items == items[..i] + [items[i]] + items[i + 1..];
  }

  lemma TallyOfOne(hook: Hook, f: Hook -> nat)
    ensures Tally([hook], f) == f(hook)
  {
    assert [hook][..0] == [];
  }

  lemma Parts(hooks: seq<Hook>, i: nat)
    requires i < |hooks|
    ensures hooks == hooks[..i] + ([hooks[i]] + hooks[i + 1..])
  {
  }

  lemma TallyWithoutOne(hooks: seq<Hook>, i: nat, f: Hook -> nat)
    requires i < |hooks|
    ensures Tally(hooks, f) == Tally(hooks[..i] + hooks[i + 1..], f) + f(hooks[i])
  {
    hide Tally;
    var one, before, after := [hooks[i]], hooks[..i], hooks[i + 1..];
    TallyOfOne(hooks[i], f);
    Parts(hooks, i);
    TallyAppends(before, one + after, f);
    TallyAppends(one, after, f);
    TallyAppends(before, after, f);
  }

  /** A sum over the hooks does not depend on their order. */
  lemma {:induction false} TallyPermutes(a: seq<Hook>, b: seq<Hook>, f: Hook -> nat)
    requires multiset(a) == multiset(b)
    ensures Tally(a, f) == Tally(b, f)
  {
    if a == [] {
      assert |multiset(b)| == 0;
    } else {
      var n := |a| - 1;
      assert a[n] in multiset(b);
      var i :| 0 <= i < |b| && b[i] == a[n];
      WithoutOne(a, n);
      WithoutOne(b, i);
      assert a[..n] + a[n + 1..] == a[..n];
      TallyPermutes(a[..n], b[..i] + b[i + 1..], f);
      TallyWithoutOne(b, i, f);
    }
  }

  lemma {:induction false} TallyZero(hooks: seq<Hook>, f: Hook -> nat)
    ensures Tally(hooks, f) == 0 <==> forall i :: 0 <= i < |hooks| ==> f(hooks[i]) == 0
  {
    if hooks != [] {
      var n := |hooks| - 1;
      TallyZero(hooks[..n], f);
      assert forall i :: 0 <= i < n ==> hooks[..n][i] == hooks[i];
    }
  }

  // ---------------------------------------------------------------- the specification

  ghost function OwnWeight(pluginID: string): Hook -> nat {
    hook => if IsDoneThen(hook, pluginID) then 1 else 0
  }

  ghost function KeyWeight(pluginID: string, key: string): Hook -> nat {
    hook => if IsDoneThen(hook, pluginID) && hook.key == key then 1 else 0
  }

  ghost function ReasonWeight(pluginID: string, expected: map<string, string>, reason: string): Hook -> nat {
    hook => multiset(HookReasons(hook, pluginID, expected))[reason]
  }

  ghost function OwnCount(hooks: seq<Hook>, pluginID: string): nat {
    Tally(hooks, OwnWeight(pluginID))
  }

  /** How many enabled DoneThen hooks carry a key. */
  ghost function KeyCount(hooks: seq<Hook>, pluginID: string, key: string): nat {
    Tally(hooks, KeyWeight(pluginID, key))
  }

  ghost function HookMultiplicity(hooks: seq<Hook>, pluginID: string, expected: map<string, string>,
                                  reason: string): nat
  {
    Tally(hooks, ReasonWeight(pluginID, expected, reason))
  }

  ghost function BlamedKeys(hooks: seq<Hook>, pluginID: string, keys: set<string>, reason: string): set<string> {
    set key | key in keys && KeyReason(key, KeyCount(hooks, pluginID, key)) == Some(reason)
  }

  /** How often a reason is given. */
  ghost function Multiplicity(inventory: Inventory, pluginID: string, expected: map<string, string>,
                              reason: string): nat
  {
    multiset(InventoryReasons(inventory))[reason]
    + HookMultiplicity(inventory.hooks, pluginID, expected, reason)
    + multiset(PolicyReasons(pluginID, expected, OwnCount(inventory.hooks, pluginID)))[reason]
    + |BlamedKeys(inventory.hooks, pluginID, expected.Keys, reason)|
  }

  /** Exactly one enabled DoneThen hook carries the key. */
  predicate ExactlyOnce(hooks: seq<Hook>, pluginID: string, key: string) {
    exists i :: 0 <= i < |hooks| && OnlyHookWithKey(hooks, pluginID, key, i)
  }

  predicate OnlyHookWithKey(hooks: seq<Hook>, pluginID: string, key: string, i: nat)
    requires i < |hooks|
  {
    && IsDoneThen(hooks[i], pluginID) && hooks[i].key == key
    && forall k :: 0 <= k < |hooks| && IsDoneThen(hooks[k], pluginID) && hooks[k].key == key ==> k == i
  }

  /** An enabled hook that gives no cause for concern. */
  predicate Acceptable(hook: Hook, pluginID: string, expected: map<string, string>) {
    hook.enabled ==>
      if hook.pluginID == Some(pluginID) then
        && Trusted(hook.trustStatus) && hook.currentHash != ""
        && hook.key in expected && expected[hook.key] == hook.currentHash
      else if UnknownSource(hook.source) || !Trusted(hook.trustStatus) then !Relevant(hook)
      else hook.eventName != "stop" && !ToolHookIntersects(hook)
  }

  /** What a compatible host looks like. */
  predicate Clean(inventory: Inventory, pluginID: string, expected: map<string, string>) {
    && !inventory.cwdBlank && inventory.errors == 0 && inventory.warnings == 0
    && pluginID != "" && |expected| != 0
    && (forall i :: 0 <= i < |inventory.hooks| ==> Acceptable(inventory.hooks[i], pluginID, expected))
    && (forall key :: key in expected ==> ExactlyOnce(inventory.hooks, pluginID, key))
  }

  // ---------------------------------------------------------------- sorting

  predicate Leq(a: string, b: string) {
    a == "" || (b != "" && (a[0] < b[0] || (a[0] == b[0] && Leq(a[1..], b[1..]))))
  }

  lemma {:induction false} LeqTotal(a: string, b: string)
    ensures Leq(a, b) || Leq(b, a)
  {
    if a != "" && b != "" { LeqTotal(a[1..], b[1..]); }
  }

  lemma {:induction false} LeqAntisymmetric(a: string, b: string)
    requires Leq(a, b) && Leq(b, a)
    ensures a == b
  {
    if a != "" && b != "" {
      LeqAntisymmetric(a[1..], b[1..]);
      assert a == [a[0]] + a[1..] && b == [b[0]] + b[1..];
    }
  }

  lemma {:induction false} LeqTransitive(a: string, b: string, c: string)
    requires Leq(a, b) && Leq(b, c)
    ensures Leq(a, c)
  {
    if a != "" && b != "" && c != "" && a[0] == b[0] == c[0] { LeqTransitive(a[1..], b[1..], c[1..]); }
  }

  predicate Sorted(texts: seq<string>) {
    forall i, k :: 0 <= i < k < |texts| ==> Leq(texts[i], texts[k])
  }

  method InsertSorted(texts: seq<string>, text: string) returns (longer: seq<string>)
    requires Sorted(texts)
    ensures Sorted(longer) && multiset(longer) == multiset(texts) + multiset{text}
  {
    hide Leq;
    var i := |texts|;
    while i > 0 && !Leq(texts[i - 1], text)
      invariant 0 <= i <= |texts|
      invariant forall k :: i <= k < |texts| ==> Leq(text, texts[k])
    {
      LeqTotal(texts[i - 1], text);
      i := i - 1;
    }
    longer := texts[..i] + [text] + texts[i..];
    forall k | 0 <= k < i ensures Leq(texts[k], text) {
      if k < i - 1 { LeqTransitive(texts[k], texts[i - 1], text); }
    }
    assert texts == texts[..i] + texts[i..];
  }

  method Sort(texts: seq<string>) returns (sorted: seq<string>)
    ensures Sorted(sorted) && multiset(sorted) == multiset(texts)
  {
    sorted := [];
    for i := 0 to |texts|
      invariant Sorted(sorted) && multiset(sorted) == multiset(texts[..i])
    {
      assert texts[..i + 1] == texts[..i] + [texts[i]];
      sorted := InsertSorted(sorted, texts[i]);
    }
    assert texts[..|texts|] == texts;
  }

  lemma SameLeast(a: seq<string>, b: seq<string>)
    requires Sorted(a) && Sorted(b) && multiset(a) == multiset(b) && a != []
    ensures b != [] && a[0] == b[0]
  {
    assert a[0] in multiset(b);
    assert b[0] in multiset(a);
    var i :| 0 <= i < |b| && b[i] == a[0];
    var k :| 0 <= k < |a| && a[k] == b[0];
    LeqReflexive(a[0]);
    LeqAntisymmetric(a[0], b[0]);
  }

  /** There is only one way to sort a list of texts. */
  lemma {:induction false} SortedUnique(a: seq<string>, b: seq<string>)
    requires Sorted(a) && Sorted(b) && multiset(a) == multiset(b)
    ensures a == b
  {
    if a == [] {
      assert |multiset(b)| == 0;
    } else {
      SameLeast(a, b);
      SortedTail(a);
      SortedTail(b);
      hide Sorted;
      hide Leq;
      SortedUnique(a[1..], b[1..]);
      assert a == [a[0]] + a[1..] && b == [b[0]] + b[1..];
    }
  }

  lemma SortedTail(texts: seq<string>)
    requires Sorted(texts) && texts != []
    ensures Sorted(texts[1..]) && multiset(texts[1..]) == multiset(texts) - multiset{texts[0]}
  {
    hide Leq;
    assert texts == [texts[0]] + texts[1..];
  }

  lemma {:induction false} LeqReflexive(a: string)
    ensures Leq(a, a)
  {
    if a != "" { LeqReflexive(a[1..]); }
  }

  // ---------------------------------------------------------------- EvaluateHooks

  /** The decision on an inventory: every reason as often as it applies, sorted, and the contents as fingerprint. */
  ghost predicate Decides(inventory: Inventory, pluginID: string, expected: map<string, string>, decision: Decision) {
    && (decision.compatible <==> decision.reasons == [])
    && Sorted(decision.reasons)
    && (forall reason :: multiset(decision.reasons)[reason] == Multiplicity(inventory, pluginID, expected, reason))
    && decision.fingerprint
       == FingerprintOf(inventory.cwdBlank, inventory.errors, inventory.warnings, multiset(inventory.hooks))
  }

  method EvaluateHooks(inventory: Inventory, pluginID: string, expected: map<string, string>)
    returns (decision: Decision)
    ensures decision.compatible <==> Clean(inventory, pluginID, expected)
    ensures Decides(inventory, pluginID, expected, decision)
  {
    var reasons, counts, found := ReviewHooks(inventory.hooks, pluginID, expected);
    var blamed := ReviewKeys(inventory.hooks, pluginID, expected.Keys, counts);
    var all := InventoryReasons(inventory) + reasons + PolicyReasons(pluginID, expected, found) + blamed;
    AllReasons(inventory, pluginID, expected, reasons, blamed);
    hide InventoryReasons;
    hide PolicyReasons;
    hide HookMultiplicity;
    hide BlamedKeys;
    hide OwnCount;
    hide Clean;
    hide Sorted;
    hide Multiplicity;
    var sorted := Sort(all);
    decision := Decision(|sorted| == 0,
                         FingerprintOf(inventory.cwdBlank, inventory.errors, inventory.warnings,
                                       multiset(inventory.hooks)),
                         sorted);
    NoReasonsMeansNoCounts(sorted);
    CompatibleExactly(inventory, pluginID, expected);
  }

  lemma AllReasons(inventory: Inventory, pluginID: string, expected: map<string, string>,
                   reasons: seq<string>, blamed: seq<string>)
    requires forall reason ::
      multiset(reasons)[reason] == HookMultiplicity(inventory.hooks, pluginID, expected, reason)
    requires forall reason ::
      multiset(blamed)[reason] == |BlamedKeys(inventory.hooks, pluginID, expected.Keys, reason)|
    ensures var policy := PolicyReasons(pluginID, expected, OwnCount(inventory.hooks, pluginID));
      forall reason :: multiset(InventoryReasons(inventory) + reasons + policy + blamed)[reason]
        == Multiplicity(inventory, pluginID, expected, reason)
  {
    hide InventoryReasons;
    hide PolicyReasons;
    hide HookMultiplicity;
    hide BlamedKeys;
    hide OwnCount;
  }

  lemma ReasonsStep(hooks: seq<Hook>, i: nat, pluginID: string, expected: map<string, string>,
                    before: seq<string>, reasons: seq<string>)
    requires i < |hooks| && reasons == before + HookReasons(hooks[i], pluginID, expected)
    requires forall reason :: multiset(before)[reason] == HookMultiplicity(hooks[..i], pluginID, expected, reason)
    ensures forall reason :: multiset(reasons)[reason] == HookMultiplicity(hooks[..i + 1], pluginID, expected, reason)
  {
    hide HookReasons;
    forall reason ensures multiset(reasons)[reason] == HookMultiplicity(hooks[..i + 1], pluginID, expected, reason) {
      TallyStep(hooks, i, ReasonWeight(pluginID, expected, reason));
    }
  }

  lemma CountsStep(hooks: seq<Hook>, i: nat, pluginID: string, before: map<string, nat>, counts: map<string, nat>)
    requires i < |hooks|
    requires forall key :: KeyCount(hooks[..i], pluginID, key) == if key in before then before[key] else 0
    requires var key := hooks[i].key;
      counts == if IsDoneThen(hooks[i], pluginID) then before[key := if key in before then before[key] + 1 else 1]
                else before
    ensures forall key :: KeyCount(hooks[..i + 1], pluginID, key) == if key in counts then counts[key] else 0
  {
    forall key ensures KeyCount(hooks[..i + 1], pluginID, key) == if key in counts then counts[key] else 0 {
      TallyStep(hooks, i, KeyWeight(pluginID, key));
    }
  }

  /** The loop over the inventory. */
  method ReviewHooks(hooks: seq<Hook>, pluginID: string, expected: map<string, string>)
    returns (reasons: seq<string>, counts: map<string, nat>, found: nat)
    ensures forall reason :: multiset(reasons)[reason] == HookMultiplicity(hooks, pluginID, expected, reason)
    ensures forall key :: KeyCount(hooks, pluginID, key) == if key in counts then counts[key] else 0
    ensures found == OwnCount(hooks, pluginID)
  {
    reasons, counts, found := [], map[], 0;
    for i := 0 to |hooks|
      invariant forall reason :: multiset(reasons)[reason] == HookMultiplicity(hooks[..i], pluginID, expected, reason)
      invariant forall key :: KeyCount(hooks[..i], pluginID, key) == if key in counts then counts[key] else 0
      invariant found == OwnCount(hooks[..i], pluginID)
    {
      var hook := hooks[i];
      ghost var before, countsBefore := reasons, counts;
      if hook.enabled {
        if IsDoneThen(hook, pluginID) {
          found := found + 1;
          reasons := reasons + OwnReasons(hook, expected);
          counts := counts[hook.key := if hook.key in counts then counts[hook.key] + 1 else 1];
        } else {
          reasons := reasons + ForeignReasons(hook);
        }
      }
      ReasonsStep(hooks, i, pluginID, expected, before, reasons);
      CountsStep(hooks, i, pluginID, countsBefore, counts);
      TallyStep(hooks, i, OwnWeight(pluginID));
    }
    assert hooks[..|hooks|] == hooks;
  }

  /** The loop over the expected keys, in whatever order a map yields them. */
  method ReviewKeys(ghost hooks: seq<Hook>, ghost pluginID: string, keys: set<string>, counts: map<string, nat>)
    returns (reasons: seq<string>)
    requires forall key :: KeyCount(hooks, pluginID, key) == if key in counts then counts[key] else 0
    ensures forall reason :: multiset(reasons)[reason] == |BlamedKeys(hooks, pluginID, keys, reason)|
  {
    reasons := [];
    var left := keys;
    while left != {}
      invariant left <= keys
      invariant forall reason :: multiset(reasons)[reason] == |BlamedKeys(hooks, pluginID, keys - left, reason)|
      decreases |left|
    {
      var key :| key in left;
      var reason := KeyReason(key, if key in counts then counts[key] else 0);
      BlameOne(hooks, pluginID, keys - left, key);
      assert keys - (left - {key}) == (keys - left) + {key};
      left := left - {key};
      if reason.Some? { reasons := reasons + [reason.value]; }
    }
    assert keys - left == keys;
  }

  lemma BlameOne(hooks: seq<Hook>, pluginID: string, done: set<string>, key: string)
    requires key !in done
    ensures forall reason ::
      (|BlamedKeys(hooks, pluginID, done + {key}, reason)|
       == |BlamedKeys(hooks, pluginID, done, reason)|
          + if KeyReason(key, KeyCount(hooks, pluginID, key)) == Some(reason) then 1 else 0)
  {
    forall reason
      ensures |BlamedKeys(hooks, pluginID, done + {key}, reason)|
        == |BlamedKeys(hooks, pluginID, done, reason)|
           + if KeyReason(key, KeyCount(hooks, pluginID, key)) == Some(reason) then 1 else 0
    {
      if KeyReason(key, KeyCount(hooks, pluginID, key)) == Some(reason) {
        assert BlamedKeys(hooks, pluginID, done + {key}, reason) == BlamedKeys(hooks, pluginID, done, reason) + {key};
      } else {
        assert BlamedKeys(hooks, pluginID, done + {key}, reason) == BlamedKeys(hooks, pluginID, done, reason);
      }
    }
  }

  // ---------------------------------------------------------------- the theorems

  /** Reordering the hooks changes neither the decision, nor the sorted reasons, nor the fingerprint. */
  lemma OrderDoesNotMatter(a: Inventory, b: Inventory, pluginID: string, expected: map<string, string>,
                           decisionA: Decision, decisionB: Decision)
    requires b == a.(hooks := b.hooks) && multiset(a.hooks) == multiset(b.hooks)
    requires Decides(a, pluginID, expected, decisionA) && Decides(b, pluginID, expected, decisionB)
    ensures decisionA == decisionB
  {
    forall reason ensures Multiplicity(a, pluginID, expected, reason) == Multiplicity(b, pluginID, expected, reason) {
      SameMultiplicity(a, b, pluginID, expected, reason);
    }
    hide Multiplicity;
    hide Sorted;
    SameMultiset(decisionA.reasons, decisionB.reasons);
    SortedUnique(decisionA.reasons, decisionB.reasons);
  }

  lemma SameMultiplicity(a: Inventory, b: Inventory, pluginID: string, expected: map<string, string>, reason: string)
    requires b == a.(hooks := b.hooks) && multiset(a.hooks) == multiset(b.hooks)
    ensures Multiplicity(a, pluginID, expected, reason) == Multiplicity(b, pluginID, expected, reason)
  {
    hide InventoryReasons;
    hide PolicyReasons;
    hide KeyReason;
    TallyPermutes(a.hooks, b.hooks, OwnWeight(pluginID));
    TallyPermutes(a.hooks, b.hooks, ReasonWeight(pluginID, expected, reason));
    forall key ensures KeyCount(a.hooks, pluginID, key) == KeyCount(b.hooks, pluginID, key) {
      TallyPermutes(a.hooks, b.hooks, KeyWeight(pluginID, key));
    }
    assert BlamedKeys(a.hooks, pluginID, expected.Keys, reason) == BlamedKeys(b.hooks, pluginID, expected.Keys, reason);
    SameInventoryReasons(a, b);
  }

  lemma SameInventoryReasons(a: Inventory, b: Inventory)
    requires b == a.(hooks := b.hooks)
    ensures InventoryReasons(a) == InventoryReasons(b)
  {
  }

  lemma SameMultiset(a: seq<string>, b: seq<string>)
    requires forall reason :: multiset(a)[reason] == multiset(b)[reason]
    ensures multiset(a) == multiset(b)
  {
  }

  /** A hook is acceptable exactly if it gives no reason. */
  lemma AcceptableGivesNoReason(hook: Hook, pluginID: string, expected: map<string, string>)
    ensures Acceptable(hook, pluginID, expected) <==> HookReasons(hook, pluginID, expected) == []
  {
  }

  lemma NoReasonsMeansNoCounts(reasons: seq<string>)
    ensures reasons == [] <==> forall reason :: multiset(reasons)[reason] == 0
  {
    if reasons != [] { assert multiset(reasons)[reasons[0]] > 0; }
  }

  /** A key counts one exactly if exactly one hook carries it. */
  lemma {:induction false} CountOneIsExactlyOnce(hooks: seq<Hook>, pluginID: string, key: string)
    ensures KeyCount(hooks, pluginID, key) == 0 <==>
      forall i :: 0 <= i < |hooks| ==> !(IsDoneThen(hooks[i], pluginID) && hooks[i].key == key)
    ensures KeyCount(hooks, pluginID, key) == 1 <==> ExactlyOnce(hooks, pluginID, key)
  {
    if hooks != [] {
      var n := |hooks| - 1;
      var before := hooks[..n];
      CountOneIsExactlyOnce(before, pluginID, key);
      assert forall i :: 0 <= i < n ==> before[i] == hooks[i];
      if IsDoneThen(hooks[n], pluginID) && hooks[n].key == key {
        if KeyCount(before, pluginID, key) == 0 { assert OnlyHookWithKey(hooks, pluginID, key, n); }
        if ExactlyOnce(hooks, pluginID, key) {
          var i :| 0 <= i < |hooks| && OnlyHookWithKey(hooks, pluginID, key, i);
          assert i == n;
        }
      } else {
        if ExactlyOnce(before, pluginID, key) {
          var i :| 0 <= i < n && OnlyHookWithKey(before, pluginID, key, i);
          assert OnlyHookWithKey(hooks, pluginID, key, i);
        }
        if ExactlyOnce(hooks, pluginID, key) {
          var i :| 0 <= i < |hooks| && OnlyHookWithKey(hooks, pluginID, key, i);
          assert OnlyHookWithKey(before, pluginID, key, i);
        }
      }
    }
  }

  /**
   The decision is exact: no reason at all is given if and only if the host is clean, that is, if every expected
   hook is there exactly once with its hash and trust and nothing else on the host can interfere.
   */
  lemma CompatibleExactly(inventory: Inventory, pluginID: string, expected: map<string, string>)
    ensures (forall reason :: Multiplicity(inventory, pluginID, expected, reason) == 0)
      <==> Clean(inventory, pluginID, expected)
  {
    var own := OwnCount(inventory.hooks, pluginID);
    NoReasonsMeansNoCounts(InventoryReasons(inventory));
    NoReasonsMeansNoCounts(PolicyReasons(pluginID, expected, own));
    HooksGiveNoReason(inventory.hooks, pluginID, expected);
    KeysGiveNoReason(inventory.hooks, pluginID, expected.Keys);
    CleanInParts(inventory, pluginID, expected);
    hide InventoryReasons;
    hide PolicyReasons;
    hide HookMultiplicity;
    hide BlamedKeys;
    hide Clean;
    hide Acceptable;
    hide ExactlyOnce;
    hide OwnCount;
    if forall reason :: Multiplicity(inventory, pluginID, expected, reason) == 0 {
      forall reason
        ensures multiset(InventoryReasons(inventory))[reason] == 0
        ensures multiset(PolicyReasons(pluginID, expected, own))[reason] == 0
        ensures HookMultiplicity(inventory.hooks, pluginID, expected, reason) == 0
        ensures |BlamedKeys(inventory.hooks, pluginID, expected.Keys, reason)| == 0
      {
        assert Multiplicity(inventory, pluginID, expected, reason) == 0;
      }
    }
  }

  lemma HooksGiveNoReason(hooks: seq<Hook>, pluginID: string, expected: map<string, string>)
    ensures (forall reason :: HookMultiplicity(hooks, pluginID, expected, reason) == 0)
      <==> forall i :: 0 <= i < |hooks| ==> Acceptable(hooks[i], pluginID, expected)
  {
    hide HookReasons;
    hide Acceptable;
    if forall reason :: HookMultiplicity(hooks, pluginID, expected, reason) == 0 {
      forall i | 0 <= i < |hooks| ensures Acceptable(hooks[i], pluginID, expected) {
        forall reason ensures multiset(HookReasons(hooks[i], pluginID, expected))[reason] == 0 {
          assert HookMultiplicity(hooks, pluginID, expected, reason) == 0;
          TallyZero(hooks, ReasonWeight(pluginID, expected, reason));
        }
        NoReasonsMeansNoCounts(HookReasons(hooks[i], pluginID, expected));
        AcceptableGivesNoReason(hooks[i], pluginID, expected);
      }
    }
    if forall i :: 0 <= i < |hooks| ==> Acceptable(hooks[i], pluginID, expected) {
      forall reason ensures HookMultiplicity(hooks, pluginID, expected, reason) == 0 {
        forall i | 0 <= i < |hooks| ensures ReasonWeight(pluginID, expected, reason)(hooks[i]) == 0 {
          AcceptableGivesNoReason(hooks[i], pluginID, expected);
        }
        TallyZero(hooks, ReasonWeight(pluginID, expected, reason));
      }
    }
  }

  lemma KeysGiveNoReason(hooks: seq<Hook>, pluginID: string, keys: set<string>)
    ensures (forall reason :: |BlamedKeys(hooks, pluginID, keys, reason)| == 0)
      <==> forall key :: key in keys ==> ExactlyOnce(hooks, pluginID, key)
  {
    forall key | key in keys
      ensures ExactlyOnce(hooks, pluginID, key) <==> KeyReason(key, KeyCount(hooks, pluginID, key)).None?
    {
      CountOneIsExactlyOnce(hooks, pluginID, key);
    }
    hide ExactlyOnce;
    hide KeyReason;
    hide KeyCount;
    if !forall key :: key in keys ==> ExactlyOnce(hooks, pluginID, key) {
      var key :| key in keys && !ExactlyOnce(hooks, pluginID, key);
      var reason := KeyReason(key, KeyCount(hooks, pluginID, key)).value;
      assert key in BlamedKeys(hooks, pluginID, keys, reason);
      assert |BlamedKeys(hooks, pluginID, keys, reason)| != 0;
    }
    if forall key :: key in keys ==> ExactlyOnce(hooks, pluginID, key) {
      forall reason ensures |BlamedKeys(hooks, pluginID, keys, reason)| == 0 {
        assert BlamedKeys(hooks, pluginID, keys, reason) == {};
      }
    }
  }

  lemma CleanInParts(inventory: Inventory, pluginID: string, expected: map<string, string>)
    ensures Clean(inventory, pluginID, expected) <==>
      && InventoryReasons(inventory) == []
      && PolicyReasons(pluginID, expected, OwnCount(inventory.hooks, pluginID)) == []
      && (forall i :: 0 <= i < |inventory.hooks| ==> Acceptable(inventory.hooks[i], pluginID, expected))
      && (forall key :: key in expected ==> ExactlyOnce(inventory.hooks, pluginID, key))
  {
    hide Acceptable;
    if |expected| != 0 && forall key :: key in expected ==> ExactlyOnce(inventory.hooks, pluginID, key) {
      var key :| key in expected;
      assert ExactlyOnce(inventory.hooks, pluginID, key);
      OnceMeansPresent(inventory.hooks, pluginID, key);
    }
  }

  lemma OnceMeansPresent(hooks: seq<Hook>, pluginID: string, key: string)
    requires ExactlyOnce(hooks, pluginID, key)
    ensures OwnCount(hooks, pluginID) != 0
  {
    TallyZero(hooks, OwnWeight(pluginID));
  }
}
