/** internal/cni/conf.go and internal/cni/remove.go: adding the linkerd plugin to a CNI network
    configuration and taking it out again. The document shape is that of section 1 (network
    configuration format) of the CNI Specification 1.0.0. */
module CniConfig {
  import opened Text

  // ---- Documents -------------------------------------------------------------------------

  datatype Json =
    | JNull
    | JBool(b: bool)
    | JNumber(literal: string)
    | JString(s: string)
    | JArray(items: seq<Json>)
    | JObject(fields: map<string, Json>)

  /** The bytes of a file: what json.MarshalIndent prints for a document, or any other bytes with
      what decoding them gives. */
  datatype Content = Printed(doc: Json) | Bytes(bytes: string, decoded: Option<Json>) {
    function Decode(): Option<Json> {
      match this
      case Printed(doc) => Some(doc)
      case Bytes(_, decoded) => decoded
    }

    predicate Empty() { Bytes? && bytes == "" }
  }

  datatype ConfigError = NotJson | NoPlugins | InvalidPlugin | NoSource

  const KEY_NAME := "name"
  const KEY_PLUGINS := "plugins"
  const KEY_TYPE := "type"
  const KEY_VERSION := "cniVersion"
  const LINKERD := JString("linkerd-cni")

  /** json.Unmarshal into a map[string]any: an object, or null for a nil map. */
  function UnmarshalMap(c: Content): Result<Json, ConfigError> {
    match c.Decode()
    case Some(JObject(fields)) => Ok(JObject(fields))
    case Some(JNull) => Ok(JNull)
    case _ => Err(NotJson)
  }

  function Fields(doc: Json): map<string, Json> {
    if doc.JObject? then doc.fields else map[]
  }

  /** A lookup with a type assertion to []any. */
  function PluginsOf(doc: Json): Option<seq<Json>> {
    if KEY_PLUGINS in Fields(doc) && Fields(doc)[KEY_PLUGINS].JArray? then Some(Fields(doc)[KEY_PLUGINS].items)
    else None
  }

  predicate IsLinkerd(plugin: Json) {
    plugin.JObject? && KEY_TYPE in plugin.fields && plugin.fields[KEY_TYPE] == LINKERD
  }

  predicate AllObjects(plugins: seq<Json>) { forall p <- plugins :: p.JObject? }

  // ---- Finding the linkerd plugin --------------------------------------------------------

  /** What the scan of a plugin list finds first: an entry that is no object, the linkerd plugin
      at an index, or neither. */
  datatype Found = NotAnObject | At(index: nat) | Absent

  function FindFrom(plugins: seq<Json>, i: nat): Found
    requires i <= |plugins|
    decreases |plugins| - i
  {
    if i == |plugins| then Absent
    else if !plugins[i].JObject? then NotAnObject
    else if IsLinkerd(plugins[i]) then At(i)
    else FindFrom(plugins, i + 1)
  }

  function Find(plugins: seq<Json>): Found { FindFrom(plugins, 0) }

  lemma {:induction false} FindFromMeaning(plugins: seq<Json>, i: nat)
    requires i <= |plugins|
    ensures match FindFrom(plugins, i)
            case NotAnObject => exists j :: i <= j < |plugins| && !plugins[j].JObject?
                                  && forall k :: i <= k < j ==> !IsLinkerd(plugins[k])
            case At(j) => i <= j < |plugins| && IsLinkerd(plugins[j])
                          && forall k :: i <= k < j ==> plugins[k].JObject? && !IsLinkerd(plugins[k])
            case Absent => forall k :: i <= k < |plugins| ==> plugins[k].JObject? && !IsLinkerd(plugins[k])
    decreases |plugins| - i
  {
    if i < |plugins| && plugins[i].JObject? && !IsLinkerd(plugins[i]) {
      FindFromMeaning(plugins, i + 1);
    }
  }

  /** The scan, as both inject and revert run it. */
  method ScanForLinkerd(plugins: seq<Json>) returns (found: Found)
    ensures found == Find(plugins)
  {
    for i := 0 to |plugins|
      invariant Find(plugins) == FindFrom(plugins, i)
    {
      if !plugins[i].JObject? {
        return NotAnObject;
      }
      if IsLinkerd(plugins[i]) {
        return At(i);
      }
    }
    return Absent;
  }

  // ---- Injection -------------------------------------------------------------------------

  function Cut(plugins: seq<Json>, found: Found): seq<Json>
    requires found.At? ==> found.index < |plugins|
  {
    if found.At? then plugins[..found.index] + plugins[found.index + 1..] else plugins
  }

  /** A plugin list without its first linkerd entry. */
  function WithoutFirst(plugins: seq<Json>): seq<Json> {
    FindFromMeaning(plugins, 0);
    Cut(plugins, Find(plugins))
  }

  function InjectList(plugins: seq<Json>, linkerd: Json): Result<seq<Json>, ConfigError> {
    if Find(plugins).NotAnObject? then Err(InvalidPlugin) else Ok(WithoutFirst(plugins) + [linkerd])
  }

  function WithPlugins(doc: Json, plugins: seq<Json>): Json {
    JObject(Fields(doc)[KEY_PLUGINS := JArray(plugins)])
  }

  /** A `type` at the top of a document makes it a single plugin. */
  predicate IsSingle(doc: Json) { KEY_TYPE in Fields(doc) }

  /** The list a single plugin is upgraded to, before linkerd is added. */
  function Wrapped(doc: Json): Json {
    JObject(map[KEY_NAME := JString("k8s-pod-network"), KEY_VERSION := JString("0.3.1"),
                KEY_PLUGINS := JArray([JObject(Fields(doc) - {KEY_VERSION})])])
  }

  /** The configuration as a list. */
  function AsList(doc: Json): Json {
    if IsSingle(doc) then Wrapped(doc) else doc
  }

  function InjectDoc(doc: Json, linkerd: Json): Result<Json, ConfigError> {
    if IsSingle(doc) then
      Ok(WithPlugins(Wrapped(doc), [JObject(Fields(doc) - {KEY_VERSION}), linkerd]))
    else
      match PluginsOf(doc)
      case None => Err(NoPlugins)
      case Some(plugins) =>
        match InjectList(plugins, linkerd)
        case Err(e) => Err(e)
        case Ok(result) => Ok(WithPlugins(doc, result))
  }

  function InjectContent(existing: Content, linkerd: Content): Result<Content, ConfigError> {
    match UnmarshalMap(existing)
    case Err(e) => Err(e)
    case Ok(doc) =>
      match UnmarshalMap(linkerd)
      case Err(e) => Err(e)
      case Ok(value) =>
        match InjectDoc(doc, value)
        case Err(e) => Err(e)
        case Ok(result) => Ok(Printed(result))
  }

  /** inject (internal/cni/conf.go). */
  method Inject(existing: Content, linkerd: Content) returns (r: Result<Content, ConfigError>)
    ensures r == InjectContent(existing, linkerd)
    ensures IsMap(existing.Decode()) && IsMap(linkerd.Decode()) && "type" in Fields(existing.Decode().value) ==>
              r == Ok(Printed(Upgraded(Fields(existing.Decode().value), linkerd.Decode().value)))
  {
    var existingVal := UnmarshalMap(existing);
    if existingVal.Err? {
      return Err(existingVal.error);
    }
    var linkerdVal := UnmarshalMap(linkerd);
    if linkerdVal.Err? {
      return Err(linkerdVal.error);
    }
    var fields := Fields(existingVal.value);
    KeysByName();
    if KEY_TYPE in fields {
      InjectSingleByName(fields, linkerdVal.value);
      fields := fields - {KEY_VERSION};
      var resultVal := map[KEY_NAME := JString("k8s-pod-network"), KEY_VERSION := JString("0.3.1"),
                           KEY_PLUGINS := JArray([JObject(fields), linkerdVal.value])];
      assert resultVal == Fields(WithPlugins(Wrapped(existingVal.value), [JObject(fields), linkerdVal.value]));
      return Ok(Printed(JObject(resultVal)));
    }
    var maybePlugins := PluginsOf(existingVal.value);
    if maybePlugins.None? {
      return Err(NoPlugins);
    }
    var plugins := maybePlugins.value;
    var found := ScanForLinkerd(plugins);
    if found.NotAnObject? {
      return Err(InvalidPlugin);
    }
    FindFromMeaning(plugins, 0);
    if found.At? {
      plugins := plugins[..found.index] + plugins[found.index + 1..];
    }
    plugins := plugins + [linkerdVal.value];
    fields := fields[KEY_PLUGINS := JArray(plugins)];
    return Ok(Printed(JObject(fields)));
  }

  /** configureCNI: the first source that can be read and is not empty; an unreadable source is
      skipped. */
  method ChooseSource(sources: seq<Option<Content>>) returns (r: Option<Content>)
    ensures r == FirstSource(sources)
  {
    for i := 0 to |sources|
      invariant FirstSource(sources) == FirstSource(sources[i..])
    {
      if sources[i].Some? && !sources[i].value.Empty() {
        return sources[i];
      }
      assert sources[i..][1..] == sources[i + 1..];
    }
    return None;
  }

  function FirstSource(sources: seq<Option<Content>>): Option<Content> {
    if sources == [] then None
    else if sources[0].Some? && !sources[0].value.Empty() then sources[0]
    else FirstSource(sources[1..])
  }

  /** A file of no bytes at all; what is printed for a document is never that. */
  predicate NoBytes(c: Content) {
    match c
    case Printed(_) => false
    case Bytes(bytes, _) => |bytes| == 0
  }

  /** A source is chosen exactly when some source is readable and not empty, and it is the first
      such. */
  lemma {:induction false} FirstSourceMeaning(sources: seq<Option<Content>>)
    ensures FirstSource(sources).None? <==> forall s <- sources :: s.None? || NoBytes(s.value)
    ensures FirstSource(sources).Some? ==>
              exists k :: 0 <= k < |sources| && sources[k] == FirstSource(sources) && !NoBytes(sources[k].value)
                && forall j :: 0 <= j < k ==> sources[j].None? || NoBytes(sources[j].value)
  {
    if sources != [] {
      FirstSourceMeaning(sources[1..]);
      assert sources == [sources[0]] + sources[1..];
      if sources[0].Some? && !sources[0].value.Empty() {
        assert sources[0] == FirstSource(sources);
      } else if FirstSource(sources).Some? {
        var rest := sources[1..];
        var k :| 0 <= k < |rest| && rest[k] == FirstSource(rest) && !NoBytes(rest[k].value)
                 && forall j :: 0 <= j < k ==> rest[j].None? || NoBytes(rest[j].value);
        assert sources[k + 1] == FirstSource(sources);
        assert forall j :: 0 <= j < k + 1 ==> j == 0 || sources[j] == rest[j - 1];
      }
    }
  }

  // ---- What injection keeps --------------------------------------------------------------

  /** The plugins that are not linkerd, in order. */
  function Others(plugins: seq<Json>): seq<Json> {
    if plugins == [] then []
    else
      var last := plugins[|plugins| - 1];
      Others(plugins[..|plugins| - 1]) + (if IsLinkerd(last) then [] else [last])
  }

  function LinkerdCount(plugins: seq<Json>): nat {
    if plugins == [] then 0
    else LinkerdCount(plugins[..|plugins| - 1]) + (if IsLinkerd(plugins[|plugins| - 1]) then 1 else 0)
  }

  lemma {:induction false} OthersConcat(a: seq<Json>, b: seq<Json>)
    ensures Others(a + b) == Others(a) + Others(b)
    ensures LinkerdCount(a + b) == LinkerdCount(a) + LinkerdCount(b)
  {
    if b == [] {
      assert a + b == a;
    } else {
      assert (a + b)[..|a + b| - 1] == a + b[..|b| - 1];
      OthersConcat(a, b[..|b| - 1]);
    }
  }

  lemma {:induction false} OthersOfOthers(plugins: seq<Json>)
    requires forall p <- plugins :: !IsLinkerd(p)
    ensures Others(plugins) == plugins && LinkerdCount(plugins) == 0
  {
    if plugins != [] {
      var init, last := plugins[..|plugins| - 1], plugins[|plugins| - 1];
      OthersOfOthers(init);
      assert last in plugins && plugins == init + [last];
    }
  }

  lemma {:induction false} OthersOfOne(p: Json)
    ensures Others([p]) == if IsLinkerd(p) then [] else [p]
    ensures LinkerdCount([p]) == if IsLinkerd(p) then 1 else 0
  {}

  /** A list of objects without a linkerd entry. */
  ghost predicate Plain(plugins: seq<Json>) { forall p <- plugins :: p.JObject? && !IsLinkerd(p) }

  lemma {:induction false} PlainCounts(plugins: seq<Json>)
    requires Plain(plugins)
    ensures Others(plugins) == plugins && LinkerdCount(plugins) == 0
  {
    OthersOfOthers(plugins);
  }

  /** A list whose scan finds linkerd splits there, after a plain part. */
  lemma {:induction false} FirstSplits(plugins: seq<Json>) returns (head: seq<Json>, p: Json, tail: seq<Json>)
    requires Find(plugins).At?
    ensures plugins == head + [p] + tail && Find(plugins).index == |head|
    ensures Plain(head) && IsLinkerd(p) && WithoutFirst(plugins) == head + tail
  {
    FindFromMeaning(plugins, 0);
    var i := Find(plugins).index;
    head, p, tail := plugins[..i], plugins[i], plugins[i + 1..];
    assert forall k :: 0 <= k < i ==> head[k] == plugins[k];
  }

  lemma {:induction false} SplitCounts(head: seq<Json>, p: Json, tail: seq<Json>)
    requires Plain(head) && IsLinkerd(p)
    ensures Others(head + [p] + tail) == Others(head + tail)
    ensures LinkerdCount(head + [p] + tail) == 1 + LinkerdCount(head + tail)
  {
    var front := head + [p];
    OthersConcat(front, tail);
    OthersConcat(head, tail);
    PlainThenLinkerd(head, p);
  }

  lemma {:induction false} PlainThenLinkerd(head: seq<Json>, p: Json)
    requires IsLinkerd(p)
    ensures Others(head + [p]) == Others(head) && LinkerdCount(head + [p]) == LinkerdCount(head) + 1
  {}

  lemma {:induction false} ScanOutcomes(plugins: seq<Json>)
    ensures Find(plugins).Absent? <==> Plain(plugins)
    ensures AllObjects(plugins) ==> !Find(plugins).NotAnObject?
    ensures AllObjects(plugins) ==> (Find(plugins).At? <==> LinkerdCount(plugins) > 0)
  {
    FindFromMeaning(plugins, 0);
    if Find(plugins).At? {
      var head, p, tail := FirstSplits(plugins);
      SplitCounts(head, p, tail);
      assert p in plugins;
    } else if Find(plugins).Absent? {
      PlainCounts(plugins);
    }
  }

  lemma {:induction false} WithoutFirstKeeps(plugins: seq<Json>)
    ensures Others(WithoutFirst(plugins)) == Others(plugins)
    ensures !Find(plugins).NotAnObject? ==>
              LinkerdCount(WithoutFirst(plugins)) ==
              (if LinkerdCount(plugins) == 0 then 0 else LinkerdCount(plugins) - 1)
    ensures AllObjects(plugins) ==> AllObjects(WithoutFirst(plugins))
  {
    ScanOutcomes(plugins);
    if Find(plugins).At? {
      var head, p, tail := FirstSplits(plugins);
      SplitCounts(head, p, tail);
    } else if Find(plugins).Absent? {
      PlainCounts(plugins);
    }
  }

  /** The first linkerd entry of a list is found whatever precedes it plainly and follows it. */
  lemma {:induction false} FindAfterPlain(head: seq<Json>, p: Json, tail: seq<Json>)
    requires Plain(head) && IsLinkerd(p)
    ensures Find(head + [p] + tail) == At(|head|)
    ensures WithoutFirst(head + [p] + tail) == head + tail
  {
    var list := head + [p] + tail;
    FindFromMeaning(list, 0);
    assert forall k :: 0 <= k < |head| ==> list[k] == head[k];
    assert list[|head|] == p;
    var found := Find(list);
    assert found == At(|head|);
    assert list[..|head|] == head && list[|head| + 1..] == tail;
  }

  /** Injection keeps the other plugins and their order, puts linkerd last, and leaves
      max(1, n) linkerd entries from n. */
  lemma {:induction false} InjectKeepsOthers(plugins: seq<Json>, linkerd: Json)
    requires IsLinkerd(linkerd) && InjectList(plugins, linkerd).Ok?
    ensures var result := InjectList(plugins, linkerd).value;
            && Others(result) == Others(plugins)
            && result != [] && result[|result| - 1] == linkerd
            && LinkerdCount(result) == (if LinkerdCount(plugins) == 0 then 1 else LinkerdCount(plugins))
            && (AllObjects(plugins) ==> AllObjects(result))
  {
    WithoutFirstKeeps(plugins);
    OthersConcat(WithoutFirst(plugins), [linkerd]);
    OthersOfOne(linkerd);
  }

  // ---- Convergence of repeated injection -------------------------------------------------

  function Repeat(p: Json, n: nat): (r: seq<Json>)
    ensures |r| == n && forall k :: 0 <= k < n ==> r[k] == p
  {
    seq(n, _ => p)
  }

  /** `k` injections in a row. */
  function InjectTimes(plugins: seq<Json>, linkerd: Json, k: nat): seq<Json> {
    if k == 0 then plugins else WithoutFirst(InjectTimes(plugins, linkerd, k - 1)) + [linkerd]
  }

  function Max(a: nat, b: nat): nat { if a >= b then a else b }

  /** A leading part followed by a block of injected entries: one injection moves one linkerd entry
      from the leading part to the block. */
  lemma {:induction false} InjectMoves(lead: seq<Json>, linkerd: Json, block: nat)
    requires IsLinkerd(linkerd) && AllObjects(lead)
    ensures WithoutFirst(lead + Repeat(linkerd, block)) + [linkerd] ==
            if LinkerdCount(lead) > 0 then WithoutFirst(lead) + Repeat(linkerd, block + 1)
            else lead + Repeat(linkerd, Max(1, block))
  {
    ScanOutcomes(lead);
    if LinkerdCount(lead) > 0 {
      var head, p, tail := FirstSplits(lead);
      MoveFirst(head, p, tail, linkerd, block);
    } else {
      RotateBlock(lead, linkerd, block);
    }
  }

  lemma {:induction false} MoveFirst(head: seq<Json>, p: Json, tail: seq<Json>, linkerd: Json, block: nat)
    requires Plain(head) && IsLinkerd(p)
    ensures WithoutFirst(head + [p] + tail + Repeat(linkerd, block)) + [linkerd] ==
            head + tail + Repeat(linkerd, block + 1)
  {
    RepeatNext(linkerd, block);
    assert head + [p] + tail + Repeat(linkerd, block) == head + [p] + (tail + Repeat(linkerd, block));
    FindAfterPlain(head, p, tail + Repeat(linkerd, block));
  }

  lemma {:induction false} RotateBlock(lead: seq<Json>, linkerd: Json, block: nat)
    requires Plain(lead) && IsLinkerd(linkerd)
    ensures WithoutFirst(lead + Repeat(linkerd, block)) + [linkerd] == lead + Repeat(linkerd, Max(1, block))
  {
    if block > 0 {
      RepeatNext(linkerd, block - 1);
      assert lead + Repeat(linkerd, block) == lead + [linkerd] + Repeat(linkerd, block - 1);
      FindAfterPlain(lead, linkerd, Repeat(linkerd, block - 1));
    } else {
      assert lead + Repeat(linkerd, 0) == lead;
      ScanOutcomes(lead);
      RepeatNext(linkerd, 0);
    }
  }

  lemma {:induction false} RepeatNext(p: Json, n: nat)
    ensures Repeat(p, n) + [p] == Repeat(p, n + 1)
  {}

  lemma {:induction false} CountPositive(plugins: seq<Json>, i: nat)
    requires i < |plugins| && IsLinkerd(plugins[i])
    ensures LinkerdCount(plugins) > 0
  {
    assert plugins == plugins[..i] + [plugins[i]] + plugins[i + 1..];
    OthersConcat(plugins[..i] + [plugins[i]], plugins[i + 1..]);
    OthersConcat(plugins[..i], [plugins[i]]);
    OthersOfOne(plugins[i]);
  }

  /** How many injected entries `k` injections leave at the end of a list with `n` linkerd entries. */
  function BlockLength(n: nat, k: nat): nat { if k <= n then k else Max(1, n) }

  lemma {:induction false} BlockGrows(n: nat, k: nat)
    ensures k < n ==> BlockLength(n, k + 1) == BlockLength(n, k) + 1
    ensures k >= n ==> BlockLength(n, k + 1) == Max(1, BlockLength(n, k))
  {}

  /** One more injection. */
  lemma {:induction false} InjectShape(lead: seq<Json>, linkerd: Json, block: nat) returns (next: seq<Json>)
    requires IsLinkerd(linkerd) && AllObjects(lead)
    ensures AllObjects(next) && Others(next) == Others(lead)
    ensures LinkerdCount(next) == if LinkerdCount(lead) > 0 then LinkerdCount(lead) - 1 else 0
    ensures WithoutFirst(lead + Repeat(linkerd, block)) + [linkerd] ==
            next + Repeat(linkerd, if LinkerdCount(lead) > 0 then block + 1 else Max(1, block))
  {
    InjectMoves(lead, linkerd, block);
    next := lead;
    if LinkerdCount(lead) > 0 {
      ScanOutcomes(lead);
      WithoutFirstKeeps(lead);
      next := WithoutFirst(lead);
    }
  }

  /** The list after `k` injections: the first `k` linkerd entries have become a block of injected
      ones at the end. */
  lemma {:induction false} InjectTimesShape(plugins: seq<Json>, linkerd: Json, k: nat) returns (lead: seq<Json>)
    requires IsLinkerd(linkerd) && AllObjects(plugins)
    ensures AllObjects(lead) && Others(lead) == Others(plugins)
    ensures LinkerdCount(lead) == if k <= LinkerdCount(plugins) then LinkerdCount(plugins) - k else 0
    ensures InjectTimes(plugins, linkerd, k) == lead + Repeat(linkerd, BlockLength(LinkerdCount(plugins), k))
  {
    if k == 0 {
      lead := plugins;
      assert plugins + Repeat(linkerd, 0) == plugins;
    } else {
      var before := InjectTimesShape(plugins, linkerd, k - 1);
      BlockGrows(LinkerdCount(plugins), k - 1);
      lead := InjectShape(before, linkerd, BlockLength(LinkerdCount(plugins), k - 1));
    }
  }

  lemma {:induction false} NoneLeft(plugins: seq<Json>)
    requires LinkerdCount(plugins) == 0
    ensures Others(plugins) == plugins
  {
    if plugins != [] {
      NoneLeft(plugins[..|plugins| - 1]);
      assert plugins == plugins[..|plugins| - 1] + [plugins[|plugins| - 1]];
    }
  }

  /** Injection converges: after max(1, n) injections of a list with n linkerd entries, the list is
      the other plugins followed by a block of max(1, n) injected entries, and stays so. */
  lemma {:induction false} InjectionConverges(plugins: seq<Json>, linkerd: Json, k: nat)
    requires IsLinkerd(linkerd) && AllObjects(plugins) && k >= Max(1, LinkerdCount(plugins))
    ensures InjectTimes(plugins, linkerd, k) == Others(plugins) + Repeat(linkerd, Max(1, LinkerdCount(plugins)))
    ensures InjectList(InjectTimes(plugins, linkerd, k), linkerd) == Ok(InjectTimes(plugins, linkerd, k))
  {
    var lead := InjectTimesShape(plugins, linkerd, k);
    NoneLeft(lead);
    ScanOutcomes(lead);
    RotateBlock(lead, linkerd, Max(1, LinkerdCount(plugins)));
    RepeatObjects(lead, linkerd, Max(1, LinkerdCount(plugins)));
  }

  lemma {:induction false} RepeatObjects(lead: seq<Json>, linkerd: Json, n: nat)
    requires AllObjects(lead) && IsLinkerd(linkerd)
    ensures AllObjects(lead + Repeat(linkerd, n)) && !Find(lead + Repeat(linkerd, n)).NotAnObject?
  {
    ScanOutcomes(lead + Repeat(linkerd, n));
  }

  // ---- Reverting -------------------------------------------------------------------------

  /** What reverting one configuration file does to its document; None when it leaves the file
      alone because linkerd is not in it. */
  function RevertDoc(doc: Json): Result<Option<Json>, ConfigError> {
    match PluginsOf(doc)
    case None => Err(NoPlugins)
    case Some(plugins) =>
      match Find(plugins)
      case NotAnObject => Err(InvalidPlugin)
      case Absent => Ok(None)
      case At(_) => Ok(Some(WithPlugins(doc, WithoutFirst(plugins))))
  }

  lemma {:induction false} PluginsOfWith(doc: Json, plugins: seq<Json>)
    ensures PluginsOf(WithPlugins(doc, plugins)) == Some(plugins)
    ensures forall other :: WithPlugins(WithPlugins(doc, plugins), other) == WithPlugins(doc, other)
    ensures IsSingle(WithPlugins(doc, plugins)) <==> IsSingle(doc)
    ensures Fields(WithPlugins(doc, plugins)) - {KEY_PLUGINS} == Fields(doc) - {KEY_PLUGINS}
  {}

  /** What a revert of an injected list leaves. */
  lemma {:induction false} RevertOfInjectedList(plugins: seq<Json>, linkerd: Json)
    requires IsLinkerd(linkerd) && AllObjects(plugins)
    ensures Find(WithoutFirst(plugins) + [linkerd]).At?
    ensures WithoutFirst(WithoutFirst(plugins) + [linkerd]) ==
            if LinkerdCount(plugins) <= 1 then WithoutFirst(plugins)
            else WithoutFirst(WithoutFirst(plugins)) + [linkerd]
  {
    var rest := WithoutFirst(plugins);
    ScanOutcomes(plugins);
    WithoutFirstKeeps(plugins);
    ScanOutcomes(rest);
    if LinkerdCount(rest) == 0 {
      assert rest + [linkerd] == rest + [linkerd] + [];
      FindAfterPlain(rest, linkerd, []);
    } else {
      var head, p, tail := FirstSplits(rest);
      assert rest + [linkerd] == head + [p] + (tail + [linkerd]);
      FindAfterPlain(head, p, tail + [linkerd]);
    }
  }

  /** From the second linkerd entry on, every plugin already is the injected one. */
  predicate SecondsAreInjected(plugins: seq<Json>, linkerd: Json) {
    var rest := WithoutFirst(plugins);
    FindFromMeaning(rest, 0);
    Find(rest).At? ==> forall k :: Find(rest).index <= k < |rest| ==> rest[k] == linkerd
  }

  /** Reverting after injection gives the original list minus its first linkerd entry exactly when
      the list holds at most one, or holds nothing but the injected plugin from its second on:
      otherwise revert takes out an older entry and leaves the injected one behind. */
  lemma {:induction false} RevertUndoesInjectionExactly(doc: Json, linkerd: Json, plugins: seq<Json>)
    requires IsLinkerd(linkerd) && !IsSingle(doc) && PluginsOf(doc) == Some(plugins) && AllObjects(plugins)
    ensures InjectDoc(doc, linkerd).Ok? && RevertDoc(InjectDoc(doc, linkerd).value).Ok?
    ensures RevertDoc(InjectDoc(doc, linkerd).value) == Ok(Some(WithPlugins(doc, WithoutFirst(plugins)))) <==>
            LinkerdCount(plugins) <= 1 || SecondsAreInjected(plugins, linkerd)
    ensures LinkerdCount(plugins) == 0 ==> RevertDoc(InjectDoc(doc, linkerd).value) == Ok(Some(doc))
  {
    ScanOutcomes(plugins);
    RevertOfInjectedList(plugins, linkerd);
    var rest := WithoutFirst(plugins);
    var injected := rest + [linkerd];
    PluginsOfWith(doc, injected);
    assert InjectDoc(doc, linkerd) == Ok(WithPlugins(doc, injected));
    var reverted := WithoutFirst(injected);
    assert RevertDoc(WithPlugins(doc, injected)) == Ok(Some(WithPlugins(doc, reverted)));
    assert PluginsOf(WithPlugins(doc, reverted)) == Some(reverted)
        && PluginsOf(WithPlugins(doc, rest)) == Some(rest) by {
      PluginsOfWith(doc, reverted);
      PluginsOfWith(doc, rest);
    }
    WithoutFirstKeeps(plugins);
    if LinkerdCount(plugins) >= 2 {
      ShiftedEqual(rest, linkerd);
    }
    if LinkerdCount(plugins) == 0 {
      assert Fields(doc)[KEY_PLUGINS := JArray(plugins)] == Fields(doc);
    }
  }

  /** Cutting a list's first linkerd entry and appending one gives the list back exactly when
      everything from that entry on is the appended plugin. */
  lemma {:induction false} ShiftedEqual(rest: seq<Json>, linkerd: Json)
    requires AllObjects(rest) && LinkerdCount(rest) >= 1
    ensures Find(rest).At? && Find(rest).index < |rest|
    ensures WithoutFirst(rest) + [linkerd] == rest <==>
            forall k :: Find(rest).index <= k < |rest| ==> rest[k] == linkerd
  {
    ScanOutcomes(rest);
    var head, p, tail := FirstSplits(rest);
    ShiftedTail(head, p, tail, linkerd);
  }

  lemma {:induction false} ShiftedTail(head: seq<Json>, p: Json, tail: seq<Json>, linkerd: Json)
    ensures var rest := head + [p] + tail;
            head + tail + [linkerd] == rest <==> forall k :: |head| <= k < |rest| ==> rest[k] == linkerd
  {
    var rest, shifted := head + [p] + tail, head + tail + [linkerd];
    assert forall k :: 0 <= k < |head| ==> shifted[k] == rest[k];
    assert forall k :: |head| <= k < |rest| - 1 ==> shifted[k] == rest[k + 1];
    assert shifted[|rest| - 1] == linkerd;
    if shifted == rest {
      AllEqualBackwards(rest, linkerd, |head|, |rest| - 1);
    }
  }

  lemma {:induction false} AllEqualBackwards(rest: seq<Json>, linkerd: Json, i: nat, j: nat)
    requires i <= j < |rest| && rest[|rest| - 1] == linkerd
    requires forall k :: i <= k < |rest| - 1 ==> rest[k] == rest[k + 1]
    requires forall k :: j <= k < |rest| ==> rest[k] == linkerd
    ensures forall k :: i <= k < |rest| ==> rest[k] == linkerd
    decreases j
  {
    if i < j {
      assert rest[j - 1] == rest[j];
      AllEqualBackwards(rest, linkerd, i, j - 1);
    }
  }

  /** Two linkerd entries are enough for revert not to undo injection: the injected one stays. */
  lemma {:induction false} RevertCanLeaveInjected(linkerd: Json, older: Json)
    requires IsLinkerd(linkerd) && IsLinkerd(older) && older != linkerd
    ensures var doc := JObject(map[KEY_PLUGINS := JArray([older, older])]);
            && InjectDoc(doc, linkerd).Ok?
            && RevertDoc(InjectDoc(doc, linkerd).value) == Ok(Some(WithPlugins(doc, [linkerd])))
            && WithoutFirst([older, older]) == [older]
  {
    var doc, injected := JObject(map[KEY_PLUGINS := JArray([older, older])]), [older] + [linkerd];
    assert PluginsOf(doc) == Some([older, older]);
    assert Find([older, older]) == At(0) && WithoutFirst([older, older]) == [older];
    assert Find(injected) == At(0) && WithoutFirst(injected) == [linkerd];
    PluginsOfWith(doc, injected);
  }

  /** A wrapped single plugin reverts to a one-plugin list holding it without its version key;
      one that is itself linkerd loses that entry instead and keeps the injected one. */
  lemma {:induction false} RevertOfWrapped(doc: Json, linkerd: Json)
    requires IsLinkerd(linkerd) && IsSingle(doc)
    ensures InjectDoc(doc, linkerd).Ok?
    ensures RevertDoc(InjectDoc(doc, linkerd).value) ==
            Ok(Some(WithPlugins(Wrapped(doc),
                                [if IsLinkerd(doc) then linkerd else JObject(Fields(doc) - {KEY_VERSION})])))
  {
    var single := JObject(Fields(doc) - {KEY_VERSION});
    var injected := [single, linkerd];
    assert IsLinkerd(single) <==> IsLinkerd(doc);
    PluginsOfWith(Wrapped(doc), injected);
    if IsLinkerd(single) {
      assert Find(injected) == At(0) && WithoutFirst(injected) == [linkerd];
    } else {
      assert FindFrom(injected, 1) == At(1);
      assert Find(injected) == At(1) && WithoutFirst(injected) == [single];
    }
  }

  // ---- Whole configurations --------------------------------------------------------------

  /** `doc` is a list configuration that ends in the linkerd plugin and otherwise is `origin` as a
      list: the same other plugins in order and the same other top-level keys. */
  ghost predicate Settled(doc: Json, linkerd: Json, origin: Json) {
    && !IsSingle(doc) && PluginsOf(doc).Some? && PluginsOf(AsList(origin)).Some?
    && PluginsOf(doc).value != [] && PluginsOf(doc).value[|PluginsOf(doc).value| - 1] == linkerd
    && Others(PluginsOf(doc).value) == Others(PluginsOf(AsList(origin)).value)
    && Fields(doc) - {KEY_PLUGINS} == Fields(AsList(origin)) - {KEY_PLUGINS}
  }

  lemma {:induction false} WrappedShape(doc: Json)
    ensures !IsSingle(Wrapped(doc))
    ensures PluginsOf(Wrapped(doc)) == Some([JObject(Fields(doc) - {KEY_VERSION})])
  {}

  /** Injection settles a list configuration from itself. */
  lemma {:induction false} InjectSettlesList(doc: Json, linkerd: Json)
    requires IsLinkerd(linkerd) && !IsSingle(doc) && InjectDoc(doc, linkerd).Ok?
    ensures Settled(InjectDoc(doc, linkerd).value, linkerd, doc)
  {
    var plugins := PluginsOf(doc).value;
    InjectKeepsOthers(plugins, linkerd);
    PluginsOfWith(doc, InjectList(plugins, linkerd).value);
  }

  /** Injection settles a single plugin from itself. */
  lemma {:induction false} InjectSettlesSingle(doc: Json, linkerd: Json)
    requires IsLinkerd(linkerd) && IsSingle(doc)
    ensures InjectDoc(doc, linkerd).Ok? && Settled(InjectDoc(doc, linkerd).value, linkerd, doc)
  {
    var single := JObject(Fields(doc) - {KEY_VERSION});
    WrappedShape(doc);
    PluginsOfWith(Wrapped(doc), [single, linkerd]);
    assert [single, linkerd] == [single] + [linkerd];
    PlainThenLinkerd([single], linkerd);
  }

  /** Injecting again into a settled configuration keeps it settled from the same origin. */
  lemma {:induction false} InjectKeepsSettled(doc: Json, linkerd: Json, origin: Json)
    requires IsLinkerd(linkerd) && InjectDoc(doc, linkerd).Ok? && Settled(doc, linkerd, origin)
    ensures Settled(InjectDoc(doc, linkerd).value, linkerd, origin)
  {
    var plugins := PluginsOf(doc).value;
    InjectKeepsOthers(plugins, linkerd);
    PluginsOfWith(doc, InjectList(plugins, linkerd).value);
  }

  /** A settled document is settled from itself. */
  lemma {:induction false} SettledFromItself(doc: Json, linkerd: Json, origin: Json)
    requires Settled(doc, linkerd, origin)
    ensures Settled(doc, linkerd, doc)
  {}

  /** A configuration of objects with at most one linkerd entry that is not itself linkerd. */
  predicate Sound(doc: Json) {
    if IsSingle(doc) then !IsLinkerd(doc)
    else PluginsOf(doc).Some? && AllObjects(PluginsOf(doc).value) && LinkerdCount(PluginsOf(doc).value) <= 1
  }

  /** On sound configurations injection never fails, keeps them sound and is idempotent. */
  lemma {:induction false} InjectSound(doc: Json, linkerd: Json)
    requires Sound(doc) && IsLinkerd(linkerd)
    ensures InjectDoc(doc, linkerd).Ok?
    ensures var result := InjectDoc(doc, linkerd).value;
            Sound(result) && !IsSingle(result) && InjectDoc(result, linkerd) == Ok(result)
  {
    if IsSingle(doc) {
      var single := JObject(Fields(doc) - {KEY_VERSION});
      assert IsLinkerd(single) <==> IsLinkerd(doc);
      WrappedShape(doc);
      SoundList(Wrapped(doc), [single], linkerd);
      PlainCounts([single]);
      ScanOutcomes([single]);
      assert [single, linkerd] == [single] + [linkerd];
    } else {
      var plugins := PluginsOf(doc).value;
      ScanOutcomes(plugins);
      WithoutFirstKeeps(plugins);
      SoundList(doc, WithoutFirst(plugins), linkerd);
    }
  }

  lemma {:induction false} SoundList(doc: Json, rest: seq<Json>, linkerd: Json)
    requires !IsSingle(doc) && IsLinkerd(linkerd) && AllObjects(rest) && LinkerdCount(rest) == 0
    ensures var result := WithPlugins(doc, rest + [linkerd]);
            Sound(result) && !IsSingle(result) && InjectDoc(result, linkerd) == Ok(result)
  {
    ScanOutcomes(rest);
    PluginsOfWith(doc, rest + [linkerd]);
    PlainThenLinkerd(rest, linkerd);
    assert rest + [linkerd] == rest + [linkerd] + [];
    FindAfterPlain(rest, linkerd, []);
    assert rest + [] == rest;
  }

  /** Reverting a settled configuration leaves the other plugins and keys of its origin; and nothing
      else when it holds one linkerd entry. */
  lemma {:induction false} RevertSettled(doc: Json, linkerd: Json, origin: Json)
    requires IsLinkerd(linkerd) && Settled(doc, linkerd, origin)
    requires AllObjects(PluginsOf(doc).value)
    ensures RevertDoc(doc).Ok? && RevertDoc(doc).value.Some?
    ensures var reverted := RevertDoc(doc).value.value;
            && PluginsOf(reverted).Some?
            && Others(PluginsOf(reverted).value) == Others(PluginsOf(AsList(origin)).value)
            && Fields(reverted) - {KEY_PLUGINS} == Fields(AsList(origin)) - {KEY_PLUGINS}
            && (LinkerdCount(PluginsOf(doc).value) == 1 ==>
                  PluginsOf(reverted).value == Others(PluginsOf(AsList(origin)).value))
  {
    var plugins := PluginsOf(doc).value;
    ScanOutcomes(plugins);
    CountPositive(plugins, |plugins| - 1);
    WithoutFirstKeeps(plugins);
    PluginsOfWith(doc, WithoutFirst(plugins));
    if LinkerdCount(plugins) == 1 {
      NoneLeft(WithoutFirst(plugins));
    }
  }

  // ---- By name ---------------------------------------------------------------------------

  lemma {:induction false} KeysByName()
    ensures KEY_NAME == "name" && KEY_PLUGINS == "plugins" && KEY_TYPE == "type" && KEY_VERSION == "cniVersion"
    ensures LINKERD == JString("linkerd-cni")
  {}

  /** An entry of a plugin list that is of linkerd's type. */
  predicate LinkerdEntry(p: Json) {
    p.JObject? && "type" in p.fields && p.fields["type"] == JString("linkerd-cni")
  }

  lemma {:induction false} LinkerdByName()
    ensures forall p :: IsLinkerd(p) <==> LinkerdEntry(p)
  {
    KeysByName();
  }

  /** The list a single plugin and linkerd make. */
  function Upgraded(fields: map<string, Json>, linkerd: Json): Json {
    JObject(map["name" := JString("k8s-pod-network"), "cniVersion" := JString("0.3.1"),
                "plugins" := JArray([JObject(fields - {"cniVersion"}), linkerd])])
  }

  /** A document with a `type` is wrapped: the list has exactly these keys with these values, and holds the
      plugin without its version and then linkerd. */
  lemma {:induction false} InjectSingleByName(fields: map<string, Json>, linkerd: Json)
    requires "type" in fields
    ensures InjectDoc(JObject(fields), linkerd) == Ok(Upgraded(fields, linkerd))
  {
    KeysByName();
    var rest := JObject(fields - {KEY_VERSION});
    var list := map[KEY_NAME := JString("k8s-pod-network"), KEY_VERSION := JString("0.3.1"),
                    KEY_PLUGINS := JArray([rest, linkerd])];
    assert Fields(WithPlugins(Wrapped(JObject(fields)), [rest, linkerd])) == list;
  }

  /** Objects, none of them of linkerd's type. */
  ghost predicate OtherObjects(plugins: seq<Json>) {
    forall p <- plugins :: p.JObject? && !LinkerdEntry(p)
  }

  lemma {:induction false} FindByName(head: seq<Json>, tail: seq<Json>)
    requires OtherObjects(head)
    ensures tail == [] ==> Find(head + tail) == Absent
    ensures tail != [] && LinkerdEntry(tail[0]) ==> Find(head + tail) == At(|head|)
    ensures tail != [] && !tail[0].JObject? ==> Find(head + tail) == NotAnObject
  {
    var plugins := head + tail;
    LinkerdByName();
    FindFromMeaning(plugins, 0);
    assert forall k :: 0 <= k < |head| ==> plugins[k] == head[k];
    if tail != [] {
      assert plugins[|head|] == tail[0];
    }
  }

  /** What injection and its revert do to a document without a `type`, by what its `plugins` hold: the first
      entry of linkerd's type is taken out, unless an entry before it is no object, and injection puts
      the new one last. No other key changes. */
  lemma {:induction false} ListByName(fields: map<string, Json>, linkerd: Json, head: seq<Json>, tail: seq<Json>)
    requires "type" !in fields && "plugins" in fields && fields["plugins"] == JArray(head + tail)
    requires OtherObjects(head)
    ensures tail == [] ==>
              && InjectDoc(JObject(fields), linkerd) == Ok(JObject(fields["plugins" := JArray(head + [linkerd])]))
              && RevertDoc(JObject(fields)) == Ok(None)
    ensures tail != [] && LinkerdEntry(tail[0]) ==>
              && InjectDoc(JObject(fields), linkerd) ==
                 Ok(JObject(fields["plugins" := JArray(head + tail[1..] + [linkerd])]))
              && RevertDoc(JObject(fields)) == Ok(Some(JObject(fields["plugins" := JArray(head + tail[1..])])))
    ensures tail != [] && !tail[0].JObject? ==>
              && InjectDoc(JObject(fields), linkerd) == Err(InvalidPlugin)
              && RevertDoc(JObject(fields)) == Err(InvalidPlugin)
  {
    KeysByName();
    FindByName(head, tail);
    var plugins := head + tail;
    assert PluginsOf(JObject(fields)) == Some(plugins);
    if tail == [] {
      assert plugins == head;
    } else if LinkerdEntry(tail[0]) {
      assert plugins[..|head|] == head && plugins[|head| + 1..] == tail[1..];
    }
  }

  /** Without a list in `plugins` there is nothing to inject into or to revert. */
  lemma {:induction false} NoListByName(fields: map<string, Json>, linkerd: Json)
    requires "plugins" !in fields || !fields["plugins"].JArray?
    ensures "type" !in fields ==> InjectDoc(JObject(fields), linkerd) == Err(NoPlugins)
    ensures RevertDoc(JObject(fields)) == Err(NoPlugins)
  {
    KeysByName();
  }

  /** Injection reads both documents first: each must be an object, or null, which stands for one
      without keys. */
  lemma {:induction false} InjectReadsBoth(existing: Content, linkerd: Content)
    ensures !IsMap(existing.Decode()) || !IsMap(linkerd.Decode()) ==> InjectContent(existing, linkerd) == Err(NotJson)
    ensures IsMap(existing.Decode()) && IsMap(linkerd.Decode()) ==>
              var doc, value := existing.Decode().value, linkerd.Decode().value;
              && (doc.JNull? ==> InjectContent(existing, linkerd) == Err(NoPlugins))
              && (InjectContent(existing, linkerd).Ok? <==> InjectDoc(doc, value).Ok?)
              && (InjectDoc(doc, value).Ok? ==>
                    InjectContent(existing, linkerd) == Ok(Printed(InjectDoc(doc, value).value)))
              && (InjectDoc(doc, value).Err? ==>
                    InjectContent(existing, linkerd) == Err(InjectDoc(doc, value).error))
  {}

  predicate IsMap(decoded: Option<Json>) {
    decoded.Some? && (decoded.value.JObject? || decoded.value.JNull?)
  }
}
