/**
  Request normalisation in front of the streaming engine
  (app/lib/.server/llm/stream-text.ts): reading the inline model and provider
  directives out of user messages, stripping them, resolving the model and the
  provider over the whole conversation, choosing the token ceiling and
  flattening multi-part content into text.

  The two directive patterns are not visible, so each is a pair of abstract
  functions: `find` is `text.match(PATTERN)` reduced to its element `[1]`
  (`None` when there is no match) and `erase` is `text.replace(PATTERN, '')`;
  what that element and that replacement are is left to the abstraction.
 */
module StreamText {
  import opened JsCore

  datatype Role = User | Assistant | System

  /** One element of a multi-part content array: `{ type, text? }`. */
  datatype Part = Part(kind: string, text: Option<string>)

  /** `string | { type: string; text?: string }[]`. */
  datatype Content = Text(text: string) | Parts(parts: seq<Part>)

  /** A recorded tool call; its arguments and result are not modelled. */
  datatype ToolResult = ToolResult(toolCallId: string, toolName: string)

  datatype Message = Message(
    role: Role,
    content: Content,
    toolInvocations: Option<seq<ToolResult>>,
    model: Option<string>)

  /** A registry entry as listed by the model registry for the caller's keys. */
  datatype ModelRecord = ModelRecord(name: string, provider: string, maxTokenAllowed: Option<int>)

  /** A directive pattern, seen only through what the code does with it. */
  datatype Pattern = Pattern(find: string -> Option<string>, erase: string -> string)

  /** The process-wide constants the normaliser reads. */
  datatype Config = Config(
    modelPattern: Pattern,
    providerPattern: Pattern,
    defaultModel: string,
    defaultProvider: string,
    maxTokens: int,
    systemPrompt: string)

  /** What `extractPropertiesFromMessage` returns. */
  datatype Extracted = Extracted(model: string, provider: string, content: Content)

  /** The running pair `currentModel`, `currentProvider`. */
  datatype Route = Route(model: string, provider: string)

  /** A message in the shape the engine takes: role and flat text. */
  datatype CoreMessage = CoreMessage(role: Role, content: string)

  /** The arguments of `getModel(provider, model, env, apiKeys)`; `env` is not modelled. */
  datatype ModelLookup = ModelLookup(provider: string, model: string, apiKeys: Option<map<string, string>>)

  /** The keys of the caller's streaming options that can collide with the engine call's own. */
  datatype StreamingOptions = StreamingOptions(
    system: Option<string>,
    maxTokens: Option<int>,
    messages: Option<seq<CoreMessage>>)

  /** The object handed to the streaming engine. */
  datatype EngineCall = EngineCall(
    model: ModelLookup,
    system: string,
    maxTokens: int,
    messages: seq<CoreMessage>)

  // ---------------------------------------------------------------------------
  // Directive extraction for one message

  predicate IsTextPart(p: Part)
  {
    p.kind == "text"
  }

  /** The text the directives are read from. */
  function DirectiveText(c: Content): (r: string)
    ensures c.Text? ==> r == c.text
    ensures c.Parts? && (forall j :: 0 <= j < |c.parts| ==> !IsTextPart(c.parts[j])) ==> r == ""
    ensures c.Parts? ==> forall i ::
      (0 <= i < |c.parts| && IsTextPart(c.parts[i]) && forall j :: 0 <= j < i ==> !IsTextPart(c.parts[j]))
      ==> r == c.parts[i].text.GetOr("")
  {
    match c
    case Text(s) => s
    case Parts(ps) =>
      match FindFirst(ps, IsTextPart)
      case None => ""
      case Some(i) => ps[i].text.GetOr("")
  }

  /** The model named by the directive, or the default when there is none. */
  function ParsedModel(cfg: Config, c: Content): (r: string)
    ensures cfg.modelPattern.find(DirectiveText(c)).None? ==> r == cfg.defaultModel
    ensures cfg.modelPattern.find(DirectiveText(c)).Some? ==>
      r == cfg.modelPattern.find(DirectiveText(c)).value
  {
    cfg.modelPattern.find(DirectiveText(c)).GetOr(cfg.defaultModel)
  }

  /** The provider named by the directive, or the default when there is none. */
  function ParsedProvider(cfg: Config, c: Content): (r: string)
    ensures cfg.providerPattern.find(DirectiveText(c)).None? ==> r == cfg.defaultProvider
    ensures cfg.providerPattern.find(DirectiveText(c)).Some? ==>
      r == cfg.providerPattern.find(DirectiveText(c)).value
  {
    cfg.providerPattern.find(DirectiveText(c)).GetOr(cfg.defaultProvider)
  }

  /** Model directive stripped first, then the provider directive. */
  function CleanText(cfg: Config, s: string): (r: string)
    ensures (EraseKeepsUnmatched(cfg.modelPattern) && EraseKeepsUnmatched(cfg.providerPattern) &&
             NoDirective(cfg, s)) ==> r == s
  {
    cfg.providerPattern.erase(cfg.modelPattern.erase(s))
  }

  function CleanPart(cfg: Config, p: Part): (r: Part)
    ensures !IsTextPart(p) ==> r == p
    ensures IsTextPart(p) ==> r.kind == p.kind && r.text.Some? == p.text.Some?
    ensures IsTextPart(p) && p.text.Some? ==> r.text.value == CleanText(cfg, p.text.value)
  {
    if IsTextPart(p) then
      Part("text", match p.text case None => None case Some(t) => Some(CleanText(cfg, t)))
    else p
  }

  /** Content with the directives stripped from every text segment. */
  function CleanContent(cfg: Config, c: Content): (r: Content)
    ensures c.Text? ==> r == Text(CleanText(cfg, c.text))
    ensures c.Parts? ==> r.Parts? && |r.parts| == |c.parts|
    ensures c.Parts? ==> forall i :: 0 <= i < |c.parts| && !IsTextPart(c.parts[i]) ==>
      r.parts[i] == c.parts[i]
    ensures c.Parts? ==> forall i :: 0 <= i < |c.parts| && IsTextPart(c.parts[i]) ==>
      r.parts[i].kind == c.parts[i].kind &&
      (c.parts[i].text.None? ==> r.parts[i].text.None?) &&
      (c.parts[i].text.Some? ==> r.parts[i].text == Some(CleanText(cfg, c.parts[i].text.value)))
  {
    match c
    case Text(s) => Text(CleanText(cfg, s))
    case Parts(ps) => Parts(seq(|ps|, i requires 0 <= i < |ps| => CleanPart(cfg, ps[i])))
  }

  /** `extractPropertiesFromMessage`. */
  function ExtractProperties(cfg: Config, m: Message): (r: Extracted)
    ensures r.model == ParsedModel(cfg, m.content)
    ensures r.provider == ParsedProvider(cfg, m.content)
    ensures r.content == CleanContent(cfg, m.content)
  {
    var text := DirectiveText(m.content);
    var model := cfg.modelPattern.find(text).GetOr(cfg.defaultModel);
    var provider := cfg.providerPattern.find(text).GetOr(cfg.defaultProvider);
    Extracted(model, provider, CleanContent(cfg, m.content))
  }

  /** The directive text is fixed once the first text part is: the parts after it are never read. */
  lemma DirectiveIgnoresLaterParts(ps: seq<Part>, i: nat, rest: seq<Part>)
    requires i < |ps| && IsTextPart(ps[i])
    requires forall j :: 0 <= j < i ==> !IsTextPart(ps[j])
    ensures DirectiveText(Parts(ps[..i + 1] + rest)) == DirectiveText(Parts(ps)) == ps[i].text.GetOr("")
  {
    var qs := ps[..i + 1] + rest;
    assert qs[i] == ps[i];
    assert forall j :: 0 <= j < i ==> qs[j] == ps[j];
  }

  // ---------------------------------------------------------------------------
  // What the abstract patterns may be assumed to do

  /** `s.replace(P, '')` leaves `s` alone when `P` does not match it. */
  ghost predicate EraseKeepsUnmatched(p: Pattern)
  {
    forall s :: p.find(s).None? ==> p.erase(s) == s
  }

  /** After `s.replace(P, '')` the pattern no longer matches. */
  ghost predicate EraseRemovesMatch(p: Pattern)
  {
    forall s :: p.find(p.erase(s)).None?
  }

  /** Stripping the provider directive does not create a model directive. */
  ghost predicate ProviderEraseKeepsModelAbsent(cfg: Config)
  {
    forall s :: cfg.modelPattern.find(s).None? ==>
      cfg.modelPattern.find(cfg.providerPattern.erase(s)).None?
  }

  /** Neither pattern matches `s`. */
  ghost predicate NoDirective(cfg: Config, s: string)
  {
    cfg.modelPattern.find(s).None? && cfg.providerPattern.find(s).None?
  }

  /** No text that is stripped carries a directive. */
  ghost predicate NoDirectiveIn(cfg: Config, c: Content)
  {
    && NoDirective(cfg, DirectiveText(c))
    && (c.Parts? ==> forall i :: 0 <= i < |c.parts| && IsTextPart(c.parts[i]) && c.parts[i].text.Some? ==>
          NoDirective(cfg, c.parts[i].text.value))
  }

  /** A message without directives parses to the defaults and is left as it was. */
  lemma NoDirectiveMeansDefaults(cfg: Config, m: Message)
    requires EraseKeepsUnmatched(cfg.modelPattern) && EraseKeepsUnmatched(cfg.providerPattern)
    requires NoDirectiveIn(cfg, m.content)
    ensures ExtractProperties(cfg, m) == Extracted(cfg.defaultModel, cfg.defaultProvider, m.content)
  {
  }

  /** Stripped text carries no directive, given patterns whose erasure removes their match. */
  lemma CleanTextHasNoDirective(cfg: Config, s: string)
    requires EraseRemovesMatch(cfg.modelPattern) && EraseRemovesMatch(cfg.providerPattern)
    requires ProviderEraseKeepsModelAbsent(cfg)
    ensures NoDirective(cfg, CleanText(cfg, s))
  {
  }

  /**
    Under those assumptions, extracting again from a cleaned message finds only the
    defaults and changes nothing more: the cleaning is idempotent.
   */
  lemma ExtractTwiceIsExtractOnce(cfg: Config, m: Message)
    requires EraseRemovesMatch(cfg.modelPattern) && EraseRemovesMatch(cfg.providerPattern)
    requires ProviderEraseKeepsModelAbsent(cfg)
    requires EraseKeepsUnmatched(cfg.modelPattern) && EraseKeepsUnmatched(cfg.providerPattern)
    requires NoDirective(cfg, "")
    ensures var once := ExtractProperties(cfg, m).content;
      ExtractProperties(cfg, m.(content := once)) ==
        Extracted(cfg.defaultModel, cfg.defaultProvider, once)
  {
    var once := ExtractProperties(cfg, m).content;
    match m.content
    case Text(s) =>
      CleanTextHasNoDirective(cfg, s);
    case Parts(ps) =>
      forall i | 0 <= i < |once.parts| && IsTextPart(once.parts[i]) && once.parts[i].text.Some?
        ensures NoDirective(cfg, once.parts[i].text.value)
      {
        CleanTextHasNoDirective(cfg, ps[i].text.value);
      }
      match FindFirst(once.parts, IsTextPart)
      case None =>
      case Some(k) =>
        if once.parts[k].text.Some? {
          assert NoDirective(cfg, once.parts[k].text.value);
        }
    NoDirectiveMeansDefaults(cfg, m.(content := once));
  }

  /**
    A pattern that matches a leading `c` (such as one without the `g` flag):
    `replace` removes only its first match.
   */
  function LeadingCharPattern(c: char): Pattern
  {
    Pattern(
      (s: string) => if |s| > 0 && s[0] == c then Some([c]) else None,
      (s: string) => if |s| > 0 && s[0] == c then s[1..] else s)
  }

  /**
    The assumption `EraseRemovesMatch` is not true of every pattern: with, for
    example, a pattern that `replace` strips once, a directive given twice
    survives one cleaning, and extracting again finds it instead of the default.
   */
  lemma RepeatedDirectiveSurvivesCleaning(defaultModel: string, defaultProvider: string, maxTokens: int, systemPrompt: string)
    ensures EraseKeepsUnmatched(LeadingCharPattern('x'))
    ensures !EraseRemovesMatch(LeadingCharPattern('x'))
    ensures var cfg := Config(LeadingCharPattern('x'), LeadingCharPattern('y'),
                              defaultModel, defaultProvider, maxTokens, systemPrompt);
      var m := Message(User, Text("xx"), None, None);
      var once := ExtractProperties(cfg, m).content;
      once == Text("x") && ExtractProperties(cfg, m.(content := once)).model == "x"
  {
    var p := LeadingCharPattern('x');
    assert p.erase("xx") == "x";
    assert p.find(p.erase("xx")).Some?;
  }

  // ---------------------------------------------------------------------------
  // Resolution over the conversation

  /** `MODEL_LIST.find((m) => m.name === name)` found something. */
  function IsListed(list: seq<ModelRecord>, name: string): (r: bool)
    ensures r <==> exists i :: 0 <= i < |list| && list[i].name == name
  {
    var found := FindFirst(list, (m: ModelRecord) => m.name == name);
    assert found.Some? ==> list[found.value].name == name;
    found.Some?
  }

  /** A user message, after the `...message` spread, carries its cleaned content; others pass through. */
  function ProcessMessage(cfg: Config, m: Message): (r: Message)
    ensures r.role == m.role && r.toolInvocations == m.toolInvocations && r.model == m.model
    ensures m.role != User ==> r == m
    ensures m.role == User ==> r.content == CleanContent(cfg, m.content)
  {
    if m.role == User then m.(content := ExtractProperties(cfg, m).content) else m
  }

  /** One turn of the fold that the `messages.map` callback performs. */
  function Step(cfg: Config, list: seq<ModelRecord>, r: Route, m: Message): (next: Route)
    ensures m.role != User ==> next == r
    ensures m.role == User ==> next.provider == ParsedProvider(cfg, m.content)
    ensures next.model == (if SetsModel(cfg, list, m) then ParsedModel(cfg, m.content) else r.model)
    ensures next.model == r.model || (m.role == User && IsListed(list, next.model))
  {
    if m.role == User then
      var model := ParsedModel(cfg, m.content);
      Route(if IsListed(list, model) then model else r.model, ParsedProvider(cfg, m.content))
    else r
  }

  /** The running model and provider after the given messages. */
  function Resolve(cfg: Config, list: seq<ModelRecord>, msgs: seq<Message>): (r: Route)
    ensures r.model == cfg.defaultModel || IsListed(list, r.model)
    decreases |msgs|
  {
    if |msgs| == 0 then Route(cfg.defaultModel, cfg.defaultProvider)
    else Step(cfg, list, Resolve(cfg, list, msgs[..|msgs| - 1]), msgs[|msgs| - 1])
  }

  /** A user message whose directive names a listed model. */
  predicate SetsModel(cfg: Config, list: seq<ModelRecord>, m: Message)
  {
    m.role == User && IsListed(list, ParsedModel(cfg, m.content))
  }

  /** Message `i` sets the model and no later message does. */
  ghost predicate IsLastSetter(cfg: Config, list: seq<ModelRecord>, msgs: seq<Message>, i: int)
  {
    0 <= i < |msgs| && SetsModel(cfg, list, msgs[i]) &&
    forall j :: i < j < |msgs| ==> !SetsModel(cfg, list, msgs[j])
  }

  /** Message `i` is from the user and no later message is. */
  ghost predicate IsLastUser(msgs: seq<Message>, i: int)
  {
    0 <= i < |msgs| && msgs[i].role == User &&
    forall j :: i < j < |msgs| ==> msgs[j].role != User
  }

  /** The model is that of the last user message naming a listed model, else the default. */
  lemma {:induction false} ResolvedModelIsLastListed(cfg: Config, list: seq<ModelRecord>, msgs: seq<Message>)
    ensures (forall i :: 0 <= i < |msgs| ==> !SetsModel(cfg, list, msgs[i])) ==>
      Resolve(cfg, list, msgs).model == cfg.defaultModel
    ensures forall i :: IsLastSetter(cfg, list, msgs, i) ==>
      Resolve(cfg, list, msgs).model == ParsedModel(cfg, msgs[i].content)
    decreases |msgs|
  {
    if |msgs| > 0 {
      var n := |msgs| - 1;
      var pre, last := msgs[..n], msgs[n];
      var before := Resolve(cfg, list, pre);
      ResolvedModelIsLastListed(cfg, list, pre);
      assert Resolve(cfg, list, msgs) == Step(cfg, list, before, last);
      if SetsModel(cfg, list, last) {
        forall i | IsLastSetter(cfg, list, msgs, i)
          ensures i == n
        {
          if i < n {
            assert false;
          }
        }
      } else {
        forall i | 0 <= i < n
          ensures pre[i] == msgs[i]
        {
        }
        forall i | IsLastSetter(cfg, list, msgs, i)
          ensures IsLastSetter(cfg, list, pre, i)
        {
        }
      }
    }
  }

  /** The provider is that of the last user message, listed or not, else the default. */
  lemma {:induction false} ResolvedProviderIsLastUser(cfg: Config, list: seq<ModelRecord>, msgs: seq<Message>)
    ensures (forall i :: 0 <= i < |msgs| ==> msgs[i].role != User) ==>
      Resolve(cfg, list, msgs).provider == cfg.defaultProvider
    ensures forall i :: IsLastUser(msgs, i) ==>
      Resolve(cfg, list, msgs).provider == ParsedProvider(cfg, msgs[i].content)
    decreases |msgs|
  {
    if |msgs| > 0 {
      var n := |msgs| - 1;
      var pre, last := msgs[..n], msgs[n];
      var before := Resolve(cfg, list, pre);
      ResolvedProviderIsLastUser(cfg, list, pre);
      assert Resolve(cfg, list, msgs) == Step(cfg, list, before, last);
      if last.role == User {
        forall i | IsLastUser(msgs, i)
          ensures i == n
        {
          if i < n {
            assert false;
          }
        }
      } else {
        forall i | 0 <= i < n
          ensures pre[i] == msgs[i]
        {
        }
        forall i | IsLastUser(msgs, i)
          ensures IsLastUser(pre, i)
        {
        }
      }
    }
  }

  /** The provider never depends on the registry. */
  lemma {:induction false} ProviderIgnoresRegistry(cfg: Config, l1: seq<ModelRecord>, l2: seq<ModelRecord>, msgs: seq<Message>)
    ensures Resolve(cfg, l1, msgs).provider == Resolve(cfg, l2, msgs).provider
    decreases |msgs|
  {
    if |msgs| > 0 {
      ProviderIgnoresRegistry(cfg, l1, l2, msgs[..|msgs| - 1]);
    }
  }

  /**
    A last user message with no directives resets both values to the defaults,
    the model only when the default model is itself listed.
   */
  lemma DirectivelessLastUserResets(cfg: Config, list: seq<ModelRecord>, msgs: seq<Message>)
    requires |msgs| > 0 && msgs[|msgs| - 1].role == User
    requires NoDirective(cfg, DirectiveText(msgs[|msgs| - 1].content))
    ensures Resolve(cfg, list, msgs).provider == cfg.defaultProvider
    ensures IsListed(list, cfg.defaultModel) ==> Resolve(cfg, list, msgs).model == cfg.defaultModel
  {
  }

  /**
    The pass over the conversation (`streamText`, the `messages.map` callback and
    the two `let` variables it reassigns).
   */
  method NormalizeMessages(cfg: Config, list: seq<ModelRecord>, messages: seq<Message>)
    returns (currentModel: string, currentProvider: string, processed: seq<Message>)
    ensures Route(currentModel, currentProvider) == Resolve(cfg, list, messages)
    ensures |processed| == |messages|
    ensures forall k :: 0 <= k < |messages| ==> processed[k] == ProcessMessage(cfg, messages[k])
  {
    currentModel := cfg.defaultModel;
    currentProvider := cfg.defaultProvider;
    processed := [];
    var i := 0;
    while i < |messages|
      invariant 0 <= i <= |messages|
      invariant Route(currentModel, currentProvider) == Resolve(cfg, list, messages[..i])
      invariant |processed| == i
      invariant forall k :: 0 <= k < i ==> processed[k] == ProcessMessage(cfg, messages[k])
    {
      var message := messages[i];
      if message.role == User {
        var e := ExtractProperties(cfg, message);
        if IsListed(list, e.model) {
          currentModel := e.model;
        }
        currentProvider := e.provider;
        processed := processed + [message.(content := e.content)];
      } else {
        processed := processed + [message];
      }
      assert messages[..i + 1][..i] == messages[..i];
      i := i + 1;
    }
    assert messages[..i] == messages;
  }

  // ---------------------------------------------------------------------------
  // Token ceiling, flattening and the engine call

  /** `maxTokenAllowed` counts only when it is present and not 0 (JavaScript truthiness). */
  predicate HasCeiling(m: ModelRecord)
  {
    m.maxTokenAllowed.Some? && m.maxTokenAllowed.value != 0
  }

  /** The ceiling of the first record named `name` when it has one, else `fallback`. */
  function TokenCeiling(list: seq<ModelRecord>, name: string, fallback: int): (r: int)
    ensures (forall i :: 0 <= i < |list| ==> list[i].name != name) ==> r == fallback
    ensures forall i ::
      (0 <= i < |list| && list[i].name == name && forall j :: 0 <= j < i ==> list[j].name != name)
      ==> r == (if HasCeiling(list[i]) then list[i].maxTokenAllowed.value else fallback)
    ensures r == fallback ||
      exists i :: 0 <= i < |list| && list[i].name == name && list[i].maxTokenAllowed == Some(r)
  {
    match FindFirst(list, (m: ModelRecord) => m.name == name)
    case None => fallback
    case Some(i) => if HasCeiling(list[i]) then list[i].maxTokenAllowed.value else fallback
  }

  /**
    A first record named like the model whose ceiling is 0 or absent falls back,
    whatever later records say.
   */
  lemma ZeroCeilingFallsBack(list: seq<ModelRecord>, z: ModelRecord, fallback: int, rest: seq<ModelRecord>)
    requires !HasCeiling(z)
    requires forall j :: 0 <= j < |list| ==> list[j].name != z.name
    ensures TokenCeiling(list + [z] + rest, z.name, fallback) == fallback
  {
    var l := list + [z] + rest;
    assert l[|list|] == z;
    assert forall j :: 0 <= j < |list| ==> l[j] == list[j];
  }

  /** `item.text || ''` for each part. */
  function PartTexts(ps: seq<Part>): (r: seq<string>)
    ensures |r| == |ps|
    ensures forall i :: 0 <= i < |ps| ==> r[i] == ps[i].text.GetOr("")
  {
    seq(|ps|, i requires 0 <= i < |ps| => ps[i].text.GetOr(""))
  }

  /** The engine's flat form of one message. */
  function Flatten(m: Message): (r: CoreMessage)
    ensures r.role == m.role
    ensures m.content.Text? ==> r.content == m.content.text
    ensures m.content.Parts? ==> r.content == Join(PartTexts(m.content.parts), " ")
  {
    CoreMessage(m.role, match m.content
      case Text(s) => s
      case Parts(ps) => Join(PartTexts(ps), " "))
  }

  /** Flattened parts: the part texts, in order, each two separated by exactly one space. */
  lemma FlattenParts(m: Message, k: nat)
    requires m.content.Parts? && k < |m.content.parts|
    ensures var ts := PartTexts(m.content.parts);
      var out := Flatten(m).content;
      |out| == TotalLength(ts) + |ts| - 1 &&
      Offset(ts, " ", k) + |ts[k]| <= |out| &&
      out[Offset(ts, " ", k) .. Offset(ts, " ", k) + |ts[k]|] == m.content.parts[k].text.GetOr("") &&
      (k + 1 < |ts| ==> Offset(ts, " ", k + 1) == Offset(ts, " ", k) + |ts[k]| + 1 &&
                        Offset(ts, " ", k + 1) <= |out| &&
                        out[Offset(ts, " ", k) + |ts[k]|] == ' ')
  {
    var ts := PartTexts(m.content.parts);
    JoinLength(ts, " ");
    JoinPiece(ts, " ", k);
    if k + 1 < |ts| {
      JoinSeparator(ts, " ", k);
      var o := Offset(ts, " ", k) + |ts[k]|;
      assert Flatten(m).content[o .. o + 1] == " ";
    }
  }

  function FlattenAll(ms: seq<Message>): (r: seq<CoreMessage>)
    ensures |r| == |ms|
    ensures forall i :: 0 <= i < |ms| ==> r[i] == Flatten(ms[i])
  {
    seq(|ms|, i requires 0 <= i < |ms| => Flatten(ms[i]))
  }

  /** `{ model, system, maxTokens, messages, ...options }`: a present option key wins. */
  function MergeOptions(base: EngineCall, options: Option<StreamingOptions>): (r: EngineCall)
    ensures r.model == base.model
    ensures options.None? ==> r == base
    ensures options.Some? ==> r.system == options.value.system.GetOr(base.system)
    ensures options.Some? ==> r.maxTokens == options.value.maxTokens.GetOr(base.maxTokens)
    ensures options.Some? ==> r.messages == options.value.messages.GetOr(base.messages)
  {
    match options
    case None => base
    case Some(o) =>
      EngineCall(base.model, o.system.GetOr(base.system), o.maxTokens.GetOr(base.maxTokens),
                 o.messages.GetOr(base.messages))
  }

  /**
    `streamText` up to the engine: the registry list is the already-fetched
    `getModelList` result; what is returned is the engine call it makes.
   */
  method StreamText(
    cfg: Config,
    modelList: seq<ModelRecord>,
    messages: seq<Message>,
    options: Option<StreamingOptions>,
    apiKeys: Option<map<string, string>>)
    returns (call: EngineCall)
    ensures var route := Resolve(cfg, modelList, messages);
      call.model == ModelLookup(route.provider, route.model, apiKeys)
    ensures var route := Resolve(cfg, modelList, messages);
      call == MergeOptions(
        EngineCall(ModelLookup(route.provider, route.model, apiKeys),
                   cfg.systemPrompt,
                   TokenCeiling(modelList, route.model, cfg.maxTokens),
                   FlattenAll(seq(|messages|, i requires 0 <= i < |messages| =>
                                   ProcessMessage(cfg, messages[i])))),
        options)
  {
    var currentModel, currentProvider, processed := NormalizeMessages(cfg, modelList, messages);
    var dynamicMaxTokens := TokenCeiling(modelList, currentModel, cfg.maxTokens);
    var coreMessages := FlattenAll(processed);
    assert processed == seq(|messages|, i requires 0 <= i < |messages| => ProcessMessage(cfg, messages[i]));
    call := MergeOptions(
      EngineCall(ModelLookup(currentProvider, currentModel, apiKeys), cfg.systemPrompt,
                 dynamicMaxTokens, coreMessages),
      options);
  }
}
