/**
 The JSON form of a flow. A node is one record of optional fields, whatever its operator; writing it drops
 the fields its operator has no use for, and reading takes fields as they come.
 */
module Wire {
  import opened Values

  /** A field that is set holds something other than null. */
  type Json = v: Value | v != Null witness Bool(false)

  type Object = map<string, Value>

  predicate IsOp(s: string) {
    || s == "prim" || s == "ident" || s == "arr" || s == "seq" || s == "par"
    || s == "each" || s == "alt" || s == "iter_up_to" || s == "eval_plan" || s == "app" || s == "loop"
  }

  predicate IsEffect(s: string) {
    s == "read" || s == "write" || s == "external" || s == "dangerous"
  }

  predicate IsScope(s: string) {
    s == "none" || s == "local" || s == "summary" || s == "whole_session"
  }

  predicate IsShape(s: string) {
    || s == "Pipeline" || s == "Dataflow" || s == "Branching"
    || s == "Feedback" || s == "Staged" || s == "Agent"
  }

  predicate IsPolicy(s: string) {
    s == "result_only" || s == "compressed_trace" || s == "full_child_ref"
  }

  type Op = s: string | IsOp(s) witness "prim"
  type EffectName = s: string | IsEffect(s) witness "read"
  type ScopeName = s: string | IsScope(s) witness "none"
  type ShapeName = s: string | IsShape(s) witness "Agent"
  type PolicyName = s: string | IsPolicy(s) witness "result_only"

  const RECV := Str("__recv__")
  const EMIT := Str("__emit__")

  // ----- dictionaries -----

  /** `d.get(k)` */
  function Get(d: Object, k: string): Option<Json> {
    if k in d && d[k] != Null then Some(d[k]) else None
  }

  /** `d.get(k, d.get(former))` */
  function GetEither(d: Object, k: string, former: string): Option<Json> {
    if k in d then Get(d, k) else Get(d, former)
  }

  /** `d[k] if d.get(k) else None` */
  function GetTrue(d: Object, k: string): (r: Option<Value>)
    ensures r.Some? ==> r.value < Rec(d)
  {
    if k in d && Truthy(d[k]) then Some(d[k]) else None
  }

  function Need(d: Object, k: string): Result<Value> {
    if k in d then Ok(d[k]) else Err
  }

  function ObjectOf(v: Value): Result<Object> {
    if v.Rec? then Ok(v.fields) else Err
  }

  function Enum(v: Value, names: string -> bool): Result<string> {
    if v.Str? && names(v.s) then Ok(v.s) else Err
  }

  function Opt(k: string, v: Option<Value>): Object {
    if v.Some? then map[k := v.value] else map[]
  }

  // ----- records with many fields -----

  /** The keys of a node and of its annotation. */
  datatype Field =
    | FOp | FId | FAnn | FStep | FLeft | FRight | FSelect | FCases | FDefault | FBound | FBody | FPlan |
    FController | FStateSchema | FChannels | FTools | FToolAliases | FToolDefs | FToolContracts | FSubflows
    | FSubflowQueues | FBudget | FMaxRounds | FCtx | FSummarizer | FRoundNote | FNativeTools |
    FRequireToolCall | FReplySchema | FOutputRetries | FPure | FArgs | FChannel | FMerge | FCost | FRisk |
    FCache | FEffect | FTimeout | FMaxAttempts | FRetryIntervalS | FBackoffRate | FBatchable

  function Name(f: Field): string {
    match f
    case FOp => "op"
    case FId => "id"
    case FAnn => "ann"
    case FStep => "step"
    case FLeft => "left"
    case FRight => "right"
    case FSelect => "select"
    case FCases => "cases"
    case FDefault => "default"
    case FBound => "bound"
    case FBody => "body"
    case FPlan => "plan"
    case FController => "controller"
    case FStateSchema => "stateSchema"
    case FChannels => "channels"
    case FTools => "tools"
    case FToolAliases => "toolAliases"
    case FToolDefs => "toolDefs"
    case FToolContracts => "toolContracts"
    case FSubflows => "subflows"
    case FSubflowQueues => "subflowQueues"
    case FBudget => "budget"
    case FMaxRounds => "maxRounds"
    case FCtx => "ctx"
    case FSummarizer => "summarizer"
    case FRoundNote => "roundNote"
    case FNativeTools => "nativeTools"
    case FRequireToolCall => "requireToolCall"
    case FReplySchema => "replySchema"
    case FOutputRetries => "outputRetries"
    case FPure => "pure"
    case FArgs => "args"
    case FChannel => "channel"
    case FMerge => "merge"
    case FCost => "cost"
    case FRisk => "risk"
    case FCache => "cache"
    case FEffect => "effect"
    case FTimeout => "timeout"
    case FMaxAttempts => "maxAttempts"
    case FRetryIntervalS => "retryIntervalS"
    case FBackoffRate => "backoffRate"
    case FBatchable => "batchable"
  }

  /** The field of a name, found by its length first. */
  function Named(s: string): Option<Field> {
    match |s|
    case 2 => if s == "op" then Some(FOp) else if s == "id" then Some(FId) else None
    case 3 => if s == "ann" then Some(FAnn) else if s == "ctx" then Some(FCtx) else None
    case 4 =>
      if s == "step" then Some(FStep) else
      if s == "left" then Some(FLeft) else
      if s == "body" then Some(FBody) else
      if s == "plan" then Some(FPlan) else
      if s == "pure" then Some(FPure) else
      if s == "args" then Some(FArgs) else
      if s == "cost" then Some(FCost) else
      if s == "risk" then Some(FRisk) else None
    case 5 =>
      if s == "right" then Some(FRight) else
      if s == "cases" then Some(FCases) else
      if s == "bound" then Some(FBound) else
      if s == "tools" then Some(FTools) else
      if s == "merge" then Some(FMerge) else
      if s == "cache" then Some(FCache) else None
    case 6 =>
      if s == "select" then Some(FSelect) else
      if s == "budget" then Some(FBudget) else
      if s == "effect" then Some(FEffect) else None
    case 7 =>
      if s == "default" then Some(FDefault) else
      if s == "channel" then Some(FChannel) else
      if s == "timeout" then Some(FTimeout) else None
    case 8 =>
      if s == "channels" then Some(FChannels) else
      if s == "toolDefs" then Some(FToolDefs) else
      if s == "subflows" then Some(FSubflows) else None
    case 9 =>
      if s == "maxRounds" then Some(FMaxRounds) else
      if s == "roundNote" then Some(FRoundNote) else
      if s == "batchable" then Some(FBatchable) else None
    case 10 => if s == "controller" then Some(FController) else if s == "summarizer" then Some(FSummarizer) else None
    case 11 =>
      if s == "stateSchema" then Some(FStateSchema) else
      if s == "toolAliases" then Some(FToolAliases) else
      if s == "nativeTools" then Some(FNativeTools) else
      if s == "replySchema" then Some(FReplySchema) else
      if s == "maxAttempts" then Some(FMaxAttempts) else
      if s == "backoffRate" then Some(FBackoffRate) else None
    case 13 =>
      if s == "toolContracts" then Some(FToolContracts) else
      if s == "subflowQueues" then Some(FSubflowQueues) else
      if s == "outputRetries" then Some(FOutputRetries) else None
    case 14 => if s == "retryIntervalS" then Some(FRetryIntervalS) else None
    case 15 => if s == "requireToolCall" then Some(FRequireToolCall) else None
    case _ => None
  }

  /** The keys of a session loop or an application. */
  predicate IsPartField(f: Field) {
    f.FStateSchema? || f.FChannels? || f.FTools? || f.FToolAliases? || f.FToolDefs? || f.FToolContracts?
    || f.FSubflows? || f.FSubflowQueues? || f.FBudget? || f.FMaxRounds? || f.FCtx? || f.FSummarizer?
    || f.FRoundNote? || f.FNativeTools? || f.FRequireToolCall? || f.FReplySchema? || f.FOutputRetries?
  }

  predicate IsAnnField(f: Field) {
    f.FCost? || f.FRisk? || f.FCache? || f.FEffect? || f.FTimeout? || f.FMaxAttempts? || f.FRetryIntervalS?
    || f.FBackoffRate? || f.FBatchable?
  }

  lemma PartNamesDiffer(f: Field)
    requires IsPartField(f)
    ensures Named(Name(f)) == Some(f)
  {
  }

  lemma HintNamesDiffer(f: Field)
    requires f.FCost? || f.FRisk? || f.FCache? || f.FEffect? || f.FTimeout?
    ensures Named(Name(f)) == Some(f)
  {
  }

  lemma RetryNamesDiffer(f: Field)
    requires f.FMaxAttempts? || f.FRetryIntervalS? || f.FBackoffRate? || f.FBatchable?
    ensures Named(Name(f)) == Some(f)
  {
  }

  lemma NodeNamesDiffer(f: Field)
    requires !IsPartField(f) && !IsAnnField(f)
    ensures Named(Name(f)) == Some(f)
  {
  }

  lemma NamesDiffer(f: Field)
    ensures Named(Name(f)) == Some(f)
  {
    hide Named, Name;
    if IsPartField(f) {
      PartNamesDiffer(f);
    } else if f.FCost? || f.FRisk? || f.FCache? || f.FEffect? || f.FTimeout? {
      HintNamesDiffer(f);
    } else if IsAnnField(f) {
      RetryNamesDiffer(f);
    } else {
      NodeNamesDiffer(f);
    }
  }

  const NAMES: set<string> := set f: Field | true :: Name(f)

  /** The dictionary that holds exactly the fields that are set. */
  function Record(wire: Field -> Option<Value>): Object {
    map k | k in NAMES && Named(k).Some? && wire(Named(k).value).Some? :: wire(Named(k).value).value
  }

  lemma RecordHolds(wire: Field -> Option<Value>, f: Field)
    ensures Name(f) in Record(wire) <==> wire(f).Some?
    ensures wire(f).Some? ==> Record(wire)[Name(f)] == wire(f).value
  {
    NamesDiffer(f);
    assert Name(f) in NAMES;
  }

  function NonNull(v: Option<Value>): Option<Json> {
    if v.Some? && v.value != Null then Some(v.value) else None
  }

  function WhenTrue(v: Option<Value>): Option<Value> {
    if v.Some? && Truthy(v.value) then v else None
  }

  /** A dictionary read field by field. */
  type Reader = Field -> Option<Value>

  function ReaderOf(d: Object): Reader {
    f => if Name(f) in d then Some(d[Name(f)]) else None
  }

  ghost predicate Reads(r: Reader, wire: Reader) {
    forall f: Field {:trigger r(f)} :: r(f) == wire(f)
  }

  lemma FieldReads(r: Reader, wire: Reader, f: Field, v: Option<Json>)
    requires Reads(r, wire) && wire(f) == v
    ensures NonNull(r(f)) == v
  {
  }

  lemma RecordReads(wire: Reader)
    ensures Reads(ReaderOf(Record(wire)), wire)
  {
    forall f: Field ensures ReaderOf(Record(wire))(f) == wire(f) {
      RecordHolds(wire, f);
    }
  }

  // ----- the parts of a node -----

  datatype Context = Context(scope: ScopeName, redactPii: bool, maxTokens: Option<Json>)

  function ContextToJson(c: Context): Object {
    map["scope" := Str(c.scope)] + Opt("redactPii", if c.redactPii then Some(Bool(true)) else None)
    + Opt("maxTokens", c.maxTokens)
  }

  function ContextFromJson(v: Value): Result<Context> {
    var d :- ObjectOf(v);
    var scope :- Enum(if "scope" in d then d["scope"] else Str("local"), IsScope);
    Ok(Context(scope, "redactPii" in d && Truthy(d["redactPii"]), Get(d, "maxTokens")))
  }

  function MaybeContext(v: Option<Value>): Result<Option<Context>> {
    if v.None? then Ok(None)
    else
      var c :- ContextFromJson(v.value);
      Ok(Some(c))
  }

  datatype CacheHint = CacheHint(key: Option<Json>, ttl: Option<Json>)

  function CacheToJson(c: CacheHint): Object {
    Opt("key", c.key) + Opt("ttlS", c.ttl)
  }

  function CacheFromJson(v: Option<Value>): Result<Option<CacheHint>> {
    if v.None? then Ok(None)
    else
      var d :- ObjectOf(v.value);
      Ok(Some(CacheHint(Get(d, "key"), Get(d, "ttlS"))))
  }

  datatype Ann = Ann(
    cost: Option<Json>, risk: Option<Json>, cache: Option<CacheHint>, effect: Option<EffectName>, timeout: Option<Json>,
    maxAttempts: Option<Json>, retryInterval: Option<Json>, backoffRate: Option<Json>, batchable: bool)

  function AnnToJson(a: Ann): Object {
    Record(f => AnnWire(a, f))
  }

  function AnnWire(a: Ann, f: Field): Option<Value> {
    match f
    case FCost => a.cost
    case FRisk => a.risk
    case FCache => if a.cache.Some? then Some(Rec(CacheToJson(a.cache.value))) else None
    case FEffect => if a.effect.Some? then Some(Str(a.effect.value)) else None
    case FTimeout => a.timeout
    case FMaxAttempts => a.maxAttempts
    case FRetryIntervalS => a.retryInterval
    case FBackoffRate => a.backoffRate
    case FBatchable => if a.batchable then Some(Bool(true)) else None
    case _ => None
  }

  function AnnFromJson(v: Option<Value>): Result<Option<Ann>> {
    if v.None? then Ok(None)
    else
      var d :- ObjectOf(v.value);
      var a :- AnnOf(ReaderOf(d));
      Ok(Some(a))
  }

  function AnnOf(r: Reader): Result<Ann> {
    var cache :- CacheFromJson(WhenTrue(r(FCache)));
    var effect :- MaybeEnum(WhenTrue(r(FEffect)), IsEffect);
    Ok(AnnWith(r, cache, effect))
  }

  function AnnWith(r: Reader, cache: Option<CacheHint>, effect: Option<EffectName>): Ann {
    Ann(NonNull(r(FCost)), NonNull(r(FRisk)), cache, effect, NonNull(r(FTimeout)), NonNull(r(FMaxAttempts)),
        NonNull(r(FRetryIntervalS)), NonNull(r(FBackoffRate)), WhenTrue(r(FBatchable)).Some?)
  }

  function MaybeEnum(v: Option<Value>, names: string -> bool): (r: Result<Option<string>>)
    ensures r.Ok? && r.value.Some? ==> names(r.value.value)
  {
    if v.None? then Ok(None)
    else
      var s :- Enum(v.value, names);
      Ok(Some(s))
  }

  datatype ToolRef = NativeTool(name: Value) | McpTool(server: Value, tool: Value)

  function ToolToJson(t: ToolRef): Object {
    match t
    case NativeTool(name) => map["kind" := Str("native"), "name" := name]
    case McpTool(server, tool) => map["kind" := Str("mcp"), "server" := server, "tool" := tool]
  }

  function ToolFromJson(v: Value): Result<ToolRef> {
    var d :- ObjectOf(v);
    var kind :- Need(d, "kind");
    if kind == Str("native") then
      var name :- Need(d, "name");
      Ok(NativeTool(name))
    else if kind == Str("mcp") then
      var server :- Need(d, "server");
      var tool :- Need(d, "tool");
      Ok(McpTool(server, tool))
    else Err
  }

  datatype SubContract = SubContract(shape: ShapeName, policy: Option<PolicyName>, queue: Option<Json>)

  function ContractToJson(c: SubContract): Object {
    map["shape" := Str(c.shape)] + Opt("summaryPolicy", if c.policy.Some? then Some(Str(c.policy.value)) else None)
    + Opt("queue", c.queue)
  }

  function ContractFromJson(v: Value): Result<SubContract> {
    var d :- ObjectOf(v);
    var raw :- Need(d, "shape");
    var shape :- Enum(raw, IsShape);
    var policy :- MaybeEnum(GetTrue(d, "summaryPolicy"), IsPolicy);
    Ok(SubContract(shape, policy, Get(d, "queue")))
  }

  datatype Step =
    | CallStep(tool: ToolRef, callCtx: Option<Context>, frozenHash: Option<Json>)
    | ThinkStep(reasoner: Value, thinkCtx: Option<Context>)
    | SubStep(ref: Value, contract: SubContract)

  function StepToJson(s: Step): Object {
    match s
    case CallStep(tool, ctx, hash) =>
      map["kind" := Str("call"), "tool" := Rec(ToolToJson(tool))]
      + Opt("ctx", ContextJson(ctx)) + Opt("frozenHash", hash)
    case ThinkStep(reasoner, ctx) => map["kind" := Str("think"), "reasoner" := reasoner] + Opt("ctx", ContextJson(ctx))
    case SubStep(ref, contract) => map["kind" := Str("sub"), "ref" := ref, "contract" := Rec(ContractToJson(contract))]
  }

  function ContextJson(ctx: Option<Context>): Option<Json> {
    if ctx.Some? then Some(Rec(ContextToJson(ctx.value))) else None
  }

  function StepFromJson(v: Option<Value>): Result<Option<Step>> {
    if v.None? then Ok(None)
    else
      var d :- ObjectOf(v.value);
      var kind :- Need(d, "kind");
      var ctx :- MaybeContext(GetTrue(d, "ctx"));
      if kind == Str("call") then
        var raw :- Need(d, "tool");
        var tool :- ToolFromJson(raw);
        Ok(Some(CallStep(tool, ctx, Get(d, "frozenHash"))))
      else if kind == Str("think") then
        var reasoner :- Need(d, "reasoner");
        Ok(Some(ThinkStep(reasoner, ctx)))
      else if kind == Str("sub") then
        var ref :- Need(d, "ref");
        var raw :- Need(d, "contract");
        var contract :- ContractFromJson(raw);
        Ok(Some(SubStep(ref, contract)))
      else Err
  }

  datatype Merge = Merge(kind: Value, hedgeMs: Option<Json>, quorumM: Option<Json>, reducer: Option<Json>)

  function MergeToJson(m: Merge): Object {
    map["kind" := m.kind] + Opt("hedgeMs", m.hedgeMs) + Opt("quorumM", m.quorumM) + Opt("reducer", m.reducer)
  }

  function MergeFromJson(v: Option<Value>): Result<Option<Merge>> {
    if v.None? then Ok(None)
    else
      var d :- ObjectOf(v.value);
      var kind := if "kind" in d then d["kind"] else Str("all");
      Ok(Some(Merge(kind, Get(d, "hedgeMs"), Get(d, "quorumM"), Get(d, "reducer"))))
  }

  datatype Channel = Channel(name: Value, payload: Option<Json>)

  function ChannelToJson(c: Channel): Value {
    Rec(map["name" := c.name] + Opt("payload", c.payload))
  }

  function ChannelFromJson(v: Value): Result<Channel> {
    var d :- ObjectOf(v);
    var name :- Need(d, "name");
    Ok(Channel(name, Get(d, "payload")))
  }

  function ChannelsToJson(cs: seq<Channel>): seq<Value> {
    if cs == [] then [] else ChannelsToJson(cs[..|cs| - 1]) + [ChannelToJson(cs[|cs| - 1])]
  }

  function ChannelsFromJson(vs: seq<Value>): Result<seq<Channel>> {
    if vs == [] then Ok([])
    else
      var before :- ChannelsFromJson(vs[..|vs| - 1]);
      var last :- ChannelFromJson(vs[|vs| - 1]);
      Ok(before + [last])
  }

  function MaybeChannels(v: Option<Value>): Result<Option<seq<Channel>>> {
    if v.None? then Ok(None)
    else if !v.value.List? then Err
    else
      var cs :- ChannelsFromJson(v.value.items);
      Ok(Some(cs))
  }

  /** A budget is authored as a dictionary or an object, and read as an object. */
  datatype Budget =
    | BudgetRecord(d: Object)
    | Budget(cost: Option<Json>, tokens: Option<Json>, wallSeconds: Option<Json>)

  function BudgetOf(d: Object): Budget {
    Budget(GetEither(d, "cost", "usd"), Get(d, "tokens"), GetEither(d, "wallSeconds", "wall_seconds"))
  }

  function BudgetToJson(b: Budget): Object {
    var plain := if b.BudgetRecord? then BudgetOf(b.d) else b;
    Opt("cost", plain.cost) + Opt("tokens", plain.tokens) + Opt("wallSeconds", plain.wallSeconds)
  }

  // ----- each part reads back -----

  lemma ContextReadsBack(c: Context)
    ensures ContextFromJson(Rec(ContextToJson(c))) == Ok(c)
  {
  }

  lemma CacheReadsBack(c: CacheHint)
    ensures CacheFromJson(Some(Rec(CacheToJson(c)))) == Ok(Some(c))
    ensures CacheToJson(c) == map[] <==> c == CacheHint(None, None)
  {
  }

  /** An empty cache hint is written, and read as none. */
  function ErasedAnn(a: Ann): Ann {
    if a.cache == Some(CacheHint(None, None)) then a.(cache := None) else a
  }

  lemma AnnOfReads(a: Ann, r: Reader)
    requires Reads(r, f => AnnWire(a, f))
    ensures AnnOf(r) == Ok(ErasedAnn(a))
  {
    hide NonNull, CacheToJson, Record, AnnWith;
    if a.cache.Some? {
      CacheReadsBack(a.cache.value);
    }
    EffectsAreSpelledOut(a);
    AnnScalarsRead(a, r);
  }

  lemma EffectsAreSpelledOut(a: Ann)
    ensures WhenTrue(AnnWire(a, FEffect)) == AnnWire(a, FEffect)
  {
  }

  lemma AnnScalarsRead(a: Ann, r: Reader)
    requires Reads(r, f => AnnWire(a, f))
    ensures forall cache, effect :: AnnWith(r, cache, effect) == a.(cache := cache, effect := effect)
  {
    var wire := f => AnnWire(a, f);
    FieldReads(r, wire, FCost, a.cost);
    FieldReads(r, wire, FRisk, a.risk);
    FieldReads(r, wire, FTimeout, a.timeout);
    FieldReads(r, wire, FMaxAttempts, a.maxAttempts);
    FieldReads(r, wire, FRetryIntervalS, a.retryInterval);
    FieldReads(r, wire, FBackoffRate, a.backoffRate);
    assert WhenTrue(r(FBatchable)).Some? == a.batchable;
  }

  lemma AnnReadsBack(a: Ann)
    ensures AnnFromJson(Some(Rec(AnnToJson(a)))) == Ok(Some(ErasedAnn(a)))
  {
    RecordReads(f => AnnWire(a, f));
    AnnOfReads(a, ReaderOf(AnnToJson(a)));
  }

  lemma ToolReadsBack(t: ToolRef)
    ensures ToolFromJson(Rec(ToolToJson(t))) == Ok(t)
  {
  }

  lemma ContractReadsBack(c: SubContract)
    ensures ContractFromJson(Rec(ContractToJson(c))) == Ok(c)
  {
  }

  lemma ContextFieldReadsBack(ctx: Option<Context>)
    ensures MaybeContext(WhenTrue(ContextJson(ctx))) == Ok(ctx)
  {
    if ctx.Some? {
      ContextReadsBack(ctx.value);
      assert "scope" in ContextToJson(ctx.value);
    }
  }

  lemma CallReadsBack(s: Step)
    requires s.CallStep?
    ensures StepFromJson(Some(Rec(StepToJson(s)))) == Ok(Some(s))
  {
    var d := StepToJson(s);
    ToolReadsBack(s.tool);
    ContextFieldReadsBack(s.callCtx);
    assert GetTrue(d, "ctx") == WhenTrue(ContextJson(s.callCtx));
    assert d["kind"] == Str("call") && d["tool"] == Rec(ToolToJson(s.tool));
    assert Get(d, "frozenHash") == s.frozenHash;
  }

  lemma ThinkReadsBack(s: Step)
    requires s.ThinkStep?
    ensures StepFromJson(Some(Rec(StepToJson(s)))) == Ok(Some(s))
  {
    var d := StepToJson(s);
    ContextFieldReadsBack(s.thinkCtx);
    assert GetTrue(d, "ctx") == WhenTrue(ContextJson(s.thinkCtx));
    assert d["kind"] == Str("think") && d["reasoner"] == s.reasoner;
  }

  lemma SubReadsBack(s: Step)
    requires s.SubStep?
    ensures StepFromJson(Some(Rec(StepToJson(s)))) == Ok(Some(s))
  {
    ContractReadsBack(s.contract);
  }

  lemma StepReadsBack(s: Step)
    ensures StepFromJson(Some(Rec(StepToJson(s)))) == Ok(Some(s))
  {
    match s {
      case CallStep(_, _, _) => CallReadsBack(s);
      case ThinkStep(_, _) => ThinkReadsBack(s);
      case SubStep(_, _) => SubReadsBack(s);
    }
  }

  lemma MergeReadsBack(m: Merge)
    ensures MergeFromJson(Some(Rec(MergeToJson(m)))) == Ok(Some(m))
  {
  }

  lemma {:induction false} ChannelsReadBack(cs: seq<Channel>)
    ensures ChannelsFromJson(ChannelsToJson(cs)) == Ok(cs)
    ensures |ChannelsToJson(cs)| == |cs|
  {
    if cs != [] {
      ChannelsReadBack(cs[..|cs| - 1]);
      var vs := ChannelsToJson(cs);
      assert vs[..|vs| - 1] == ChannelsToJson(cs[..|cs| - 1]);
      assert cs == cs[..|cs| - 1] + [cs[|cs| - 1]];
    }
  }

  lemma BudgetReadsBack(b: Budget)
    ensures var plain := if b.BudgetRecord? then BudgetOf(b.d) else b;
            BudgetOf(BudgetToJson(b)) == plain && BudgetToJson(plain) == BudgetToJson(b)
  {
  }

  // ----- nodes -----

  datatype Kids = Kids(
    left: Option<Node>, right: Option<Node>, default: Option<Node>, body: Option<Node>, plan: Option<Node>,
    cases: Option<Cases>)

  datatype Cases = Cases(arms: map<string, Node>)

  datatype Plain = Plain(
    select: Option<Json>, bound: Option<Json>, controller: Option<Json>, pure: Option<Json>, args: Option<Json>,
    prompt: Option<Json>)

  datatype LoopPart = LoopPart(stateSchema: Option<Json>, channels: Option<seq<Channel>>)

  datatype AppPart = AppPart(
    tools: Option<Json>, toolAliases: Option<Json>, toolDefs: Option<Json>, toolContracts: Option<Json>,
    subflows: Option<Json>, subflowQueues: Option<Json>, budget: Option<Budget>, maxRounds: Option<Json>,
    ctx: Option<Context>, summarizer: Option<Json>, roundNote: Option<Json>, nativeTools: Option<Json>,
    requireToolCall: Option<Json>, outputSchema: Option<Json>, outputRetries: Option<Json>)

  datatype Node = Node(
    op: Op, id: Value, ann: Option<Ann>, step: Option<Step>, merge: Option<Merge>, kids: Kids, plain: Plain,
    loop: LoopPart, app: AppPart)

  /** A call of a reserved channel tool, whose prompt names the channel. */
  predicate OnChannel(n: Node) {
    n.op == "prim" && n.step.Some? && n.step.value.CallStep? && n.step.value.tool.NativeTool?
    && (n.step.value.tool.name == RECV || n.step.value.tool.name == EMIT)
  }

  predicate TakesArgs(n: Node) {
    n.op == "arr" || n.op == "loop" || (OnChannel(n) && n.step.value.tool.name == EMIT)
  }

  function NodeToJson(n: Node): Value
    decreases n, 2
  {
    Rec(Record(f => NodeWire(n, f)))
  }

  /** What a node writes under each key, if anything. */
  function NodeWire(n: Node, f: Field): Option<Value>
    decreases n, 1
  {
    match f
    case FOp => Some(Str(n.op))
    case FId => Some(n.id)
    case FAnn => if n.ann.Some? && AnnToJson(n.ann.value) != map[] then Some(Rec(AnnToJson(n.ann.value))) else None
    case FStep => if n.step.Some? then Some(Rec(StepToJson(n.step.value))) else None
    case FMerge => if n.merge.Some? then Some(Rec(MergeToJson(n.merge.value))) else None
    case FLeft => ChildWire(n.kids.left)
    case FRight => ChildWire(n.kids.right)
    case FDefault => ChildWire(n.kids.default)
    case FBody => ChildWire(n.kids.body)
    case FPlan => ChildWire(n.kids.plan)
    case FCases => ArmsWire(n.kids.cases)
    case _ => OwnWire(n, f)
  }

  function ChildWire(child: Option<Node>): Option<Value>
    decreases child, 3
  {
    if child.Some? then Some(NodeToJson(child.value)) else None
  }

  function ArmsWire(cases: Option<Cases>): Option<Value>
    decreases cases, 4
  {
    if cases.Some? then Some(Rec(CasesToJson(cases.value))) else None
  }

  function CasesToJson(cases: Cases): Object
    decreases cases, 3
  {
    map k | k in cases.arms :: NodeToJson(cases.arms[k])
  }

  function OwnWire(n: Node, f: Field): Option<Value> {
    match f
    case FSelect => n.plain.select
    case FBound => n.plain.bound
    case FController => n.plain.controller
    case FPure => n.plain.pure
    case FArgs => if TakesArgs(n) then n.plain.args else None
    case FChannel => if OnChannel(n) then n.plain.prompt else None
    case _ => if n.op == "loop" then LoopWire(n.loop, f) else if n.op == "app" then AppWire(n.app, f) else None
  }

  function LoopWire(l: LoopPart, f: Field): Option<Value> {
    match f
    case FStateSchema => l.stateSchema
    case FChannels => if l.channels.Some? then Some(List(ChannelsToJson(l.channels.value))) else None
    case _ => None
  }

  function AppWire(a: AppPart, f: Field): Option<Value> {
    match f
    case FTools => a.tools
    case FToolAliases => a.toolAliases
    case FToolDefs => a.toolDefs
    case FToolContracts => a.toolContracts
    case FSubflows => a.subflows
    case FSubflowQueues => WhenTrue(a.subflowQueues)
    case FBudget => if a.budget.Some? then Some(Rec(BudgetToJson(a.budget.value))) else None
    case FMaxRounds => a.maxRounds
    case FCtx => ContextJson(a.ctx)
    case FSummarizer => a.summarizer
    case FRoundNote => a.roundNote
    case FNativeTools => Flag(a.nativeTools)
    case FRequireToolCall => Flag(a.requireToolCall)
    case FReplySchema => a.outputSchema
    case FOutputRetries => a.outputRetries
    case _ => None
  }

  function Flag(v: Option<Json>): Option<Json> {
    if WhenTrue(v).Some? then Some(Bool(true)) else None
  }

  // ----- reading nodes -----

  /** Keys once spelled otherwise. */
  function Former(f: Field): string {
    match f
    case FToolAliases => "tool_aliases"
    case FToolDefs => "tool_defs"
    case FToolContracts => "tool_contracts"
    case FMaxRounds => "max_rounds"
    case FRoundNote => "round_note"
    case FNativeTools => "native_tools"
    case FRequireToolCall => "require_tool_call"
    case FReplySchema => "reply_schema"
    case FOutputRetries => "output_retries"
    case other => ""
  }

  function FormerReader(d: Object): Reader {
    f => if Former(f) != "" && Former(f) in d then Some(d[Former(f)]) else None
  }

  function Either(r: Reader, former: Reader, f: Field): Option<Json> {
    if r(f).Some? then NonNull(r(f)) else NonNull(former(f))
  }

  function NodeFromJson(v: Value): Result<Node>
    decreases v, 4
  {
    var d :- ObjectOf(v);
    var r, former := ReaderOf(d), FormerReader(d);
    var kids :- KidsFromJson(d);
    NodeOf(r, former, kids)
  }

  function NodeOf(r: Reader, former: Reader, kids: Kids): Result<Node> {
    var op :- Enum(if r(FOp).Some? then r(FOp).value else Null, IsOp);
    var ann :- AnnFromJson(WhenTrue(r(FAnn)));
    var step :- StepFromJson(WhenTrue(r(FStep)));
    var merge :- MergeFromJson(WhenTrue(r(FMerge)));
    var loop :- LoopOf(r);
    var app :- AppOf(r, former);
    if r(FId).None? then Err else Ok(Node(op, r(FId).value, ann, step, merge, kids, PlainOf(r), loop, app))
  }

  function PlainOf(r: Reader): Plain {
    Plain(NonNull(r(FSelect)), NonNull(r(FBound)), NonNull(r(FController)), NonNull(r(FPure)), NonNull(r(FArgs)),
          NonNull(r(FChannel)))
  }

  function LoopOf(r: Reader): Result<LoopPart> {
    var channels :- MaybeChannels(WhenTrue(r(FChannels)));
    Ok(LoopPart(NonNull(r(FStateSchema)), channels))
  }

  function BudgetFromJson(v: Option<Value>): Result<Option<Budget>> {
    if v.None? then Ok(None)
    else
      var d :- ObjectOf(v.value);
      Ok(Some(BudgetOf(d)))
  }

  function AppOf(r: Reader, former: Reader): Result<AppPart> {
    var budget :- BudgetFromJson(r(FBudget));
    var ctx :- MaybeContext(WhenTrue(r(FCtx)));
    Ok(AppWith(r, former, budget, ctx))
  }

  function AppWith(r: Reader, former: Reader, budget: Option<Budget>, ctx: Option<Context>): AppPart {
    AppPart(
      NonNull(r(FTools)), Either(r, former, FToolAliases), Either(r, former, FToolDefs),
      Either(r, former, FToolContracts),
      NonNull(r(FSubflows)), NonNull(r(FSubflowQueues)), budget, Either(r, former, FMaxRounds), ctx,
      NonNull(r(FSummarizer)), Either(r, former, FRoundNote), Either(r, former, FNativeTools),
      Either(r, former, FRequireToolCall), Either(r, former, FReplySchema), Either(r, former, FOutputRetries))
  }

  function KidsFromJson(d: Object): Result<Kids>
    decreases Rec(d), 3
  {
    var left :- MaybeNode(d, FLeft);
    var right :- MaybeNode(d, FRight);
    var default :- MaybeNode(d, FDefault);
    var body :- MaybeNode(d, FBody);
    var plan :- MaybeNode(d, FPlan);
    var cases :- MaybeCases(d);
    Ok(Kids(left, right, default, body, plan, cases))
  }

  function MaybeNode(d: Object, f: Field): Result<Option<Node>>
    decreases Rec(d), 2
  {
    var v := GetTrue(d, Name(f));
    if v.None? then Ok(None)
    else
      var n :- NodeFromJson(v.value);
      Ok(Some(n))
  }

  function MaybeCases(d: Object): Result<Option<Cases>>
    decreases Rec(d), 2
  {
    if Name(FCases) !in d then Ok(None)
    else
      var m := d[Name(FCases)];
      if !m.Rec? || exists k :: k in m.fields && NodeFromJson(m.fields[k]).Err? then Err
      else Ok(Some(Cases(map k | k in m.fields :: NodeFromJson(m.fields[k]).value)))
  }

  // ----- what survives -----

  /** What reading finds of a node: the fields its operator writes, and no empty annotation, hint or channel list. */
  function Erased(n: Node): Node
    decreases n, 1
  {
    n.(ann := ErasedAnnotation(n.ann),
       kids := ErasedKids(n.kids),
       plain := n.plain.(args := if TakesArgs(n) then n.plain.args else None,
                         prompt := if OnChannel(n) then n.plain.prompt else None),
       loop := if n.op == "loop" then ErasedLoop(n.loop) else LoopPart(None, None),
       app := if n.op == "app" then ErasedApp(n.app) else NO_APP)
  }

  function ErasedAnnotation(a: Option<Ann>): Option<Ann> {
    if a.Some? && AnnToJson(a.value) != map[] then Some(ErasedAnn(a.value)) else None
  }

  function ErasedNode(n: Option<Node>): Option<Node>
    decreases n, 0
  {
    if n.Some? then Some(Erased(n.value)) else None
  }

  function ErasedKids(k: Kids): Kids
    decreases k, 0
  {
    Kids(ErasedNode(k.left), ErasedNode(k.right), ErasedNode(k.default), ErasedNode(k.body), ErasedNode(k.plan),
         ErasedMaybeCases(k.cases))
  }

  function ErasedMaybeCases(cases: Option<Cases>): Option<Cases>
    decreases cases, 3
  {
    if cases.Some? then Some(ErasedCases(cases.value)) else None
  }

  function ErasedCases(cases: Cases): Cases
    decreases cases, 2
  {
    Cases(map k | k in cases.arms :: Erased(cases.arms[k]))
  }

  function ErasedLoop(l: LoopPart): LoopPart {
    if l.channels == Some([]) then l.(channels := None) else l
  }

  const NO_APP := AppPart(None, None, None, None, None, None, None, None, None, None, None, None, None, None, None)

  function ErasedApp(a: AppPart): AppPart {
    a.(subflowQueues := WhenTrue(a.subflowQueues), nativeTools := Flag(a.nativeTools),
       requireToolCall := Flag(a.requireToolCall),
       budget := if a.budget.Some? && a.budget.value.BudgetRecord? then Some(BudgetOf(a.budget.value.d)) else a.budget)
  }

  // ----- nodes read back -----

  predicate IsKid(f: Field) {
    f.FLeft? || f.FRight? || f.FDefault? || f.FBody? || f.FPlan? || f.FCases?
  }

  predicate IsAppField(f: Field) {
    f.FTools? || f.FToolAliases? || f.FToolDefs? || f.FToolContracts? || f.FSubflows? || f.FSubflowQueues? || f.FBudget?
    || f.FMaxRounds? || f.FCtx? || f.FSummarizer? || f.FRoundNote? || f.FNativeTools? || f.FRequireToolCall?
    || f.FReplySchema? || f.FOutputRetries?
  }

  ghost predicate ReadsApp(r: Reader, former: Reader, a: AppPart) {
    && (forall f: Field {:trigger r(f)} :: IsAppField(f) ==> r(f) == AppWire(a, f))
    && (forall f: Field {:trigger former(f)} :: former(f) == None)
  }

  lemma AppFieldReads(r: Reader, former: Reader, a: AppPart, f: Field, v: Option<Json>)
    requires ReadsApp(r, former, a) && IsAppField(f) && AppWire(a, f) == v
    ensures NonNull(r(f)) == v && Either(r, former, f) == v
  {
  }

  lemma AppReadsBack(a: AppPart, r: Reader, former: Reader)
    requires ReadsApp(r, former, a)
    ensures AppOf(r, former) == Ok(ErasedApp(a))
  {
    hide BudgetFromJson, MaybeContext, ContextJson, BudgetOf, NonNull, Flag, Either;
    AppToolsRead(a, r, former);
    AppLimitsRead(a, r, former);
    ContextFieldReadsBack(a.ctx);
    assert r(FCtx) == ContextJson(a.ctx);
    BudgetFieldReadsBack(a);
    assert r(FBudget) == AppWire(a, FBudget);
    assert AppWith(r, former, ErasedApp(a).budget, a.ctx) == ErasedApp(a);
  }

  lemma BudgetFieldReadsBack(a: AppPart)
    ensures BudgetFromJson(AppWire(a, FBudget)) == Ok(ErasedApp(a).budget)
  {
    if a.budget.Some? {
      BudgetReadsBack(a.budget.value);
    }
  }

  lemma AppToolsRead(a: AppPart, r: Reader, former: Reader)
    requires ReadsApp(r, former, a)
    ensures NonNull(r(FTools)) == a.tools && Either(r, former, FToolAliases) == a.toolAliases
    ensures Either(r, former, FToolDefs) == a.toolDefs && Either(r, former, FToolContracts) == a.toolContracts
    ensures NonNull(r(FSubflows)) == a.subflows && NonNull(r(FSubflowQueues)) == WhenTrue(a.subflowQueues)
    ensures Either(r, former, FNativeTools) == Flag(a.nativeTools)
    ensures Either(r, former, FRequireToolCall) == Flag(a.requireToolCall)
  {
    AppFieldReads(r, former, a, FTools, a.tools);
    AppFieldReads(r, former, a, FToolAliases, a.toolAliases);
    AppFieldReads(r, former, a, FToolDefs, a.toolDefs);
    AppFieldReads(r, former, a, FToolContracts, a.toolContracts);
    AppFieldReads(r, former, a, FSubflows, a.subflows);
    AppFieldReads(r, former, a, FSubflowQueues, WhenTrue(a.subflowQueues));
    AppFieldReads(r, former, a, FNativeTools, Flag(a.nativeTools));
    AppFieldReads(r, former, a, FRequireToolCall, Flag(a.requireToolCall));
  }

  lemma AppLimitsRead(a: AppPart, r: Reader, former: Reader)
    requires ReadsApp(r, former, a)
    ensures Either(r, former, FMaxRounds) == a.maxRounds && NonNull(r(FSummarizer)) == a.summarizer
    ensures Either(r, former, FRoundNote) == a.roundNote && Either(r, former, FReplySchema) == a.outputSchema
    ensures Either(r, former, FOutputRetries) == a.outputRetries
  {
    AppFieldReads(r, former, a, FMaxRounds, a.maxRounds);
    AppFieldReads(r, former, a, FSummarizer, a.summarizer);
    AppFieldReads(r, former, a, FRoundNote, a.roundNote);
    AppFieldReads(r, former, a, FReplySchema, a.outputSchema);
    AppFieldReads(r, former, a, FOutputRetries, a.outputRetries);
  }

  lemma AppPartReadsBack(n: Node, r: Reader, former: Reader)
    requires Reads(r, f => NodeWire(n, f)) && forall f: Field {:trigger former(f)} :: former(f) == None
    ensures AppOf(r, former) == Ok(Erased(n).app)
  {
    var a := if n.op == "app" then n.app else NO_APP;
    forall f: Field | IsAppField(f) ensures NodeWire(n, f) == AppWire(a, f) {
      AppFieldsAreOwn(n, f);
    }
    AppReadsBack(a, r, former);
  }

  lemma AppFieldsAreOwn(n: Node, f: Field)
    requires IsAppField(f)
    ensures NodeWire(n, f) == AppWire(if n.op == "app" then n.app else NO_APP, f)
  {
    assert NodeWire(n, f) == OwnWire(n, f);
  }

  lemma LoopPartReadsBack(n: Node, r: Reader)
    requires Reads(r, f => NodeWire(n, f))
    ensures LoopOf(r) == Ok(Erased(n).loop)
  {
    var l := if n.op == "loop" then n.loop else LoopPart(None, None);
    LoopFieldsAreOwn(n, FStateSchema);
    LoopFieldsAreOwn(n, FChannels);
    FieldReads(r, f => NodeWire(n, f), FStateSchema, l.stateSchema);
    ChannelsFieldReadsBack(l);
    assert r(FChannels) == LoopWire(l, FChannels);
  }

  lemma LoopFieldsAreOwn(n: Node, f: Field)
    requires f.FStateSchema? || f.FChannels?
    ensures NodeWire(n, f) == LoopWire(if n.op == "loop" then n.loop else LoopPart(None, None), f)
  {
    assert NodeWire(n, f) == OwnWire(n, f);
  }

  lemma ChannelsFieldReadsBack(l: LoopPart)
    ensures MaybeChannels(WhenTrue(LoopWire(l, FChannels))) == Ok(ErasedLoop(l).channels)
  {
    if l.channels.Some? {
      ChannelsReadBack(l.channels.value);
    }
  }

  lemma PlainFieldsRead(n: Node, r: Reader)
    requires Reads(r, f => NodeWire(n, f))
    ensures NonNull(r(FSelect)) == n.plain.select && NonNull(r(FBound)) == n.plain.bound
    ensures NonNull(r(FController)) == n.plain.controller && NonNull(r(FPure)) == n.plain.pure
  {
    hide NonNull, AnnToJson, StepToJson, MergeToJson, Reads;
    OwnFieldReads(n, r, FSelect, n.plain.select);
    OwnFieldReads(n, r, FBound, n.plain.bound);
    OwnFieldReads(n, r, FController, n.plain.controller);
    OwnFieldReads(n, r, FPure, n.plain.pure);
  }

  lemma ConditionalFieldsRead(n: Node, r: Reader)
    requires Reads(r, f => NodeWire(n, f))
    ensures NonNull(r(FArgs)) == if TakesArgs(n) then n.plain.args else None
    ensures NonNull(r(FChannel)) == if OnChannel(n) then n.plain.prompt else None
  {
    hide NonNull, AnnToJson, StepToJson, MergeToJson, Reads;
    OwnFieldReads(n, r, FArgs, if TakesArgs(n) then n.plain.args else None);
    OwnFieldReads(n, r, FChannel, if OnChannel(n) then n.plain.prompt else None);
  }

  lemma PlainReadsBack(n: Node, r: Reader)
    requires Reads(r, f => NodeWire(n, f))
    ensures PlainOf(r) == Erased(n).plain
  {
    hide NonNull, Reads, NodeWire, TakesArgs, OnChannel, ErasedKids, ErasedAnnotation, ErasedApp;
    PlainFieldsRead(n, r);
    ConditionalFieldsRead(n, r);
  }

  lemma OwnFieldReads(n: Node, r: Reader, f: Field, v: Option<Json>)
    requires Reads(r, f => NodeWire(n, f)) && NodeWire(n, f) == OwnWire(n, f) == v
    ensures NonNull(r(f)) == v
  {
  }

  lemma AnnFieldReadsBack(n: Node)
    ensures AnnFromJson(WhenTrue(NodeWire(n, FAnn))) == Ok(Erased(n).ann)
  {
    hide Record, ErasedKids, ErasedApp, StepToJson, MergeToJson, AnnToJson, OwnWire;
    if n.ann.Some? {
      AnnReadsBack(n.ann.value);
    }
  }

  lemma StepFieldReadsBack(n: Node)
    ensures StepFromJson(WhenTrue(NodeWire(n, FStep))) == Ok(n.step)
  {
    if n.step.Some? {
      StepReadsBack(n.step.value);
      assert "kind" in StepToJson(n.step.value);
    }
  }

  lemma MergeFieldReadsBack(n: Node)
    ensures MergeFromJson(WhenTrue(NodeWire(n, FMerge))) == Ok(n.merge)
  {
    if n.merge.Some? {
      MergeReadsBack(n.merge.value);
      assert "kind" in MergeToJson(n.merge.value);
    }
  }

  lemma OwnPartsReadBack(n: Node, r: Reader, former: Reader, kids: Kids)
    requires Reads(r, f => NodeWire(n, f)) && forall f: Field {:trigger former(f)} :: former(f) == None
    ensures NodeOf(r, former, kids) == Ok(Erased(n).(kids := kids))
  {
    AnnFieldReadsBack(n);
    StepFieldReadsBack(n);
    MergeFieldReadsBack(n);
    assert r(FAnn) == NodeWire(n, FAnn) && r(FStep) == NodeWire(n, FStep) && r(FMerge) == NodeWire(n, FMerge);
    LoopPartReadsBack(n, r);
    AppPartReadsBack(n, r, former);
    PlainReadsBack(n, r);
    assert r(FOp) == Some(Str(n.op)) && r(FId) == Some(n.id);
  }

  lemma FormerIsNoName(f: Field)
    ensures Former(f) != "" ==> Named(Former(f)) == None
  {
  }

  lemma NothingUnderFormerNames(wire: Reader)
    ensures forall f: Field {:trigger FormerReader(Record(wire))(f)} :: FormerReader(Record(wire))(f) == None
  {
    forall f: Field ensures FormerReader(Record(wire))(f) == None {
      FormerIsNoName(f);
    }
  }

  /** A key of the dictionary as the node writes it. */
  ghost predicate Shows(d: Object, f: Field, v: Option<Value>) {
    (if Name(f) in d then Some(d[Name(f)]) else None) == v
  }

  ghost predicate SurvivesWire(child: Option<Node>) {
    child.Some? ==> NodeFromJson(NodeToJson(child.value)) == Ok(Erased(child.value))
  }

  ghost predicate ArmsSurviveWire(cases: Option<Cases>) {
    cases.Some? ==> forall k :: k in cases.value.arms ==> SurvivesWire(Some(cases.value.arms[k]))
  }

  ghost predicate KidsSurviveWire(k: Kids) {
    && SurvivesWire(k.left) && SurvivesWire(k.right) && SurvivesWire(k.default) && SurvivesWire(k.body)
    && SurvivesWire(k.plan) && ArmsSurviveWire(k.cases)
  }

  lemma ChildReadsBack(d: Object, f: Field, child: Option<Node>)
    requires Shows(d, f, ChildWire(child)) && SurvivesWire(child)
    ensures MaybeNode(d, f) == Ok(ErasedNode(child))
  {
    if child.Some? {
      RecordHolds(g => NodeWire(child.value, g), FOp);
      assert Truthy(NodeToJson(child.value));
    }
  }

  lemma CasesForm(d: Object, m: Object, arms: map<string, Node>)
    requires Shows(d, FCases, Some(Rec(m))) && m.Keys == arms.Keys
    requires forall k :: k in m ==> NodeFromJson(m[k]) == Ok(arms[k])
    ensures MaybeCases(d) == Ok(Some(Cases(arms)))
  {
    assert (map k | k in m :: NodeFromJson(m[k]).value) == arms;
  }

  lemma CasesReadBack(d: Object, cases: Option<Cases>)
    requires Shows(d, FCases, ArmsWire(cases)) && ArmsSurviveWire(cases)
    ensures MaybeCases(d) == Ok(ErasedMaybeCases(cases))
  {
    if cases.Some? {
      var m, arms := CasesToJson(cases.value), cases.value.arms;
      var erased := ErasedCases(cases.value).arms;
      assert m.Keys == arms.Keys == erased.Keys;
      forall k | k in m ensures NodeFromJson(m[k]) == Ok(erased[k]) {
        assert SurvivesWire(Some(arms[k]));
      }
      CasesForm(d, m, erased);
    }
  }

  lemma {:induction false} ChildSurvivesWire(child: Option<Node>)
    ensures SurvivesWire(child)
    decreases child, 1
  {
    if child.Some? {
      NodeReadsBack(child.value);
    }
  }

  lemma {:induction false} KidsReadBack(k: Kids)
    ensures KidsSurviveWire(k)
    decreases k, 2
  {
    ChildSurvivesWire(k.left);
    ChildSurvivesWire(k.right);
    ChildSurvivesWire(k.default);
    ChildSurvivesWire(k.body);
    ChildSurvivesWire(k.plan);
    if k.cases.Some? {
      ArmsReadBack(k.cases.value);
    }
  }

  lemma {:induction false} ArmsReadBack(cases: Cases)
    ensures ArmsSurviveWire(Some(cases))
    decreases cases, 2
  {
    forall k | k in cases.arms ensures SurvivesWire(Some(cases.arms[k])) {
      NodeReadsBack(cases.arms[k]);
    }
  }

  /** Reading what any node wrote succeeds, and gives the node with what it does not write erased. */
  lemma {:induction false} NodeReadsBack(n: Node)
    ensures NodeFromJson(NodeToJson(n)) == Ok(Erased(n))
    decreases n, 3
  {
    var wire := f => NodeWire(n, f);
    var d := Record(wire);
    RecordReads(wire);
    NothingUnderFormerNames(wire);
    KidsReadBack(n.kids);
    KidsOfRecord(n, d);
    OwnPartsReadBack(n, ReaderOf(d), FormerReader(d), ErasedKids(n.kids));
  }

  lemma KidsOfRecord(n: Node, d: Object)
    requires Reads(ReaderOf(d), f => NodeWire(n, f)) && KidsSurviveWire(n.kids)
    ensures KidsFromJson(d) == Ok(ErasedKids(n.kids))
  {
    forall f: Field | IsKid(f) && !f.FCases? ensures MaybeNode(d, f) == Ok(KidAt(ErasedKids(n.kids), f)) {
      KidOfRecord(n, d, f);
    }
    CasesOfRecord(n, d);
    ErasedKidsForm(n.kids);
    KidsForm(d, ErasedKids(n.kids));
  }

  lemma ErasedKidsForm(k: Kids)
    ensures ErasedKids(k) == Kids(ErasedNode(k.left), ErasedNode(k.right), ErasedNode(k.default), ErasedNode(k.body),
                                  ErasedNode(k.plan), ErasedMaybeCases(k.cases))
  {
  }

  lemma KidsForm(d: Object, k: Kids)
    requires forall f: Field {:trigger MaybeNode(d, f)} :: IsKid(f) && !f.FCases? ==> MaybeNode(d, f) == Ok(KidAt(k, f))
    requires MaybeCases(d) == Ok(k.cases)
    ensures KidsFromJson(d) == Ok(k)
  {
  }

  lemma KidOfRecord(n: Node, d: Object, f: Field)
    requires Reads(ReaderOf(d), f => NodeWire(n, f)) && KidsSurviveWire(n.kids)
    requires IsKid(f) && !f.FCases?
    ensures MaybeNode(d, f) == Ok(KidAt(ErasedKids(n.kids), f))
  {
    KeyShows(n, d, f);
    KidWire(n, f);
    ChildReadsBack(d, f, KidAt(n.kids, f));
    ErasedKidsForm(n.kids);
  }

  lemma CasesOfRecord(n: Node, d: Object)
    requires Reads(ReaderOf(d), f => NodeWire(n, f)) && ArmsSurviveWire(n.kids.cases)
    ensures MaybeCases(d) == Ok(ErasedMaybeCases(n.kids.cases))
  {
    KeyShows(n, d, FCases);
    CasesReadBack(d, n.kids.cases);
  }

  function KidAt(k: Kids, f: Field): Option<Node> {
    match f
    case FLeft => k.left
    case FRight => k.right
    case FDefault => k.default
    case FBody => k.body
    case FPlan => k.plan
    case _ => None
  }

  lemma KidWire(n: Node, f: Field)
    requires IsKid(f) && !f.FCases?
    ensures NodeWire(n, f) == ChildWire(KidAt(n.kids, f))
  {
  }

  lemma KeyShows(n: Node, d: Object, f: Field)
    requires Reads(ReaderOf(d), f => NodeWire(n, f))
    ensures Shows(d, f, NodeWire(n, f))
  {
    assert ReaderOf(d)(f) == NodeWire(n, f);
  }

  // ----- when nothing written is lost -----

  /** No empty cache hint anywhere, and no loop with an empty channel list. */
  predicate Faithful(n: Node)
    decreases n, 1
  {
    && (n.ann.Some? ==> n.ann.value.cache != Some(CacheHint(None, None)))
    && (n.op == "loop" ==> n.loop.channels != Some([]))
    && FaithfulKids(n.kids)
  }

  predicate FaithfulKids(k: Kids)
    decreases k, 0
  {
    && (k.left.Some? ==> Faithful(k.left.value)) && (k.right.Some? ==> Faithful(k.right.value))
    && (k.default.Some? ==> Faithful(k.default.value)) && (k.body.Some? ==> Faithful(k.body.value))
    && (k.plan.Some? ==> Faithful(k.plan.value))
    && (k.cases.Some? ==> FaithfulCases(k.cases.value))
  }

  predicate FaithfulCases(cases: Cases)
    decreases cases, 2
  {
    forall k :: k in cases.arms ==> Faithful(cases.arms[k])
  }

  lemma RecordsAgree(a: Reader, b: Reader)
    requires forall f: Field :: a(f) == b(f)
    ensures Record(a) == Record(b)
  {
  }

  lemma RecordsDiffer(a: Reader, b: Reader, f: Field)
    requires a(f) != b(f)
    ensures Record(a) != Record(b)
  {
    RecordHolds(a, f);
    RecordHolds(b, f);
  }

  ghost predicate KeepsField(n: Node, f: Field) {
    NodeWire(Erased(n), f) == NodeWire(n, f)
  }

  /** Only an annotation, a channel list or a nested node can come out differently. */
  lemma OtherFieldsSurvive(n: Node, f: Field)
    requires !IsKid(f) && !f.FAnn? && !f.FChannels?
    ensures KeepsField(n, f)
  {
    hide Record, AnnToJson, StepToJson, MergeToJson;
    if IsAppField(f) {
      AppFieldsAreOwn(n, f);
      AppFieldsAreOwn(Erased(n), f);
      AppFieldSurvives(n.app, f);
    }
  }

  lemma AppFieldSurvives(a: AppPart, f: Field)
    ensures AppWire(ErasedApp(a), f) == AppWire(a, f)
  {
    if f.FBudget? && a.budget.Some? {
      BudgetReadsBack(a.budget.value);
    }
  }

  lemma AnnSurvives(n: Node)
    ensures KeepsField(n, FAnn) <==> (n.ann.Some? ==> n.ann.value.cache != Some(CacheHint(None, None)))
  {
    if n.ann.Some? && n.ann.value.cache == Some(CacheHint(None, None)) {
      var a := n.ann.value;
      RecordHolds(f => AnnWire(a, f), FCache);
      RecordHolds(f => AnnWire(ErasedAnn(a), f), FCache);
      assert AnnToJson(a) != map[] && AnnToJson(a) != AnnToJson(ErasedAnn(a));
    }
  }

  lemma ChannelsSurvive(n: Node)
    ensures KeepsField(n, FChannels) <==> (n.op == "loop" ==> n.loop.channels != Some([]))
  {
    assert NodeWire(Erased(n), FChannels) == OwnWire(Erased(n), FChannels);
    assert NodeWire(n, FChannels) == OwnWire(n, FChannels);
  }

  ghost predicate SameWire(child: Option<Node>) {
    ChildWire(ErasedNode(child)) == ChildWire(child)
  }

  lemma {:induction false} ChildKeepsWire(child: Option<Node>)
    ensures SameWire(child) <==> FaithfulKid(child)
    decreases child, 0
  {
    if child.Some? {
      WireIsLossless(child.value);
    }
  }

  lemma {:induction false} ArmsKeepWire(cases: Cases)
    ensures CasesToJson(ErasedCases(cases)) == CasesToJson(cases) <==> FaithfulCases(cases)
    decreases cases, 2
  {
    var was, now := CasesToJson(cases), CasesToJson(ErasedCases(cases));
    assert was.Keys == cases.arms.Keys && now.Keys == cases.arms.Keys;
    forall k | k in cases.arms ensures now[k] == was[k] <==> Faithful(cases.arms[k]) {
      WireIsLossless(cases.arms[k]);
    }
    if FaithfulCases(cases) {
      assert now == was;
    } else {
      var k :| k in cases.arms && !Faithful(cases.arms[k]);
      assert now[k] != was[k];
    }
  }

  lemma {:induction false} KidKeepsWire(n: Node, f: Field)
    requires IsKid(f) && !f.FCases?
    ensures KeepsField(n, f) <==> (KidAt(n.kids, f).Some? ==> Faithful(KidAt(n.kids, f).value))
    decreases n, 0, 0
  {
    KidWire(n, f);
    KidWire(Erased(n), f);
    assert KidAt(Erased(n).kids, f) == ErasedNode(KidAt(n.kids, f)) by {
      ErasedKidsForm(n.kids);
    }
    ChildKeepsWire(KidAt(n.kids, f));
  }

  lemma CasesWire(n: Node)
    ensures NodeWire(n, FCases) == ArmsWire(n.kids.cases)
    ensures NodeWire(Erased(n), FCases) == ArmsWire(ErasedMaybeCases(n.kids.cases))
  {
    ErasedKidsForm(n.kids);
  }

  lemma {:induction false} CasesKeepWire(n: Node)
    ensures KeepsField(n, FCases) <==> (n.kids.cases.Some? ==> FaithfulCases(n.kids.cases.value))
    decreases n, 0, 0
  {
    CasesWire(n);
    if n.kids.cases.Some? {
      ArmsKeepWire(n.kids.cases.value);
    }
  }

  predicate FaithfulKid(child: Option<Node>) {
    child.Some? ==> Faithful(child.value)
  }

  lemma FaithfulKidsForm(k: Kids)
    ensures FaithfulKids(k) <==>
            && FaithfulKid(k.left) && FaithfulKid(k.right) && FaithfulKid(k.default) && FaithfulKid(k.body)
            && FaithfulKid(k.plan) && (k.cases.Some? ==> FaithfulCases(k.cases.value))
  {
  }

  lemma {:induction false} KidsKeepWire(n: Node)
    ensures FaithfulKids(n.kids) <==>
            && KeepsField(n, FLeft) && KeepsField(n, FRight) && KeepsField(n, FDefault) && KeepsField(n, FBody)
            && KeepsField(n, FPlan) && KeepsField(n, FCases)
    decreases n, 0, 1
  {
    KidKeepsWire(n, FLeft);
    KidKeepsWire(n, FRight);
    KidKeepsWire(n, FDefault);
    KidKeepsWire(n, FBody);
    KidKeepsWire(n, FPlan);
    CasesKeepWire(n);
    FaithfulKidsForm(n.kids);
  }

  lemma KeptFieldsKeepJson(n: Node)
    requires forall f: Field :: KeepsField(n, f)
    ensures NodeToJson(Erased(n)) == NodeToJson(n)
  {
    var was, now := f => NodeWire(n, f), f => NodeWire(Erased(n), f);
    forall f: Field ensures now(f) == was(f) {
      assert KeepsField(n, f);
    }
    RecordsAgree(now, was);
  }

  lemma LostFieldShows(n: Node, f: Field)
    requires !KeepsField(n, f)
    ensures NodeToJson(Erased(n)) != NodeToJson(n)
  {
    RecordsDiffer(f => NodeWire(Erased(n), f), f => NodeWire(n, f), f);
  }

  /** A node keeps its whole JSON through a round trip exactly if it holds nothing empty that reading drops. */
  lemma {:induction false} WireIsLossless(n: Node)
    ensures NodeToJson(Erased(n)) == NodeToJson(n) <==> Faithful(n)
    decreases n, 1, 0
  {
    KidsKeepWire(n);
    AnnSurvives(n);
    ChannelsSurvive(n);
    if Faithful(n) {
      forall f: Field ensures KeepsField(n, f) {
        if !IsKid(f) && !f.FAnn? && !f.FChannels? {
          OtherFieldsSurvive(n, f);
        }
      }
      KeptFieldsKeepJson(n);
    } else if f: Field :| f in [FAnn, FChannels, FLeft, FRight, FDefault, FBody, FPlan, FCases] && !KeepsField(n, f) {
      LostFieldShows(n, f);
    }
  }

  /** The round trip: writing, reading and writing again gives the same JSON, for exactly the faithful nodes. */
  lemma WireRoundTrip(n: Node)
    ensures NodeFromJson(NodeToJson(n)).Ok?
    ensures NodeToJson(NodeFromJson(NodeToJson(n)).value) == NodeToJson(n) <==> Faithful(n)
  {
    NodeReadsBack(n);
    WireIsLossless(n);
  }
}
