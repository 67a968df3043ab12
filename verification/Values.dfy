/** JSON values, the effect log, and the host that interprets tools, reasoners and user pures. */
module Values {

  datatype Option<+T> = None | Some(value: T)

  /** A definition-time result; every error is the one GraphDefinitionError of the source. */
  datatype Result<+T> = Ok(value: T) | Err {
    predicate IsFailure() {
      Err?
    }

    function PropagateFailure<U>(): Result<U>
      requires Err?
    {
      Err
    }

    function Extract(): T
      requires Ok?
    {
      value
    }
  }

  datatype Value =
    | Null
    | Bool(b: bool)
    | Num(n: int)
    | Str(s: string)
    | List(items: seq<Value>)
    | Rec(fields: map<string, Value>)

  type Env = map<string, Value>

  /** One effect on the world: a writing tool was invoked with an argument. */
  datatype Write = Write(tool: string, arg: Value)

  /** The world, represented by the history of effects on it. */
  type Log = seq<Write>

  /** What evaluating something ends in. `Unmodelled` marks operators outside the compiler's target fragment. */
  datatype Outcome = Done(value: Value, log: Log) | Fail(log: Log) | Unmodelled

  /** The ordered results of several evaluations. */
  datatype Batch = Batch(values: seq<Value>, log: Log) | BatchFail(log: Log) | BatchUnmodelled

  /**
   Everything outside the compiler. A tool or reasoner answers as a function of its argument and of
   the effects so far, so a read sees every earlier write and nothing else. `None` is a raised exception.
   `iterate`, `coerce` and `text` are the host language's iteration, dict() and str() conversions
   on values that are not already lists, records or strings.
   */
  datatype Host = Host(
    call: (string, Value, Log) -> Option<Value>,
    think: (string, Value, Log) -> Option<Value>,
    user: (string, Option<Value>, Value) -> Option<Value>,
    writes: string -> bool,
    iterate: Value -> Option<seq<Value>>,
    coerce: Value -> Option<Env>,
    text: Value -> string)

  predicate Truthy(v: Value) {
    match v
    case Null => false
    case Bool(b) => b
    case Num(n) => n != 0
    case Str(s) => s != ""
    case List(items) => items != []
    case Rec(fields) => fields != map[]
  }

  /** Whether a value can be looked up in a dictionary. */
  predicate Hashable(v: Value) {
    !v.List? && !v.Rec?
  }

  function Elements(h: Host, v: Value): Option<seq<Value>> {
    if v.List? then Some(v.items) else h.iterate(v)
  }

  function AsRecord(h: Host, v: Value): Option<Env> {
    if v.Rec? then Some(v.fields) else h.coerce(v)
  }

  function AsText(h: Host, v: Value): string {
    if v.Str? then v.s else h.text(v)
  }

  /** Invoke a tool: a writing tool leaves its mark on the world whether or not it then raises. */
  function Invoke(h: Host, tool: string, arg: Value, log: Log): Outcome {
    var after := if h.writes(tool) then log + [Write(tool, arg)] else log;
    Returned(h.call(tool, arg, log), after)
  }

  function Returned(result: Option<Value>, log: Log): Outcome {
    match result
    case Some(v) => Done(v, log)
    case None => Fail(log)
  }

  function Restrict(env: Env, fields: set<string>): Env {
    map f | f in fields && f in env :: env[f]
  }

  /** Two environments give the same reading of every field in `fields`, present or absent. */
  ghost predicate Agree(e: Env, r: Env, fields: set<string>) {
    forall f :: f in fields ==> (f in e <==> f in r) && (f in e ==> e[f] == r[f])
  }

  /** Bind `names[i]` to `values[i]`, left to right. */
  function Assign(env: Env, names: seq<string>, values: seq<Value>): Env
    requires |names| == |values|
    decreases |names|
  {
    if names == [] then env else Assign(env[names[0] := values[0]], names[1..], values[1..])
  }
}
