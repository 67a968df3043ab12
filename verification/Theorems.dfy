/**
 The guarantees of the graph compiler, and the inputs on which `compile` falls short of them.
 */
module Theorems {
  import opened Values
  import opened Ir
  import opened Graph
  import opened Reference
  import opened Layering
  import opened Compiler
  import opened ExecFacts
  import opened Leaves
  import opened WellFormedness
  import opened Soundness

  /**
   `compile_env` preserves meaning: on a record of exactly the initial fields the program ends in the
   same value or failure, and the same world, as the steps run one by one in declaration order.
   */
  lemma CompileEnvPreserves(h: Host, g: Graph, initial: set<string>, env: Env, log: Log)
    requires WellFormedArm(g) && Honest(h, g.steps) && CompileEnv(g, initial).Ok?
    requires env.Keys == initial && initial !! Outputs(g.steps) && BRANCH !in initial && SubjectsSurvive(g, initial)
    ensures Exec(h, CompileEnv(g, initial).value, Rec(env), log) == RunGraph(h, g, env, log)
  {
    GraphSound(h, g, initial, env, env, log);
  }

  /** `compile` preserves meaning on a raw input, shortcuts and peephole included. */
  lemma CompilePreserves(h: Host, g: Graph, v: Value, log: Log)
    requires WellFormed(g) && Honest(h, g.steps) && CompileGuard(g) && Compile(g).Ok?
    ensures Exec(h, Compile(g).value, v, log) == RunGraph(h, g, map[g.inputName := v], log)
  {
    CompileSound(h, g, v, map[g.inputName := v], log);
  }

  /** Where both compilers succeed they agree: `compile` on v is `compile_env` on {input: v}. */
  lemma CompileRefinesCompileEnv(h: Host, g: Graph, v: Value, log: Log)
    requires WellFormedArm(g) && Honest(h, g.steps) && CompileGuard(g)
    requires Compile(g).Ok? && CompileEnv(g, {g.inputName}).Ok? && SubjectsSurvive(g, {g.inputName})
    ensures Exec(h, Compile(g).value, v, log)
         == Exec(h, CompileEnv(g, {g.inputName}).value, Rec(map[g.inputName := v]), log)
  {
    CompilePreserves(h, g, v, log);
    CompileEnvPreserves(h, g, {g.inputName}, map[g.inputName := v], log);
  }

  /** A partially applied flow runs its graph with the constants bound and the last parameter given. */
  lemma BoundFlowPreserves(h: Host, g: Graph, remaining: string, bound: Env, v: Value, log: Log)
    requires WellFormedArm(g) && Honest(h, g.steps) && BoundFlow(g, remaining, bound).Ok?
    requires {remaining} + bound.Keys !! Outputs(g.steps) && BRANCH !in {remaining} + bound.Keys
    requires SubjectsSurvive(g, {remaining} + bound.Keys)
    ensures Exec(h, BoundFlow(g, remaining, bound).value, v, log) == RunGraph(h, g, map[remaining := v] + bound, log)
  {
    hide Exec, RunGraph, CompileEnv, SubjectsSurvive, WellFormedArm;
    var initial, env := {remaining} + bound.Keys, map[remaining := v] + bound;
    var pack, program := Arr(StdPack(ItemSelectors(remaining, bound))), CompileEnv(g, initial).value;
    ExecChain(h, [pack, program], v, log);
    assert [pack, program] == [pack] + [program];
    PackRawItem(h, remaining, bound, v, [program], log);
    ExecOne(h, program, Rec(env), log);
    CompileEnvPreserves(h, g, initial, env, log);
  }
}
