/**
 * The Program scope restore (src/parser/converts/root.ts:156-178). Scope
 * analysis runs on the original script Program; afterwards every scope whose
 * block is that original node is registered to the new Svelte Program, and a
 * post-process then puts the global scope's block back to the original node,
 * because reference tracking of import statements only works from the
 * original Program.
 *
 * Registration and post-processing belong to the script-let pipeline, which is
 * not part of this model. Registering a node to a scope is modelled as
 * recording the pair and scheduling a post-process step that re-keys the
 * scope's block to the node; the post-processes run afterwards, in the order
 * they were scheduled.
 */
module Scopes {

  /** The nodes a scope's `block` can point at. */
  datatype BlockRef = OriginalProgram | SvelteProgramNode | InnerNode(id: nat)

  /** An eslint-scope scope, reduced to the node it belongs to. */
  class Scope {
    var block: BlockRef

    constructor (block: BlockRef)
      ensures this.block == block
    {
      this.block := block;
    }
  }

  /** The scope manager's scopes and its global scope. */
  class ScopeManager {
    var scopes: seq<Scope>
    const globalScope: Scope

    constructor (scopes: seq<Scope>, globalScope: Scope)
      ensures this.scopes == scopes && this.globalScope == globalScope
    {
      this.scopes := scopes;
      this.globalScope := globalScope;
    }
  }

  /** A deferred step: set a scope's block. */
  datatype PostProcess = SetBlock(scope: Scope, block: BlockRef)

  /** What the restore callback is given: node-to-scope registration and the post-process list. */
  class RestoreHooks {
    var registered: seq<(BlockRef, Scope)>
    var postProcesses: seq<PostProcess>

    constructor ()
      ensures registered == [] && postProcesses == []
    {
      registered := [];
      postProcesses := [];
    }

    /** registerNodeToScope: records the pair and defers the re-keying of the scope's block. */
    method RegisterNodeToScope(node: BlockRef, scope: Scope)
      modifies this
      ensures registered == old(registered) + [(node, scope)]
      ensures postProcesses == old(postProcesses) + [SetBlock(scope, node)]
    {
      registered := registered + [(node, scope)];
      postProcesses := postProcesses + [SetBlock(scope, node)];
    }

    /** addPostProcess: schedules a step after every step already scheduled. */
    method AddPostProcess(step: PostProcess)
      modifies this
      ensures registered == old(registered)
      ensures postProcesses == old(postProcesses) + [step]
    {
      postProcesses := postProcesses + [step];
    }
  }

  /** The scopes, in order, whose block is `node`. */
  ghost function Matching(scopes: seq<Scope>, node: BlockRef): seq<Scope>
    reads scopes
  {
    if scopes == [] then []
    else Matching(scopes[..|scopes| - 1], node)
         + (if scopes[|scopes| - 1].block == node then [scopes[|scopes| - 1]] else [])
  }

  /** A scope is among the matching ones exactly when it is one of the scopes and its block is `node`. */
  lemma {:induction false} MatchingExactly(scopes: seq<Scope>, node: BlockRef, s: Scope)
    ensures s in Matching(scopes, node) <==> s in scopes && s.block == node
  {
    if scopes != [] {
      var init := scopes[..|scopes| - 1];
      MatchingExactly(init, node, s);
      assert scopes == init + [scopes[|scopes| - 1]];
    }
  }

  /** The registrations of the given scopes to `target`. */
  function RegisterAll(target: BlockRef, scopes: seq<Scope>): (r: seq<(BlockRef, Scope)>)
    ensures |r| == |scopes| && forall i :: 0 <= i < |r| ==> r[i] == (target, scopes[i])
  {
    seq(|scopes|, i requires 0 <= i < |scopes| => (target, scopes[i]))
  }

  /** The deferred re-keying of the given scopes to `target`. */
  function ReKeyAll(target: BlockRef, scopes: seq<Scope>): (r: seq<PostProcess>)
    ensures |r| == |scopes| && forall i :: 0 <= i < |r| ==> r[i] == SetBlock(scopes[i], target)
  {
    seq(|scopes|, i requires 0 <= i < |scopes| => SetBlock(scopes[i], target))
  }

  /** Extending the scanned prefix by one scope extends the matches by that scope when it matches. */
  lemma MatchingStep(scopes: seq<Scope>, node: BlockRef, i: nat)
    requires i < |scopes|
    ensures Matching(scopes[..i + 1], node)
      == Matching(scopes[..i], node) + (if scopes[i].block == node then [scopes[i]] else [])
  {
    assert scopes[..i + 1][..i] == scopes[..i];
  }

  lemma RegisterAllSnoc(target: BlockRef, scopes: seq<Scope>, s: Scope)
    ensures RegisterAll(target, scopes + [s]) == RegisterAll(target, scopes) + [(target, s)]
    ensures ReKeyAll(target, scopes + [s]) == ReKeyAll(target, scopes) + [SetBlock(s, target)]
  {
  }

  /**
   * The post-process steps the restore callback leaves scheduled: the re-keying
   * of every matching scope to the Svelte Program, then the global-scope revert.
   */
  ghost function Schedule(scopes: seq<Scope>, globalScope: Scope, node: BlockRef): seq<PostProcess>
    reads scopes
  {
    ReKeyAll(SvelteProgramNode, Matching(scopes, node)) + [SetBlock(globalScope, node)]
  }

  /**
   * The restore callback (root.ts:164-176): registers every scope whose block is
   * the original Program to the Svelte Program, in scope order, then schedules
   * the global-scope revert after those registrations.
   */
  method RestoreProgramScope(sm: ScopeManager, hooks: RestoreHooks, node: BlockRef)
    modifies hooks
    ensures hooks.registered == old(hooks.registered) + RegisterAll(SvelteProgramNode, Matching(sm.scopes, node))
    ensures hooks.postProcesses == old(hooks.postProcesses) + Schedule(sm.scopes, sm.globalScope, node)
  {
    var scopes: seq<Scope> := [];
    for i := 0 to |sm.scopes|
      invariant scopes == Matching(sm.scopes[..i], node)
      invariant hooks.registered == old(hooks.registered) + RegisterAll(SvelteProgramNode, scopes)
      invariant hooks.postProcesses == old(hooks.postProcesses) + ReKeyAll(SvelteProgramNode, scopes)
    {
      var scope := sm.scopes[i];
      MatchingStep(sm.scopes, node, i);
      if scope.block == node {
        hooks.RegisterNodeToScope(SvelteProgramNode, scope);
        RegisterAllSnoc(SvelteProgramNode, scopes, scope);
        scopes := scopes + [scope];
      }
    }
    assert sm.scopes[..|sm.scopes|] == sm.scopes;
    assert scopes == Matching(sm.scopes, node);
    // The global scope must point at the original Program again once everything
    // else has run: reference tracking finds import statements only from it.
    hooks.AddPostProcess(SetBlock(sm.globalScope, node));
  }

  /** The scopes a list of post-process steps writes to. */
  ghost function Targets(steps: seq<PostProcess>): set<Scope> {
    set i | 0 <= i < |steps| :: steps[i].scope
  }

  /** The block a scope ends with after the steps run, from block `b`: the last write to it wins. */
  function FinalBlock(steps: seq<PostProcess>, s: Scope, b: BlockRef): BlockRef {
    if steps == [] then b
    else if steps[|steps| - 1].scope == s then steps[|steps| - 1].block
    else FinalBlock(steps[..|steps| - 1], s, b)
  }

  /**
   * Runs the post-process steps in the order they were scheduled; every scope
   * of `within` (which holds all the scopes the steps write) ends with the block
   * of the last step that wrote it, or keeps its own.
   */
  method RunPostProcesses(steps: seq<PostProcess>, ghost within: set<Scope>)
    requires Targets(steps) <= within
    modifies Targets(steps)
    ensures forall s :: s in within ==> s.block == FinalBlock(steps, s, old(s.block))
  {
    for i := 0 to |steps|
      invariant forall s :: s in within ==> s.block == FinalBlock(steps[..i], s, old(s.block))
    {
      assert steps[..i + 1][..i] == steps[..i];
      steps[i].scope.block := steps[i].block;
    }
    assert steps[..|steps|] == steps;
  }

  /** A scope that no step writes to keeps its block. */
  lemma {:induction false} FinalBlockUntouched(steps: seq<PostProcess>, s: Scope, b: BlockRef)
    requires forall i :: 0 <= i < |steps| ==> steps[i].scope != s
    ensures FinalBlock(steps, s, b) == b
  {
    if steps != [] {
      FinalBlockUntouched(steps[..|steps| - 1], s, b);
    }
  }

  /** A scope written by some re-keying step ends with the re-keying target. */
  lemma {:induction false} FinalBlockReKeyed(target: BlockRef, scopes: seq<Scope>, s: Scope, b: BlockRef)
    requires s in scopes
    ensures FinalBlock(ReKeyAll(target, scopes), s, b) == target
  {
    var steps := ReKeyAll(target, scopes);
    if steps[|steps| - 1].scope != s {
      assert ReKeyAll(target, scopes)[..|steps| - 1] == ReKeyAll(target, scopes[..|scopes| - 1]);
      assert scopes == scopes[..|scopes| - 1] + [scopes[|scopes| - 1]];
      FinalBlockReKeyed(target, scopes[..|scopes| - 1], s, b);
    }
  }

  /**
   * The outcome of the scheduled steps: the global scope ends on the original
   * Program; every other scope that was on the original Program ends on the
   * Svelte Program; every other scope keeps its block.
   */
  lemma RestoredBlocks(scopes: seq<Scope>, globalScope: Scope, node: BlockRef, s: Scope)
    requires s in scopes || s == globalScope
    ensures FinalBlock(Schedule(scopes, globalScope, node), s, s.block) ==
        if s == globalScope then node
        else if s.block == node then SvelteProgramNode
        else s.block
  {
    var reKey := ReKeyAll(SvelteProgramNode, Matching(scopes, node));
    var steps := Schedule(scopes, globalScope, node);
    assert steps[..|steps| - 1] == reKey;
    if s != globalScope {
      MatchingExactly(scopes, node, s);
      if s.block == node {
        FinalBlockReKeyed(SvelteProgramNode, Matching(scopes, node), s, s.block);
      } else {
        FinalBlockUntouched(reKey, s, s.block);
      }
    }
  }

  /** The scheduled steps write only to the manager's scopes and its global scope. */
  lemma ScheduleTargets(scopes: seq<Scope>, globalScope: Scope, node: BlockRef)
    ensures Targets(Schedule(scopes, globalScope, node)) <= (set s | s in scopes) + {globalScope}
  {
    var matching := Matching(scopes, node);
    var steps := Schedule(scopes, globalScope, node);
    forall s | s in Targets(steps) ensures s in scopes || s == globalScope {
      var i :| 0 <= i < |steps| && steps[i].scope == s;
      if i < |matching| {
        assert s == matching[i];
        MatchingExactly(scopes, node, s);
      }
    }
  }

  /** A scope is registered to the Svelte Program exactly when it matched. */
  lemma RegisteredIffMatching(scopes: seq<Scope>, node: BlockRef, s: Scope)
    ensures (SvelteProgramNode, s) in RegisterAll(SvelteProgramNode, Matching(scopes, node)) <==> s in scopes && s.block == node
  {
    var matching := Matching(scopes, node);
    MatchingExactly(scopes, node, s);
    if s in matching {
      var i :| 0 <= i < |matching| && matching[i] == s;
      assert RegisterAll(SvelteProgramNode, matching)[i] == (SvelteProgramNode, s);
    }
  }

  /**
   * What the restore callback schedules, stated on the scopes before anything
   * runs: who gets registered, which scopes the steps write, and the block each
   * scope ends with.
   */
  lemma ScheduleOutcome(scopes: seq<Scope>, globalScope: Scope, node: BlockRef)
    ensures forall s :: s in scopes ==>
      ((SvelteProgramNode, s) in RegisterAll(SvelteProgramNode, Matching(scopes, node)) <==> s.block == node)
    ensures forall i :: 0 <= i < |Matching(scopes, node)| ==> Matching(scopes, node)[i] in scopes
    ensures Targets(Schedule(scopes, globalScope, node)) <= (set s | s in scopes) + {globalScope}
    ensures forall s :: s in scopes || s == globalScope ==>
      FinalBlock(Schedule(scopes, globalScope, node), s, s.block) ==
        if s == globalScope then node else if s.block == node then SvelteProgramNode else s.block
  {
    var matching := Matching(scopes, node);
    forall s | s in scopes
      ensures (SvelteProgramNode, s) in RegisterAll(SvelteProgramNode, matching) <==> s.block == node
    {
      RegisteredIffMatching(scopes, node, s);
    }
    forall i | 0 <= i < |matching|
      ensures matching[i] in scopes
    {
      MatchingExactly(scopes, node, matching[i]);
    }
    ScheduleTargets(scopes, globalScope, node);
    forall s | s in scopes || s == globalScope
      ensures FinalBlock(Schedule(scopes, globalScope, node), s, s.block) ==
        if s == globalScope then node else if s.block == node then SvelteProgramNode else s.block
    {
      RestoredBlocks(scopes, globalScope, node, s);
    }
  }

  /**
   * The restore callback followed by the post-processes it leaves scheduled
   * (starting from no pending steps): every scope that was on the original
   * Program is registered to the Svelte Program and no other scope is; every
   * such scope other than the global scope is re-keyed to the Svelte Program;
   * the global scope ends on the original Program; other scopes keep their
   * block.
   */
  method RestoreThenPostProcess(sm: ScopeManager, hooks: RestoreHooks, node: BlockRef)
    requires hooks.registered == [] && hooks.postProcesses == []
    modifies hooks, sm.scopes, sm.globalScope
    ensures forall s :: s in sm.scopes ==> ((SvelteProgramNode, s) in hooks.registered <==> old(s.block) == node)
    ensures forall i :: 0 <= i < |hooks.registered| ==>
      hooks.registered[i].0 == SvelteProgramNode && hooks.registered[i].1 in sm.scopes
    ensures sm.globalScope.block == node
    ensures forall s :: s in sm.scopes && s != sm.globalScope ==>
      s.block == if old(s.block) == node then SvelteProgramNode else old(s.block)
  {
    ghost var steps := Schedule(sm.scopes, sm.globalScope, node);
    ScheduleOutcome(sm.scopes, sm.globalScope, node);
    RestoreProgramScope(sm, hooks, node);
    assert hooks.postProcesses == steps;
    ghost var within := (set s | s in sm.scopes) + {sm.globalScope};
    label Run:
    RunPostProcesses(hooks.postProcesses, within);
    forall s | s in sm.scopes || s == sm.globalScope
      ensures s.block == if s == sm.globalScope then node
                         else if old(s.block) == node then SvelteProgramNode else old(s.block)
    {
      assert s in within;
      assert old@Run(s.block) == old(s.block);
    }
  }
}
