/**
 The action envelope: which proposed remediations may be surfaced or executed.

 Reversibility and blast radius of an executable operation come from the operation
 registry, never from the proposal.
 */
module Policies {
  import opened Common

  datatype Workload = Workload(kind: string, namespace: string, name: string)

  datatype Action = Action(
    name: string, description: string, op: string, target: Workload, reversible: bool, blastRadius: int)

  datatype OpSafety = OpSafety(reversible: bool, blast: int)

  type Registry = map<string, OpSafety>

  const OPS: Registry := map[
    "suspend" := OpSafety(true, 1), "resume" := OpSafety(true, 1), "reconcile" := OpSafety(true, 1)]

  const BUILTIN_PROTECTED: seq<string> := ["flux-system", "kube-system"]

  datatype Mode = Off | Suggest | Approve | Unattended

  datatype Allow = Allow(
    reversibleOnly: bool, maxBlastRadius: int,
    kinds: seq<string>, namespaces: seq<string>, protectedNamespaces: seq<string>)

  datatype Policy = Policy(mode: Mode, allow: Allow, ops: Registry)

  /** Why an action is outside the envelope. */
  datatype Breach =
    | UnknownOp | Irreversible | BlastRadiusTooWide | KindNotAllowed
    | NoTargetKind | NoNamespace | ProtectedNamespace | NamespaceNotAllowed

  function DeriveSafety(ops: Registry, a: Action): Action {
    if a.op == "" then a
    else if a.op in ops then a.(reversible := ops[a.op].reversible, blastRadius := ops[a.op].blast)
    else a.(reversible := false)
  }

  function NamespaceViolation(p: Policy, ns: string): Option<Breach> {
    if ns == "" then Some(NoNamespace)
    else if ns in BUILTIN_PROTECTED || ns in p.allow.protectedNamespaces then Some(ProtectedNamespace)
    else if ns !in p.allow.namespaces then Some(NamespaceNotAllowed)
    else None
  }

  /** The first breach, in the order they are checked; the callers pass a DeriveSafety'd action. */
  function Violation(p: Policy, a: Action): Option<Breach> {
    if a.op != "" && a.op !in p.ops then Some(UnknownOp)
    else if p.allow.reversibleOnly && !a.reversible then Some(Irreversible)
    else if p.allow.maxBlastRadius > 0 && a.blastRadius > p.allow.maxBlastRadius then Some(BlastRadiusTooWide)
    else if |p.allow.kinds| > 0 && a.target.kind != "" && a.target.kind !in p.allow.kinds then Some(KindNotAllowed)
    else if a.op == "" then None
    else if a.target.kind == "" then Some(NoTargetKind)
    else NamespaceViolation(p, a.target.namespace)
  }

  /** What an executable action must satisfy to reach the cluster, by the registry and the allow lists. */
  predicate Executable(p: Policy, a: Action) {
    && a.op in p.ops && a.op != ""
    && (p.allow.reversibleOnly ==> p.ops[a.op].reversible)
    && (p.allow.maxBlastRadius > 0 ==> p.ops[a.op].blast <= p.allow.maxBlastRadius)
    && a.target.kind != "" && (p.allow.kinds == [] || a.target.kind in p.allow.kinds)
    && a.target.namespace != "" && a.target.namespace in p.allow.namespaces
    && a.target.namespace !in p.allow.protectedNamespaces && a.target.namespace !in BUILTIN_PROTECTED
  }

  /** Whatever the proposal claims about itself, an operation passes the gate exactly when the registry and
      the allow lists admit it; an advisory suggestion is never executable. */
  lemma GateIsServerAuthoritative(p: Policy, a: Action, claimed: Action)
    requires claimed == a.(reversible := claimed.reversible, blastRadius := claimed.blastRadius)
    ensures a.op != "" ==> (Violation(p, DeriveSafety(p.ops, a)).None? <==> Executable(p, a))
    ensures a.op != "" && a.op in p.ops ==> DeriveSafety(p.ops, a) == DeriveSafety(p.ops, claimed)
    ensures Executable(p, a) <==> Executable(p, claimed)
  {
    if |p.allow.kinds| == 0 {
      assert p.allow.kinds == [];
    }
  }

  predicate Kept(p: Policy, a: Action) { Violation(p, DeriveSafety(p.ops, a)).None? }

  /** The compliant actions, in order, rewritten from the registry. */
  function KeptOf(p: Policy, actions: seq<Action>): seq<Action>
    decreases |actions|
  {
    if actions == [] then [] else
    var (init, a) := (actions[..|actions| - 1], actions[|actions| - 1]);
    if Kept(p, a) then KeptOf(p, init) + [DeriveSafety(p.ops, a)] else KeptOf(p, init)
  }

  lemma {:induction false} KeptIsReviewed(p: Policy, actions: seq<Action>, a: Action)
    ensures a in KeptOf(p, actions) ==> a == DeriveSafety(p.ops, a) && Violation(p, a).None?
    ensures a in actions && Kept(p, a) ==> DeriveSafety(p.ops, a) in KeptOf(p, actions)
    decreases |actions|
  {
    if actions != [] {
      var init, last := actions[..|actions| - 1], actions[|actions| - 1];
      KeptIsReviewed(p, init, a);
      assert actions == init + [last];
      DeriveTwice(p.ops, last);
    }
  }

  lemma DeriveTwice(ops: Registry, a: Action)
    ensures DeriveSafety(ops, DeriveSafety(ops, a)) == DeriveSafety(ops, a)
  {
  }

  /** The others, in order, each with why. */
  function WithheldOf(p: Policy, actions: seq<Action>): seq<(Action, Breach)>
    decreases |actions|
  {
    if actions == [] then [] else
    var (init, a) := (actions[..|actions| - 1], DeriveSafety(p.ops, actions[|actions| - 1]));
    match Violation(p, a)
    case Some(breach) => WithheldOf(p, init) + [(a, breach)]
    case None => WithheldOf(p, init)
  }

  /** Every action is surfaced or withheld, never both and never dropped, and withheld for what it violates. */
  lemma {:induction false} ReviewSplits(p: Policy, actions: seq<Action>, a: Action)
    ensures |KeptOf(p, actions)| + |WithheldOf(p, actions)| == |actions|
    ensures forall breach :: (a, breach) in WithheldOf(p, actions) ==>
              Violation(p, a) == Some(breach) && a !in KeptOf(p, actions)
    ensures a in actions && !Kept(p, a) ==>
              (DeriveSafety(p.ops, a), Violation(p, DeriveSafety(p.ops, a)).value) in WithheldOf(p, actions)
    decreases |actions|
  {
    KeptIsReviewed(p, actions, a);
    if actions != [] {
      var init, last := actions[..|actions| - 1], actions[|actions| - 1];
      ReviewSplits(p, init, a);
      assert actions == init + [last];
    }
  }

  /** Review keeps the compliant actions and gives one reason for each of the others; with the mode off
      nothing is surfaced. */
  method Review(p: Policy, actions: seq<Action>) returns (kept: seq<Action>, withheld: seq<(Action, Breach)>)
    ensures p.mode == Off ==> kept == [] && withheld == []
    ensures p.mode != Off ==> kept == KeptOf(p, actions) && withheld == WithheldOf(p, actions)
  {
    kept, withheld := [], [];
    if p.mode == Off { return; }
    for i := 0 to |actions|
      invariant kept == KeptOf(p, actions[..i]) && withheld == WithheldOf(p, actions[..i])
    {
      assert actions[..i + 1][..i] == actions[..i];
      var a := DeriveSafety(p.ops, actions[i]);
      var reason := Violation(p, a);
      if reason.Some? {
        withheld := withheld + [(a, reason.value)];
      } else {
        kept := kept + [a];
      }
    }
    assert actions[..|actions|] == actions;
  }
}
