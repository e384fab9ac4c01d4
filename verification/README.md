# A verified model of the conflict-learning calculus

This project models the event-sourced decision calculus of the repository, a search kernel that
activates candidate models, learns no-goods from conflicts, jumps back over the causal root of a
conflict, and keeps obligations, locks and fairness records in step with the decisions. Beside it
stand the subsystems that work on the same state: truth maintenance, reactive obligations, typed
transitions and the epistemic-debt view.

Values (records, plans, conditions) are datatypes; everything the source computes with a loop is a
method with the same loop, proved against a specification function; the engine and the three
runtimes are classes that own the durable state. Each class method says outright what the new state
is, and the theorems are about those specifications.

## How it is organised

- `Foundations`, `CalculusModel`, `Reachability`, `Scopes`, `Conditions`, `Shrinking`: names,
  records, the invariants of a committed state, least closures, effective values and the flow between
  scopes, conditions, and what taking decisions out of the models does to no-goods.
- `Knowledge`, `Revision`, `DecisionGraph`, `Backjump`: explanations and no-goods, how they expire and
  harden, causal graphs, the backjump.
- `Locks`, `Fairness`, `Obligations`: lock reevaluation, the audit and its gate, work on obligations.
- `Staging`, `PassOrder`, `Activation`, `Restart`, `ScopeImpact`, `Recovery`: the steps that change
  the model.
- `Commits`, `Engine`, `Admission`: what every commit checks, the class that loads, stages and commits,
  and exactly when the commit accepts a step that takes decisions out.
- `Runs`, `Search`, `Convergence`, `Progress`: what holds in every state of every run, the space of
  valuations, how conflict-driven search closes it, and when a conflict can be jumped out of.
- `TruthMaintenance`, `Reactive`, `Typed`, `Debt`: the subsystems.
- `Outcomes`, `Selection`: what each step leaves on record, said of the records alone, and what that
  means over whole runs for the statuses of decisions and of work.
- `SimpleStates`, `Witnesses`, `GateWitnesses`, `LearningWitnesses`: small states at which a guarantee
  ends.

The invariants that carry most proofs are in `CalculusModel`: `SlotsSound` and `SlotsComplete` (a
model entry is an ACTIVE decision of that scope and subject, and every ACTIVE decision has its
entry), `Mirror` (`active_model` is the root scope's model), and `ParentsActive`.

## Where a guarantee ends

These are properties one might expect of the code and that it does not have in general. Each comes
with the exact condition under which it holds. Where a witness is named, it is a state that the engine
commits, or a few committed steps from one.

- ACTIVE parents after a restart, a scope restart, a child-scope backjump, a single activation and a
  truth plan: `Runs.StepKeepsParents` has the exact condition for each, and `Witnesses` a state for
  each in which the commit accepts the orphan. A truth plan computes its affected nodes from a graph
  that holds the decisions' parents, so it orphans only decisions registered after it was recorded.
- A restart from a clean state passes its check when guards are free of `not` and no suspended
  override covered a different retained value in a scope that has knowledge
  (`Restart.RestartCheckPasses`). The second condition is exact over all clean knowledge without
  `not` (`Restart.RestartCheckExactly`); either alone is not enough (`Witnesses.RestartCanViolate`,
  `Witnesses.RestartCanBare`). The same conditions serve scope restarts and backjumps.
- That check reads each no-good in its own scope. The commit reads it in every scope below as well, and
  refuses the step exactly when some scope is left violating a no-good of a resolved conflict
  (`Admission.RestartCommitsExactly`, `Admission.JumpCommitsExactly`, `Witnesses.RestartCanBeRefused`).
  So a conflict that was explained and learned from cannot always be jumped out of: the backjump is
  refused when a child scope takes the explained values for itself (`Progress.RoundCanFinish`,
  `LearningWitnesses.BackjumpCanBeRefused`). With the root as only scope it always can.
- A root activation purges only `active_model`. When it ousts decisions of child scopes, all its
  checks pass and the commit refuses it (`Activation.RootActivationCommits`). An activation in a
  child scope has no such case: nothing flows from a child scope into the root
  (`Commits.ScopedActivationAlwaysCommits`).
- Subsumption of no-goods compares bodies, guards and strength, but not scopes. `Knowledge`
  has exactly what each scope excludes after learning (`LearnedStoreExactly`,
  `ForeignSubsumptionForgets`): a new no-good may go unenforced where it
  was learned, and may retire one of another scope (`LearningWitnesses.LearningCanForget`,
  `LearningWitnesses.LearningCanRetire`).
- Learned exclusions last until their evidence is invalidated: then a valuation stays excluded exactly
  when some no-good that does not cite the evidence excludes it (`Revision.ExpiryExactly`,
  `LearningWitnesses.ExpiryReopens`). The commit may refuse that expiry, and the evidence is then invalid
  while the knowledge drawn from it stays (`Engine.ExpiryCommitsExactly`).
- A backjump and a scope restart move AVAILABLE and LOCKED obligations to NEEDS_REVALIDATION, which
  the transition table does not list; a truth plan follows the table
  (`Backjump.ReopeningFollowsTable`).
- The fairness gate reads a root obligation in the values of every scope in turn, so that a change
  which a child scope sees is enough, and does not look at the previous values of child-scope
  obligations (`Fairness.GateExactly`, `Fairness.ChildGateForgetsThePast`, `GateWitnesses`).
- The first pass of a candidate visits its rows in key order, and whether it succeeds depends on that
  order when one occupant rests on another: `active_model` still shows a root occupant that an
  earlier row felled (`PassOrder.FirstPassExactly`, `PassOrder.RootRowPasses`,
  `Witnesses.RowOrderMatters`).
- A reactive rule that watches `snapshot_patched` or `evidence_added` without a filter feeds on its
  own derivations, each of which writes one event of either kind (`Reactive.NeverRests`,
  `Reactive.IdleExactly`).
- The subject that holds a typed pattern's state is open to every writer. An unreachable state becomes
  current exactly when a step activates a decision that carries it (`Typed.StepReachesExactly`,
  `Typed.RunReachesExactly`).

Three of these differ from what `docs/FORMAL_CALCULUS.md` and `docs/HIERARCHICAL_DECISION_SCOPES.md`
say, and the model follows the code: "invalidate only that root and its dependent decisions" (a
child-scope pivot takes whole scopes and does not close them again), a smaller no-good "supersedes a
larger one" (also one of another scope, which is then not enforced where it was learned), and
BLOCK_PLANNING, under which "a new model must expose overdue work" (a condition that turns true in a
child scope, or a child-scope obligation that was exposed all along, is enough). The promise that no
candidate becomes durable when it makes one of its own parents inactive does hold; the check after
the activation loop adds nothing to the one inside.

## Model

| member | source | states |
|---|---|---|
| `Reachability.Worklist` | src/aasm/_calculus_logic.py:178-188 | the `seen`/`todo` loop returns the least set that contains the root and is closed under the children relation, for every finite graph |
| `DecisionGraph.ActiveDecisionChildren` | src/aasm/_calculus_logic.py:165-175 | the children dictionary represents exactly the ACTIVE-child pairs and the DEPENDS_ON and DERIVES edges |
| `DecisionGraph.DecisionDescendants` | src/aasm/_calculus_logic.py:178-188 | exactly the least closure of the root under ACTIVE children and causal edges |
| `DecisionGraph.Visit` | src/aasm/_calculus_logic.py:195-209 | one visit of the depth-first walk with its shared `seen` set: what it newly marks is closed upwards and yields exactly the newly met roots; it terminates on cycles and diamonds |
| `DecisionGraph.CausalRoots` | src/aasm/_calculus_logic.py:191-210 | exactly the known decisions reachable upwards through derived parents that are not derived or have no known parent |
| `DecisionGraph.RootsOfDerived` | src/aasm/_calculus_logic.py:191-210 | on graphs with cycles too, the causal roots of a derived decision with known parents are those of its known parents |
| `Scopes.ScopeDescendants` | src/aasm/_scopes_graph.py:42-64 | fails exactly for unknown scopes, else returns the least subtree of the scope |
| `Scopes.RootChain` | src/aasm/_scopes_projection.py:56-80 | the root scope inherits nothing: its effective decisions and values are those of `active_model` |
| `Scopes.EffectiveDecisionsActive` | src/aasm/_scopes_projection.py:56-80 | every effective decision of a committed state is ACTIVE, about the subject it is listed under, and sits in the slot of its own scope |
| `Scopes.InheritanceExactly` | src/aasm/_scopes_graph.py:102-111 | a scope inherits down to itself from the nearest isolated scope of its chain, or from the top when none below it is isolated |
| `Scopes.IsolatedSeesItself` | src/aasm/_scopes_projection.py:56-69 | an isolated scope below the top sees its own assignments alone |
| `Scopes.ScopedKeyInjective` | src/aasm/_scopes_graph.py:8-9 | within one scope the scoped key determines the subject |
| `Scopes.CheckFlow` | src/aasm/_scopes_graph.py:71-122 | decides exactly whether a decision of one scope may be relied on in another: the same scope, a scope it inherits from, or one that it is reachable from along scope dependencies |
| `Scopes.CheckEvidence` | src/aasm/_runtime_v31_records.py:71-85 | decides exactly whether all the evidence is on record and may flow into the scope |
| `Scopes.FlowLaws` | src/aasm/_scopes_graph.py:71-122 | a scope may rely on all it inherits; a dependency lets its upstream scope be relied on downstream, and on from there along others; into a scope from outside its inheritance nothing flows unless a dependency ends there |
| `DecisionGraph.DependentsStayBelow` | src/aasm/_calculus_logic.py:165-188 | where nothing of the root rests on another scope, everything that depends on a decision outside the root lies outside the root |
| `ScopeImpact.DependencyImpactedScopes` | src/aasm/_scopes_projection.py:114-145 | the repeated sweeps return exactly the scopes reached by hierarchy or an INVALIDATE dependency, and exactly the other scopes reached by REVALIDATE ones; the loop terminates |
| `ScopeImpact.ImpactSparesRoot` | src/aasm/_scopes_projection.py:114-145 | impact never reaches the root and stays among registered scopes |
| `ScopeImpact.PoliciesSpread` | src/aasm/_scopes_projection.py:114-145 | an INVALIDATE dependency takes the whole subtree below its downstream scope, a REVALIDATE one reaches that scope |
| `ScopeImpact.IgnoreIsInert` | src/aasm/_scopes_projection.py:114-145 | removing an IGNORE dependency changes neither result |
| `Conditions.ViolatedHardConstraints` | src/aasm/_calculus_logic.py:59-70 | exactly the ACTIVE HARD constraints whose guard and body hold in their own scope |
| `Conditions.ConditionMonotone` | src/aasm/_calculus_logic.py:27-48 | without `not`, a condition that holds keeps holding when the valuation is extended, NEQ included |
| `Conditions.ConditionLaws` | src/aasm/_calculus_logic.py:35-48 | `any` is the dual of `all` under `not`, both split over concatenation, and the empty ones are false and true |
| `Conditions.LiteralLaws` | src/aasm/_calculus_logic.py:27-32 | on an assigned subject NEQ is the negation of EQ, on an unassigned one neither holds, and EQ holds exactly when assigning the value changes nothing |
| `Conditions.IsolationKeepsKnowledge` | src/aasm/calculus.py:34-46 | isolation cuts off what a scope inherits, and not the no-goods of the scopes above that it answers to |
| `Shrinking.ShrinkingIsSafe` | src/aasm/_calculus_logic.py:27-70 | for no-goods of every scope: withdrawing decisions creates no hard violation when guards are free of `not` and nothing is bared in a scope that has knowledge (no hidden override uncovers another inherited value) |
| `Shrinking.ShrinksExactly` | src/aasm/_scopes_projection.py:56-92 | the valuation of a scope only loses entries exactly when nothing is bared in it |
| `Shrinking.ShrinkingSafeExactly` | src/aasm/_calculus_logic.py:27-70 | a withdrawal leaves every clean knowledge base without `not` clean exactly when it bares nothing in any scope |
| `Knowledge.ValidateExplanation` | src/aasm/_calculus_logic.py:91-125 | accepts exactly the grounded, consistent, EQ-only explanations whose evidence is drawn from their conflict (a PROVEN one needs a certificate) |
| `Knowledge.ProjectConstraint` | src/aasm/_calculus_logic.py:128-162 | succeeds exactly for valid explanations with literals and returns the projected constraint |
| `Knowledge.NoGoodIsExact` | src/aasm/_calculus_logic.py:128-162 | the projected constraint is HARD exactly for a requested HARD on a validated or proven assumption conflict, and excludes exactly the guard-satisfying valuations that agree with the snapshot on every explained subject |
| `Knowledge.CanonicalSnapshot` | src/aasm/_scopes_projection.py:95-111 | the snapshot lists effective decisions under their scoped keys, and every effective subject |
| `Knowledge.ConflictValuationIsExcluded` | src/aasm/_calculus_logic.py:91-162 | the valuation in which the conflict was snapshotted violates the projected no-good whenever its guard holds there |
| `Knowledge.LearnConstraint` | src/aasm/runtime_v21.py:408-455 | succeeds exactly for a fresh name and a valid explanation, and stores what the subsumption scan leaves |
| `Knowledge.ScanForSubsumption` | src/aasm/runtime_v21.py:408-455 | the new one is superseded exactly when a stored comparable constraint has a smaller or equal body, and then the scan ends there; otherwise exactly the comparable ones with a larger body are |
| `Knowledge.LearningExactly` | src/aasm/runtime_v21.py:408-455 | when nothing stored covers the new no-good, a scope excludes afterwards exactly what the new one excludes there, and what some constraint excluded that the new one does not overtake, of whatever scopes these are |
| `Knowledge.CoveredLearningExactly` | src/aasm/runtime_v21.py:408-455 | when something covers it, the new no-good excludes nothing anywhere by itself, and only constraints that it overtakes can be retired before the cover is met |
| `Knowledge.LearnedStoreExactly` | src/aasm/runtime_v21.py:408-455 | from a store in which no live constraint covers another, as every run without promotions keeps it, the state before determines what each scope excludes afterwards, covered or not, in whatever order the scan goes |
| `Convergence.RunKeepsIrreducible` | src/aasm/runtime_v21.py:408-455 | no run without promotions makes one live constraint cover another |
| `Knowledge.ForeignSubsumptionForgets` | src/aasm/runtime_v21.py:408-455 | an excluded valuation is forgotten exactly when the new no-good belongs to another scope and overtakes every no-good of the scope that excluded it |
| `Knowledge.RetirementRecords` | src/aasm/runtime_v21.py:408-455 | what learning retires names its cover, and both had equal strength and guard and bodies in strict, or for the new one weak, inclusion |
| `Revision.ExpireKnowledge` | src/aasm/runtime_v21.py:576-597 | the three sweeps: exactly the explanations, constraints and conflicts that cite the evidence and still stand lose their standing, and whether anything changed |
| `Revision.ExpiryRecords` | src/aasm/runtime_v21.py:576-597 | record by record: which explanations, constraints and conflicts that cite the evidence change, from which statuses and to which |
| `Revision.ExpiryExactly` | src/aasm/runtime_v21.py:585-589 | after evidence is invalidated a valuation stays excluded exactly when some no-good that does not cite it excludes it; nothing becomes excluded |
| `Revision.PromotionExactly` | src/aasm/runtime_v24.py:203-208 | a promotion forgets no exclusion and adds exactly what the promoted no-good excludes in its scope |
| `Revision.PromotionIrreducibleExactly` | src/aasm/runtime_v24.py:203-208 | a promotion, which scans for no subsumption, lets a live constraint cover another exactly when the promoted one covers or is covered |
| `Backjump.LeastPivot` | src/aasm/_calculus_logic.py:245-262 | the loop returns the minimum of (deepest level, smallest closure, identifier) among the revisable roots |
| `Backjump.PivotUnique` | src/aasm/_calculus_logic.py:245-262 | that minimum is unique |
| `Backjump.PivotPreference` | src/aasm/_calculus_logic.py:230-262 | no ACTIVE causal root of the explanation that may be revised is deeper than the pivot, none of its level has fewer dependents, and none of these comes earlier by name |
| `Backjump.PivotExactly` | src/aasm/_calculus_logic.py:230-262 | a plan has a pivot exactly when some causal root of the explanation is ACTIVE and neither pinned nor of kind ROOT or PINNED |
| `Backjump.ComputeBackjump` | src/aasm/_calculus_logic.py:213-281 | computes the one plan of the chosen explanation, or fails exactly when no valid explanation can be chosen |
| `Backjump.PlanUnique` | src/aasm/_calculus_logic.py:213-281 | a conflict and an explanation determine the plan |
| `Backjump.PlanCovers` | src/aasm/_calculus_logic.py:263-281 | which obligations and plan nodes the plan touches, from the dependents of the pivot alone |
| `Backjump.ApplyBackjump` | src/aasm/_calculus_logic.py:284-309 | fails exactly on unknown names, else the whole new state: statuses, every scope model, the root mirror, obligations, the resolved conflict, the epoch, the cleared search state |
| `Backjump.BackjumpKeepsIndexes` | src/aasm/_calculus_logic.py:284-309 | keeps slots and mirror for any plan, and ACTIVE parents when the invalidated set is closed under dependents |
| `Backjump.RootClosureContains` | src/aasm/_calculus_logic.py:191-281 | every causal root of an ACTIVE decision has that decision in its dependent closure |
| `Backjump.BackjumpResolvesConflict` | src/aasm/_calculus_logic.py:128-309 | after computing and applying a plan with a pivot, some explained subject is unassigned in the root scope, so no constraint containing the explained literals is violated |
| `Backjump.BackjumpIsLocal` | src/aasm/_calculus_logic.py:284-309 | decisions outside the closure, obligations that do not depend on it and disposed obligations keep their whole record |
| `Backjump.BackjumpSparesRetained` | src/aasm/_calculus_logic.py:230-281 | no pinned or root decision is invalidated when such decisions have only such predecessors |
| `Backjump.BackjumpCheckPasses` | src/aasm/_runtime_v31_recovery.py:124-128 | the violation check after a backjump cannot fire, for no-goods of every scope, when guards are free of `not`, nothing is bared where there is knowledge, and every violated constraint contains the explained literals, one of which nothing reinstates |
| `Backjump.RootRelieved` | src/aasm/_calculus_logic.py:191-281 | a root constraint that contains the explained literals always loses one of them by a plan with a pivot |
| `Backjump.ReopeningFollowsTable` | src/aasm/_calculus_logic.py:299-303 | reopening an impacted obligation follows the transition table exactly when it was neither AVAILABLE nor LOCKED |
| `Locks.ReevaluateLocks` | src/aasm/_calculus_logic.py:312-330 | breaks exactly the ACTIVE locks whose condition fails in their scope and releases exactly the LOCKED obligations left without an ACTIVE lock, in whatever order |
| `Locks.RelockingSound` | src/aasm/_calculus_logic.py:312-330 | afterwards every ACTIVE lock holds, and no lock was revived |
| `Locks.RelockingReleases` | src/aasm/_calculus_logic.py:312-330 | LOCKED remains only where an ACTIVE lock does, and nothing else about an obligation changes |
| `Locks.RelockingFixpoint` | src/aasm/_calculus_logic.py:312-330 | changes nothing exactly in states where every ACTIVE lock holds and every LOCKED obligation has one |
| `Locks.RelockingIdempotent` | src/aasm/_calculus_logic.py:312-330 | doing it twice is doing it once |
| `Fairness.AuditFairness` | src/aasm/_calculus_logic.py:333-401 | audits every obligation and reports exactly the due and the overdue ones |
| `Fairness.AuditIdempotent` | src/aasm/_calculus_logic.py:333-401 | at a fixed epoch a second audit changes and reports nothing new; due and overdue are disjoint |
| `Fairness.OverdueExactly` | src/aasm/_calculus_logic.py:333-401 | an obligation is reported overdue exactly when it waits, is not deferred, and was hidden, locked or locked again beyond the policy |
| `Fairness.DueExactly` | src/aasm/_calculus_logic.py:345-398 | it is reported due exactly when it waits, is not deferred, is not overdue, and has reached one of the three limits |
| `Fairness.AuditKeepsHistory` | src/aasm/_calculus_logic.py:345-398 | an audit rewrites no history: creation, review and deferral stay, lock counts never fall, and the clock of last consideration moves exactly for persistent, non-terminal work in hand |
| `Fairness.CandidateExposesOverdue` | src/aasm/_calculus_logic.py:404-426 | holds exactly when nothing is overdue or some overdue obligation is exposed |
| `Fairness.GateExactly` | src/aasm/_runtime_v31_search.py:263-277 | for any overdue work and any scopes, a candidate passes exactly when nothing is overdue, or the condition of an overdue root obligation turns from false to true in the values of some scope, or that of an overdue child obligation holds in its scope and is false of the empty valuation |
| `Fairness.ChildGateForgetsThePast` | src/aasm/_calculus_logic.py:415-425 | for an overdue child-scope obligation the gate compares with the empty valuation, not with the previous one: where its condition holds now and not there, every candidate passes, whatever else is overdue |
| `Staging.AdmitTargets` | src/aasm/_runtime_v31_search.py:150-179 | accepts exactly candidates whose every target is selectable, keyed by its slot, in an ACTIVE scope, with live antecedents |
| `Staging.SupersedeOccupants` | src/aasm/_runtime_v31_search.py:181-215 | the first pass: occupants superseded, dependents suspended, all models purged, overrides and pinned occupants refused |
| `PassOrder.FirstPassExactly` | src/aasm/_runtime_v31_search.py:181-215 | the first pass succeeds exactly when every row, against what the rows before it felled, finds its slot free of inherited assignments, or admitted as an override, or held by an unpinned occupant that still stands |
| `PassOrder.RootRowPasses` | src/aasm/_runtime_v31_search.py:181-215 | a root row whose occupant an earlier row felled passes exactly when the decision may override, because `active_model` still shows the occupant |
| `PassOrder.IndependentRows` | src/aasm/_runtime_v31_search.py:181-215 | root rows whose occupants do not depend on each other pass in any order, exactly when no occupant is pinned |
| `Staging.ActivateTargets` | src/aasm/_runtime_v31_search.py:217-241 | the second pass succeeds exactly when every parent is ACTIVE or a target, and the result does not depend on the order |
| `Staging.StageCandidateActivation` | src/aasm/_runtime_v31_search.py:134-287 | returns the one state the two passes and the two checks allow, or fails when there is none, leaving no trace |
| `Staging.StageDeterministic` | src/aasm/_runtime_v31_search.py:134-287 | at most one state can result |
| `Staging.SecondParentCheckRedundant` | src/aasm/_runtime_v31_search.py:243-253 | the parent check after the loop can never reject |
| `Staging.StageKeepsIndexes` | src/aasm/_runtime_v31_search.py:134-287 | slots agree in both directions, the mirror holds and ACTIVE parents stay ACTIVE, through any interleaving of supersession, suspension and re-activation |
| `Staging.StageEnforces` | src/aasm/_runtime_v31_search.py:241-287 | every target is ACTIVE, no hard constraint is violated in its scope, every ACTIVE lock holds, the knowledge base is untouched |
| `Staging.StageIsLocal` | src/aasm/_runtime_v31_search.py:181-241 | a decision that is no target and depends on no displaced occupant keeps its record |
| `Outcomes.StageRecords` | src/aasm/_runtime_v31_search.py:181-241 | decision by decision: a target is ACTIVE as of this step; any other is as it was, or was ACTIVE and is SUPERSEDED by the target for its own slot and not selectable again, or depends on one superseded now and is SUSPENDED, selectable again and otherwise as it was; ACTIVE decisions fall exactly when they depend on one superseded now |
| `Outcomes.DisplacementCases` | src/aasm/_runtime_v31_search.py:199-212 | the two cases exclude each other, and a decision whose slot no target takes is never superseded |
| `Staging.StageSameDecisions` | src/aasm/_runtime_v31_search.py:134-287 | no decision changes scope, subject, value, kind, pin or parents |
| `Restart.SuspendSpeculative` | src/aasm/_runtime_v31_recovery.py:255-268 | splits every scope model into what is retained and what is suspended |
| `Restart.RestartKeepsIndexes` | src/aasm/_runtime_v31_recovery.py:248-292 | keeps slots and mirror and leaves exactly the retained decisions ACTIVE |
| `Restart.RestartKeepsParents` | src/aasm/_runtime_v31_recovery.py:248-292 | keeps ACTIVE parents exactly when retained ACTIVE decisions have only retained parents |
| `Restart.RestartCheckPasses` | src/aasm/_runtime_v31_recovery.py:274-278 | from a clean state the check cannot fire, for no-goods of every scope, when guards are free of `not` and no suspended override covered a different retained value in a scope that has knowledge |
| `Restart.RestartCheckExactly` | src/aasm/_runtime_v31_recovery.py:248-292 | the restart passes its check under every clean knowledge base without `not` exactly when it bares nothing |
| `Restart.ScopeRestartKeepsIndexes` | src/aasm/_runtime_v31_recovery.py:174-247 | keeps slots, mirror and the root model, and changes no decision but the speculative ones of the subtree |
| `Restart.ScopeRestartKeepsParents` | src/aasm/_runtime_v31_recovery.py:174-247 | keeps ACTIVE parents exactly when nothing that stays ACTIVE rests on what is suspended |
| `Restart.ScopeRestartCheckPasses` | src/aasm/_runtime_v31_recovery.py:174-247 | the same for the check after the restart of one scope |
| `Outcomes.RestartRecords` | src/aasm/_runtime_v31_recovery.py:255-292 | an ACTIVE decision that is neither pinned nor of kind ROOT or PINNED is SUSPENDED and otherwise as it was, and a later candidate may take it up under its own key in an ACTIVE scope with live antecedents; every other decision keeps its record |
| `Outcomes.ScopeRestartRecords` | src/aasm/_runtime_v31_recovery.py:183-236 | the same for the decisions of the subtree and no other; obligations of the subtree wait to be revalidated unless disposed of, others are at most released |
| `Recovery.RecoveryKeepsIndexes` | src/aasm/_runtime_v31_recovery.py:58-130 | keeps slots and mirror for every pivot; ACTIVE parents always for a root pivot, and otherwise exactly when no surviving decision rests on the widened set |
| `Recovery.RecoveryPreservesSiblings` | src/aasm/_runtime_v31_recovery.py:79-122 | decisions outside closure and taken scopes, and scopes neither taken nor doubted, keep their records |
| `Recovery.RootRecovery` | src/aasm/_runtime_v31_recovery.py:58-130 | with a root pivot the recovery is the plain backjump |
| `Recovery.RecoveryResolvesExactly` | src/aasm/_runtime_v31_recovery.py:79-128 | for a pivot in any scope: afterwards the explained literals all hold in the scope of the conflict exactly when what it still inherits reinstates every one of them |
| `Recovery.RecoveryCheckPasses` | src/aasm/_runtime_v31_recovery.py:124-128 | the violation check after the recovery cannot fire, for any pivot, when guards are free of `not`, nothing is bared where there is knowledge and every violated constraint is relieved |
| `Outcomes.RecoveryRecords` | src/aasm/_runtime_v31_recovery.py:79-122 | record by record: what depends on the pivot or is ACTIVE in a scope taken is INVALIDATED by the conflict, the obligations that rest on it or lie in a scope taken or doubted wait to be revalidated unless disposed of, these scopes themselves too, the conflict is RESOLVED, and all else stays |
| `Outcomes.ReportedPlanExactly` | src/aasm/_runtime_v31_recovery.py:58-122 | the request determines the reported plan, which lists exactly what the recovery invalidates and reopens |
| `Outcomes.JumpRestsOnExplanation` | src/aasm/_calculus_logic.py:213-229 | a backjump rests on a valid explanation, the one asked for or the first by name of the validated and proven ones, and leaves no no-good violated |
| `Admission.ThinningCommitsExactly` | src/aasm/calculus.py:9-57 | a committed state from which decisions are only taken out is committed again exactly when no scope is left violating a no-good, its own or an inherited one, whose conflict is resolved by then; no other check of the commit can refuse |
| `Admission.RestartCommitsExactly` | src/aasm/_runtime_v31_recovery.py:274-292 | so the commit accepts a restart exactly when no scope below is left violating a no-good of a resolved conflict |
| `Admission.RestartCommits` | src/aasm/_runtime_v31_recovery.py:274-292 | which is the case when guards are free of `not` and nothing is bared in any scope |
| `Admission.ScopeRestartCommitsExactly` | src/aasm/_runtime_v31_recovery.py:174-247 | the same equivalence for the restart of one scope |
| `Admission.JumpCommitsExactly` | src/aasm/_runtime_v31_recovery.py:79-130 | the commit accepts a backjump, whatever its pivot, exactly when no scope is left violating a no-good of the conflict it resolves or of one resolved already |
| `Admission.TruthCommitsExactly` | src/aasm/_runtime_v38_dependencies.py:236-270 | the same equivalence for a truth plan, which makes no check of its own |
| `Activation.ScopedActivationParents` | src/aasm/_runtime_v31_activation.py:83-134 | parents are checked before the occupant is displaced: ACTIVE parents survive exactly when no parent of the new decision is ousted |
| `Commits.ScopedActivationAlwaysCommits` | src/aasm/_runtime_v31_activation.py:112-137 | an activation outside the root ousts nothing of the root, because nothing flows into it, and the commit accepts its slots whatever it ousts |
| `Commits.FlowsAreDown` | src/aasm/_scopes_invariants.py:79-91 | the flow check of the commit keeps the root free of decisions that rest on other scopes |
| `Activation.RootActivationCommits` | src/aasm/runtime_v21.py:167-196 | a root activation commits its slots exactly when everything it ousts belongs to the root scope |
| `Activation.StageActivation` | src/aasm/_runtime_v31_activation.py:58-157 | yields the one state that the checks allow, or fails when there is none |
| `Outcomes.ActivationRecords` | src/aasm/_runtime_v31_activation.py:58-168 | decision by decision: the activated one is ACTIVE as of this step, another occupant of its slot is SUPERSEDED by it, exactly the ACTIVE dependents of that one are SUSPENDED, all else stays |
| `Obligations.ObligationStepsKeepLocks` | src/aasm/_runtime_v31_activation.py:169-267 | enabling and locking keep every ACTIVE lock sound |
| `Engine.Engine.Commit` | src/aasm/runtime_v21.py:62-66 | stores the normal form exactly when the commit admits it, else changes nothing |
| `Commits.CheckCommit` | src/aasm/calculus.py:9-57 | accepts exactly the states whose slots agree, whose overrides are admitted, whose idle scopes are empty, whose decisions rest on what may flow to them, whose records name known records, and whose violated constraints have unresolved conflicts |
| `Commits.CommitExactly` | src/aasm/calculus.py:9-57 | the same acceptance in terms of records alone: entries and ACTIVE decisions correspond, scopes are known, overrides are declared and not denied, idle scopes are empty, parents flow down, enforced no-goods are backed, and violated ones have a conflict that is not over |
| `Commits.OwnScopeCheckSuffices` | src/aasm/calculus.py:34-46 | the own-scope check of a staged state is the whole violation check of the commit where nothing is inherited |
| `Engine.Engine.ActivateCandidate` | src/aasm/runtime_v23.py:352-394 | commits a staged candidate, or leaves the state alone when staging or the commit refuses |
| `Engine.Engine.ActivateDecision` | src/aasm/_runtime_v31_activation.py:58-167 | commits the activation, or leaves the state alone |
| `Engine.Engine.BackjumpConflict` | src/aasm/_runtime_v31_recovery.py:58-130 | commits the widened backjump, or leaves the state alone when there is no pivot, a violation remains, or the commit refuses |
| `Engine.Engine.RestartSearch` | src/aasm/_runtime_v31_recovery.py:248-292 | commits the restart, whose records `Outcomes.RestartRecords` gives, or leaves the state alone; what it reports is what was suspended |
| `Engine.Engine.RestartScope` | src/aasm/_runtime_v31_recovery.py:174-247 | the same for one subtree |
| `Engine.Engine.RaiseConflict` | src/aasm/_runtime_v31_activation.py:268-287 | records an OPEN conflict in the named scope, or that of the observing obligation, with the supplied snapshot, or else the canonical one; succeeds exactly for a fresh name, evidence on record that may flow there, a known obligation and an ACTIVE scope |
| `Engine.Engine.RegisterExplanation` | src/aasm/_runtime_v31_activation.py:288-304 | records a valid explanation in the scope of its conflict, refusing any other scope and evidence that may not flow there, and moves the conflict to EXPLAINED when it is validated |
| `Engine.Engine.Learn` | src/aasm/runtime_v21.py:408-455 | learns from exactly the valid explanations, under the assurance policy SOFT instead of HARD |
| `Engine.LearningCommits` | src/aasm/calculus.py:9-60 | learning is never refused by the commit, although the new no-good may be violated |
| `Engine.Engine.InvalidateEvidence` | src/aasm/runtime_v21.py:576-597 | expires what cites the evidence, or, when the commit refuses, leaves the knowledge alone after the evidence itself was invalidated |
| `Engine.ExpiryCommitsExactly` | src/aasm/runtime_v21.py:585-596 | the commit accepts an expiry exactly when no violated no-good loses its conflict to the evidence without citing it |
| `Engine.Engine.PromoteConstraint` | src/aasm/runtime_v24.py:175-209 | hardens a certified constraint, or leaves the state alone |
| `Engine.PromotionCommitsExactly` | src/aasm/runtime_v24.py:203-208 | the commit accepts a promotion exactly for a validated no-good with known sources whose conflict is unresolved or which no scope violates |
| `Engine.Engine.Enable` | src/aasm/_runtime_v31_activation.py:169-225 | enables exactly available work whose condition holds, unlocked, with finished dependencies |
| `Engine.Engine.PlaceLockOn` | src/aasm/_runtime_v31_activation.py:226-267 | locks exactly non-terminal work under a condition that holds in its scope |
| `Engine.Engine.SetObligationStatus` | src/aasm/runtime_v21.py:277-331 | moves an obligation only along the transition table, with a reason for final dispositions |
| `Engine.Engine.UnlockObligation` | src/aasm/runtime_v21.py:356-367 | breaks the lock and reevaluates the rest |
| `Engine.Engine.Audit` | src/aasm/runtime_v21.py:529-532 | commits the audit and returns its report |
| `Convergence.ClosingShrinks` | src/aasm/runtime_v21.py:408-455 | no step of a run opens a valuation again, except an expiry, and that exactly when every no-good excluding the valuation cites the evidence; a learning or promotion that rules out an open valuation shrinks the open space strictly |
| `Convergence.SearchIsBounded` | src/aasm/_calculus_logic.py:128-162 | over any run, with learning HARD or SOFT, promoted later or not, followed by a backjump or not, the steps that close an open valuation number at most the product of (values per subject + 1), once at the start and once more for every invalidation of evidence |
| `Convergence.RoundCloses` | src/aasm/runtime_v21.py:408-455 | a conflict raised on a clean state, whatever step built its model, and learned from HARD, closes the valuation in which it arose, which was open until then |
| `Convergence.ExclusionsPersist` | src/aasm/_calculus_logic.py:51-56 | what is excluded at the root stays excluded exactly as long as every expiry on the way leaves some no-good that excludes it |
| `Convergence.ValuationsNeverRepeat` | src/aasm/_runtime_v31_search.py:258-262 | until an expiry withdraws what was learned, no later clean state has the valuation in which a learned-from conflict arose |
| `Convergence.StepStaysClean` | src/aasm/_runtime_v31_recovery.py:58-292 | from a clean state with negation-free root knowledge, no step but learning and promotion leads to a violated no-good |
| `Convergence.RunStaysClean` | src/aasm/_runtime_v31_recovery.py:58-292 | so no state of a run satisfies a learned body from a clean state until the next learning or promotion |
| `Convergence.RoundEndsClean` | src/aasm/_runtime_v31_recovery.py:124-128 | in particular from every backjump until the next learning, where the backjump ends the round |
| `Progress.RoundCanFinish` | src/aasm/_runtime_v31_recovery.py:58-130 | after a conflict on a clean committed state was raised, explained and learned from, with a revisable causal root: the jump passes its own check, every scope is left with exactly what survives the plan, and the commit accepts it exactly when the enforced no-good is still given in no scope below and no scope in which something is uncovered is left violating a no-good of a resolved conflict |
| `Progress.RoundFinishesAlone` | src/aasm/_runtime_v31_recovery.py:58-130 | with the root as only scope the round can always be finished, commit included |
| `TruthMaintenance.UpdateCalculus` | src/aasm/_runtime_v38_dependencies.py:233-270 | the calculus part of a plan and whether anything changed |
| `TruthMaintenance.TruthKeepsIndexes` | src/aasm/_runtime_v38_dependencies.py:236-270 | keeps slots and mirror, leaves both lock invariants, and keeps ACTIVE parents when the affected decisions are closed under ACTIVE children |
| `TruthMaintenance.TruthIsLocal` | src/aasm/_runtime_v38_dependencies.py:220-271 | outside the affected nodes no decision changes, and no obligation except from LOCKED to AVAILABLE; disposed obligations never change |
| `TruthMaintenance.TruthIsIdempotent` | src/aasm/_runtime_v38_dependencies.py:233-273 | applied again, a plan finds nothing to change |
| `Outcomes.TruthRecords` | src/aasm/_runtime_v38_dependencies.py:236-270 | record by record: an affected decision that was PROPOSED, ACTIVE or SUSPENDED is INVALIDATED by this plan and none that is affected stays selectable, an affected obligation that had consumed the truth waits to be revalidated, and all else stays but for the release of LOCKED ones |
| `TruthMaintenance.CrashThenResume` | src/aasm/_runtime_v38_dependencies.py:210-280 | a crash before any durable write, then a resumption, ends in the outcome of the uninterrupted application |
| `TruthMaintenance.CrashesConverge` | src/aasm/_runtime_v38_dependencies.py:313-322 | so does any number of crashes, each during the resumption after the one before |
| `TruthMaintenance.AppliedExactlyOnce` | src/aasm/_runtime_v38_dependencies.py:210-280 | whatever the crashes, each artifact moves to STALE at most once, exactly the affected ones that were neither STALE nor terminal, and one applied record is written exactly when the commit is not refused |
| `TruthMaintenance.CompletedIsFinal` | src/aasm/_runtime_v38_dependencies.py:210-214 | a completed plan leaves nothing to write |
| `Outcomes.CompletedRecords` | src/aasm/_runtime_v38_dependencies.py:233-280 | the durable decisions after a recorded application are those of `Outcomes.TruthRecords` |
| `Outcomes.ReportExactly` | src/aasm/_runtime_v38_dependencies.py:215-271 | which identifiers the applied record lists as stale, terminal, invalidated, reopened, preserved and broken |
| `TruthMaintenance.TruthRuntime.MarkArtifacts` | src/aasm/_runtime_v38_dependencies.py:220-232 | writes one STALE transition per artifact that needs it, in plan order |
| `TruthMaintenance.TruthRuntime.ApplyTruthPlan` | src/aasm/_runtime_v38_dependencies.py:210-280 | performs exactly the pending writes in order and returns the result on record, or writes nothing when already applied or the graph is invalid |
| `TruthMaintenance.TruthRuntime.ResumeTruthMaintenance` | src/aasm/_runtime_v38_dependencies.py:313-322 | completes a recorded plan and returns its result; an unknown one is an error |
| `Runs.RunKeepsSteady` | src/aasm/calculus.py:9-60 | in every state of every run, over all sixteen kinds of step, the slots, the mirror and the records agree, every ACTIVE lock holds, and decisions keep their identity |
| `Runs.StepKeepsParents` | src/aasm/_runtime_v31_recovery.py:58-292 | for each kind of step the exact condition on the state before under which ACTIVE parents stay ACTIVE |
| `Runs.RunKeepsParents` | src/aasm/_runtime_v31_recovery.py:58-292 | ACTIVE parents hold throughout a run exactly when every step meets its condition |
| `Runs.RunKeepsFinal` | src/aasm/_calculus_logic.py:299-330 | no run moves an obligation out of REJECTED, SUPERSEDED or IMPOSSIBLE or revives a broken lock |
| `Selection.RunKeepsOut` | src/aasm/_runtime_v31_search.py:150-179 | over any run of all kinds of step, a decision that was superseded, invalidated, rejected or historical is never PROPOSED, ACTIVE or SUSPENDED again |
| `Selection.BecomesActive` | src/aasm/_runtime_v31_search.py:217-241 | a decision becomes ACTIVE only as the target of a staged candidate or of its own activation |
| `Selection.CommittedWasVerified` | src/aasm/_calculus_model.py:34-47 | over any run, work that has become COMMITTED was VERIFIED on the way and had its status set from there, by no other kind of step |
| `CalculusModel.ReachedFrom` | src/aasm/_calculus_model.py:34-47 | from which statuses the transition table leads to each |
| `Runs.WaitingWorkSurfaces` | src/aasm/_calculus_logic.py:333-401 | persistent work that keeps waiting without deferral is overdue at every audit held more than `max_hidden_epochs` after it was last considered |
| `Runs.StageExposesOverdue` | src/aasm/_runtime_v31_search.py:263-277 | under BLOCK_PLANNING a candidate staged while work is overdue brings to the surface some overdue obligation, as the gate reads it |
| `Runs.StepDrifts` | src/aasm/_runtime_v31_recovery.py:58-292 | every step but learning, expiry and promotion leaves indexes, decisions and knowledge as the bound on the search assumes |
| `Reactive.ReactiveRuntime.Derive` | src/aasm/_runtime_v38_dependencies.py:151-196 | the loops compute the specified derivation over rules sorted by name and the history as each rule finds it; a negative start is an error |
| `Reactive.CallKeeps` | src/aasm/_runtime_v38_dependencies.py:171-192 | nothing on record is derived again, and the history only grows, by one `snapshot_patched` and one `evidence_added` event per derivation |
| `Reactive.CallCovers` | src/aasm/_runtime_v38_dependencies.py:164-192 | a completed call covers every event already present that a rule watches for: each for an ordinary rule, some for a once-rule |
| `Reactive.CallTriggered` | src/aasm/_runtime_v38_dependencies.py:166-168 | every derivation answers a matching event of at least the starting sequence |
| `Reactive.DerivationsBearTheFilter` | src/aasm/_runtime_v38_dependencies.py:135-140 | no rule derives from an event of another kind, or that lacks or differs at a key of the rule's filter |
| `Reactive.IdleExactly` | src/aasm/_runtime_v38_dependencies.py:151-196 | a call completes without writing exactly when every rule is satisfied |
| `Reactive.SecondCallIdle` | src/aasm/_runtime_v38_dependencies.py:151-196 | a second call creates nothing when no rule watches either kind of event that a derivation writes |
| `Reactive.NeverRests` | src/aasm/_runtime_v38_dependencies.py:176-192 | an unfiltered ordinary rule that watches either of them always leaves the next call something to create, as long as that call starts no later than the last event of the kind |
| `Reactive.AtMostOnceEver` | src/aasm/_runtime_v38_dependencies.py:157-163 | over any sequence of calls, stopped ones included, no rule and event derive twice and a once-rule derives at most once |
| `Typed.StateSubjectInjective` | src/aasm/_runtime_v39_typed.py:66 | different patterns have different state subjects |
| `Typed.TypedRunSound` | src/aasm/_runtime_v39_typed.py:68-115 | under any interleaving of proposals, interrupted proposals, authorisations, engine steps and lawful registrations by hand, every typed value and every current state is reachable from the initial state |
| `Typed.HandRegistrationExactly` | src/aasm/_runtime_v39_typed.py:66-76 | a decision registered by hand keeps the protocol sound exactly when it carries a reachable state for every pattern whose state it is about |
| `Typed.StepReachesExactly` | src/aasm/_runtime_v39_typed.py:68-76 | from a reachable current state a step leads to an unreachable one exactly when it activates a decision about the pattern's state that carries one, however that decision was registered |
| `Typed.RunReachesExactly` | src/aasm/_runtime_v39_typed.py:68-76 | over a whole run every current state is reachable exactly when no step activates an unreachable one |
| `Typed.AuthorizationArrives` | src/aasm/_runtime_v39_typed.py:103-115 | an authorised proposal leaves from the current state and arrives at its target |
| `Typed.AuthorizedPathContiguous` | src/aasm/_runtime_v39_typed.py:103-115 | between losses of the state decision the authorised transitions form one path from the current state to the current state |
| `Typed.NoDoubleAuthorization` | src/aasm/_runtime_v39_typed.py:103-115 | two proposals from one state are both authorised only if the machine came back to it |
| `Typed.RunAuthorizesFinishedWork` | src/aasm/_runtime_v39_typed.py:107-110 | in every typed run, at each authorisation every owed obligation is on record and VERIFIED or COMMITTED, and the pattern still stands in the source state |
| `Typed.OwingIsNotAuthorized` | src/aasm/_runtime_v39_typed.py:109-110 | a proposal that owes an obligation which is missing or in any other status is authorised by no step |
| `Typed.ReachableAreStates` | src/aasm/typed_protocol.py:179-197 | reachable states are states of the pattern |
| `Typed.TypedRuntime.ProposeTypedTransition` | src/aasm/_runtime_v39_typed.py:78-101 | registers decision, obligations and proposal, or fails leaving at most an unproposed decision |
| `Typed.ProposingMovesNothing` | src/aasm/_runtime_v39_typed.py:78-101 | a proposal answers its event with a transition from the current state, is recorded as such, and changes no pattern's current state |
| `Typed.TypedRuntime.AuthorizeTypedTransition` | src/aasm/_runtime_v39_typed.py:103-115 | activates exactly fresh proposals all of whose obligations are VERIFIED or COMMITTED, refuses every other, and then changes nothing |
| `Debt.ValidateCanonicalEdges` | src/aasm/_epistemic_debt.py:324-350 | accepts exactly the states whose stored edges represent the dependencies: each once, none missing, extra or dangling |
| `Debt.ProjectEpistemicDebt` | src/aasm/_epistemic_debt.py:353-427 | fails exactly on inadmissible edges, else lists exactly the unsatisfied obligations in order, each classified by its status |
| `Debt.DebtExactly` | src/aasm/_epistemic_debt.py:387-427 | status by status, which obligations a projection lists, and in which class |
| `Debt.EdgesExactly` | src/aasm/_epistemic_debt.py:324-350 | admissible edges lead, each once, from each dependency to the obligation that has it, as REQUIRES, and none from an unknown one |
| `Debt.CountsAreExact` | src/aasm/_epistemic_debt.py:267-275 | the counts are the sizes of the two classes of debt in the store |
| `Debt.ValidateProjection` | src/aasm/_epistemic_debt.py:430-460 | accepts exactly the one projection of the state, and reports the sizes of the classes of debt |
| `Debt.ProjectionUnique` | src/aasm/_epistemic_debt.py:353-427 | a state has one projection |
| `Debt.RecoveryAccounting` | src/aasm/_epistemic_debt.py:389-427 | a backjump leaves the terminal-unresolved count, raises the outstanding count by exactly the impacted obligations that were VERIFIED or COMMITTED, and keeps the projection admissible |
| `Debt.RecoveryOwes` | src/aasm/_calculus_logic.py:299-303 | no obligation leaves the debt |
| `Witnesses.RestartCanOrphan` | src/aasm/_runtime_v31_recovery.py:255-268 | a committed state in which a restart leaves a pinned decision without its parent, and the commit accepts it |
| `Witnesses.ScopeRestartCanOrphan` | src/aasm/_runtime_v31_recovery.py:174-247 | the same for the restart of one scope |
| `Witnesses.RestartCanViolate` | src/aasm/_runtime_v31_recovery.py:274-278 | a clean committed state in which a guard with `not` makes a restart violate a no-good |
| `Witnesses.RestartCanBare` | src/aasm/_runtime_v31_recovery.py:274-278 | a clean committed state without `not` in which suspending an override uncovers a pinned value that the scope has ruled out |
| `Witnesses.RestartCanBeRefused` | src/aasm/_runtime_v31_recovery.py:274-292 | a clean committed state from which a restart passes its own check and is refused by the commit, because a child scope is left violating a root no-good of a resolved conflict |
| `Witnesses.ActivationCanOrphan` | src/aasm/_runtime_v31_activation.py:83-137 | a committed state in which a scoped activation suspends the parent it just checked, and the commit accepts it |
| `Witnesses.RootActivationCanBeRefused` | src/aasm/runtime_v21.py:167-196 | a committed state in which a root activation passes every check and is refused by the commit |
| `Witnesses.BackjumpCanOrphan` | src/aasm/_runtime_v31_recovery.py:79-130 | a committed state with a valid explanation whose child-scope backjump leaves an ACTIVE decision without its parent, and the commit accepts it |
| `Witnesses.TruthPlanCanOrphan` | src/aasm/_runtime_v38_dependencies.py:236-270 | a committed state in which a plan that names a parent but not its child leaves the child ACTIVE, and the commit accepts it |
| `Witnesses.RowOrderMatters` | src/aasm/_runtime_v31_search.py:150-215 | a committed state and an admissible candidate whose rows, in the order of their keys, the first pass refuses, so that it is never staged, and would admit in the other order |
| `LearningWitnesses.LearningCanForget` | src/aasm/runtime_v21.py:408-455 | two learning steps from a committed state, both committed, after which the root's own valuation violates what was learned for the root and is not excluded there |
| `LearningWitnesses.LearningCanRetire` | src/aasm/runtime_v21.py:434-449 | two learning steps from a committed state, both committed, of which the second, in a child scope, makes the root allow its own valuation again |
| `LearningWitnesses.ExpiryReopens` | src/aasm/runtime_v21.py:576-597 | a learning step and an invalidation of evidence, both committed, after which the root's own valuation is open again |
| `LearningWitnesses.BackjumpCanBeRefused` | src/aasm/_runtime_v31_recovery.py:124-130 | a conflict on a clean committed state, raised, explained and learned from, whose backjump passes its own check and is refused by the commit, because a child scope takes the same value for itself |
| `GateWitnesses.ChildOpensGate` | src/aasm/_runtime_v31_search.py:263-277 | a candidate that sets a subject for a child scope passes the gate, while the only overdue obligation, a root one, has the same false condition at the root as before |
| `GateWitnesses.ChildValuesOpenGate` | src/aasm/_runtime_v31_search.py:263-277 | a root candidate passes because the condition holds in the values of a child scope, while it stays false at the root |

## Left out

- Engine.Engine.Commit: without the checks of the assurance layer (`runtime_v24.py`) on certificates, and with evidence records outside the state.
- Engine.Engine.ActivateCandidate: starts from normalised assignments; the candidate's own lifecycle, its revalidation and the completion of its assignments by pinned decisions come before it and are not modelled.
- Engine.Engine.Learn: the assurance policy arrives as a boolean.
- Engine.Engine.PromoteConstraint: the certificate, its verification and the assurance policy arrive as one boolean.
- Engine.Engine.InvalidateEvidence: begins after the evidence ledger, which is outside the state, has accepted the invalidation.
- Reactive.ReactiveRuntime.Derive: the list of skipped events and their reasons is not returned; what was created is the new part of the derivations on record.
- Debt.ProjectEpistemicDebt: without the problem revision, the phase plan and the fields about evidence and statements, which are copied through.
- TruthMaintenance.TruthRuntime.ResumeTruthMaintenance: other steps between a crash and its resumption are assumed not to intervene.
- Typed.TypedRunSound: registrations by hand are moves as far as they carry a reachable state; the others break the claim, exactly (`Typed.HandRegistrationExactly`).
- Convergence.SearchIsBounded: counts closings of the root's valuations while all learning concerns the root; a no-good of a child scope may retire one of the root (`LearningWitnesses.LearningCanRetire`), and a covered one closes nothing where it was learned (`LearningWitnesses.LearningCanForget`).
- Convergence.RunStaysClean: stated for root knowledge, because a truth plan may bare an inherited value in a child scope without any check (`Shrinking.ShrinkingSafeExactly`).
- Hashing, canonical JSON, fingerprints and tamper checks: names derived from hashes are taken to be injective.
- `normalize_calculus_state` and the scope normalisation fill defaults and migrate old snapshots; states here are normalised, and only the copy of `active_model` into the root scope's model is modelled.
- Registration of decisions, obligations, scopes and dependencies (`register_*`) is modelled only as far as typed proposals need it; other registrations would add members whose proof is their frame.
- `review_calculus_fairness` (deferral and disposition by a planner) and `configure_calculus_fairness`: field updates followed by the audit that is modelled. A disposition there may replace one final disposition by another.
- Certificates of proven explanations (`runtime_v24.py`): one flag on the explanation stands for them. `minimize_conflict` adds an explanation in the way `register_explanation` does, and is no step of its own.
- The evidence contract of VERIFIED and COMMITTED, payload validation against JSON schemas, and authority classes are decided outside and arrive as booleans.
- The validity of the semantic dependency graph, and the computation of a truth plan from it, arrive as parameters.
- Crash results of a truth plan are compared without the identifier lists of the applied record, as interrupted runs report fewer identifiers.
- Plan-graph updates, change-impact reports and planner requirements around a backjump; scheduler, workers, stores and leases.
- Error values carry an error class and a short reason, not the source's full message, and where several checks fail at once the order of reporting is not modelled.
- Decision values are strings compared by equality; the subsumption scan compares literal values by their printed form, which is the same thing for strings.
- Unknown condition operators and malformed literals, which the record constructors reject before the logic sees them.
- Explanation bodies are sets of literals: order and repetition, which the constraint record sorts away, are not kept.
- Names with surrounding blanks, which the debt projection strips before comparing edges.
