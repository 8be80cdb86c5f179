# eCloud Manager: verified models

A Dafny project that models the parts of eCloud Manager where state, recursion and arithmetic are hardest to
get right, and proves what they are for. `dafny verify dfyconfig.toml` checks all of it.

## What is modelled

**The deployment action engine** (`Action*.dfy`). Actions form a tree of groups; sequences make each action
depend on the one before it; failures spread as NOT_RUN; a group's status is recomputed, with early exits and
writes, whenever it is asked. `ActionGraph` gives the meaning of each method as a function on the stored statuses.
`ActionHeap` holds the objects, whose methods are proved to do exactly that, and `ActionExecutor` the scheduling
loop with its pool. `ActionRuns` is the transition system: one executor picks and marks, workers end in any order,
anyone may ask for a status at any time. On it stand the invariant (`ActionInvariant`, `ActionReading`),
dependency safety, the order of starts, finality and outcome, and progress by an explicit measure
(`ActionProgress`). `ActionStuck` says exactly when a plan comes to rest without being done, `ActionSettle` when
all goes well in the end, `ActionHold` which actions can be the last to end, and `ActionHostage` how one failure makes a
plan wait for ever. `ActionAssembly` and
`ActionObjects` build the objects of a plan with `addDependencies`, `actionSequence` and `actionGroup` and show
that they form the plan's graph; `EmptyGroups` has the plans whose runs all keep the order.

**The plan compiler** (`Deployers`, `Resources`, `Convergence`, `UpdateChoice`, `UpdatePlans`, `LevelOrder`, `PlanOrder`,
`PlanNumbers`, `PlanSchedule`). Deployment trees are compiled into plans. A plan that lets no two unordered actions
touch one resource has one result, whatever interleaving the engine takes; the compiled plans are of this kind, but
for the firewall rules that machines make on their suppliers; and their result is what the deployment describes.

**What compiled plans compute** (`CompiledPlans`, `ComputedDependencies`, `PlanSteps`, `Machines`, `Hostages`, `HostageRuns`,
`FirewallRules`, `UpdateResults`). Firewall rules wait for the configuration of the suppliers, provisioning for the
environment. With these dependencies the plans have no cycles; they end in every case exactly when they hold no
hostages; and what becomes of the rules on suppliers, made in any order by actions that nothing orders, is known.
`PlanExecution` joins everything: compile, assemble, compute, execute, and know the world afterwards.

**The deployment tree** (`DeploymentPaths`, `DeploymentConfig`). Relative paths are printed and resolved again, and
configuration values are followed through paths, references, defaults and extended configurations. Objects are
numbered, each after its parent, and stand for themselves.

**Arithmetic and arrays of the browser shims** (`Arithmetic`, `Decimals`, `BigNumbers`, `ToFixed`, `Splice`,
`Calendar`, `IsoDates`), against ECMA-262, edition 5.1: the six-limb number behind `toFixed` (section 15.7.4.5),
`splice` in place on arrays with holes (section 15.4.4.12), the day count and the date format (sections 15.9.1.3
to 15.9.1.5 and 15.9.1.15).

**Smaller cores.** Backbone's collection and its index (`Collection`), marked's blocks and tokens (`MarkdownBlocks`, `Markdown`,
`MarkdownLexer`), HAProxy's weights and key store (`HAProxyWeights`, `HAProxyShares`, `HAProxySums`, `HAProxyStore`,
with rule evaluation as in the HAProxy Configuration Manual 1.6, sections 7.2 and 7.3.2), task logs (`TaskLogs`) and
links (`Links`).

Code that updates fields is modelled by classes and loops, proved against functions about which the lemmas speak;
code that computes is modelled by functions. Dafny's automatic induction is switched off on every lemma: each
inductive proof names the smaller cases it uses.

## Where the code and its promise differ

The model follows the code. These points are proved, as a condition that is met exactly when the promise is kept
or as a concrete counterexample.

- An update in place refreshes neither the firewall rules of a machine nor the parameters that are fixed at its
  creation, and `isRecreateActionRequired` compares only parameters given on both sides. A load balancer whose
  gateway changes is reconfigured at the old gateway, because the deployer keeps the first one it looked up
  (`UpdateLandsIff`). Rules on suppliers are made only by new machines: a machine that is kept loses them when its
  supplier is recreated, and gets none when it is linked to another one. `UpdateConverges` has the exact condition.
- An update can wait for ever: if a machine that is made anew is linked to a recreated one, and removing the latter
  fails, its new configuration is neither run nor NOT_RUN, since a group that is not run leaves its members PENDING
  (`HostageWaitsForEver`). `UpdateEndsIff` says when all updates end, `StuckIff` when any plan rests before it is
  done. Where machines are not configured on creation the update ends, but may lose rules (`EveryRunConverges`).
- An empty group is SUCCESSFUL at once and does not carry the order of a sequence across (`EmptyGroupBreaksOrder`).
  The order is kept in all runs exactly of those plans in which no item with nothing to run stands between two items
  of a sequence that run something (`OrderIffTame`); all compiled plans are of this kind (`UpdateSound`).
- Weights above a hundred in sum make the shares wrong (`WeightsAreExact`), and so does, with a sum below a hundred, every
  backend with a weight that is listed twice: each of its rules draws anew for all its access lists (`BelowHundred`;
  `SumsAreExact` for all lists).
- Looking up a name through a path throws where an object on the way has a dangling extended configuration, though
  the path itself leads to an object (`ConfigRefinesPaths`).
- Two or more models put into a collection at a place below zero do not end up side by side and in order, unless they
  are two and the place is just before the first of some models (`InsertedSideBySide`).
- What a task logs between the last poll and the look at `isDone` is lost (`WaitForDelivers`, `LastWordsAreLost`).


## Model

| member | source | states |
|---|---|---|
| ActionHeap.Action.SetStatus | ecloud-manager-ejb/src/main/java/org/ecloudmanager/service/execution/Action.java:110-117 | A failure written on an action spreads NOT_RUN along `requiredBy`; the stored statuses change as the function of that name says, and nothing else does. |
| ActionHeap.Action.GetStatus | ecloud-manager-ejb/src/main/java/org/ecloudmanager/service/execution/ActionGroup.java:68-114 | The summary loop with its flags, early exits and writes, on the objects: it answers and stores what the recursive definition says. |
| ActionHeap.Action.IsDone | ecloud-manager-ejb/src/main/java/org/ecloudmanager/service/execution/Action.java:119-121 | Two readings of the status, each of which may write; FAILED by the first or SUCCESSFUL by the second. |
| ActionHeap.Action.FailedOrNotRun | ecloud-manager-ejb/src/main/java/org/ecloudmanager/service/execution/Action.java:130-132 | The test of a dependency asks its status twice, and the second reading sees what the first one wrote. |
| ActionHeap.Action.CheckOne | ecloud-manager-ejb/src/main/java/org/ecloudmanager/service/execution/Action.java:129-137 | One dependency: NOT_RUN is written on the waiting action if it failed or was not run, and then it is asked once more. |
| ActionHeap.Action.IsReady | ecloud-manager-ejb/src/main/java/org/ecloudmanager/service/execution/Action.java:123-139 | Ready means PENDING with all dependencies SUCCESSFUL, in the order and with the writes of the loop. |
| ActionHeap.Action.GetDependencies | ecloud-manager-ejb/src/main/java/org/ecloudmanager/service/execution/Action.java:150-152 | What an override computed, followed by the static dependencies. |
| ActionHeap.Action.Singles | ecloud-manager-ejb/src/main/java/org/ecloudmanager/service/execution/Action.java:140-148 | The stream of an action's single actions is those of the graph, from left to right. |
| ActionHeap.Action.GetAvailableAction | ecloud-manager-ejb/src/main/java/org/ecloudmanager/service/execution/ActionGroup.java:54-66 | The pass over the tree: the action returned and the statuses written are those of the recursive definition, for groups and single actions. |
| ActionHeap.Action.Apply | ecloud-manager-ejb/src/main/java/org/ecloudmanager/service/execution/SingleAction.java:104-120 | A callable that ends well or throws leaves SUCCESSFUL or FAILED (with what a failure spreads); an action that is not RUNNING is refused and nothing changes. |
| ActionAssembly.AddDependencies | ecloud-manager-ejb/src/main/java/org/ecloudmanager/service/execution/Action.java:94-104 | Both ends of every dependency are recorded: `depends` gets the non-null ones in order, and each of them is required by the action once more for each time it is named. |
| ActionAssembly.AddAction | ecloud-manager-ejb/src/main/java/org/ecloudmanager/service/execution/ActionGroup.java:47-51 | A non-null action becomes the last member; null changes nothing. |
| ActionAssembly.ActionSequence | ecloud-manager-ejb/src/main/java/org/ecloudmanager/service/execution/Action.java:55-68 | A new group holds the non-null actions, each but the first depends on the one before it, each but the last is required by the next, on top of the links they had. |
| ActionAssembly.ActionGroup | ecloud-manager-ejb/src/main/java/org/ecloudmanager/service/execution/Action.java:78-84 | A new group holds the non-null actions in order and links none of them. |
| ActionObjects.FormsGraph | ecloud-manager-ejb/src/main/java/org/ecloudmanager/service/execution/Action.java:55-88 | Objects put together by nested combinators represent exactly the graph of the plan: members, dependencies in both directions, and nothing else. |
| ActionObjects.Assemble | ecloud-manager-ejb/src/main/java/org/ecloudmanager/service/execution/Action.java:51-88 | For every plan the combinators build new, pending objects that represent its graph, so what is proved of the graph holds of them. |
| ActionTree.PlanHasGraph | ecloud-manager-ejb/src/main/java/org/ecloudmanager/service/execution/Action.java:55-88 | Every plan has an action graph: items of a sequence depend on the item before, groups hold their items. |
| ActionTree.PlanWellFormed | ecloud-manager-ejb/src/main/java/org/ecloudmanager/service/execution/Action.java:94-104 | The graph of any plan is well formed whatever dependencies are computed: the two ends of each static dependency agree, and they stay within one group. |
| ActionInvariant.SetStatusWrites | ecloud-manager-ejb/src/main/java/org/ecloudmanager/service/execution/Action.java:110-117 | Writing a status changes the action and, on a failure, marks exactly what is downstream of it NOT_RUN. |
| ActionInvariant.DownstreamOfBad | ecloud-manager-ejb/src/main/java/org/ecloudmanager/service/execution/Action.java:112-116 | Everything downstream of a FAILED or NOT_RUN action is NOT_RUN. |
| ActionInvariant.HollowShelters | ecloud-manager-ejb/src/main/java/org/ecloudmanager/service/execution/ActionGroup.java:108-113 | Inside a group with nothing to run no failure arrives from outside. |
| ActionReading.ScanKeeps | ecloud-manager-ejb/src/main/java/org/ecloudmanager/service/execution/ActionGroup.java:79-106 | The summary loop keeps the invariant from any position, whatever it has seen so far. |
| ActionReading.IsReadyKeeps | ecloud-manager-ejb/src/main/java/org/ecloudmanager/service/execution/Action.java:123-139 | Asking whether an action is ready keeps the invariant; if it answers yes the action and its dependencies are as a start needs them. |
| ActionReading.GetAvailableKeeps | ecloud-manager-ejb/src/main/java/org/ecloudmanager/service/execution/ActionGroup.java:54-66 | A pass keeps the invariant, moves statuses only onward, starts and ends nothing, and returns only an action that may be started. |
| ActionRuns.StepKeeps | ecloud-manager-ejb/src/main/java/org/ecloudmanager/service/execution/ActionExecutor.java:54-78 | Every step of the system (asking, picking, marking, a worker ending well or badly) keeps the invariant and moves statuses only onward. |
| ActionRuns.RunKeeps | ecloud-manager-ejb/src/main/java/org/ecloudmanager/service/execution/ActionExecutor.java:54-78 | The invariant holds in every state of every run. |
| ActionRuns.DependencySafety | ecloud-manager-ejb/src/main/java/org/ecloudmanager/service/execution/Action.java:123-138 | In every reachable state a single action that is RUNNING, SUCCESSFUL or FAILED has all its dependencies SUCCESSFUL, static and computed, and so has every group around it. |
| ActionRuns.RunsExtendTheOrder | ecloud-manager-ejb/src/main/java/org/ecloudmanager/service/execution/Action.java:55-68 | Every run is a linear extension of the order of the plan: an action starts only after all that comes before it has ended well. |
| ActionRuns.RunsOnce | ecloud-manager-ejb/src/main/java/org/ecloudmanager/service/execution/SingleAction.java:104-120 | The history of a single action is nothing, a start, or a start and one end, as its status says; so its callable runs at most once. |
| ActionRuns.StatusFinality | ecloud-manager-ejb/src/main/java/org/ecloudmanager/service/execution/Action.java:110-117 | Over any stretch of a run single actions go only from PENDING to RUNNING to SUCCESSFUL or FAILED, or from PENDING to NOT_RUN. |
| ActionRuns.RunOutcome | ecloud-manager-ejb/src/main/java/org/ecloudmanager/service/execution/ActionGroup.java:68-114 | A SUCCESSFUL plan has only SUCCESSFUL actions; and if anything is FAILED or NOT_RUN then some single action FAILED. |
| ActionProgress.ForwardDrops | ecloud-manager-ejb/src/main/java/org/ecloudmanager/service/execution/ActionGroup.java:53-114 | The measure never grows when statuses move onward, and drops when any status changes. |
| ActionStuck.StuckIff | ecloud-manager-ejb/src/main/java/org/ecloudmanager/service/execution/ActionGroup.java:53-114 | When nothing runs and a pass neither returns nor writes anything, the plan is not done if and only if some single action waits in vain: all it waits for statically is SUCCESSFUL, and from a PENDING dependency that it computed a trail of waits leads to a member of a group that was not run, or into a cycle. |
| ActionStuck.RestsForEver | ecloud-manager-ejb/src/main/java/org/ecloudmanager/service/execution/ActionExecutor.java:57-73 | A plan at rest that is not done stays so: the condition of the loop and the pass change nothing, ever. |
| ActionStuck.VainNeverStarts | ecloud-manager-ejb/src/main/java/org/ecloudmanager/service/execution/ActionExecutor.java:54-78 | In any run, from the moment when an action waits in vain it never starts, and the plan never becomes SUCCESSFUL. |
| ActionStuck.RestIsDone | ecloud-manager-ejb/src/main/java/org/ecloudmanager/service/execution/ActionGroup.java:53-114 | If the order of a plan, computed dependencies included, has no cycle, then at rest the plan is SUCCESSFUL unless something failed; and it is done in any case if whatever can pass over a group around a computed dependency also comes before the action that computed it. |
| ActionStuck.Progress | ecloud-manager-ejb/src/main/java/org/ecloudmanager/service/execution/ActionGroup.java:53-114 | While nothing runs, a pass returns an action, or lowers the measure, or the plan is SUCCESSFUL or FAILED, or it rests for ever because some action waits in vain; for all plans, with computed dependencies. |
| ActionSettle.SucceedsIffAcyclic | ecloud-manager-ejb/src/main/java/org/ecloudmanager/service/execution/ActionExecutor.java:54-78 | Every run in which no action fails and that comes to rest is SUCCESSFUL if and only if the order of the plan, computed dependencies included, has no cycle; some such run exists for every plan. |
| ActionHostage.OneFailureHangs | ecloud-manager-ejb/src/main/java/org/ecloudmanager/actions/CreateFirewallRulesAction.java:77-97 | For every plan with a hostage: the failure of one action lets a run come to rest before the plan is done, because another action computed a dependency in a group that the failure passes over. |
| ActionProgress.PassOverlooksNothing | ecloud-manager-ejb/src/main/java/org/ecloudmanager/service/execution/ActionGroup.java:54-66 | A pass over any part that returns null leaves none of its single actions waiting with all it waits for ended well; computed dependencies included. |
| ActionProgress.NullMeansNothingToStart | ecloud-manager-ejb/src/main/java/org/ecloudmanager/service/execution/ActionGroup.java:54-66 | The engine is work-conserving: null for the whole plan means that no waiting action could be started. |
| ActionExecutor.Turn | ecloud-manager-ejb/src/main/java/org/ecloudmanager/service/execution/ActionExecutor.java:58-73 | One turn of the loop: an action is picked, marked RUNNING and handed to the pool, or some worker ends; the objects stay those of a run. |
| ActionExecutor.Round | ecloud-manager-ejb/src/main/java/org/ecloudmanager/service/execution/ActionExecutor.java:57-73 | Workers that end, a turn, and the condition again: each such round lowers the work left or finds the plan done. |
| ActionExecutor.ExecuteTurns | ecloud-manager-ejb/src/main/java/org/ecloudmanager/service/execution/ActionExecutor.java:54-78 | The loop on any plan, for any number of turns: after three turns for each action the plan is done, or it rests for ever and some action waits in vain. |
| ActionExecutor.Execute | ecloud-manager-ejb/src/main/java/org/ecloudmanager/service/execution/ActionExecutor.java:54-78 | Total correctness of the scheduling loop with workers that end at any time in any order, on plans without cycles and hostages, computed dependencies included: it ends, what it did is a run, and the root is SUCCESSFUL with every action so, or FAILED with a single action that failed. |
| EmptyGroups.EmptyGroupBreaksOrder | ecloud-manager-ejb/src/main/java/org/ecloudmanager/service/execution/ActionGroup.java:108-113 | Every plan in which some sequence has an item with nothing to run between two that run something has a run that breaks the order: an action right of the gap starts while one left of it runs. |
| EmptyGroups.OrderIffTame | ecloud-manager-ejb/src/main/java/org/ecloudmanager/service/execution/Action.java:55-68 | The runs of a plan are all linear extensions of its order if and only if no sequence has such a gap. |
| ComputedWaits.ComputedDependencyWaitsForEver | ecloud-manager-ejb/src/main/java/org/ecloudmanager/actions/CreateFirewallRulesAction.java:77-97 | The smallest such plan, with its states: nothing runs, the plan is PENDING, and every step leads back. |
| PlanOrder.TamePlanTameGraph | ecloud-manager-ejb/src/main/java/org/ecloudmanager/service/execution/Action.java:55-68 | If no sequence of a plan has an item with nothing to run between two that run something, the graph meets what the results about order need. |
| PlanOrder.PrecedesLeads | ecloud-manager-ejb/src/main/java/org/ecloudmanager/service/execution/Action.java:55-68 | If one item of a sequence stands before another, at any depth, everything in the first comes before everything in the second in the graph. |
| PlanNumbers.BeforeIffPrecedes | ecloud-manager-ejb/src/main/java/org/ecloudmanager/service/execution/Action.java:55-68 | One action comes before another in the graph exactly if it stands left of it in some sequence of the plan, or the other computed it. |
| PlanSchedule.CompletedOnce | ecloud-manager-ejb/src/main/java/org/ecloudmanager/service/execution/ActionExecutor.java:57-66 | In a run that ends SUCCESSFUL every single action was started once and ended well once. |
| PlanSchedule.TouchersEndInOrder | ecloud-manager-ejb/src/main/java/org/ecloudmanager/service/execution/Action.java:55-68 | Of two actions that touch one resource, the one further left in the plan ended first. |
| PlanSchedule.InterleavingsAgree | ecloud-manager-ejb/src/main/java/org/ecloudmanager/service/execution/ActionExecutor.java:54-78 | Whatever order a completed run took, each resource is left as if the actions had been performed one by one from left to right. |
| PlanSchedule.EachActionOnce | ecloud-manager-ejb/src/main/java/org/ecloudmanager/service/execution/ActionExecutor.java:54-78 | A completed run performs the actions of the plan, each exactly once. |
| Convergence.CreateLeaves | ecloud-manager-ejb/src/main/java/org/ecloudmanager/deployment/core/AbstractDeployer.java:58-73 | Performed from left to right on nothing, a creation plan leaves of every resource but the rules for suppliers what the deployment describes. |
| Convergence.DeleteLeaves | ecloud-manager-ejb/src/main/java/org/ecloudmanager/deployment/core/AbstractDeployer.java:75-90 | Performed from left to right, a deletion plan leaves nothing of what the deployment describes. |
| Convergence.UpdateLeaves | ecloud-manager-ejb/src/main/java/org/ecloudmanager/deployment/core/AbstractDeployer.java:92-147 | Performed from left to right, an update leaves of every such resource the new description, but for what an update in place does not refresh and for a configuration that stays at the old gateway. |
| UpdateChoice.RecreatesIff | ecloud-manager-ejb/src/main/java/org/ecloudmanager/deployment/vm/infrastructure/InfrastructureDeployerImpl.java:134-146 | An update deletes the old machine exactly if something failed on it in the last attempt, or some parameter that cannot be configured is given on both sides with different values; otherwise it updates it in place. |
| UpdateChoice.MachineUpdateOps | ecloud-manager-ejb/src/main/java/org/ecloudmanager/deployment/vm/VMDeployer.java:106-122 | The actions of the update of a machine, one by one, in either case, with provisioning in place exactly when it is forced, the environment is stale or the run list changed. |
| UpdateChoice.ParametersLeft | ecloud-manager-ejb/src/main/java/org/ecloudmanager/deployment/vm/infrastructure/InfrastructureDeployerImpl.java:134-146 | An update leaves a machine with the new parameters exactly if it recreates it, or both sides give the same names of parameters that cannot be configured. |
| CompiledPlans.CompiledPlansAcyclic | ecloud-manager-ejb/src/main/java/org/ecloudmanager/actions/CreateFirewallRulesAction.java:77-97 | Firewall rules wait for the configuration of their suppliers, and provisioning for the creation of the environment: with these computed dependencies the order of every compiled plan is still without cycles. |
| CompiledPlans.SideBySide | ecloud-manager-ejb/src/main/java/org/ecloudmanager/deployment/ps/HAProxyDeployer.java:321-360 | The proxy of a service and its public ports are made, and removed, side by side: no sequence orders them. |
| ComputedDependencies.ComputesExactly | ecloud-manager-ejb/src/main/java/org/ecloudmanager/actions/CreateFirewallRulesAction.java:77-97 | What a single action computes is exactly the first creation of an environment, if it provisions, and the first configuration of each of its suppliers, if it makes rules; nothing else computes anything. |
| ComputedDependencies.ComputesInOrder | ecloud-manager-ejb/src/main/java/org/ecloudmanager/actions/CreateFirewallRulesAction.java:77-97 | They are computed in the order in which the machine asks its suppliers; one that is not configured in the plan is left out. |
| ComputedDependencies.EnvironmentFirst | ecloud-manager-ejb/src/main/java/org/ecloudmanager/actions/ProvisionVmAction.java:32-42 | In every reachable state a provisioning that has started comes after the first creation of a chef environment in the plan, which has ended well. |
| ComputedDependencies.SuppliersFirst | ecloud-manager-ejb/src/main/java/org/ecloudmanager/actions/CreateFirewallRulesAction.java:77-97 | In every reachable state an action that has started to make rules comes after the first configuration of each of its suppliers in the plan, which has ended well. |
| Hostages.UpdateIsFree | ecloud-manager-ejb/src/main/java/org/ecloudmanager/actions/CreateFirewallRulesAction.java:77-97 | An update has no hostages unless some machine that is made anew asks a recreated machine for a rule. |
| Hostages.CreateAndDeleteAreFree | ecloud-manager-ejb/src/main/java/org/ecloudmanager/deployment/core/AbstractDeployer.java:58-90 | Creations and deletions never have hostages. |
| HostageRuns.HostageWaitsForEver | ecloud-manager-ejb/src/main/java/org/ecloudmanager/actions/CreateFirewallRulesAction.java:77-97 | If some machine that is made anew is linked to a recreated one, the failure to remove that one leaves the update waiting for ever: nothing runs, and it is not done. |
| HostageRuns.UpdateEndsIff | ecloud-manager-ejb/src/main/java/org/ecloudmanager/deployment/vm/VMDeployer.java:106-119 | Every run of an update that comes to rest is done if and only if no machine that is made anew is linked to another one that is recreated (or machines are not configured on creation, or not firewalled). |
| HostageRuns.UnharmedPlansSucceed | ecloud-manager-ejb/src/main/java/org/ecloudmanager/deployment/core/AbstractDeployer.java:58-147 | Every run of a compiled plan that comes to rest without a failure is SUCCESSFUL, with the computed dependencies, on the whole domain of the compiler. |
| FirewallRules.RuleOutcome | ecloud-manager-ejb/src/main/java/org/ecloudmanager/actions/CreateFirewallRulesAction.java:57-69 | Rules are made on suppliers by actions that nothing orders among each other. In every completed run a rule is there if some action makes it, given that one does so after all that can remove it; and is gone if it is only removed. |
| FirewallRules.RulesMade | ecloud-manager-ejb/src/main/java/org/ecloudmanager/actions/CreateFirewallRulesAction.java:34-71 | What making rules leaves: the rules of the own machine, on each supplier the rule that lets the own node in at the port of the endpoint, and everything else as it was. |
| ActionHold.TheseEndFirst | ecloud-manager-ejb/src/main/java/org/ecloudmanager/service/execution/ActionExecutor.java:54-78 | Workers may take their time: for every set of actions that waits for nothing outside it, some run ends all of it before anything else, and succeeds. |
| UpdatePlans.CreateSound | ecloud-manager-ejb/src/main/java/org/ecloudmanager/deployment/core/AbstractDeployer.java:58-73 | Creation plans are tame and let no two unordered actions touch one resource, other than rules on suppliers, which only add. |
| UpdatePlans.DeleteSound | ecloud-manager-ejb/src/main/java/org/ecloudmanager/deployment/core/AbstractDeployer.java:75-90 | So are deletion plans. |
| UpdatePlans.UpdateSound | ecloud-manager-ejb/src/main/java/org/ecloudmanager/deployment/core/AbstractDeployer.java:92-147 | So are update plans, for any two deployments with distinct sibling names and same-named children of one kind. |
| UpdateResults.CreationConverges | ecloud-manager-ejb/src/main/java/org/ecloudmanager/deployment/core/AbstractDeployer.java:58-73 | Every interleaving of a creation plan that ends SUCCESSFUL takes the empty world to exactly the deployment, with every rule that a machine wants on its suppliers. |
| UpdateResults.DeletionConverges | ecloud-manager-ejb/src/main/java/org/ecloudmanager/deployment/core/AbstractDeployer.java:75-90 | Every interleaving of a deletion plan that ends SUCCESSFUL takes the world of the deployment to the empty one. |
| UpdateResults.RulesReached | ecloud-manager-ejb/src/main/java/org/ecloudmanager/actions/CreateFirewallRulesAction.java:57-69 | An update leaves exactly the rules that are wanted if and only if what each kept machine asks for was there and stays or is made by another one, and no rule on a kept machine has lost all who want it. |
| UpdateResults.UpdateConverges | ecloud-manager-ejb/src/main/java/org/ecloudmanager/deployment/core/AbstractDeployer.java:92-147 | Every interleaving of an update that ends SUCCESSFUL takes the world of `before` to exactly that of `after` if and only if each kept machine that is not recreated has the same fixed parameters and own rules in both, each kept chef environment is the same or known to be stale, each kept service has the same gateway in both, and the rules on suppliers are as `RulesReached` says; given that no rule can get lost. |
| UpdateResults.RuleGetsLost | ecloud-manager-ejb/src/main/java/org/ecloudmanager/actions/VmActions.java:62-83 | Behind firewalls that are not configured on creation, a rule that only other machines make on a recreated one is lost by some successful run: it is made before the old machine is deleted. |
| UpdateResults.EveryRunConverges | ecloud-manager-ejb/src/main/java/org/ecloudmanager/deployment/core/AbstractDeployer.java:92-147 | All successful runs of an update lead to the new deployment if and only if the condition of `UpdateConverges` holds and no rule can get lost; on the whole domain of updates. |
| UpdateResults.NothingToUpdate | ecloud-manager-ejb/src/main/java/org/ecloudmanager/deployment/core/AbstractDeployer.java:149-183 | When no update action is needed, the old world shows the new deployment on the same condition. |
| LevelOrder.StartsAfter | ecloud-manager-ejb/src/main/java/org/ecloudmanager/service/execution/Action.java:55-68 | If the sequences of a plan put one kind of action before another, then in every run, successful or not, the first kind has ended well before the second starts. |
| LevelOrder.RemovalsFirst | ecloud-manager-ejb/src/main/java/org/ecloudmanager/deployment/vm/VMDeployer.java:106-119 | Recreation never overlaps old with new: wherever an update removes and makes something, all removals stand before all that is made. |
| LevelOrder.DeletesFirst | ecloud-manager-ejb/src/main/java/org/ecloudmanager/deployment/core/AbstractDeployer.java:121-135 | On every level the deletions stand before that level's creations and updates. |
| LevelOrder.EachChildOnce | ecloud-manager-ejb/src/main/java/org/ecloudmanager/deployment/core/AbstractDeployer.java:96-119 | The actions of an update below a child are exactly one update, one creation or one deletion of it: as both sides, only the new one, or only the old one has it. |
| LevelOrder.OldEndsBeforeNew | ecloud-manager-ejb/src/main/java/org/ecloudmanager/deployment/vm/VMDeployer.java:106-119 | In any run of an update, all that is removed at a place has ended before anything is made there. |
| LevelOrder.DeletionsEndFirst | ecloud-manager-ejb/src/main/java/org/ecloudmanager/deployment/core/AbstractDeployer.java:121-135 | In any run of an update, a child that goes away is gone before work on a new or kept sibling starts. |
| PlanExecution.ComputeDependencies | ecloud-manager-ejb/src/main/java/org/ecloudmanager/actions/CreateFirewallRulesAction.java:77-97 | Each action looks among all single actions for what it depends on, as the two overrides do; the objects then represent the graph with these dependencies. |
| PlanExecution.ExecutePlan | ecloud-manager-ejb/src/main/java/org/ecloudmanager/service/execution/ActionExecutor.java:54-78 | Any plan of the compiler's kind is assembled as objects, with computed dependencies, and executed for some turns: SUCCESSFUL is a complete run of the graph, FAILED means that a single action failed, and after enough turns it is done or rests for ever because some action waits in vain; without cycles and hostages it is done. |
| PlanExecution.UpdateDeployment | ecloud-manager-ejb/src/main/java/org/ecloudmanager/deployment/core/AbstractDeployer.java:92-147 | Compile, assemble, execute, for every update: after enough turns it is done, or it hangs and holds hostages; and if it succeeds the world is that of the new deployment exactly under the condition of `UpdateConverges`, unless rules can get lost. |
| DeploymentPaths.MeetIsLowest | ecloud-manager-ejb/src/main/java/org/ecloudmanager/deployment/core/DeploymentObject.java:62-86 | Whatever lies above both of two objects lies above the point where the path turns. |
| DeploymentPaths.PathShape | ecloud-manager-ejb/src/main/java/org/ecloudmanager/deployment/core/DeploymentObject.java:62-86 | The relative path goes up exactly to the lowest object above both and straight down; it is null exactly across different trees. |
| DeploymentPaths.PathRoundTrip | ecloud-manager-ejb/src/main/java/org/ecloudmanager/deployment/core/DeploymentObject.java:270-291 | Resolving the relative path from a to b at a gives b, for all objects of one tree with distinct, non-empty, slash-free names other than "..". |
| DeploymentPaths.PathHoldsInCopy | ecloud-manager-ejb/src/main/java/org/ecloudmanager/service/deployment/ImportDeployableService.java:85-135 | A path between two objects of a tree leads, in any copy with a renamed root, between their copies. |
| DeploymentConfig.ValueRules | ecloud-manager-ejb/src/main/java/org/ecloudmanager/deployment/core/DeploymentConstraint.java:114-124 | A value that the object has wins over the default of its field, and that over what the object at the path of the extended configuration says, if it is another one. |
| DeploymentConfig.ValueIsFirst | ecloud-manager-ejb/src/main/java/org/ecloudmanager/deployment/core/DeploymentObject.java:249-263 | A value is that of the first object along the extended configurations that has one or a default for it; otherwise it is null, or the exception of a path that goes up from a top. |
| DeploymentConfig.ReferencesFollow | ecloud-manager-ejb/src/main/java/org/ecloudmanager/deployment/core/DeploymentObject.java:192-202 | A literal is its text; a reference is looked up at the object itself, or at its top if it starts with a slash. |
| DeploymentConfig.ConfigRefinesPaths | ecloud-manager-ejb/src/main/java/org/ecloudmanager/deployment/core/DeploymentObject.java:184-213 | Looking up path + name is finding the object at the path and looking the name up there, null and exception included; except that it throws where an object that the path goes down from has extended configurations that go up from a top. |
| DeploymentConfig.ConfigLands | ecloud-manager-ejb/src/main/java/org/ecloudmanager/deployment/core/DeploymentObject.java:184-213 | A name with a path in front is looked up as the constraint it leads to, if it leads to one; it throws where the path trips on an extended configuration, and is otherwise without a value. |
| DeploymentConfig.ConfigFollowsChain | ecloud-manager-ejb/src/main/java/org/ecloudmanager/deployment/core/DeploymentObject.java:184-213 | A configuration value is what the chain of references ends with: a literal, nothing where a constraint has no value or a reference leads nowhere, or the exception where a lookup trips. |
| BigNumbers.BigNumber.Multiply | agent-rest/src/main/resources/swagger-ui/lib/es5-shim.js:1679-1687 | The six limbs in place: the value becomes (v * n + c) mod 10^42, the limbs stay digits of base 10^7, and no value on the way exceeds a stated bound. |
| BigNumbers.BigNumber.Divide | agent-rest/src/main/resources/swagger-ui/lib/es5-shim.js:1688-1696 | The value becomes floor(v / n), from the highest limb down, with every remainder below n * 10^7. |
| BigNumbers.BigNumber.NumToString | agent-rest/src/main/resources/swagger-ui/lib/es5-shim.js:1697-1711 | The text is the decimal numeral of the value, without leading zeros. |
| Decimals.ParseDecimal | agent-rest/src/main/resources/swagger-ui/lib/es5-shim.js:1697-1711 | Reading a decimal numeral back gives the number. |
| Decimals.DecimalJoin | agent-rest/src/main/resources/swagger-ui/lib/es5-shim.js:1701-1707 | Writing a number and then k padded digits is writing the number they make together. |
| Arithmetic.DivideTwice | agent-rest/src/main/resources/swagger-ui/lib/es5-shim.js:1783-1790 | Dividing by one number and then by another is dividing once by their product. |
| ToFixed.PowAccIs | agent-rest/src/main/resources/swagger-ui/lib/es5-shim.js:1712-1714 | Repeated squaring with an accumulator computes acc * x^n. |
| ToFixed.Log | agent-rest/src/main/resources/swagger-ui/lib/es5-shim.js:1715-1727 | The two loops find the whole part of the logarithm to base 2. |
| ToFixed.TimesPowerOfTen | agent-rest/src/main/resources/swagger-ui/lib/es5-shim.js:1772-1780 | Loading z and multiplying by 10^7 and by the rest gives z * 10^f, with every product exact in 53 bits. |
| ToFixed.ByPowerOfTwo | agent-rest/src/main/resources/swagger-ui/lib/es5-shim.js:1781-1788 | Dividing by 2^23 while possible and then by the rest is dividing once by 2^(e-1). |
| ToFixed.Chain | agent-rest/src/main/resources/swagger-ui/lib/es5-shim.js:1771-1791 | The digits printed are those of the integer nearest to x * 10^f, the larger on a tie. |
| ToFixed.WholeDigits | agent-rest/src/main/resources/swagger-ui/lib/es5-shim.js:1792-1796 | A whole number times 2^-e, with f zeros appended, are the digits of x * 10^f. |
| ToFixed.RoundedDigits | agent-rest/src/main/resources/swagger-ui/lib/es5-shim.js:1761-1797 | Scaling, both branches and rounding together: the nearest integer, with every intermediate value below 2^53. |
| ToFixed.ChainRounds | agent-rest/src/main/resources/swagger-ui/lib/es5-shim.js:1781-1791 | Halving the truncated quotient plus one rounds to the nearest integer, halves upwards. |
| ToFixed.RoundsToNearest | agent-rest/src/main/resources/swagger-ui/lib/es5-shim.js:1761-1797 | That integer is the one the standard asks for (section 15.7.4.5, step 8): none is closer to x * 10^f, and none as close is larger. |
| ToFixed.WithPointIsLayout | agent-rest/src/main/resources/swagger-ui/lib/es5-shim.js:1799-1809 | The two ways of placing the point lay the digits out as step 9 of the standard says. |
| ToFixed.LayoutDenotes | agent-rest/src/main/resources/swagger-ui/lib/es5-shim.js:1799-1809 | The result is a numeral with exactly f decimals and no useless zeros that denotes n / 10^f. |
| ToFixed.TinyRounds | agent-rest/src/main/resources/swagger-ui/lib/es5-shim.js:1759-1761 | Numbers up to 10^-21 round to zero, which is what the shim starts from. |
| ToFixed.PlacesAre | agent-rest/src/main/resources/swagger-ui/lib/es5-shim.js:1733-1739 | No number of decimals is none, a broken one is rounded down, and everything else is out of range. |
| ToFixed.Run | agent-rest/src/main/resources/swagger-ui/lib/es5-shim.js:1730-1811 | The whole shim: the range error, NaN, numbers too large, and otherwise the sign and the correctly rounded digits with the point in place. |
| Splice.SparseArray.Removed | agent-rest/src/main/resources/swagger-ui/lib/es5-shim.js:879-887 | The returned array holds what the removed slots held, holes included, and ends with a value. |
| Splice.SparseArray.ShiftDown | agent-rest/src/main/resources/swagger-ui/lib/es5-shim.js:892-910 | Closing the gap from the front moves every later slot, value or hole, without overwriting one that is still to be read. |
| Splice.SparseArray.ShiftUp | agent-rest/src/main/resources/swagger-ui/lib/es5-shim.js:911-923 | Making room from the back does the same. |
| Splice.SparseArray.MakeRoom | agent-rest/src/main/resources/swagger-ui/lib/es5-shim.js:892-923 | Whichever way slots move, those before the start stay and those after the removed ones end where the result has them. |
| Splice.SparseArray.Run | agent-rest/src/main/resources/swagger-ui/lib/es5-shim.js:871-932 | In place, for every start, count and item list: prefix + items + suffix with all holes kept, and the removed slots, as section 15.4.4.12 says. |
| Calendar.DayCount | agent-rest/src/main/resources/swagger-ui/lib/es5-shim.js:1552-1563 | The closed form equals the day count of the Gregorian calendar for every integer year; differences of months are their lengths and the twelfth month is the next January. |
| Calendar.DateOfDay | agent-rest/src/main/resources/swagger-ui/lib/es5-shim.js:1554-1563 | Every day number is that of exactly the date found by stepping day by day from 1 January 1970. |
| Calendar.DaysGrow | agent-rest/src/main/resources/swagger-ui/lib/es5-shim.js:1554-1563 | Later dates have larger day numbers. |
| IsoDates.TimeOfFields | agent-rest/src/main/resources/swagger-ui/lib/es5-shim.js:1626-1633 | Every integer time value has valid date and time fields. |
| IsoDates.TimesGrow | agent-rest/src/main/resources/swagger-ui/lib/es5-shim.js:1626-1633 | The time value is strictly increasing in the fields, most significant first. |
| IsoDates.FieldsAreUnique | agent-rest/src/main/resources/swagger-ui/lib/es5-shim.js:1626-1633 | A time value belongs to one set of fields. |
| IsoDates.ToISOString | agent-rest/src/main/resources/swagger-ui/lib/es5-shim.js:1387-1417 | The range error for a date that is not finite; otherwise the loop over the fields, the padding and the year's sign give the layout of section 15.9.1.15, also for a host that answers months outside a year. |
| IsoDates.AcceptsMoments | agent-rest/src/main/resources/swagger-ui/lib/es5-shim.js:1596-1641 | A string of the format is accepted exactly if it names a date of the calendar, a time of day or the midnight after it, and a zone; the result is its time value moved by the zone. |
| IsoDates.ReadsStamps | agent-rest/src/main/resources/swagger-ui/lib/es5-shim.js:1530-1641 | Every text of the format, whatever is left out at its end, is read as the moment that its numbers name, moved back by hours and minutes of the zone: NaN if the calendar, the day or the zones have no such thing, a local time if a time has no zone. |
| IsoDates.NativeIff | agent-rest/src/main/resources/swagger-ui/lib/es5-shim.js:1530-1550 | The host's own parser is asked exactly for the strings that are not of the format. |
| IsoDates.MillisAreDigits | agent-rest/src/main/resources/swagger-ui/lib/es5-shim.js:1605-1605 | The milliseconds of a fraction of any length are its first three digits, with zeros for missing ones. |
| IsoDates.ReadsWhatItWrites | agent-rest/src/main/resources/swagger-ui/lib/es5-shim.js:1530-1550 | Reading the layout of any valid fields gives their time value, or NaN beyond the range of dates. |
| IsoDates.ParseUndoesToISOString | agent-rest/src/main/resources/swagger-ui/lib/es5-shim.js:1596-1641 | Parsing undoes the layout for every instant that a date can hold. |
| Collections.RemoveEachIs | agent-rest/src/main/resources/swagger-ui/lib/backbone-min.js:356-375 | Removing listed items one after the other leaves the other models as they stood, and the index without exactly the removed ones. |
| Collections.Collection.Remove | agent-rest/src/main/resources/swagger-ui/lib/backbone-min.js:356-375 | The list loses the models that the items stand for; `length` and the index agree with it again. |
| Collections.Collection.ListItems | agent-rest/src/main/resources/swagger-ui/lib/backbone-min.js:389-414 | The first loop of `set`: which models are new, in which order the items stand, and which are marked to be kept. |
| Collections.SetEndsOrdered | agent-rest/src/main/resources/swagger-ui/lib/backbone-min.js:415-435 | With `add` and `remove` and no place given, the list becomes exactly the listed models in the listed order, each once, and the index is theirs. |
| Collections.SetEnds | agent-rest/src/main/resources/swagger-ui/lib/backbone-min.js:415-435 | For every choice of `add`, `remove` and place the list and the index end in agreement. |
| Collections.InsertedTogether | agent-rest/src/main/resources/swagger-ui/lib/backbone-min.js:424-428 | Models put in one by one from a place that is not below zero stand side by side there, or at the end. |
| Collections.InsertedByTurns | agent-rest/src/main/resources/swagger-ui/lib/backbone-min.js:424-428 | From a place below zero the list grows while the place moves on: as long as models follow the place, old and new ones come by turns. |
| Collections.InsertedSideBySide | agent-rest/src/main/resources/swagger-ui/lib/backbone-min.js:424-428 | For every integer place, different models end up side by side and in order if and only if the place is not below zero, or they are one at most, or two put just before the first of some models. |
| Collections.Collection.Set | agent-rest/src/main/resources/swagger-ui/lib/backbone-min.js:376-443 | For any integer place or none, the list after `set` is the specified one; it has no repeats, `length` matches, and the index maps exactly its cids and ids. |
| Collections.Collection.Add | agent-rest/src/main/resources/swagger-ui/lib/backbone-min.js:354-355 | Adding keeps all models and puts the new ones at the place or the end. |
| Collections.Collection.Reset | agent-rest/src/main/resources/swagger-ui/lib/backbone-min.js:444-453 | After `reset` the list is exactly the given models. |
| Collections.Collection.ChangeId | agent-rest/src/main/resources/swagger-ui/lib/backbone-min.js:544-552 | A change of id to one not in use moves the key, so that the index agrees again. |
| HAProxyWeights.FrontendConfig.GenerateABTestingRules | ecloud-manager-ejb/src/main/java/org/ecloudmanager/deployment/ps/HAProxyDeployer.java:186-203 | The loop with its decremented total appends the cookie lines, if any, and one rule per weight. |
| HAProxyWeights.ChosenIsPick | ecloud-manager-ejb/src/main/java/org/ecloudmanager/deployment/ps/HAProxyDeployer.java:196-202 | For any list of backends, also with repeats, the first rule decides whose access list matches in the numbers drawn for that rule alone. |
| HAProxySums.ExactShares | ecloud-manager-ejb/src/main/java/org/ecloudmanager/deployment/ps/HAProxyDeployer.java:186-203 | With different backends, counted over all draws of all rules: each rule gets its weight of a hundred or what is left for it, and none of them the rest. |
| HAProxySums.WeightsAreExact | ecloud-manager-ejb/src/main/java/org/ecloudmanager/deployment/ps/HAProxyDeployer.java:186-203 | Different backends get exactly their weights of a hundred if and only if the weights sum to at most 100; then the rest falls through. |
| HAProxySums.SumsAreExact | ecloud-manager-ejb/src/main/java/org/ecloudmanager/deployment/ps/HAProxyDeployer.java:186-203 | For any list: every backend gets exactly the sum of its weights of a hundred if and only if the weights sum to at most 100, no rule with a weight is followed by one for a backend named before it, and a backend with a weight is named again only after backends that have the whole hundred. |
| HAProxySums.BelowHundred | ecloud-manager-ejb/src/main/java/org/ecloudmanager/deployment/ps/HAProxyDeployer.java:186-203 | With a sum below 100 that is: no backend with a weight is listed twice, not even in a row, since each of its rules draws anew for all of them. |
| HAProxyWeights.CookieDecides | ecloud-manager-ejb/src/main/java/org/ecloudmanager/deployment/ps/HAProxyDeployer.java:190-194 | With sticky backends a request that carries the cookie goes where it says, and all others by weight. |
| HAProxyWeights.BackendSticks | ecloud-manager-ejb/src/main/java/org/ecloudmanager/deployment/ps/HAProxyDeployer.java:190-194 | With sticky backends the cookie that an answer sets brings the next request to the same backend, whatever is drawn. |
| HAProxyStore.ConfigKeys | ecloud-manager-ejb/src/main/java/org/ecloudmanager/deployment/ps/HAProxyDeployer.java:244-267 | A configured service has one key for itself, one for each group and one for each server, and no others. |
| HAProxyStore.ConfigCovered | ecloud-manager-ejb/src/main/java/org/ecloudmanager/deployment/ps/HAProxyDeployer.java:269-279 | Whatever configuring a service writes, deleting its configuration removes. |
| HAProxyStore.StoredFrontend | ecloud-manager-ejb/src/main/java/org/ecloudmanager/deployment/ps/HAProxyDeployer.java:281-293 | The stored options of a service are those of its frontend and the line that binds it to its address and port. |
| HAProxyStore.StoredGroup | ecloud-manager-ejb/src/main/java/org/ecloudmanager/deployment/ps/HAProxyDeployer.java:205-224 | The stored options of a group begin with its mode and, for sticky servers over HTTP, the cookie it hands out; each server is stored at its address and first port, with the options of the group, and is chosen by its name's cookie in the same case. |
| HAProxyStore.DeleteUndoesConfigure | ecloud-manager-ejb/src/main/java/org/ecloudmanager/deployment/ps/HAProxyDeployer.java:269-279 | Configuring and then deleting gives the store as it was. |
| HAProxyStore.NoStaleKeys | ecloud-manager-ejb/src/main/java/org/ecloudmanager/deployment/ps/HAProxyDeployer.java:362-369 | From unrelated keys plus the configuration of `before`, an update on the gateway of both leaves the same unrelated keys plus exactly the configuration of `after`. |
| HAProxyStore.UpdateLandsIff | ecloud-manager-ejb/src/main/java/org/ecloudmanager/deployment/ps/HAProxyDeployer.java:226-235 | The deployer keeps the gateway it first looked up: the update ends with the new configuration where it belongs if and only if the gateway did not change. |
| HAProxyStore.HAProxyConfigurator.SaveServer | ecloud-manager-ejb/src/main/java/org/ecloudmanager/service/provisioning/HAProxyConfigurator.java:85-94 | One key below the group, with the options after a space if there are any. |
| HAProxyStore.HAProxyConfigurator.Save | ecloud-manager-ejb/src/main/java/org/ecloudmanager/service/provisioning/HAProxyConfigurator.java:129-136 | One options key below the kind and the name. |
| HAProxyStore.HAProxyConfigurator.Delete | ecloud-manager-ejb/src/main/java/org/ecloudmanager/service/provisioning/HAProxyConfigurator.java:138-152 | Exactly the key and all keys below it are gone; that there are none is no error. |
| HAProxyStore.HAProxyDeployer.GetConfigurator | ecloud-manager-ejb/src/main/java/org/ecloudmanager/deployment/ps/HAProxyDeployer.java:226-235 | The first gateway asked for is kept. |
| HAProxyStore.HAProxyDeployer.Configure | ecloud-manager-ejb/src/main/java/org/ecloudmanager/deployment/ps/HAProxyDeployer.java:244-267 | The loops write the listed keys; a server without an endpoint, or a group without options, ends it with what was written up to there. |
| HAProxyStore.HAProxyDeployer.DeleteConfiguration | ecloud-manager-ejb/src/main/java/org/ecloudmanager/deployment/ps/HAProxyDeployer.java:269-279 | The loops delete the directories of the service, its groups and its servers, and nothing else. |
| HAProxyStore.HAProxyDeployer.Update | ecloud-manager-ejb/src/main/java/org/ecloudmanager/deployment/ps/HAProxyDeployer.java:362-369 | Deleting for `before` and configuring for `after` in sequence, with the conclusion of `NoStaleKeys` for an unchanged gateway. |
| MarkdownLexer.Lexer.Lex | agent-rest/src/main/resources/swagger-ui/lib/marked.js:149-430 | For any behaviour of the expressions: the tokens appended are exactly those of the blocks of the source, as `MarkdownBlocks.Blocks` defines them by the order of the rules; and it fails exactly where no rule takes a character. |
| MarkdownLexer.Lexer.LexRule | agent-rest/src/main/resources/swagger-ui/lib/marked.js:175-430 | The rules in their order, written out as in the source: the first that applies decides, with the part that `MarkdownBlocks.First` gives it. |
| MarkdownLexer.Lexer.LexQuote | agent-rest/src/main/resources/swagger-ui/lib/marked.js:259-279 | A quote holds the blocks of its text without the marks, lexed as quoted. |
| MarkdownLexer.Lexer.LexList | agent-rest/src/main/resources/swagger-ui/lib/marked.js:281-353 | A list holds the items before the first bullet of another list, each loose or tight as the blank lines in and around it say; the other items come back to the source. |
| MarkdownLexer.Lexer.LexItem | agent-rest/src/main/resources/swagger-ui/lib/marked.js:298-346 | An item holds the blocks of its text without bullet and indent, none of them of the top level. |
| MarkdownLexer.BlocksAreProper | agent-rest/src/main/resources/swagger-ui/lib/marked.js:149-430 | The blocks of any source are properly nested: items stand in lists only. |
| MarkdownLexer.Compile | agent-rest/src/main/resources/swagger-ui/lib/marked.js:1209 | Lexing and then parsing renders the blocks of the source directly, or fails exactly where they do. |
| Markdown.Parser.Next | agent-rest/src/main/resources/swagger-ui/lib/marked.js:934-937 | The next token, or none. |
| Markdown.Parser.ParseText | agent-rest/src/main/resources/swagger-ui/lib/marked.js:950-958 | A maximal run of texts is joined, and nothing after it is used. |
| Markdown.Parser.Tok | agent-rest/src/main/resources/swagger-ui/lib/marked.js:964-1068 | On the tokens of any block the output is its direct recursive rendering; exactly its tokens are used. |
| Markdown.Parser.ParseBody | agent-rest/src/main/resources/swagger-ui/lib/marked.js:1018-1058 | The loops between a start and its end stop at that end, and never read past it. |
| Markdown.Parser.Parse | agent-rest/src/main/resources/swagger-ui/lib/marked.js:918-928 | The whole text is the rendering of the blocks whose tokens it was given, and all tokens are used. |
| Markdown.TokensDetermineBlocks | agent-rest/src/main/resources/swagger-ui/lib/marked.js:964-1068 | A token list is that of one list of blocks at most, so the rendering depends on the tokens alone. |
| TaskLogs.LocalTaskLogs.Append | node-api/src/main/java/org/ecloudmanager/node/LocalTaskLogs.java:59-66 | An event joins the end of its own task's queue; one without a task goes nowhere. |
| TaskLogs.LocalTaskLogs.PollLogs | node-api/src/main/java/org/ecloudmanager/node/LocalTaskLogs.java:37-45 | All queued events of the task in order, and its queue is empty afterwards; other queues stay. |
| TaskLogs.LocalTaskLogs.DeleteLogs | node-api/src/main/java/org/ecloudmanager/node/LocalTaskLogs.java:47-56 | The task's queue goes, with a warning exactly if it was not empty. |
| TaskLogs.LocalTaskLogs.CreateId | node-api/src/main/java/org/ecloudmanager/node/LocalTaskLogs.java:25-27 | Each id is one more than the last. |
| TaskLogs.LogsAreConserved | node-api/src/main/java/org/ecloudmanager/node/LoggableFuture.java:50-64 | After any moves, events handed to listeners followed by events still queued are exactly the words that the task appended in these moves. |
| TaskLogs.WaitForDelivers | node-api/src/main/java/org/ecloudmanager/node/LoggableFuture.java:50-64 | `waitFor` is back only for a done task, having delivered exactly what was appended before its last poll; it delivered everything if and only if no append lies after the last poll. |
| TaskLogs.ReturnsIff | node-api/src/main/java/org/ecloudmanager/node/LoggableFuture.java:50-64 | A look at `isDone` ends `waitFor` exactly if the task was done then and the last poll had found nothing; otherwise it polls again. |
| TaskLogs.DoneIsSilent | node-api/src/main/java/org/ecloudmanager/node/LoggableFuture.java:53-62 | A done task that did not finish after the last poll appended nothing after it. |
| TaskLogs.FinishedBeforeLastPoll | node-api/src/main/java/org/ecloudmanager/node/LoggableFuture.java:53-62 | So everything is delivered whenever the task finished before the last poll. |
| TaskLogs.LastWordsAreLost | node-api/src/main/java/org/ecloudmanager/node/LoggableFuture.java:53-62 | What is appended between the last poll and the look at `isDone` is never delivered. |
| TaskLogs.IdsAreFresh | node-api/src/main/java/org/ecloudmanager/node/LoggableFuture.java:67-75 | A new task's id belongs to no task and no queue. |
| Links.EndpointsApart | ecloud-manager-ejb/src/main/java/org/ecloudmanager/deployment/app/ApplicationDeployment.java:118-128 | With different colon-free child names, all required endpoints are different. |
| Links.WithoutChild | ecloud-manager-ejb/src/main/java/org/ecloudmanager/deployment/app/ApplicationDeployment.java:139-149 | Removing the links of one child leaves those of the others, in order. |
| Links.RunInStep | ecloud-manager-ejb/src/main/java/org/ecloudmanager/deployment/app/ApplicationDeployment.java:118-149 | In every run of adding, removing, updating and editing children, there is one link for each required endpoint, in order, unless something was edited since the last update. |
| Links.LinksLast | ecloud-manager-ejb/src/main/java/org/ecloudmanager/deployment/app/ApplicationDeployment.java:102-149 | Over any stretch of a run in which some child requires an endpoint, its link stays the same object, with its supplier. |
| Links.TakenOut | ecloud-manager-ejb/src/main/java/org/ecloudmanager/deployment/app/ApplicationDeployment.java:139-149 | Of public endpoints with one name the first goes, and all others stay in their order. |
| Links.UpdateIsIdempotent | ecloud-manager-ejb/src/main/java/org/ecloudmanager/deployment/app/ApplicationDeployment.java:118-128 | Updating the links twice is updating them once. |
| Links.ApplicationDeployment.AddLink | ecloud-manager-ejb/src/main/java/org/ecloudmanager/deployment/app/ApplicationDeployment.java:102-111 | The existing link for a consumer, or a new one at the end. |
| Links.ApplicationDeployment.UpdateLinks | ecloud-manager-ejb/src/main/java/org/ecloudmanager/deployment/app/ApplicationDeployment.java:118-128 | One link for each endpoint now required, in order; surviving consumers keep their link with its supplier, stale links go, and links in step stay as they are. |
| Links.ApplicationDeployment.AddChild | ecloud-manager-ejb/src/main/java/org/ecloudmanager/deployment/app/ApplicationDeployment.java:131-137 | The links stay, and new ones for what the child requires follow them if none of it is linked yet: a move of a run. |
| Links.ApplicationDeployment.RemoveChild | ecloud-manager-ejb/src/main/java/org/ecloudmanager/deployment/app/ApplicationDeployment.java:139-149 | The child, its links and its public endpoints go, and nothing else: a move of a run; or nothing changes if it is not there. |

## Left out

- One call of `getAvailableAction` or `isDone` on the root is one atomic step, as is each `setStatus`; locks, their order and thread pools are not modelled, nor is time: sleeping lasts until some worker has ended, if any is at work.
- One class stands for `Action`, `ActionGroup` and `SingleAction`, told apart by a flag; names, labels and ids of actions are left out.
- `restoreDependencies`, persistence, dependency injection and logging around the actions are left out.
- Computed dependencies are found once, before a plan runs, in the order of the stream of actions; the code looks for them at each pass, among actions that do not change meanwhile.
- UpdateResults.UpdateConverges: every link leads to a machine of the application (`Linked`), since the code throws on a supplier that is no child and only logs one that is no machine. If rules can get lost, the outcome differs from run to run (`EveryRunConverges`).
- UpdateResults.EveryRunConverges: what a service configures at its gateway is one resource at the place of the service; two services with groups of one name at one gateway would write the same keys of the store, and such deployments are left out. A successful action has opened or closed the public ports; in the code it is SUCCESSFUL as well when the call to the firewall fails, which it only logs (HAProxyActions.java, lines 71 to 73 and 99 to 101).
- The bodies of actions are replaced by what they leave of the resources they touch. A rule on a supplier names the port and the node that is let in; the ids of the nodes come with the deployment, before and after, in any relation to each other.
- `HashMap` order in the plan compiler is taken to be the order of the children; the results about interleavings hold for any order within a group.
- Recreation at the level of `AbstractDeployer`, which none of its subclasses asks for, and the "before" actions, which all return null, are not modelled.
- Whether an earlier attempt failed, and whether chef's copy of an environment differs, are inputs of the compiler.
- ActionExecutor.Execute: only plans without cycles and hostages, since others can wait for ever (`SucceedsIffAcyclic`, `OneFailureHangs`); `ExecuteTurns` holds for all. That hostages are exactly what can hang a plan is proved for compiled updates (`UpdateEndsIff`); for others `RestIsDone` and `OneFailureHangs` are the two directions, with a gap between them.
- ActionRuns.RunsExtendTheOrder: only graphs in which nothing that runs depends on a group with nothing to run that a failure can reach (`Tame`), since others break the order (`OrderIffTame`).
- DeploymentPaths.PathRoundTrip: equality of objects is identity; the reflective equality of `DomainObject` is not modelled.
- DeploymentPaths.PathHoldsInCopy: the copy is given as a relation between two trees; the cloning library, new ids and the choice of a unique name are not modelled.
- DeploymentConfig.GetConfigValue: references and extended configurations are taken to be acyclic, by a ranking; the code recurses without end on cycles.
- `addField`, `removeField` and the other updates of constraints, and adding children to a deployment tree, are easy and left out.
- ToFixed.RoundedDigits: numbers are exact reals with at most 53 significant bits; those between 10^-21 and 2^-69 whose last bits are worth less than 2^-121 are excluded, as for `Run`.
- ToFixed.Run: numbers are exact reals with at most 53 significant bits; for those between 10^-21 and 2^-69 whose last bits are worth less than 2^-121 the shim's lowest limb would hold a fraction, and they are excluded. What `String` makes of numbers from 10^21 on is one opaque answer.
- BigNumbers.BigNumber.Multiply: limbs are integers; that doubles hold them exactly is shown by the bounds below 2^53 for the calls that `toFixed` makes.
- Splice.SparseArray.Run: start and delete count are integers already, and the resulting length is below 2^32; properties other than slots and `length`, and the shim's feature tests, are left out.
- IsoDates.ParseShim: a fraction of a second is taken as an exact decimal, a local time is handed to the host's time zone, and a string that is not of the format to the host's own `parse`.
- IsoDates.ToISOString: the host's answers for the fields of an instant are its argument.
- Collections.Collection.Set: items are models; attribute hashes, validation, merging of attributes, comparators, sorting and other listeners of events are left out.
- Collections.Collection.ChangeId: only changes that fire the event, to an id not in use, and ids that are not cids.
- MarkdownLexer.Lexer.Lex: each regular expression is an oracle that takes a part of the source; inline rules, escaping and the table of links are left out, and a table is one opaque token.
- HAProxySums.SumsAreExact: no weight is negative and something must be left for each rule (`Proper`), because a random number below zero or less is not defined; all numbers drawn are independent, within a rule and between rules. Country and city rules and the lines that users add are left out.
- HAProxySums.WeightsAreExact: the same.
- HAProxyStore.HAProxyDeployer.Configure: writes and deletes reach the store and succeed; directories are not entries of their own; names are single segments. The lines of a frontend are an argument.
- HAProxyStore.UpdateLandsIff: the two gateways' prefixes on one server do not lie inside each other.
- TaskLogs.LogsAreConserved: an append and a poll are one step each, and logs are deleted after the last poll.
- Links.RunInStep: children have different names without colons, and none requires an endpoint twice.
- Links.ApplicationDeployment.RemoveChild: children are values that are equal when all their parts are.
- SSH, Chef, etcd and cloud calls, REST services, the Jenkins plugin, login and all user interfaces are left out, as are the minified libraries other than the ones above.
