# Verified model of Sophia's control code

Sophia puts deterministic control code around a language model: gates on what the model
proposes, a risk classifier over four evaluators, a tiered executor, and the caches, limiters
and retry loops that keep the service running. This project models that code in Dafny and
proves what it guarantees for every reply the model, the tools and the network can give, up to the
shapes listed under "Left out".

Run `dafny verify dfyconfig.toml` in this directory.

## How it is organised

Code that computes values is a set of functions. Code that updates state or loops is a method or
a class, and its `ensures` equates the result or the new state with a function of the inputs; the
laws are lemmas about those functions.

| file | what it models |
|---|---|
| `Core.dfy`, `Strings.dfy` | tiers, candidates, tools, hats, results; ASCII case, white space, substrings |
| `RiskClassifier.dfy`, `RiskLaws.dfy` | weighted score, disagreement, overrides, floors; extremes, permutations, near-monotonicity |
| `Evaluators.dfy`, `VetoLaws.dfy` | reading a model reply, flag/score enforcement; what one reply alone can force |
| `ParameterGate.dfy` | the pre-flight parameter gate |
| `Conversation.dfy`, `EscalationGate.dfy` | trigger matching and what a conversation inherits |
| `RiskFloor.dfy` | the floor a proposal's tools declare |
| `Executor.dfy`, `AgentLoop.dfy`, `PipelineLaws.dfy` | the registry with a trace of its calls, one pass of a message, and its guarantees |
| `Consequence.dfy`, `TreeAnalysis.dfy` | parsing, printing, counting and analysing consequence trees |
| `CacheKey.dfy`, `ConsequenceCache.dfy` | the text of cache keys, and the cache under interleaved analyses |
| `McpClient.dfy`, `McpLaws.dfy` | retry and reconnect control of the MCP client |
| `Clocks.dfy` | timed runs, and clocks that step back |
| `RateLimiter.dfy` | the sliding-window limiter |
| `EventRouter.dfy` | webhook deduplication and routing |

Modelling choices:

- Everything a language model or a tool contributes is an input: `Oracle` holds the intent, the
  candidates, the four evaluator replies, whether a tree or a response could be generated, and what
  the tool did. Unusable replies and raised exceptions are among the values, and abort the pass.
- An evaluator's reply is any JSON object: a score that is no number and flags that cannot be iterated
  raise, while flags given as a text or an object are carried on, with Python's meaning of `in`,
  `extend` and `append` on them. Stakeholders of a consequence are treated alike.
- Floats are reals; `NaN` and the infinities that JSON text can hold are clamped to an end of the range,
  as some number is. The clock is an argument; the interleaving of tasks at each `await` is an arbitrary
  order of events.
- The transport of the MCP client is a function from request id to answer. Ids are never reused
  (`McpLaws.IdsIncrease`), so every history-dependent server is one of these functions.
- A dictionary of parameters is the sequence of its items in insertion order with distinct names.

Where the code and its own documentation differ, the model follows the code:

- The classifier counts scores of exactly -0.5 as severe; its docstring says "below -0.5".
- An `escalate_to_human` proposal is answered conversationally and does not escalate
  (`PipelineLaws.DefensiveProposalCallsNothing`), although the handler's docstring says "or escalates".
- The worst path is described as ending at the most harmful terminal; it does not look below a node
  that is marked terminal, so it can miss one (`TreeAnalysis.TerminalWithChildrenDiffers`), for some
  harms exactly when a terminal lies below another (`TreeAnalysis.AgreesIff`).
- The log line of the escalation gate says ORANGE; the tier is configurable per trigger.

Properties one might expect that the code does not have, each with its exact condition:

- Lower scores and more flags can lower the tier, by one level, exactly when a disagreement
  disappears (`RiskLaws.NearMonotone`, example in `RiskLaws.StrictMonotonicityFails`).
- A triggered escalation floor is not applied to an empty proposal (`PipelineLaws.EscalationFloorIff`).
- Declared tool floors are not passed on when the top candidate is defensive; they hold for every reply
  exactly when the configuration alone ensures them (`PipelineLaws.DefensiveFloorIff`, example in
  `PipelineLaws.DeclaredFloorMissed`).
- A milder trigger in the current message lowers an inherited floor (`EscalationGate.FloorKeptIff`, example
  in `EscalationGate.FloorDrops`), and with it the tier of the pass unless the configuration ensures it
  (`PipelineLaws.EarliestFloorHoldsIff`, example in `PipelineLaws.FloorDropReachesPass`).
- The tribal veto and the catastrophic_harm flag are lost when a reply gives its flags as a text that holds
  the flag (`VetoLaws.SettlesIff`, `PipelineLaws.TribalVetoStopsTools`, examples in `VetoLaws.TextHidesVeto`,
  `PipelineLaws.HiddenVetoEscalates` and `PipelineLaws.HiddenVetoRunsTool`).
- A raised authority flag does not cap the score at -0.30 (`Evaluators.AuthorityMeaning`, example in
  `Evaluators.FlaggedAuthorityMayStayMild`).
- A defensive pass reports success without having called anything, and a proposed escalation is on record as
  done (`PipelineLaws.UnbackedSuccessIff`, `PipelineLaws.EscalationClaimedIff`, example in
  `PipelineLaws.EscalationClaimed`).
- A fired trigger is missing from the record of a prohibited tool, and a declared floor from that of a
  defensive pass (`PipelineLaws.RecordFaithful`, examples in `PipelineLaws.TriggerDropped` and
  `PipelineLaws.DeclaredFloorMissed`).
- With a clock that steps back a request can be accepted over the count of the last 60 seconds, and pruning can
  let an event through twice within its window (`RateLimiter.CountsIff`, `EventRouter.DecisionsKeptIff`,
  examples in `RateLimiter.ClockStepMiscounts` and `EventRouter.ClockStepPassesAgain`).
- With a clock that steps back the rate limit can be exceeded, exactly when some reading, after another at
  least 60 seconds later has made room for it, is less than 60 seconds away again
  (`RateLimiter.LimitsKeptIff`, example in `RateLimiter.ClockStepBreaksLimit`).

## Model

| member | source | states |
|---|---|---|
| RiskClassifier.ComputeWeightedScore | sophia/core/risk_classifier.py:155-179 | The accumulating loop computes the weighted mean of the scores under the hat's or default weights, and 0 when the weights sum to 0 |
| RiskClassifier.HasSignificantDisagreement | sophia/core/risk_classifier.py:193-201 | The double loop says whether at least two unordered pairs of scores are more than 0.8 apart |
| RiskClassifier.SelectRecommendedAction | sophia/core/risk_classifier.py:210-229 | The search returns the first escalation for ORANGE or else the top candidate, and nothing for RED |
| RiskClassifier.Collect | sophia/core/risk_classifier.py:64-66 | One pass gathers all flags, the last score per evaluator, and the number of severe scores |
| RiskClassifier.Classify | sophia/core/risk_classifier.py:47-152 | The imperative decision equals: RED when overridden, otherwise threshold tier, bumped on disagreement, raised to both floors, with the floor on record iff it raised the tier |
| RiskLaws.DisagreementExtremes | sophia/core/risk_classifier.py:193-201 | Pair counting fires exactly when, for the sorted scores, n >= 3 and the top leaves the second lowest, or the second highest leaves the lowest, by more than 0.8 |
| RiskLaws.OrderIrrelevant | sophia/core/risk_classifier.py:47-152 | Tier, score, override, floor and recommended action are the same for every order of the evaluators |
| RiskLaws.NearMonotone | sophia/core/risk_classifier.py:99-138 | Under non-negative weights, no lower-or-equal scores with a superset of flags give a tier more than one level lower, and they give a lower one iff a disagreement that decided the tier is lost |
| RiskLaws.MonotoneWithoutLostDisagreement | sophia/core/risk_classifier.py:114-117 | Under non-negative weights, the tier never drops if the worse panel also disagrees or the better one does not |
| RiskLaws.UniformShiftMonotone | sophia/core/risk_classifier.py:47-152 | Lowering all scores by one amount never lowers the tier, whatever the weights are |
| RiskLaws.StrictMonotonicityFails | sophia/core/risk_classifier.py:114-123 | Two concrete panels under the defaults where the worse one is GREEN and the better one YELLOW |
| RiskLaws.WeightedScoreIsMean | sophia/core/risk_classifier.py:169-179 | With non-negative weights that do not sum to 0 the score lies between any bounds on the individual scores |
| RiskLaws.DefaultScore | sophia/core/risk_classifier.py:17-22 | The score of a full panel under the default weights |
| RiskLaws.ConfiguredScore | sophia/core/risk_classifier.py:155-179 | The score of a full panel by its four weights, each from the hat's evaluator table if that has entries, otherwise from the manifest's, and by default 0.20, 0.40, 0.25 and 0.15; 0 if they sum to 0 |
| RiskLaws.UnknownEvaluatorIgnored | sophia/core/risk_classifier.py:169-175 | An evaluator named neither by the defaults nor by the hat's tables has no say in the score |
| RiskLaws.ConfiguredTier | sophia/core/risk_classifier.py:99-109 | Without override, disagreement and floors, each tier is given exactly by the score and three bounds, each from the hat's evaluator table if that has entries, otherwise from the manifest's, and by default -0.1, -0.4 and -0.7 |
| RiskLaws.AppliedFloorMeaning | sophia/core/risk_classifier.py:125-138 | The recorded floor is there iff some floor raised the tier of a panel that was not overridden, and is the highest one |
| RiskLaws.ReasonMeaning | sophia/core/risk_classifier.py:68-97 | The veto flag is the reason iff some result has it, and otherwise the number of severe scores, if that is at least 3; any reason means RED |
| RiskLaws.FlagsOnRecord | sophia/core/risk_classifier.py:64-66 | The flags on record of a full panel are everybody's, in panel order |
| RiskLaws.RecommendationMeaning | sophia/core/risk_classifier.py:210-229 | By positions: the first escalation at ORANGE or else the top candidate, the top candidate at GREEN and YELLOW, and nothing at RED or without candidates |
| RiskLaws.IndividualMeaning | sophia/core/risk_classifier.py:65 | The score on record of an evaluator is its last one |
| Evaluators.Parse | sophia/core/evaluators/base.py:93-104 | A result comes from exactly the replies with numbers as score and confidence and iterable flags, and has its score in [-1, 1] and confidence in [0, 1] |
| Evaluators.ParseMeaning | sophia/core/evaluators/base.py:93-104 | On the JSON as it came: an integer or a number is itself, a truth value 1 or 0, a missing score 0 and confidence 0.5, each brought into its range; name and flags are the reply's own |
| Evaluators.EvaluateTribal | sophia/core/evaluators/tribal.py:59-86 | The step-by-step enforcement equals applying the tribal rules in order |
| Evaluators.EvaluateDomain | sophia/core/evaluators/domain.py:53-71 | The step-by-step enforcement equals applying the domain rules in order |
| Evaluators.EvaluateAuthority | sophia/core/evaluators/authority.py:54-89 | The step-by-step enforcement equals applying the authority rules in order |
| Evaluators.RunPanel | sophia/core/loop.py:808-812 | All four results in panel order, or none if one evaluator raises |
| Evaluators.EnforceLowers | sophia/core/evaluators/authority.py:58-87 | Enforcement never increases a score, keeps it in [-1, 1], and never drops a flag |
| Evaluators.EnforceOrderIrrelevant | sophia/core/evaluators/authority.py:58-87 | Any permutation of an evaluator's rules has the same result, an exception included |
| Evaluators.EnforceIdempotent | sophia/core/evaluators/tribal.py:63-84 | Enforcing an enforced result changes nothing |
| Evaluators.TribalMeaning | sophia/core/evaluators/tribal.py:63-84 | The final tribal score, exactly when appending the veto flag raises, and otherwise that the flag is there iff it was or the score was at most -0.8 |
| Evaluators.DomainMeaning | sophia/core/evaluators/domain.py:57-69 | The final domain score as the lowest cap that applies |
| Evaluators.AuthorityMeaning | sophia/core/evaluators/authority.py:58-87 | The caps of the severe flags, and exactly when the score ends at or below -0.30 |
| Evaluators.FlaggedAuthorityMayStayMild | sophia/core/evaluators/authority.py:59-65 | A flagged result at -0.1 is left alone: the -0.30 rule is not a cap |
| VetoLaws.SettlesIff | sophia/core/risk_classifier.py:62-80 | Exactly which single replies, the unreadable ones among them, mean RED or an aborted pass for all other replies, weights, thresholds and floors |
| VetoLaws.TribalVeto | sophia/core/evaluators/tribal.py:63-70 | A tribal reply with a JSON number at or below -0.8 as its score (an integer of at most -1) settles the panel iff its flags are no text containing the veto flag |
| VetoLaws.CatastrophicFlagVeto | sophia/core/risk_classifier.py:68-80 | A catastrophic_harm flag of any evaluator settles the panel iff its flags are no text |
| VetoLaws.TextHidesVeto | sophia/core/risk_classifier.py:64-69 | A concrete tribal reply of -1.0 that is ORANGE with the veto flag as a text and RED with it in a list |
| VetoLaws.SocialEngineeringVeto | sophia/core/risk_classifier.py:82-97 | social_engineering flagged by tribal, domain and authority is RED for all scores, lists and texts alike |
| ParameterGate.ValidateCandidate | sophia/core/parameter_gate.py:138-168 | The loop lists exactly the missing, empty and placeholder fields, in order |
| ParameterGate.Validate | sophia/core/parameter_gate.py:67-136 | The loop and the case split give the surviving candidates, the validations and the promotion flag |
| ParameterGate.PassedMeaning | sophia/core/parameter_gate.py:138-168 | A candidate passes iff it is conversational or every required field is there, non-null, non-empty and no placeholder |
| ParameterGate.FieldMeaning | sophia/core/parameter_gate.py:151-162 | A required field is accepted iff the parameters pair it with some value that is not null, blank or a placeholder, and exactly which failure it has otherwise |
| ParameterGate.PlaceholderMeaning | sophia/core/parameter_gate.py:60-65 | A text is a placeholder iff it is one of the eight core ones in lower case, or like a pattern of the hat up to letter case, white space at the ends aside |
| ParameterGate.FailuresListed | sophia/core/parameter_gate.py:147-168 | The failures of a candidate are those of the required fields of its tool, in their order |
| ParameterGate.GateExactly | sophia/core/parameter_gate.py:86-118 | By positions in the proposal: untouched if everything is usable; otherwise the usable actions and after them the small talk, each in proposal order; without a usable action the first small talk, or the question |
| ParameterGate.LeaderIsTop | sophia/core/parameter_gate.py:86-118 | Which candidate of the proposal leads what is left: the first usable action once something was dropped |
| ParameterGate.PromotedMeaning | sophia/core/parameter_gate.py:90-114 | The question is promoted iff actions were proposed and none of them is complete |
| ParameterGate.GateSound | sophia/core/loop.py:370-389 | What the pipeline goes on with was proposed or is the synthesized question, and holds no incomplete action |
| ParameterGate.GateComplete | sophia/core/parameter_gate.py:86-89 | A complete action is never dropped |
| ParameterGate.GateNonEmpty | sophia/core/parameter_gate.py:86-118 | Nothing is left iff nothing was proposed |
| ParameterGate.GateTransparentIff | sophia/core/loop.py:382-385 | The proposal is untouched, order included, iff every action in it is complete |
| ParameterGate.GateIdempotent | sophia/core/loop.py:370-389 | Gating twice is gating once, without a second promotion |
| EscalationGate.MatchSurvivesContext | sophia/core/escalation_gate.py:65-75 | A match is kept in any longer message around it |
| EscalationGate.MatchesMeaning | sophia/core/escalation_gate.py:56-75 | A match needs every word of the trigger that has at least 4 characters and is no stop word, and at least one such word |
| EscalationGate.MatchIgnoresCase | sophia/core/escalation_gate.py:56-75 | Messages and triggers that differ in letter case only match alike |
| EscalationGate.TriggerMatchesItself | sophia/core/escalation_gate.py:56-75 | A trigger's own text matches it iff it has a significant keyword |
| Strings.WordsMeaning | sophia/core/escalation_gate.py:56-62 | The words of a text are its maximal runs of characters that are no white space |
| Strings.SpaceMeaning | sophia/core/escalation_gate.py:56-62 | White space is exactly that of ASCII |
| Strings.StripMeaning | sophia/core/parameter_gate.py:155-158 | Stripping takes white space away at both ends and nothing else |
| Conversation.InheritedIsEarliest | sophia/core/escalation_gate.py:112-125 | A history hands on the match of the earliest matching user turn, and something iff there is one |
| EscalationGate.TriggeredIff | sophia/core/escalation_gate.py:84-127 | At turn k the gate is triggered iff some user text up to k matches some trigger; assistant turns never count |
| EscalationGate.EscalationSticky | sophia/core/escalation_gate.py:92-94 | Once triggered, every later turn of the conversation is triggered |
| EscalationGate.InheritsEarliest | sophia/core/escalation_gate.py:112-125 | A later turn without its own match has trigger and tier of the earliest matching turn |
| EscalationGate.FloorKeptIff | sophia/core/escalation_gate.py:102-110 | A later floor is at least the earliest one iff the later turn does not itself match a milder trigger |
| EscalationGate.FloorDrops | sophia/core/escalation_gate.py:102-110 | A concrete conversation whose floor goes from RED in the first turn to ORANGE in the second |
| RiskFloor.GetProposalFloor | sophia/core/risk_floor.py:16-39 | The loop computes the maximum of the declared floors, skipping unknown tools |
| RiskFloor.FloorIsMaximum | sophia/core/risk_floor.py:16-39 | The result is declared by a candidate and no declared floor exceeds it |
| RiskFloor.FloorMeaning | sophia/core/risk_floor.py:16-39 | The floor is the highest one that the registered tool of some candidate declares; unknown tools have no say |
| Executor.ToolRegistry.Execute | sophia/tools/registry.py:29-38 | One call is added to the trace; an unknown tool fails without running |
| Executor.Executor.Execute | sophia/core/executor.py:36-70 | Runs the top candidate once, and nothing for an empty or conversational proposal |
| Executor.Executor.BuildEscalation | sophia/core/executor.py:110-158 | Calls the escalation tool once if registered and reports it as taken only if it worked |
| Executor.Executor.TieredExecute | sophia/core/loop.py:827-849 | Result and calls for each of the four tiers |
| AgentLoop.AgentLoop.Process | sophia/core/loop.py:343-601 | Outcome and registry calls of a pass equal the specification for every oracle |
| AgentLoop.AgentLoop.HandleConverseWithEvaluation | sophia/core/loop.py:677-779 | The situation outcome, classified with the escalation floor only |
| AgentLoop.AgentLoop.RunEvaluationPanel | sophia/core/loop.py:781-825 | The classification of the action path, GREEN without a tree |
| AgentLoop.FindFloorTrigger | sophia/core/loop.py:64-76 | The first candidate that declares the given floor |
| PipelineLaws.GreenIffHarmless | sophia/core/risk_classifier.py:68-138 | The action path is GREEN iff there is no veto flag, at most 2 severe scores, no disagreement, a score at the green threshold, and no escalation, tool or hat floor above GREEN |
| PipelineLaws.CallsExactly | sophia/core/loop.py:370-534 | At most one registry call per pass: the top candidate iff the action path is reached and harmless, the escalation tool iff ORANGE and registered, otherwise none |
| PipelineLaws.LeaderDecides | sophia/core/loop.py:382-534 | The calls of a pass in terms of the candidate that leads the proposal as it came |
| PipelineLaws.CalledToolIsGated | sophia/core/loop.py:370-389 | A called tool was proposed, has all required parameters, and was classified GREEN |
| PipelineLaws.ConverseNeverCalled | sophia/core/executor.py:49-56 | No call of any pass is to converse |
| PipelineLaws.DefensiveProposalCallsNothing | sophia/core/loop.py:473-500 | A pass whose top candidate is converse or escalate_to_human calls nothing |
| PipelineLaws.BypassedIff | sophia/core/loop.py:603-675 | Evaluation is skipped iff a defensive top candidate meets an exempt intent with no prohibited tool and no trigger; such a pass is GREEN, successful, and calls nothing |
| PipelineLaws.TribalVetoStopsTools | sophia/core/evaluators/tribal.py:63-70 | A tribal reply with a JSON number at or below -0.8 as its score stops every registry call, the escalation included, iff its flags are no text containing the veto flag |
| PipelineLaws.HiddenVetoEscalates | sophia/core/risk_classifier.py:64-69 | With the veto flag as a text and a score of -1.0, the default configuration calls the escalation tool |
| PipelineLaws.HiddenVetoRunsTool | sophia/core/risk_classifier.py:64-69 | With the veto flag as a text and no tribal weight, the proposed tool is run |
| PipelineLaws.TierReported | sophia/core/loop.py:533-586 | The tier on record equals the tier acted on, on every path |
| PipelineLaws.EscalationFloorIff | sophia/core/loop.py:391-402 | A triggered pass is never bypassed, and its tier reaches the trigger's tier iff something was proposed (or that tier is GREEN) |
| PipelineLaws.EmptyProposal | sophia/core/loop.py:790-798 | An empty proposal is GREEN, fails, and calls nothing |
| PipelineLaws.ActionFloors | sophia/core/loop.py:517-526 | On the action path the tier is at least each surviving candidate's floor, the hat's and the trigger's |
| PipelineLaws.ProhibitedToolRefuses | sophia/core/loop.py:421-468 | A surviving candidate with a RED floor refuses the proposal without any call |
| PipelineLaws.DefensiveFloorIff | sophia/core/loop.py:719-726 | With a defensive top candidate the declared floors hold for every panel reply iff thresholds, weights, trigger and hat floor already ensure them |
| PipelineLaws.DeclaredFloorMissed | sophia/core/loop.py:719-726 | A concrete bypass at GREEN with a surviving candidate whose tool declares YELLOW |
| PipelineLaws.OutcomeHonest | sophia/core/loop.py:603-849 | On every path success is reported iff the pass only answers, asks for confirmation, or made a call that succeeded; what is reported as taken is the escalation tool after it was called with success at ORANGE, and the top candidate otherwise |
| PipelineLaws.CallDecides | sophia/tools/registry.py:29-38 | After a call success is reported iff its tool is registered and returned with success |
| PipelineLaws.ConverseNotRun | sophia/core/executor.py:36-56 | At GREEN the executor runs neither an empty proposal nor converse, and reports success for the latter only |
| PipelineLaws.AbortedIff | sophia/core/loop.py:370-601 | Exactly when a pass is aborted, path by path |
| PipelineLaws.UnbackedSuccessIff | sophia/core/loop.py:625-631 | Success without a successful call and without a request to confirm is reported iff the top candidate is defensive and no tool is prohibited |
| PipelineLaws.EscalationClaimedIff | sophia/core/loop.py:743-752 | A successful escalation is on record without one having been made iff the top candidate is escalate_to_human and no tool is prohibited |
| PipelineLaws.EscalationClaimed | sophia/core/loop.py:743-752 | A proposed escalation is reported as done without a call, for every intent, as a situation or bypassed |
| PipelineLaws.RecordFaithful | sophia/core/loop.py:411-500 | The record agrees with the gates and the panel on every path, the first tool that declares the floor included, except that the matched trigger is dropped iff one fired beside a prohibited tool, and the declared floor iff the top candidate is defensive beside a floor below RED |
| PipelineLaws.TriggerDropped | sophia/core/loop.py:442-467 | A concrete pass with a fired trigger and a prohibited tool whose record has no trigger |
| PipelineLaws.ConversationHeld | eval/harness.py:249-251 | After a turn that matched a trigger, no later turn is bypassed and each proposing turn is held at its gate's tier |
| PipelineLaws.EarliestFloorHoldsIff | sophia/core/escalation_gate.py:102-125 | Every later pass is held at the earliest matching turn's tier iff the later turn matches no milder trigger or the configuration alone ensures that tier |
| PipelineLaws.FloorDropReachesPass | sophia/core/escalation_gate.py:102-110 | Two turns under the default configuration, the first refused at RED and the second escalated at ORANGE |
| Consequence.ParseNodes | sophia/core/consequence.py:278-300 | The recursive loop yields the nodes of the JSON with defaults and clamped numbers |
| Consequence.ParseMeaning | sophia/core/consequence.py:278-300 | Item by item: given fields, the default of every missing one, numbers brought into range, parsed children, and terminal by default iff there are none |
| Consequence.CountNodes | sophia/core/consequence.py:352-358 | The recursive count is the number of nodes in preorder |
| Consequence.CollectTerminals | sophia/core/consequence.py:360-367 | The recursive collection is the terminals in order |
| Consequence.TerminalsAreMarked | sophia/core/consequence.py:360-367 | The terminals are the marked nodes of the preorder, below terminals too |
| Consequence.LeastMeaning | sophia/core/consequence.py:150 | The worst terminal is the first one of least harm_benefit |
| Consequence.GreatestMeaning | sophia/core/consequence.py:151 | The best terminal is the first one of greatest harm_benefit |
| Consequence.BuildTree | sophia/core/consequence.py:143-160 | The tree built from JSON has its count, worst and best terminal, and all its numbers are in range |
| Consequence.TreeMeaning | sophia/core/consequence.py:143-160 | A tree counts all its nodes, and its worst and best terminal are the first of least and of greatest harm_benefit |
| Consequence.ParsePrint | sophia/core/loop.py:88-100 | Parsing a printed in-range tree gives it back up to fresh ids |
| Consequence.ParsePrintParse | sophia/core/consequence.py:278-300 | For any JSON, parsing the print of the parsed tree with fresh ids is parsing the JSON with these, and changes nothing but ids |
| Consequence.TreeRoundTrip | sophia/core/loop.py:103-112 | Roots, node count, terminals, worst and best of an in-range tree survive printing and parsing up to ids |
| Consequence.BuiltTreeRoundTrip | sophia/core/consequence.py:143-160 | Every tree built from JSON is in range and survives printing and parsing up to ids |
| TreeAnalysis.GetWorstPath | sophia/core/tree_analysis.py:6-30 | The depth-first search with an accumulator finds the first worst among the reached paths |
| TreeAnalysis.WorstPathIsChain | sophia/core/tree_analysis.py:6-30 | The path starts at a root, goes parent to child through non-terminals, and ends at a terminal |
| TreeAnalysis.PathsIff | sophia/core/tree_analysis.py:15-28 | The paths compared are exactly the chains from a root through non-terminals to a terminal |
| TreeAnalysis.WorstPathEnd | sophia/core/tree_analysis.py:15-25 | The path is empty iff no terminal is reached and otherwise ends at the first reached terminal of least harm_benefit |
| TreeAnalysis.ReachesAllIff | sophia/core/tree_analysis.py:15-28 | The search reaches every terminal iff none lies below another |
| TreeAnalysis.WorstPathMatchesEngine | sophia/core/consequence.py:148-151 | Path and engine agree on the worst terminal when no terminal lies below another, in particular when terminals are childless; otherwise the path's end is never worse |
| TreeAnalysis.TerminalWithChildrenDiffers | sophia/core/consequence.py:285 | A concrete tree where a terminal has a worse terminal below it |
| TreeAnalysis.AgreesIff | sophia/core/tree_analysis.py:6-30 | For an in-range tree, the path ends at the engine's worst terminal for every labelling with harms iff no terminal lies below another |
| TreeAnalysis.GetExpectedHarm | sophia/core/tree_analysis.py:33-53 | The accumulator equals the sum over reached terminals of harm_benefit times path probability |
| TreeAnalysis.ExpectedMeaning | sophia/core/tree_analysis.py:33-53 | Expected harm is the sum over these paths of the harm at the end times the product of the probabilities |
| TreeAnalysis.ExpectedBetweenExtremes | sophia/core/tree_analysis.py:33-53 | In an in-range tree with a terminal, expected harm lies between the engine's worst and best terminal times the path probability reached |
| TreeAnalysis.ExpectedNormalized | sophia/core/tree_analysis.py:33-53 | If an in-range tree's sibling probabilities sum to at most 1, the mass reached is in [0, 1] and expected harm in [-1, 1] |
| TreeAnalysis.BuiltTreeExpected | sophia/core/tree_analysis.py:33-53 | Both bounds for every tree built from JSON, and expected harm 0 where no terminal is |
| TreeAnalysis.HasCatastrophicBranch | sophia/core/tree_analysis.py:56-75 | The early-return recursion decides the recursive predicate |
| TreeAnalysis.CatastrophicMeaning | sophia/core/tree_analysis.py:56-75 | A branch is found iff some node at all is likelier than 0.1 and at or below the threshold |
| TreeAnalysis.TreeRiskMonotone | sophia/core/tree_analysis.py:100-117 | Lowering any harm_benefit of an in-range tree never lowers its tier |
| TreeAnalysis.TreeRiskMeaning | sophia/core/tree_analysis.py:100-117 | RED iff some node at all is likelier than 0.1 and at or below the threshold, otherwise YELLOW iff the sum over paths is below -0.3 |
| TreeAnalysis.YellowHasHarmfulTerminal | sophia/core/tree_analysis.py:114-115 | A normalized in-range YELLOW tree has a worst terminal below -0.3 |
| TreeAnalysis.GetStakeholderImpact | sophia/core/tree_analysis.py:78-97 | The accumulator equals the impact summed over all nodes that name the stakeholder |
| TreeAnalysis.ImpactMeaning | sophia/core/tree_analysis.py:78-97 | The impact is the sum of harm times probability over the nodes of the preorder that name the stakeholder |
| TreeAnalysis.ImpactExchange | sophia/core/tree_analysis.py:78-97 | Summing over any distinct stakeholders equals summing over nodes by how many of them each affects |
| TreeAnalysis.ImpactConserved | sophia/core/tree_analysis.py:78-97 | Over a complete list the impacts sum to each node's impact times its number of distinct stakeholders |
| CacheKey.SortCanonical | sophia/core/consequence.py:175-178 | The sorted shape is the same iff the maps from names to types are, whatever the insertion order |
| CacheKey.DumpsInjective | sophia/core/consequence.py:178 | The JSON text with its escapes determines the dictionary |
| CacheKey.KeyIff | sophia/core/consequence.py:172-178 | As strings, two keys of an engine are equal iff tool and name-to-type map are, whatever characters the names hold |
| CacheKey.KeyMeaning | sophia/core/consequence.py:172-178 | Two keys of an engine are equal iff the tool is the same and the parameters have the same names with values of the same JSON types |
| ConsequenceCache.ConsequenceEngine.BeginAnalysis | sophia/core/consequence.py:89-108 | A hit returns the entry's tree rebound and counts it; a miss changes nothing |
| ConsequenceCache.ConsequenceEngine.FinishAnalysis | sophia/core/consequence.py:107-115 | The generated tree is returned, and stored with no hits iff the time to live is positive |
| ConsequenceCache.ConsequenceEngine.ClearCache | sophia/core/consequence.py:189-193 | No entry is left |
| ConsequenceCache.ConsequenceEngine.CacheStats | sophia/core/consequence.py:195-202 | Number of entries and sum of their hit counts |
| ConsequenceCache.AlwaysSound | sophia/core/consequence.py:89-115 | Under every interleaving each entry was generated for its key, each analysis gets its own candidate's tree, and each hit is younger than the time to live |
| ConsequenceCache.AlwaysAccounted | sophia/core/consequence.py:101-112 | Hits are those still counted plus those lost by overwriting and clearing |
| ConsequenceCache.HitsAndGenerations | sophia/core/consequence.py:195-202 | Generations plus hits are the completed analyses, and the statistics never exceed the hits, equalling them iff none were lost |
| ConsequenceCache.CacheTransparent | sophia/core/consequence.py:89-115 | If answers depend on the key alone up to fresh node ids, every analysis ends as it would without a cache, up to ids |
| ConsequenceCache.NoCachingWithoutTtl | sophia/core/consequence.py:91-96 | A tool whose own or default time to live is not positive is never served from the cache |
| ConsequenceCache.HitsAreYoung | sophia/core/consequence.py:91-104 | In every run a hit is younger than its registered tool's declared time to live, or than the engine's where none is declared |
| ConsequenceCache.YoungGenerationServes | sophia/core/consequence.py:91-112 | The converse: after a generation, until the cache is cleared, every analysis for the same tool and parameter types within that time is served from the cache |
| ConsequenceCache.ClearForgets | sophia/core/consequence.py:189-193 | After the cache was cleared no analysis is served from anything stored before |
| ConsequenceCache.SharedShape | sophia/core/consequence.py:172-187 | Every returned tree was generated for the same tool and parameter shape |
| McpClient.MCPClient.SendJsonRpc | sophia/services/mcp/client.py:73-128 | State and result of the retry loop equal the recursive specification |
| McpClient.MCPClient.Connect | sophia/services/mcp/client.py:130-184 | State and result of a connect, with a partly filled tool list on a nameless tool |
| McpClient.MCPClient.CallTool | sophia/services/mcp/client.py:186-204 | State and result of a call; an unknown tool is refused without a post |
| McpLaws.IdsIncrease | sophia/services/mcp/client.py:50-52 | Across all nested reconnects the ids posted are consecutive and strictly increasing |
| McpLaws.CallBounds | sophia/services/mcp/client.py:73-128 | One call posts at most 2R^2 - R requests and sleeps at most b(2R-1)(2^(R-1)-1) |
| McpLaws.BoundsAttained | sophia/services/mcp/client.py:73-158 | For every R a transport makes a call cost exactly these bounds |
| McpLaws.LastPostDecides | sophia/services/mcp/client.py:107-128 | The outcome is that of the last post; any other exception comes from a broken answer or a nameless listing of a reconnect, and exhaustion leaves the client disconnected |
| McpLaws.ConnectMeaning | sophia/services/mcp/client.py:130-184 | A connect succeeds iff both rounds are answered and every listed tool has a name; then it knows exactly the listed tools, and otherwise it sets no connected flag |
| McpLaws.ConnectFails | sophia/services/mcp/client.py:134-160 | By the answers alone: a connect whose initialize is not answered raises a timeout or a connection error, as the last answer says; anything else is raised iff initialize was answered and the listing ended on a broken answer or a nameless tool |
| McpLaws.ConnectTools | sophia/services/mcp/client.py:158-170 | After a connect the known tools are the names before the first missing one of an answered listing, or what was known before |
| McpLaws.CallStarts | sophia/services/mcp/client.py:77-128 | An unknown tool is refused without a post; a known one is posted at once with the next id, and that answer decides the attempt |
| McpLaws.CallGoesOn | sophia/services/mcp/client.py:84-105 | A call that reconnects is broken off iff the listing breaks off; in every other case it sleeps and posts again with the next id, and that answer decides the attempt |
| McpLaws.RoundSucceedsIff | sophia/services/mcp/client.py:77-128 | A round without reconnects succeeds iff some attempt is answered and all before it were retryable, and it stops at that post |
| McpLaws.RoundEnds | sophia/services/mcp/client.py:77-128 | A round without reconnects ends at the first answer that is not retried, or with its last attempt, with the result of that answer |
| RateLimiter.RateLimiter.Check | sophia/auth/rate_limiter.py:10-25 | Decision and new windows of one check |
| RateLimiter.AcceptedIff | sophia/auth/rate_limiter.py:17-25 | If the clock never steps back, a request is accepted iff the last 60 seconds hold fewer acceptances of its key than its limit |
| RateLimiter.CheckPrunes | sophia/auth/rate_limiter.py:17-19 | After a check, accepted or refused, nothing that is 60 seconds old is left of the key |
| RateLimiter.CountsIff | sophia/auth/rate_limiter.py:17-25 | At given clock readings every request of every run is accepted by that count iff no reading that follows one at least 60 seconds after an earlier reading is itself less than 60 seconds after that earlier one |
| RateLimiter.ClockStepMiscounts | sophia/auth/rate_limiter.py:12-19 | Three requests with a clock step back, the last accepted over the count |
| RateLimiter.WindowLimit | sophia/auth/rate_limiter.py:10-25 | If the clock never steps back and a key's limit is fixed, any half-open 60 seconds, open on either side, hold at most limit acceptances of the key |
| RateLimiter.LimitsKeptIff | sophia/auth/rate_limiter.py:12-25 | Every run at given clock readings keeps every fixed limit in every half-open minute iff no reading that follows one at least 60 seconds after an earlier reading is itself less than 60 seconds from that earlier one |
| RateLimiter.KeysIndependent | sophia/auth/rate_limiter.py:15-19 | A key's entries and acceptances depend on its own requests alone |
| RateLimiter.ClockStepBreaksLimit | sophia/auth/rate_limiter.py:12-19 | Four requests with a clock step back that exceed a limit of 2 |
| EventRouter.EventRouter.Route | sophia/webhooks/router.py:70-116 | Record and action of one event |
| EventRouter.ActionMeaning | sophia/webhooks/router.py:92-116 | An unknown source is ignored; a known one has the configured action of the topic, or a memory update where none is configured |
| EventRouter.SameDecisions | sophia/webhooks/router.py:83-90 | If the clock never steps back, pruning changes no duplicate decision of any run |
| EventRouter.PassesIff | sophia/webhooks/router.py:76-82 | If the clock never steps back, an event passes iff every earlier pass of the same event is at least 300 seconds old |
| EventRouter.DecisionsKeptIff | sophia/webhooks/router.py:76-90 | At given clock readings, both hold of every run iff no reading that follows one at least 300 seconds after an earlier reading is itself less than 300 seconds after that earlier one |
| EventRouter.ClockStepPassesAgain | sophia/webhooks/router.py:77-90 | Three arrivals with a clock step back, where one event passes twice within its window |
| EventRouter.PassLeavesYoungEntries | sophia/webhooks/router.py:85-90 | After a pass every entry left is younger than the window and the event is among them |

## Left out

- Language-model providers, prompts, response wording, memory recall and persistence: arbitrary inputs or no effect on the decisions.
- HTTP routes, WebSocket events, audit storage, key hashing and webhook signatures: input/output and library calls.
- The preflight acknowledgment: wording only; an exception from its callback is not modelled.
- Explanation and message texts, uuid values, log lines and the metadata dictionary of a result.
- The text of webhook messages and the notification and memory handlers behind the router.
- The contents of consequence trees inside the pipeline model: a pass only records whether generation failed; the engine and its cache are modelled on their own.
- Rounding of floats; unknown tier names in configuration, which the source rejects by a lookup error.
- Case folding and white space beyond ASCII in the gates.
- Proposals whose parameters are no object or whose tool name is no text: the cache key raises on the former before any tool runs (sophia/core/consequence.py:175), and the latter raises or names no tool.
- Consequences whose numbers are no numbers or whose children are no list of objects: the parser raises, or reads empty children as none. Under a hat it also raises on stakeholders that are lists or objects, and on an unknown stakeholder or affected party beside a description that is no text (sophia/core/consequence.py:311-330).
- Mutation of the registry's tools during a pass, and concurrent calls on one MCP client.
- `initialize` and `tools/call` answers whose shape is not an object.
- RiskLaws.NearMonotone: for non-negative weights; with a negative weight a lower score can raise the mean.
- PipelineLaws.DefensiveFloorIff: for non-negative weights, for the same reason.
- PipelineLaws.EarliestFloorHoldsIff: for non-negative weights, for the same reason.
- McpLaws.CallBounds: for at least one attempt; with none the client posts nothing and fails.
