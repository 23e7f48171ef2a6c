# CodeForgePro workflow state machine in Dafny

CodeForgePro turns a plain-text list of requirements into user stories, a design
document, code, a security review, test cases and QA scenarios. It runs a
twelve-node workflow graph: each of six stages has a generator and a reviewer.
An LLM writes each artifact. A second LLM call reviews the artifact and either
approves it, so control moves on to the next stage, or rejects it, so control
goes back with feedback. All nodes share one dictionary of twenty strings. The
session merges each node's partial update into that dictionary as the graph's
stream produces it. At the end the six artifacts are offered for download as
one text.

This project models that state machine in `app.py` and proves its properties:

- `state.dfy` (module `ArtifactState`): the twenty keys, the state dictionary,
  the all-empty initial state, and the last-writer-wins merge.
- `graph.dfy` (module `Graph`): the stages, the twelve nodes and the end
  marker, the six routers, the conditional-edge tables, and the successor
  function `Next`. An independent per-stage table of forward and backward
  targets states the topology again, and lemmas tie the two together.
- `nodes.dfy` (module `Nodes`): what each node reads from the state, the
  context it hands to its generation or review capability (create or revise
  branch, and the feedback line), and the partial update it returns.
- `executor.dfy` (module `Executor`): the run.
  - `Exec` is a pure specification of a bounded run for any step function.
  - `Advance` is the workflow graph's step function. Predicates say what any
    workflow step does, and `AdvanceIsWorkflowStep` proves that `Advance`
    satisfies them.
  - The class `Session` holds the state dictionary. Its `RunWorkflow` method
    runs the workflow graph through `Stream`, the streaming loop that merges
    each update into the session state in place, proved equal to `Exec`.
- `report.dfy` (module `Report`): the export text, checked against a reference
  layout built section by section.

The generation and review capabilities are opaque. Their replies are inputs:
a sequence of texts for the generators and a sequence of verdicts for the
reviewers, used in the order the nodes ask for them. If the next node's
capability has no reply left, the run stops with that node named. This models
a capability call that raises; the source catches it at app.py:533, and every
update merged before that stays in the session state.

The step bound `recursion_limit: 100` is an explicit budget that counts node
executions. No library error type is claimed for running out of it.

The state is a `map<Key, string>` read through `Get`, which returns `""` for a
missing key. Every state a session reaches holds all twenty keys. `Initial`,
`MergeKeepsTotal`, `ExecKeepsTotal` and the `Session.Valid` invariant prove
this, so the default of `Get` is never observed; it serves only to keep the
lookups total. `Valid` also ties the session to the workflow graph's step.

Three behaviours of the code are worth stating outright:

- The routers compare the approval field with one string and treat every
  other value as a rejection, the initial `""` included. No verdict is
  refused as invalid, and the model has no invalid-verdict error.
- The security reviewer takes its approval from the reply's approval field
  and files the reply's review text under `security_feedback`
  (app.py:298-299). It leaves the `security_review` artifact as the security
  generator wrote it (`SecurityReviewerQuirk`).
- No node reads `security_feedback`, and the coder revises from
  `code_feedback` only. So when the security reviewer sends control back to
  the coder, the security findings never reach it
  (`SecurityFeedbackUnread`, `SecurityRejectionBypassesCoder`).

## Model

| member | source | states |
|---|---|---|
| ArtifactState.Initial | app.py:374-396 | the initial state holds every key of the record, and every key holds the empty string |
| ArtifactState.MergeValues | app.py:504 | after a merge, a key the update writes holds the update's value and every other key keeps its old value |
| ArtifactState.MergeKeepsTotal | app.py:504 | a merge never removes a key: the key set is unchanged, so a state holding every key keeps holding every key |
| ArtifactState.MergeTwice | app.py:501-504 | two merges in a row equal one merge of the right-biased union of the updates, so the later writer wins on shared keys |
| Graph.StageOf | app.py:439-450 | every node except the end marker is its stage's generator or its stage's reviewer |
| Graph.NodeKinds | app.py:439-450 | every node except the end marker is exactly one of a generator and a reviewer |
| Graph.RouterDefaults | app.py:339-367 | each router returns its stage's approve label ("Approved", or "Passed" for QA) exactly when the approval field equals that spelling, and the reject label ("FeedBack", or "Failed" for QA) for every other value, including the empty string |
| Graph.Route | app.py:456-495 | the label a reviewer's router returns is always a key of that reviewer's edge table |
| Graph.RouteIsStageRouter | app.py:456-495 | the router consulted for each reviewer is the one the graph wires to it (product_route for the product reviewer, and so on) |
| Graph.RouteReadsOnlyApproval | app.py:339-367 | routing depends on the reviewer's approval key alone: two states that agree on it give the same label and the same next node |
| Graph.Pairing | app.py:454-490 | every generator is followed unconditionally by its own reviewer, whatever the state |
| Graph.ForwardEdge | app.py:456-495 | on approval a reviewer hands over to the next stage's generator, or to the end after QA; the stage index strictly increases |
| Graph.ForwardAlongPipeline | app.py:456-495 | along the pipeline order content → design → code → security → test → QA, when a stage's approval key holds its approve spelling, the stage's reviewer is followed by the next stage's generator, and the QA reviewer by the end |
| Graph.BackwardEdge | app.py:456-495 | on any other approval value a reviewer hands back to a generator of the same or an earlier stage: its own generator, or the coder for the security stage |
| Graph.SecurityNeverSelfLoops | app.py:477-481 | the security reviewer never routes to the security generator; it goes to the tester or the coder |
| Graph.EndOnlyFromQa | app.py:491-495 | the end is the next node exactly when the node is the QA reviewer and its approval key holds "Passed" |
| Graph.InitialRejects | app.py:339-396 | in the initial all-empty state every router takes its rejection edge |
| Nodes.KeysDistinct | app.py:230-336 | each stage's artifact, feedback and approval keys are pairwise distinct |
| Nodes.GeneratedByStage | app.py:88-227 | a generator's update is the one-key map from its stage's artifact key to the generated text |
| Nodes.GeneratorWrites | app.py:88-227 | after merging a generator's update, its artifact key holds the generated text |
| Nodes.GeneratorFrame | app.py:88-227 | merging a generator's update leaves every key other than its artifact key unchanged |
| Nodes.ReviewedByStage | app.py:230-336 | a reviewer's update maps its stage's approval key to the verdict's approval and its feedback key to the verdict's text |
| Nodes.ReviewerKeys | app.py:230-336 | a reviewer's update writes exactly two keys: its approval key and its feedback key |
| Nodes.ReviewerWrites | app.py:230-336 | after merging a reviewer's update, the approval and feedback keys hold the verdict's two parts |
| Nodes.ReviewerFrame | app.py:230-336 | merging a reviewer's update leaves every other key unchanged, its stage's artifact included |
| Nodes.GeneratorBranch | app.py:99-227 | a generator takes the revise branch exactly when its branch key is non-empty; the feedback line is then the stage prefix followed by that value verbatim (and the value can be read back after the prefix), otherwise the line is empty; the material comes from the stage's input key |
| Nodes.BranchKeys | app.py:217-218 | every generator but the security one branches on its own stage's feedback key; the security generator branches on its own previous review |
| Nodes.ReviewerRequest | app.py:230-331 | a reviewer sends its stage's reference value and the artifact under review |
| Nodes.RejectionRegenerates | app.py:456-495 | a rejection by any reviewer other than the security one sends control to the same stage's generator |
| Nodes.FeedbackThreaded | app.py:99-204 | after a rejected review, the stage's generator gets the reviewer's feedback text verbatim after the stage prefix on the revise branch, or the create branch with an empty line when the text is empty, and builds on unchanged material |
| Nodes.SecurityReviewerQuirk | app.py:297-300 | the security reviewer writes the reply's review text under security_feedback, records the approval, and leaves the security_review artifact as the generator wrote it |
| Nodes.SecurityFeedbackUnread | app.py:88-367 | no node's request and no routing decision depends on the security_feedback key |
| Nodes.SecurityRejectionBypassesCoder | app.py:137-158 | after a security rejection control goes to the coder, and the coder receives exactly the context it would have received without the security review |
| Executor.AdvanceIsWorkflowStep | app.py:498-504 | the graph's step runs the current node on the current state, merges its update, takes the successor edge in the merged state, uses one reply of the right capability, and stops exactly at the end marker or when the capability is silent |
| Executor.ExecLength | app.py:501 | a run executes at most as many nodes as its budget, and exactly that many when it stops for lack of budget |
| Executor.ExecPrefix | app.py:501 | a smaller budget yields a prefix of the same run, and the same run outright unless the budget stopped it |
| Executor.ExecStopsAt | app.py:501 | a run cut short by the budget names the node a longer run executed next |
| Executor.BudgetEdge | app.py:501 | a run that completes after k steps is unchanged with any budget of at least k, and with a smaller budget m it stops after the same first m steps, naming step m's node |
| Executor.ExecReplay | app.py:501-504 | merging the streamed updates in order into the starting state rebuilds the state the run leaves |
| Executor.ReplayKeepsTotal | app.py:501-504 | replaying streamed updates into a state holding every key yields a state holding every key |
| Executor.ExecKeepsTotal | app.py:501-504 | a run from a state holding every key leaves a state holding every key |
| Executor.ExecFollowsGraph | app.py:453-504 | the first streamed step is the starting node, no step is the end marker, and each later step is the successor of the previous one in the state merged so far |
| Executor.ExecRequests | app.py:501-504 | every streamed step sent the context its node builds from the state merged from the steps before it |
| Executor.ExecUpdates | app.py:501-504 | every streamed step got a reply of the kind its node expects, and streamed the update its node returns for that reply |
| Executor.CompletesOnlyThroughQa | app.py:491-495 | a run completes only through the QA reviewer: its last step is the QA review, and the final QA approval is "Passed" |
| Executor.GeneratorRuns | app.py:454-490 | a generator with a text available takes one step, writes the text to its artifact key, and hands over to its reviewer |
| Executor.ReviewerRuns | app.py:456-495 | a reviewer with a verdict available takes one step, records the verdict, and hands over to its forward or backward target according to the approval |
| Executor.StageApproved | app.py:453-495 | a stage whose reviewer approves at once takes two steps, generator then reviewer, and reaches the stage's forward target with one text and one verdict used |
| Executor.ApprovedThrough | app.py:453-495 | for any chain of stages each of which approves into the next stage's generator (and the last into the end), when each stage's reviewer approves at once the run from the first generator visits each stage's generator and then its reviewer, in chain order, and completes |
| Executor.AllApprovedRun | app.py:453-501 | when every reviewer approves at once, a run from the entry with a budget of at least 12 visits exactly the twelve nodes in pipeline order and completes; with a smaller budget it runs that many of them and stops for lack of budget at the next one |
| Executor.Session.constructor | app.py:374-396 | a fresh session holds the all-empty state and the workflow graph's step |
| Executor.Session.SetTopic | app.py:424-428 | the requirements text area writes the topic key and nothing else |
| Executor.Session.RunWorkflow | app.py:501-504 | on any valid session, the streaming loop merges each step's update into the session state in place; it returns the outcome and the streamed steps of the bounded run of the workflow graph from the session's current state, leaves the state that run leaves, and keeps the session valid |
| Executor.Session.Stream | app.py:501-504 | for any step function that merges what it streams, the loop merges each step's update into the session state in place and returns the outcome and streamed steps of the bounded run from the session's state, leaving the state that run leaves |
| Report.ReportIsLayout | app.py:530 | the export text is the six sections laid out in order, each one's lead followed by its artifact; a lead is the header and a newline and a space, and every lead after the first starts with a blank line |
| Report.ReportSection | app.py:530 | the export text begins with the sections before section i laid out, followed by section i's header lead and then that section's artifact |
| Report.PartsAt | app.py:530 | in any text that begins with a layout, a lead and an artifact, the lead sits right after the layout and the artifact right after the lead; with ReportSection this puts each section's lead at its offset and its artifact right after it |
| Report.SectionsInOrder | app.py:530 | the sections occur in the fixed order user stories, design document, code, test cases, QA testing, security review, and each ends where the next begins |
| Report.ReportReadsOnlySections | app.py:530 | the export depends on the six artifacts and nothing else |

## Left out

- Streamlit UI: sidebar, buttons, spinner, result display, download button and error display (app.py:370-434, 506-534). This is rendering and I/O. Only the topic text area (`SetTopic`) and the session's state dictionary are modelled.
- Model initialisation and provider selection (app.py:58-75), and the "Model not initialized" checks at the top of each node. These are foreign library calls and session plumbing. A node that cannot call its capability is modelled only as a missing reply.
- LLM chains, prompt templates, JSON parsing and pydantic validation (app.py:33-55, 77-85 and the `invoke` calls). These are opaque capabilities whose replies are inputs. A request models only the branch, the material and the feedback line, not the prompt wording.
- Graph compilation, streaming and the exact semantics of `recursion_limit` (app.py:498-501). These belong to the library. The bound is a budget that counts node executions, and no library error type is modelled.
- The stream's `"__end__"` entry filter (app.py:503). The model streams only node steps, so there is nothing to filter.
- BytesIO encoding and the MIME type of the download (app.py:531-532). These are I/O. The model stops at the export string.
- The `final_code_docs` key. It is part of the record and of the initial state, but no node reads or writes it.
- Concurrency and Streamlit reruns are not modelled. A rerun is another call on the same `Session`, which keeps its state between runs.
- Routers: they return the two labels as a `Label` datatype, and `Spelling` gives each label's string.
- Report.ReportSection: states that the export begins with each section laid out after the ones before it; the character positions follow from it through PartsAt rather than being stated in its own contract. The header and the separator are one lead string per section, not positions proved separately.
