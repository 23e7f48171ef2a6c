/** Running the workflow. The compiled graph takes one step at a time: it runs
    the current node, merges the node's partial update into its state (last
    writer wins) and follows the successor edge. The executor streams those
    steps from the entry node and stops at the end marker, when the step
    budget is spent, or when a capability has no reply. The executor is
    written for any step function; `Advance` is the workflow graph's, and the
    predicates below say what a workflow step does. */
module Executor {
  import opened ArtifactState
  import opened Graph
  import opened Nodes

  /** The step bound the workflow is streamed with. */
  const RecursionLimit: nat := 100

  datatype Option<T> = None | Some(value: T)

  /** One streamed step: the node that ran, the context it sent to its
      capability, the reply it got, and the partial update it returned. */
  datatype Event = Event(node: Node, request: Request, reply: Reply, update: Update)

  /** Where a run stands between two steps: the node to run next, the graph's
      state, and the replies the generation and review capabilities have left,
      in the order they will give them. */
  datatype Config = Config(at: Node, state: State, texts: seq<string>, verdicts: seq<Verdict>)

  /** A streamed step and the configuration it leads to. */
  datatype Step = Step(event: Event, after: Config)

  /** How a run stops. */
  datatype Outcome =
    | Completed                  // the end marker was reached
    | BudgetExceeded(at: Node)   // `at` would have run after the budget was spent
    | CapabilityFailed(at: Node) // `at`'s capability gave no reply

  /** A run: how it stopped, the state it left, and the streamed steps. */
  datatype Run = Run(outcome: Outcome, final: State, events: seq<Event>)

  function Prepend(e: Event, r: Run): Run
  {
    Run(r.outcome, r.final, [e] + r.events)
  }

  /** The capability the node at `c` calls still has a reply. */
  predicate HasReply(c: Config)
  {
    if IsGenerator(c.at) then c.texts != [] else c.verdicts != []
  }

  /** One step of the workflow graph: nothing at the end marker or when the
      node's capability is silent; otherwise the node's event, its update
      merged into the state, and the successor edge taken in the merged
      state. */
  function Advance(c: Config): Option<Step>
  {
    if c.at == End || !HasReply(c) then None
    else
      var reply := if IsGenerator(c.at) then Wrote(c.texts[0]) else Judged(c.verdicts[0]);
      var e := Event(c.at, RequestOf(c.at, c.state), reply, NodeUpdate(c.at, reply));
      var s := Merge(c.state, e.update);
      Some(Step(e, Config(Next(c.at, s), s,
                          if IsGenerator(c.at) then c.texts[1..] else c.texts,
                          if IsGenerator(c.at) then c.verdicts else c.verdicts[1..])))
  }

  // What a workflow step does, one aspect at a time: first at a single
  // configuration, then at every configuration. Proofs draw on the facts at
  // the configurations they name, and nowhere else.

  /** A step is taken exactly when there is a node to run and its capability
      has a reply. */
  predicate StopsWhenSilentAt(step: Config -> Option<Step>, c: Config)
  {
    step(c).None? <==> c.at == End || !HasReply(c)
  }

  /** A step sends the context the current node builds from the state before
      it. */
  predicate SendsContextAt(step: Config -> Option<Step>, c: Config)
  {
    step(c).Some? ==> c.at != End && step(c).value.event.request == RequestOf(c.at, c.state)
  }

  /** A step gets a reply of the kind the current node expects, and returns
      the node's update for that reply. */
  predicate ReturnsUpdateAt(step: Config -> Option<Step>, c: Config)
  {
    step(c).Some? ==>
      var e := step(c).value.event;
      c.at != End && (e.reply.Wrote? <==> IsGenerator(c.at)) && e.update == NodeUpdate(c.at, e.reply)
  }

  /** The state after a step is the state before it with the step's update
      merged in. */
  predicate MergesAt(step: Config -> Option<Step>, c: Config)
  {
    step(c).Some? ==> step(c).value.after.state == Merge(c.state, step(c).value.event.update)
  }

  /** A step is streamed under the current node's name, and leads to the node
      that node's edge selects in the merged state. */
  predicate FollowsEdgesAt(step: Config -> Option<Step>, c: Config)
  {
    step(c).Some? ==>
      var st := step(c).value;
      c.at != End && st.event.node == c.at && st.after.at == Next(c.at, st.after.state)
  }

  /** A generator takes the next text and a reviewer the next verdict; the
      other capability's replies are left as they were. */
  predicate ConsumesRepliesAt(step: Config -> Option<Step>, c: Config)
  {
    step(c).Some? ==>
      var st := step(c).value;
      if IsGenerator(c.at) then
        c.texts != [] && st.event.reply == Wrote(c.texts[0]) &&
        st.after.texts == c.texts[1..] && st.after.verdicts == c.verdicts
      else
        c.verdicts != [] && st.event.reply == Judged(c.verdicts[0]) &&
        st.after.texts == c.texts && st.after.verdicts == c.verdicts[1..]
  }

  ghost predicate SendsContext(step: Config -> Option<Step>)
  {
    forall c :: SendsContextAt(step, c)
  }

  ghost predicate ReturnsUpdate(step: Config -> Option<Step>)
  {
    forall c :: ReturnsUpdateAt(step, c)
  }

  ghost predicate Merges(step: Config -> Option<Step>)
  {
    forall c :: MergesAt(step, c)
  }

  ghost predicate FollowsEdges(step: Config -> Option<Step>)
  {
    forall c :: FollowsEdgesAt(step, c)
  }

  /** A step from `c` that moves through the graph as the workflow's does:
      everything a workflow step does except what it sends to the
      capabilities. */
  predicate WalksAt(step: Config -> Option<Step>, c: Config)
  {
    StopsWhenSilentAt(step, c) && ReturnsUpdateAt(step, c) && MergesAt(step, c) &&
    FollowsEdgesAt(step, c) && ConsumesRepliesAt(step, c)
  }

  ghost predicate WalksGraph(step: Config -> Option<Step>)
  {
    forall c :: WalksAt(step, c)
  }

  ghost predicate IsWorkflowStep(step: Config -> Option<Step>)
  {
    WalksGraph(step) && SendsContext(step)
  }

  /** Each aspect of walking the graph holds everywhere on its own. */
  lemma WalksGraphAspects(step: Config -> Option<Step>)
    requires WalksGraph(step)
    ensures ReturnsUpdate(step) && Merges(step) && FollowsEdges(step)
  {
    forall c
      ensures ReturnsUpdateAt(step, c) && MergesAt(step, c) && FollowsEdgesAt(step, c)
    {
      assert WalksAt(step, c);
    }
  }

  /** The graph's step is a workflow step. */
  lemma AdvanceIsWorkflowStep()
    ensures IsWorkflowStep(Advance)
  {
    forall c
      ensures WalksAt(Advance, c) && SendsContextAt(Advance, c)
    {
    }
  }

  /** The run that starts from `c` with `budget` node executions left. */
  function Exec(step: Config -> Option<Step>, c: Config, budget: nat): Run
    decreases budget
  {
    if c.at == End then Run(Completed, c.state, [])
    else if budget == 0 then Run(BudgetExceeded(c.at), c.state, [])
    else match step(c)
      case None => Run(CapabilityFailed(c.at), c.state, [])
      case Some(st) => Prepend(st.event, Exec(step, st.after, budget - 1))
  }

  /** The state obtained by merging the updates of `events` into `s` one after
      the other, as the session loop does with the streamed steps. */
  function Replay(s: State, events: seq<Event>): State
    decreases |events|
  {
    if events == [] then s else Replay(Merge(s, events[0].update), events[1..])
  }

  /** Replaying updates never removes a key. */
  lemma {:induction false} ReplayKeepsTotal(s: State, events: seq<Event>)
    requires Total(s)
    ensures Total(Replay(s, events))
    decreases |events|
  {
    if events != [] {
      MergeKeepsTotal(s, events[0].update);
      ReplayKeepsTotal(Merge(s, events[0].update), events[1..]);
    }
  }

  /** Replaying a non-empty prefix of `[e] + rest` is replaying the shorter
      prefix of `rest` from the state after `e`. */
  lemma {:induction false} ReplayCons(s: State, e: Event, rest: seq<Event>, i: nat)
    requires i <= |rest|
    ensures Replay(s, ([e] + rest)[..i + 1]) == Replay(Merge(s, e.update), rest[..i])
  {
    assert ([e] + rest)[..i + 1] == [e] + rest[..i];
    assert ([e] + rest[..i])[1..] == rest[..i];
  }

  /** A run executes at most `budget` nodes, and exactly `budget` when it
      stops for lack of budget. */
  lemma {:induction false} ExecLength(step: Config -> Option<Step>, c: Config, budget: nat)
    ensures |Exec(step, c, budget).events| <= budget
    ensures Exec(step, c, budget).outcome.BudgetExceeded? ==> |Exec(step, c, budget).events| == budget
    decreases budget
  {
    if c.at != End && budget > 0 && step(c).Some? {
      ExecLength(step, step(c).value.after, budget - 1);
    }
  }

  /** A smaller budget yields a prefix of the same run, and the same run
      outright unless the smaller budget is what stopped it. */
  lemma {:induction false} ExecPrefix(step: Config -> Option<Step>, c: Config, m: nat, n: nat)
    requires m <= n
    ensures Exec(step, c, m).events <= Exec(step, c, n).events
    ensures !Exec(step, c, m).outcome.BudgetExceeded? ==> Exec(step, c, m) == Exec(step, c, n)
    ensures Exec(step, c, m).outcome.BudgetExceeded? && Exec(step, c, n).outcome == Completed ==>
      |Exec(step, c, m).events| < |Exec(step, c, n).events|
    decreases m
  {
    if c.at != End && m > 0 && step(c).Some? {
      ExecPrefix(step, step(c).value.after, m - 1, n - 1);
    }
  }

  /** A run cut short by the budget names the node the longer run went on to
      execute next. */
  lemma {:induction false} ExecStopsAt(step: Config -> Option<Step>, c: Config, m: nat, n: nat)
    requires FollowsEdges(step)
    requires m < |Exec(step, c, n).events|
    ensures Exec(step, c, m).outcome == BudgetExceeded(Exec(step, c, n).events[m].node)
    decreases m
  {
    ExecLength(step, c, n);
    assert FollowsEdgesAt(step, c);
    var st := step(c).value;
    if m > 0 {
      ExecStopsAt(step, st.after, m - 1, n - 1);
    }
  }

  /** Budget edge: a run that completes after `k` node executions completes,
      unchanged, with any budget of at least `k`, and with any smaller budget
      stops for lack of budget after the first `m` of the same steps, naming
      the step that would have come next. */
  lemma {:induction false} BudgetEdge(step: Config -> Option<Step>, c: Config, n: nat, m: nat)
    requires FollowsEdges(step)
    requires Exec(step, c, n).outcome == Completed
    ensures m >= |Exec(step, c, n).events| ==> Exec(step, c, m) == Exec(step, c, n)
    ensures m < |Exec(step, c, n).events| ==>
      Exec(step, c, m).outcome == BudgetExceeded(Exec(step, c, n).events[m].node) &&
      Exec(step, c, m).events == Exec(step, c, n).events[..m]
  {
    ExecLength(step, c, n);
    ExecLength(step, c, m);
    if m <= n {
      ExecPrefix(step, c, m, n);
    } else {
      ExecPrefix(step, c, n, m);
    }
    if m < |Exec(step, c, n).events| {
      ExecStopsAt(step, c, m, n);
    }
  }

  /** The streamed updates, merged in order into the state the run started
      from, rebuild the state the run leaves. */
  lemma {:induction false} ExecReplay(step: Config -> Option<Step>, c: Config, budget: nat)
    requires Merges(step)
    ensures Replay(c.state, Exec(step, c, budget).events) == Exec(step, c, budget).final
    decreases budget
  {
    if c.at != End && budget > 0 && step(c).Some? {
      assert MergesAt(step, c);
      var st := step(c).value;
      ExecReplay(step, st.after, budget - 1);
      assert Exec(step, c, budget).events[1..] == Exec(step, st.after, budget - 1).events;
    }
  }

  /** A run that starts from a state holding every key leaves one. */
  lemma ExecKeepsTotal(step: Config -> Option<Step>, c: Config, budget: nat)
    requires Merges(step) && Total(c.state)
    ensures Total(Exec(step, c, budget).final)
  {
    ExecReplay(step, c, budget);
    ReplayKeepsTotal(c.state, Exec(step, c, budget).events);
  }

  /** Every streamed step follows the graph: the first is the starting node,
      none is the end marker, and each later one is the successor of the one
      before in the state the merges had produced by then. */
  lemma {:induction false} ExecFollowsGraph(step: Config -> Option<Step>, c: Config, budget: nat)
    requires Merges(step) && FollowsEdges(step)
    ensures Exec(step, c, budget).events != [] ==> Exec(step, c, budget).events[0].node == c.at
    ensures forall i :: 0 <= i < |Exec(step, c, budget).events| ==> Exec(step, c, budget).events[i].node != End
    ensures forall i :: 0 <= i < |Exec(step, c, budget).events| - 1 ==>
      Exec(step, c, budget).events[i + 1].node ==
        Next(Exec(step, c, budget).events[i].node, Replay(c.state, Exec(step, c, budget).events[..i + 1]))
  {
    ExecWalked(step, c, budget);
  }

  /** `ev` starts at `at`, never names the end marker, and each step's node is
      the successor of the one before in the state the steps up to it had
      produced from `s`. */
  ghost predicate Walked(s: State, at: Node, ev: seq<Event>)
  {
    (ev != [] ==> ev[0].node == at) &&
    (forall i :: 0 <= i < |ev| ==> ev[i].node != End) &&
    (forall i :: 0 <= i < |ev| - 1 ==> ev[i + 1].node == Next(ev[i].node, Replay(s, ev[..i + 1])))
  }

  /** A step in front of a walk that starts at the step's successor. */
  lemma WalkedCons(s: State, e: Event, rest: seq<Event>)
    requires e.node != End
    requires Walked(Merge(s, e.update), Next(e.node, Merge(s, e.update)), rest)
    ensures Walked(s, e.node, [e] + rest)
  {
    var ev := [e] + rest;
    forall i | 0 <= i < |ev| - 1
      ensures ev[i + 1].node == Next(ev[i].node, Replay(s, ev[..i + 1]))
    {
      ReplayCons(s, e, rest, i);
      if i == 0 {
        assert rest[..0] == [];
      } else {
        assert ev[i] == rest[i - 1];
        assert rest[..i] == rest[..i - 1 + 1];
      }
    }
    assert forall i :: 0 <= i < |ev| ==> ev[i].node != End by {
      forall i | 0 < i < |ev| ensures ev[i].node != End {
        assert ev[i] == rest[i - 1];
      }
    }
  }

  /** One step of a run in front of the walk that continues from it. */
  lemma WalkedStep(step: Config -> Option<Step>, c: Config, budget: nat)
    requires c.at != End && budget > 0 && step(c).Some?
    requires MergesAt(step, c) && FollowsEdgesAt(step, c)
    requires Walked(step(c).value.after.state, step(c).value.after.at, Exec(step, step(c).value.after, budget - 1).events)
    ensures Walked(c.state, c.at, Exec(step, c, budget).events)
  {
    var st := step(c).value;
    WalkedCons(c.state, st.event, Exec(step, st.after, budget - 1).events);
  }

  /** The streamed steps of a run walk the graph from the run's start. */
  lemma {:induction false} ExecWalked(step: Config -> Option<Step>, c: Config, budget: nat)
    requires Merges(step) && FollowsEdges(step)
    ensures Walked(c.state, c.at, Exec(step, c, budget).events)
    decreases budget
  {
    if Exec(step, c, budget).events != [] {
      assert MergesAt(step, c) && FollowsEdgesAt(step, c);
      ExecWalked(step, step(c).value.after, budget - 1);
      WalkedStep(step, c, budget);
    }
  }

  /** Every step of `ev` was for a real node and sent the context that node
      builds from the state the steps before it had produced from `s`. */
  ghost predicate SentContexts(s: State, ev: seq<Event>)
  {
    forall i :: 0 <= i < |ev| ==> ev[i].node != End && ev[i].request == RequestOf(ev[i].node, Replay(s, ev[..i]))
  }

  /** A step that sent its context in front of steps that sent theirs, from
      the state it produced. */
  lemma ContextsCons(s: State, e: Event, rest: seq<Event>)
    requires e.node != End && e.request == RequestOf(e.node, s)
    requires SentContexts(Merge(s, e.update), rest)
    ensures SentContexts(s, [e] + rest)
  {
    var ev := [e] + rest;
    forall i | 0 <= i < |ev|
      ensures ev[i].node != End && ev[i].request == RequestOf(ev[i].node, Replay(s, ev[..i]))
    {
      if i == 0 {
        assert ev[..0] == [];
      } else {
        assert ev[i] == rest[i - 1];
        ReplayCons(s, e, rest, i - 1);
      }
    }
  }

  /** Every streamed step sent the context its node builds from the state the
      merges had produced before it. */
  lemma {:induction false} ExecRequests(step: Config -> Option<Step>, c: Config, budget: nat)
    requires Merges(step) && FollowsEdges(step) && SendsContext(step)
    ensures forall i :: 0 <= i < |Exec(step, c, budget).events| ==> Exec(step, c, budget).events[i].node != End
    ensures forall i :: 0 <= i < |Exec(step, c, budget).events| ==>
      Exec(step, c, budget).events[i].request ==
        RequestOf(Exec(step, c, budget).events[i].node, Replay(c.state, Exec(step, c, budget).events[..i]))
  {
    ExecSentContexts(step, c, budget);
  }

  /** The streamed steps of a run sent the contexts their nodes build. */
  lemma {:induction false} ExecSentContexts(step: Config -> Option<Step>, c: Config, budget: nat)
    requires Merges(step) && FollowsEdges(step) && SendsContext(step)
    ensures SentContexts(c.state, Exec(step, c, budget).events)
    decreases budget
  {
    if Exec(step, c, budget).events != [] {
      assert MergesAt(step, c) && FollowsEdgesAt(step, c) && SendsContextAt(step, c);
      var st := step(c).value;
      ExecSentContexts(step, st.after, budget - 1);
      ContextsCons(c.state, st.event, Exec(step, st.after, budget - 1).events);
    }
  }

  /** Every streamed step got a reply of the kind its node expects and
      streamed the update its node computes from that reply. */
  lemma {:induction false} ExecUpdates(step: Config -> Option<Step>, c: Config, budget: nat)
    requires FollowsEdges(step) && ReturnsUpdate(step)
    ensures forall i :: 0 <= i < |Exec(step, c, budget).events| ==>
      var e := Exec(step, c, budget).events[i];
      e.node != End && (e.reply.Wrote? <==> IsGenerator(e.node)) && e.update == NodeUpdate(e.node, e.reply)
    decreases budget
  {
    var ev := Exec(step, c, budget).events;
    if ev != [] {
      assert FollowsEdgesAt(step, c) && ReturnsUpdateAt(step, c);
      var st := step(c).value;
      var rest := Exec(step, st.after, budget - 1).events;
      assert ev == [st.event] + rest;
      ExecUpdates(step, st.after, budget - 1);
    }
  }

  /** A run completes only through the QA reviewer: its last step is the QA
      review, and the state it leaves holds "Passed" as the QA approval. */
  lemma {:induction false} CompletesOnlyThroughQa(step: Config -> Option<Step>, c: Config, budget: nat)
    requires FollowsEdges(step)
    requires c.at != End
    requires Exec(step, c, budget).outcome == Completed
    ensures var r := Exec(step, c, budget);
      r.events != [] && r.events[|r.events| - 1].node == QuestionOwnerReview &&
      Get(r.final, QuestionAnswerTestingApproval) == "Passed"
    decreases budget
  {
    assert FollowsEdgesAt(step, c);
    var st := step(c).value;
    if st.after.at == End {
      EndOnlyFromQa(c.at, st.after.state);
    } else {
      CompletesOnlyThroughQa(step, st.after, budget - 1);
    }
  }

  /** A stage's generator with a text to spare takes one step, writes the
      text to its artifact key and hands over to the stage's reviewer. */
  lemma GeneratorRuns(step: Config -> Option<Step>, k: Stage, c: Config, budget: nat)
    requires WalksGraph(step)
    requires c.at == Generator(k) && c.texts != [] && budget > 0
    ensures step(c).Some?
    ensures var st := step(c).value;
      Exec(step, c, budget) == Prepend(st.event, Exec(step, st.after, budget - 1)) &&
      st.event.node == Generator(k) && st.after.at == Reviewer(k) &&
      st.after.state == Merge(c.state, Generated(Generator(k), c.texts[0])) &&
      st.after.texts == c.texts[1..] && st.after.verdicts == c.verdicts
  {
    NodeKinds(Generator(k));
    assert WalksAt(step, c) && HasReply(c);
    var st := step(c).value;
    Pairing(k, st.after.state);
  }

  /** A stage's reviewer with a verdict to spare takes one step, records the
      verdict under the stage's approval and feedback keys, and hands over to
      the stage's forward target when the approval is the approve label and
      to its backward target otherwise. */
  lemma ReviewerRuns(step: Config -> Option<Step>, k: Stage, c: Config, budget: nat)
    requires WalksGraph(step)
    requires c.at == Reviewer(k) && c.verdicts != [] && budget > 0
    ensures step(c).Some?
    ensures var st := step(c).value;
      Exec(step, c, budget) == Prepend(st.event, Exec(step, st.after, budget - 1)) &&
      st.event.node == Reviewer(k) &&
      st.after.at == (if c.verdicts[0].approval == Spelling(ApproveLabel(k)) then ForwardTarget(k) else BackwardTarget(k)) &&
      st.after.state == Merge(c.state, Reviewed(Reviewer(k), c.verdicts[0])) &&
      st.after.texts == c.texts && st.after.verdicts == c.verdicts[1..]
  {
    NodeKinds(Reviewer(k));
    assert WalksAt(step, c) && HasReply(c);
    var st := step(c).value;
    ReviewerWrites(k, c.state, c.verdicts[0]);
    if c.verdicts[0].approval == Spelling(ApproveLabel(k)) {
      ForwardEdge(k, st.after.state);
    } else {
      BackwardEdge(k, st.after.state);
    }
  }

  /** The nodes a sequence of streamed steps ran, in order. */
  function NodesOf(events: seq<Event>): seq<Node>
  {
    if events == [] then [] else [events[0].node] + NodesOf(events[1..])
  }

  /** The nodes of a prefix of the steps are the prefix of their nodes, and
      the step at position `m` ran the node at position `m`. */
  lemma {:induction false} NodesOfPrefix(events: seq<Event>, m: nat)
    requires m < |events|
    ensures |NodesOf(events)| == |events|
    ensures NodesOf(events)[m] == events[m].node && NodesOf(events[..m]) == NodesOf(events)[..m]
  {
    if m > 0 {
      NodesOfPrefix(events[1..], m - 1);
      assert events[..m][1..] == events[1..][..m - 1];
    } else {
      NodesOfLength(events);
    }
  }

  lemma {:induction false} NodesOfLength(events: seq<Event>)
    ensures |NodesOf(events)| == |events|
  {
    if events != [] {
      NodesOfLength(events[1..]);
    }
  }

  lemma {:induction false} NodesOfPair(e1: Event, e2: Event, rest: seq<Event>)
    ensures NodesOf([e1, e2] + rest) == [e1.node, e2.node] + NodesOf(rest)
  {
    assert ([e1, e2] + rest)[1..] == [e2] + rest;
    assert ([e2] + rest)[1..] == rest;
  }

  /** The nodes of `stages`, each stage's generator followed by its
      reviewer. */
  function StageNodes(stages: seq<Stage>): seq<Node>
  {
    if stages == [] then [] else [Generator(stages[0]), Reviewer(stages[0])] + StageNodes(stages[1..])
  }

  /** A stage whose reviewer accepts at once takes two steps, its generator's
      and then its reviewer's, and hands over to the stage's forward target
      with one text and one verdict used up. */
  lemma StageApproved(step: Config -> Option<Step>, k: Stage, c: Config, budget: nat) returns (c2: Config)
    requires WalksGraph(step)
    requires c.at == Generator(k) && c.texts != [] && c.verdicts != [] && budget >= 2
    requires c.verdicts[0].approval == Spelling(ApproveLabel(k))
    ensures c2.at == ForwardTarget(k) && c2.texts == c.texts[1..] && c2.verdicts == c.verdicts[1..]
    ensures Exec(step, c, budget).outcome == Exec(step, c2, budget - 2).outcome
    ensures NodesOf(Exec(step, c, budget).events) == [Generator(k), Reviewer(k)] + NodesOf(Exec(step, c2, budget - 2).events)
  {
    GeneratorRuns(step, k, c, budget);
    var st1 := step(c).value;
    ReviewerRuns(step, k, st1.after, budget - 1);
    var st2 := step(st1.after).value;
    c2 := st2.after;
    var rest := Exec(step, c2, budget - 2).events;
    assert Exec(step, c, budget).events == [st1.event, st2.event] + rest;
    NodesOfPair(st1.event, st2.event, rest);
  }

  /** Each of `stages` hands over to the next one's generator on approval,
      and the last one to the end. */
  predicate Chained(stages: seq<Stage>)
  {
    stages == [] ||
    (ForwardTarget(stages[0]) == (if |stages| == 1 then End else Generator(stages[1])) && Chained(stages[1..]))
  }

  /** The verdicts accept each of `stages` at once, one verdict per stage,
      in order. */
  predicate Approves(verdicts: seq<Verdict>, stages: seq<Stage>)
  {
    stages == [] ||
    (verdicts != [] && verdicts[0].approval == Spelling(ApproveLabel(stages[0])) &&
     Approves(verdicts[1..], stages[1..]))
  }

  /** A run that completed after running the nodes of `stages`, in order. */
  ghost predicate ApprovedRun(r: Run, stages: seq<Stage>)
  {
    r.outcome == Completed && NodesOf(r.events) == StageNodes(stages)
  }

  /** A stage's two steps in front of a run of the stages after it make a
      run of all the stages. */
  lemma ApprovedRunCons(r: Run, rest: Run, stages: seq<Stage>)
    requires stages != [] && ApprovedRun(rest, stages[1..])
    requires r.outcome == rest.outcome
    requires NodesOf(r.events) == [Generator(stages[0]), Reviewer(stages[0])] + NodesOf(rest.events)
    ensures ApprovedRun(r, stages)
  {
  }

  /** The first of a chain of approved stages runs its two steps and leaves
      a configuration from which the rest of the chain starts, with its
      verdicts next and a text and two steps of budget for each of its
      stages; an approved run of the rest is then one of the whole chain. */
  lemma FirstStageApproved(step: Config -> Option<Step>, stages: seq<Stage>, c: Config, budget: nat) returns (c2: Config)
    requires WalksGraph(step) && Chained(stages) && stages != []
    requires c.at == Generator(stages[0])
    requires budget >= 2 * |stages| && |c.texts| >= |stages|
    requires Approves(c.verdicts, stages)
    ensures Chained(stages[1..])
    ensures c2.at == (if stages[1..] == [] then End else Generator(stages[1..][0]))
    ensures budget - 2 >= 2 * |stages[1..]| && |c2.texts| >= |stages[1..]|
    ensures Approves(c2.verdicts, stages[1..])
    ensures ApprovedRun(Exec(step, c2, budget - 2), stages[1..]) ==> ApprovedRun(Exec(step, c, budget), stages)
  {
    c2 := StageApproved(step, stages[0], c, budget);
    if ApprovedRun(Exec(step, c2, budget - 2), stages[1..]) {
      ApprovedRunCons(Exec(step, c, budget), Exec(step, c2, budget - 2), stages);
    }
  }

  /** A chain of stages passes in order when every reviewer accepts at once:
      the run is the generator and reviewer of each stage, in order, and
      then it completes. */
  lemma {:induction false} ApprovedThrough(step: Config -> Option<Step>, stages: seq<Stage>, c: Config, budget: nat)
    requires WalksGraph(step) && Chained(stages)
    requires c.at == (if stages == [] then End else Generator(stages[0]))
    requires budget >= 2 * |stages| && |c.texts| >= |stages|
    requires Approves(c.verdicts, stages)
    ensures ApprovedRun(Exec(step, c, budget), stages)
    decreases |stages|
  {
    if stages != [] {
      var c2 := FirstStageApproved(step, stages, c, budget);
      ApprovedThrough(step, stages[1..], c2, budget - 2);
    }
  }

  /** The pipeline is a chain: each stage approves into the next, and the
      last into the end. */
  lemma PipelineChained()
    ensures Chained(Pipeline)
  {
    assert Chained(Pipeline[5..]);
    assert Pipeline[4..][1..] == Pipeline[5..];
    assert Chained(Pipeline[4..]);
    assert Pipeline[3..][1..] == Pipeline[4..];
    assert Chained(Pipeline[3..]);
    assert Pipeline[2..][1..] == Pipeline[3..];
    assert Chained(Pipeline[2..]);
    assert Pipeline[1..][1..] == Pipeline[2..];
    assert Chained(Pipeline[1..]);
  }

  /** Verdicts that spell each stage's approve label, in order, accept the
      stages. */
  lemma {:induction false} ApprovesSpelled(verdicts: seq<Verdict>, stages: seq<Stage>)
    requires |verdicts| >= |stages|
    requires forall j :: 0 <= j < |stages| ==> verdicts[j].approval == Spelling(ApproveLabel(stages[j]))
    ensures Approves(verdicts, stages)
    decreases |stages|
  {
    if stages != [] {
      forall j | 0 <= j < |stages| - 1
        ensures verdicts[1..][j].approval == Spelling(ApproveLabel(stages[1..][j]))
      {
        assert verdicts[1..][j] == verdicts[j + 1] && stages[1..][j] == stages[j + 1];
      }
      ApprovesSpelled(verdicts[1..], stages[1..]);
    }
  }

  /** The nodes a run visits when every reviewer accepts at once. */
  const ApprovedPath: seq<Node> :=
    [ContentWriter, ProductOwnerReview, DesignEngineer, DesignOwnerReview, Coder, CodeOwnerReview,
     SecurityReviewCheck, SecurityOwnerReview, Tester, TestOwnerReview, QaTester, QuestionOwnerReview]

  /** The approved path is the generator and reviewer of each stage, in
      pipeline order. */
  lemma ApprovedPathIsStages()
    ensures StageNodes(Pipeline) == ApprovedPath
  {
    assert StageNodes(Pipeline[5..]) == [QaTester, QuestionOwnerReview];
    assert Pipeline[4..][1..] == Pipeline[5..];
    assert StageNodes(Pipeline[4..]) == [Tester, TestOwnerReview] + StageNodes(Pipeline[5..]);
    assert Pipeline[3..][1..] == Pipeline[4..];
    assert StageNodes(Pipeline[3..]) == [SecurityReviewCheck, SecurityOwnerReview] + StageNodes(Pipeline[4..]);
    assert Pipeline[2..][1..] == Pipeline[3..];
    assert StageNodes(Pipeline[2..]) == [Coder, CodeOwnerReview] + StageNodes(Pipeline[3..]);
    assert Pipeline[1..][1..] == Pipeline[2..];
    assert StageNodes(Pipeline[1..]) == [DesignEngineer, DesignOwnerReview] + StageNodes(Pipeline[2..]);
  }

  /** When every reviewer accepts at once, a run from the entry node visits
      exactly the twelve nodes of the approved path, in order, and completes;
      with a budget of fewer than twelve it runs the first `budget` of them and
      stops for lack of budget at the next one. */
  lemma {:induction false} AllApprovedRun(step: Config -> Option<Step>, c: Config, budget: nat)
    requires IsWorkflowStep(step)
    requires c.at == Entry && |c.texts| >= 6 && |c.verdicts| >= 6
    requires forall j :: 0 <= j < 5 ==> c.verdicts[j].approval == "Approved"
    requires c.verdicts[5].approval == "Passed"
    ensures budget >= 12 ==>
      Exec(step, c, budget).outcome == Completed && NodesOf(Exec(step, c, budget).events) == ApprovedPath
    ensures budget < 12 ==>
      Exec(step, c, budget).outcome == BudgetExceeded(ApprovedPath[budget]) &&
      NodesOf(Exec(step, c, budget).events) == ApprovedPath[..budget]
  {
    ApprovedPathIsStages();
    PipelineChained();
    ApprovesSpelled(c.verdicts, Pipeline);
    ApprovedThrough(step, Pipeline, c, 12);
    NodesOfLength(Exec(step, c, 12).events);
    WalksGraphAspects(step);
    BudgetEdge(step, c, 12, budget);
    if budget < 12 {
      NodesOfPrefix(Exec(step, c, 12).events, budget);
    }
  }

  /** A run whose first `events` have already been streamed. */
  function Resume(events: seq<Event>, r: Run): Run
  {
    Run(r.outcome, r.final, events + r.events)
  }

  /** Streaming one more step leaves the run to come unchanged. */
  lemma ResumeStep(step: Config -> Option<Step>, c: Config, budget: nat, events: seq<Event>)
    requires c.at != End && budget > 0 && step(c).Some?
    ensures Resume(events, Exec(step, c, budget)) ==
      Resume(events + [step(c).value.event], Exec(step, step(c).value.after, budget - 1))
  {
    var st := step(c).value;
    var r := Exec(step, st.after, budget - 1);
    assert events + ([st.event] + r.events) == (events + [st.event]) + r.events;
  }

  /** A user session: the state dictionary that outlives each run, and the
      compiled workflow graph. */
  class Session {
    var state: State
    const app: Config -> Option<Step>

    /** The session state holds every key of the record, and the session
        runs the workflow graph. */
    ghost predicate Valid()
      reads this
    {
      Total(state) && app == Advance
    }

    /** A fresh session holds the all-empty state and the workflow graph. */
    constructor ()
      ensures Valid() && state == Initial() && app == Advance && IsWorkflowStep(app)
    {
      state := Initial();
      app := Advance;
      AdvanceIsWorkflowStep();
    }

    /** The requirements text area writes the topic and nothing else. */
    method SetTopic(topic: string)
      requires Valid()
      modifies this
      ensures Valid() && state == old(state)[Topic := topic]
    {
      state := state[Topic := topic];
    }

    /** Streams the graph from the entry node with the step bound of the
        source, merging each streamed update into the session state as it
        arrives. The run starts from whatever the session holds, so a second
        run sees the first run's feedback; the updates of a run that stops
        early stay merged. */
    method RunWorkflow(texts: seq<string>, verdicts: seq<Verdict>) returns (outcome: Outcome, events: seq<Event>)
      requires Valid()
      modifies this
      ensures Valid()
      ensures Run(outcome, state, events) == Exec(Advance, Config(Entry, old(state), texts, verdicts), RecursionLimit)
    {
      assert Merges(app) by {
        AdvanceIsWorkflowStep();
        WalksGraphAspects(app);
      }
      ghost var start := state;
      outcome, events := Stream(app, texts, verdicts);
      ExecKeepsTotal(app, Config(Entry, start, texts, verdicts), RecursionLimit);
    }

    /** The streaming loop for a step function that merges what it streams:
        each step's update is merged into the session state in place, and the
        loop stops at the end marker, when the budget is spent, or when a
        capability is silent. */
    method Stream(step: Config -> Option<Step>, texts: seq<string>, verdicts: seq<Verdict>)
      returns (outcome: Outcome, events: seq<Event>)
      requires Merges(step)
      modifies this
      ensures Run(outcome, state, events) == Exec(step, Config(Entry, old(state), texts, verdicts), RecursionLimit)
    {
      ghost var run := Exec(step, Config(Entry, state, texts, verdicts), RecursionLimit);
      var c := Config(Entry, state, texts, verdicts);
      var left := RecursionLimit;
      events := [];
      while true
        invariant c.state == state
        invariant run == Resume(events, Exec(step, c, left))
        decreases left
      {
        if c.at == End {
          return Completed, events;
        }
        if left == 0 {
          return BudgetExceeded(c.at), events;
        }
        match step(c)
        case None =>
          return CapabilityFailed(c.at), events;
        case Some(st) =>
          assert MergesAt(step, c);
          ResumeStep(step, c, left, events);
          state := Merge(state, st.event.update);
          events := events + [st.event];
          c := st.after;
          left := left - 1;
      }
    }
  }
}
