/** The workflow graph: twelve nodes (a generator and a reviewer for each of six
    stages), the six routers, the conditional-edge tables and the successor
    function that combines them. */
module Graph {
  import opened ArtifactState

  /** The six stages, in pipeline order. */
  datatype Stage = Product | Design | Coding | Security | Testing | QualityAssurance

  /** The graph's nodes, named after the node names registered in the graph,
      plus the terminal marker. */
  datatype Node =
    | ContentWriter | ProductOwnerReview
    | DesignEngineer | DesignOwnerReview
    | Coder | CodeOwnerReview
    | SecurityReviewCheck | SecurityOwnerReview
    | Tester | TestOwnerReview
    | QaTester | QuestionOwnerReview
    | End

  /** The node the start edge leads to. */
  const Entry: Node := ContentWriter

  /** The stages in the order the forward edges visit them. */
  const Pipeline: seq<Stage> := [Product, Design, Coding, Security, Testing, QualityAssurance]

  /** The position of a stage in the pipeline. */
  function Index(k: Stage): (i: nat)
    ensures i < |Pipeline| && Pipeline[i] == k
  {
    match k
    case Product => 0
    case Design => 1
    case Coding => 2
    case Security => 3
    case Testing => 4
    case QualityAssurance => 5
  }

  function Generator(k: Stage): Node
  {
    match k
    case Product => ContentWriter
    case Design => DesignEngineer
    case Coding => Coder
    case Security => SecurityReviewCheck
    case Testing => Tester
    case QualityAssurance => QaTester
  }

  function Reviewer(k: Stage): Node
  {
    match k
    case Product => ProductOwnerReview
    case Design => DesignOwnerReview
    case Coding => CodeOwnerReview
    case Security => SecurityOwnerReview
    case Testing => TestOwnerReview
    case QualityAssurance => QuestionOwnerReview
  }

  /** The stage a (non-terminal) node belongs to; it is the inverse of
      Generator and Reviewer taken together. */
  function StageOf(n: Node): (k: Stage)
    requires n != End
    ensures n == Generator(k) || n == Reviewer(k)
  {
    match n
    case ContentWriter => Product
    case ProductOwnerReview => Product
    case DesignEngineer => Design
    case DesignOwnerReview => Design
    case Coder => Coding
    case CodeOwnerReview => Coding
    case SecurityReviewCheck => Security
    case SecurityOwnerReview => Security
    case Tester => Testing
    case TestOwnerReview => Testing
    case QaTester => QualityAssurance
    case QuestionOwnerReview => QualityAssurance
  }

  predicate IsGenerator(n: Node)
  {
    n != End && n == Generator(StageOf(n))
  }

  predicate IsReviewer(n: Node)
  {
    n != End && n == Reviewer(StageOf(n))
  }

  /** The labels the routers return; they key the conditional-edge tables. */
  datatype Label = Approved | FeedBack | Passed | Failed

  /** The text a label is spelled as, both as a router's return value and as
      the approval value a router compares against. */
  function Spelling(l: Label): string
  {
    match l
    case Approved => "Approved"
    case FeedBack => "FeedBack"
    case Passed => "Passed"
    case Failed => "Failed"
  }

  /** The label that lets a stage through. */
  function ApproveLabel(k: Stage): Label
  {
    if k == QualityAssurance then Passed else Approved
  }

  /** The label that sends a stage back. */
  function RejectLabel(k: Stage): Label
  {
    if k == QualityAssurance then Failed else FeedBack
  }

  /** The key a stage's reviewer writes its verdict to. */
  function ApprovalKey(k: Stage): Key
  {
    match k
    case Product => ProductApproval
    case Design => DesignApproval
    case Coding => CodeApproval
    case Security => SecurityApproval
    case Testing => TestCaseApproval
    case QualityAssurance => QuestionAnswerTestingApproval
  }

  // The six routers: each compares one approval key with its approve label;
  // every other value, the initial empty string included, is a rejection.

  function ProductRoute(s: State): Label
  {
    if Get(s, ProductApproval) == "Approved" then Approved else FeedBack
  }

  function DesignRoute(s: State): Label
  {
    if Get(s, DesignApproval) == "Approved" then Approved else FeedBack
  }

  function CodeRoute(s: State): Label
  {
    if Get(s, CodeApproval) == "Approved" then Approved else FeedBack
  }

  function SecurityRoute(s: State): Label
  {
    if Get(s, SecurityApproval) == "Approved" then Approved else FeedBack
  }

  function TestRoute(s: State): Label
  {
    if Get(s, TestCaseApproval) == "Approved" then Approved else FeedBack
  }

  function QuestionRoute(s: State): Label
  {
    if Get(s, QuestionAnswerTestingApproval) == "Passed" then Passed else Failed
  }

  /** The conditional-edge table registered for each reviewer. */
  function Branches(n: Node): map<Label, Node>
    requires IsReviewer(n)
  {
    match n
    case ProductOwnerReview => map[Approved := DesignEngineer, FeedBack := ContentWriter]
    case DesignOwnerReview => map[Approved := Coder, FeedBack := DesignEngineer]
    case CodeOwnerReview => map[Approved := SecurityReviewCheck, FeedBack := Coder]
    case SecurityOwnerReview => map[Approved := Tester, FeedBack := Coder]
    case TestOwnerReview => map[Approved := QaTester, FeedBack := Tester]
    case QuestionOwnerReview => map[Passed := End, Failed := QaTester]
  }

  /** The router a stage's reviewer is wired to. */
  function StageRoute(k: Stage, s: State): Label
  {
    match k
    case Product => ProductRoute(s)
    case Design => DesignRoute(s)
    case Coding => CodeRoute(s)
    case Security => SecurityRoute(s)
    case Testing => TestRoute(s)
    case QualityAssurance => QuestionRoute(s)
  }

  /** The label the router attached to a reviewer returns: the stage's approve
      label exactly when the approval key holds that label's spelling, the
      reject label for every other value. */
  function Route(n: Node, s: State): (l: Label)
    requires IsReviewer(n)
    ensures l in Branches(n)
  {
    var k := StageOf(n);
    if Get(s, ApprovalKey(k)) == Spelling(ApproveLabel(k)) then ApproveLabel(k) else RejectLabel(k)
  }

  /** Each router returns one of its two labels: the approve label exactly
      when the approval key holds its spelling, and the reject label for
      every other value. The two labels differ. */
  lemma RouterDefaults(k: Stage, s: State)
    ensures StageRoute(k, s) == ApproveLabel(k) <==> Get(s, ApprovalKey(k)) == Spelling(ApproveLabel(k))
    ensures StageRoute(k, s) != ApproveLabel(k) ==> StageRoute(k, s) == RejectLabel(k)
    ensures ApproveLabel(k) != RejectLabel(k) && Spelling(ApproveLabel(k)) != Spelling(RejectLabel(k))
  {
  }

  /** Route agrees with the router each reviewer is wired to. */
  lemma RouteIsStageRouter(k: Stage, s: State)
    ensures Route(Reviewer(k), s) == StageRoute(k, s)
  {
  }

  /** The node that runs after `n`, given the state after `n` has been merged:
      a generator's unconditional edge, or a reviewer's conditional edge. */
  function Next(n: Node, s: State): Node
    requires n != End
  {
    if IsGenerator(n) then Reviewer(StageOf(n)) else Branches(n)[Route(n, s)]
  }

  // An independent description of the topology, stage by stage, as a table
  // of forward and backward targets.

  /** Where an approved stage goes: the next stage's generator, or the end. */
  function ForwardTarget(k: Stage): Node
  {
    if Index(k) + 1 < |Pipeline| then Generator(Pipeline[Index(k) + 1]) else End
  }

  /** Where a rejected stage goes: its own generator, except that a rejected
      security review goes back to the coder. */
  function BackwardTarget(k: Stage): Node
  {
    if k == Security then Coder else Generator(k)
  }

  /** Along the pipeline, each stage's forward target is the next stage's
      generator, and the last stage's is the end. */
  lemma ForwardTargetAt(i: nat)
    requires i < |Pipeline|
    ensures ForwardTarget(Pipeline[i]) == (if i + 1 == |Pipeline| then End else Generator(Pipeline[i + 1]))
  {
  }

  /** Along the pipeline, each stage's reviewer, on approval, hands over to
      the next stage's generator, and the last stage's reviewer to the end. */
  lemma ForwardAlongPipeline(i: nat, s: State)
    requires i < |Pipeline|
    requires Get(s, ApprovalKey(Pipeline[i])) == Spelling(ApproveLabel(Pipeline[i]))
    ensures Next(Reviewer(Pipeline[i]), s) == (if i + 1 == |Pipeline| then End else Generator(Pipeline[i + 1]))
  {
    ForwardEdge(Pipeline[i], s);
    ForwardTargetAt(i);
  }

  /** Every node in the graph except the end marker is a generator or a
      reviewer, and the two kinds are disjoint. */
  lemma NodeKinds(n: Node)
    requires n != End
    ensures IsGenerator(n) != IsReviewer(n)
  {
  }

  /** Every generator is followed unconditionally by its own reviewer. */
  lemma Pairing(k: Stage, s: State)
    ensures Next(Generator(k), s) == Reviewer(k)
  {
  }

  /** On approval control moves strictly forward: to the next stage's generator,
      or to the end after the QA stage. */
  lemma ForwardEdge(k: Stage, s: State)
    requires Get(s, ApprovalKey(k)) == Spelling(ApproveLabel(k))
    ensures Next(Reviewer(k), s) == ForwardTarget(k)
    ensures k != QualityAssurance ==> StageOf(Next(Reviewer(k), s)) == Pipeline[Index(k) + 1]
  {
    match k
    case Product =>
    case Design =>
    case Coding =>
    case Security =>
    case Testing =>
    case QualityAssurance =>
  }

  /** On any other approval value (the initial "" included) control goes back:
      to the stage's own generator, or to the coder for the security stage. */
  lemma BackwardEdge(k: Stage, s: State)
    requires Get(s, ApprovalKey(k)) != Spelling(ApproveLabel(k))
    ensures Next(Reviewer(k), s) == BackwardTarget(k)
    ensures IsGenerator(Next(Reviewer(k), s))
    ensures Index(StageOf(Next(Reviewer(k), s))) <= Index(k)
  {
  }

  /** The security reviewer never routes to the security generator. */
  lemma SecurityNeverSelfLoops(s: State)
    ensures Next(SecurityOwnerReview, s) != SecurityReviewCheck
    ensures Next(SecurityOwnerReview, s) in {Tester, Coder}
  {
  }

  /** The end is reached from exactly one place: the QA reviewer, when the QA
      approval key holds "Passed". */
  lemma EndOnlyFromQa(n: Node, s: State)
    requires n != End
    ensures Next(n, s) == End <==> n == QuestionOwnerReview && Get(s, QuestionAnswerTestingApproval) == "Passed"
  {
  }

  /** In the initial state every router takes its rejection edge. */
  lemma InitialRejects(k: Stage)
    ensures Route(Reviewer(k), Initial()) == RejectLabel(k)
    ensures Next(Reviewer(k), Initial()) == BackwardTarget(k)
  {
  }

  /** Routing reads only the reviewer's approval key. */
  lemma RouteReadsOnlyApproval(k: Stage, s: State, t: State)
    requires Get(s, ApprovalKey(k)) == Get(t, ApprovalKey(k))
    ensures Route(Reviewer(k), s) == Route(Reviewer(k), t)
    ensures Next(Reviewer(k), s) == Next(Reviewer(k), t)
  {
  }
}
