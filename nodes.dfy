/** What each of the twelve nodes reads from the state, what it hands to its
    generation or review capability, and the partial update it returns. The
    capabilities themselves are opaque: a generator's reply is a string, a
    reviewer's reply a verdict. */
module Nodes {
  import opened ArtifactState
  import opened Graph

  /** Which prompt branch a generator takes. */
  datatype Mode = Create | Revise

  /** The context a node hands to its capability. A generator sends its branch,
      the artifact it builds on and its feedback line (empty on the create
      branch); a reviewer sends the reference it compares against and the
      artifact under review. Prompt wording beyond this is not modelled. */
  datatype Request =
    | Compose(mode: Mode, material: string, feedbackLine: string)
    | Assess(reference: string, subject: string)

  /** A reviewer's parsed reply: the approval value and the accompanying text
      (for the security reviewer, the reply's `security_review` field). The
      approval is any string: the reply is not checked against the labels. */
  datatype Verdict = Verdict(approval: string, remark: string)

  /** What a node's capability answered: a generator's text or a reviewer's
      verdict. */
  datatype Reply = Wrote(text: string) | Judged(verdict: Verdict)

  // The per-stage table of keys and prefixes the nodes use.

  /** The key a stage's generator writes. */
  function ArtifactKey(k: Stage): Key
  {
    match k
    case Product => UserStories
    case Design => DesignDocument
    case Coding => Code
    case Security => SecurityReview
    case Testing => TestCase
    case QualityAssurance => QuestionAnswerTesting
  }

  /** The key a stage's reviewer writes its feedback text to. */
  function FeedbackKey(k: Stage): Key
  {
    match k
    case Product => ProductFeedback
    case Design => DesignFeedback
    case Coding => CodeFeedback
    case Security => SecurityFeedback
    case Testing => TestCaseFeedback
    case QualityAssurance => QuestionAnswerTestingFeedback
  }

  /** The key whose emptiness decides a generator's branch. For the security
      stage it is the generator's own previous review, not the feedback key. */
  function BranchKey(k: Stage): Key
  {
    if k == Security then SecurityReview else FeedbackKey(k)
  }

  /** The key a stage's generator builds on. */
  function MaterialKey(k: Stage): Key
  {
    match k
    case Product => Topic
    case Design => UserStories
    case Coding => DesignDocument
    case Security => Code
    case Testing => Code
    case QualityAssurance => TestCase
  }

  /** The key a stage's reviewer compares the artifact against. */
  function ReferenceKey(k: Stage): Key
  {
    match k
    case Product => Topic
    case Design => Topic
    case Coding => DesignDocument
    case Security => Code
    case Testing => Code
    case QualityAssurance => TestCase
  }

  /** The fixed text that precedes the feedback in a revise prompt. */
  function FeedbackPrefix(k: Stage): string
  {
    match k
    case Product => "Feedback: "
    case Design => "Design Feedback: "
    case Coding => "Code Feedback: "
    case Security => "Security Feedback: "
    case Testing => "Test Case Feedback: "
    case QualityAssurance => "QA Feedback: "
  }

  /** A generator's branch test: a non-empty field selects the revise branch
      and puts the field after the prefix; an empty one selects create with an
      empty feedback line. */
  function BranchRequest(field: string, prefix: string, material: string): Request
  {
    if field != "" then Compose(Revise, material, prefix + field) else Compose(Create, material, "")
  }

  /** The context each node builds from the state before calling out. */
  function RequestOf(n: Node, s: State): Request
    requires n != End
  {
    match n
    case ContentWriter => BranchRequest(Get(s, ProductFeedback), "Feedback: ", Get(s, Topic))
    case DesignEngineer => BranchRequest(Get(s, DesignFeedback), "Design Feedback: ", Get(s, UserStories))
    case Coder => BranchRequest(Get(s, CodeFeedback), "Code Feedback: ", Get(s, DesignDocument))
    case SecurityReviewCheck => BranchRequest(Get(s, SecurityReview), "Security Feedback: ", Get(s, Code))
    case Tester => BranchRequest(Get(s, TestCaseFeedback), "Test Case Feedback: ", Get(s, Code))
    case QaTester => BranchRequest(Get(s, QuestionAnswerTestingFeedback), "QA Feedback: ", Get(s, TestCase))
    case ProductOwnerReview => Assess(Get(s, Topic), Get(s, UserStories))
    case DesignOwnerReview => Assess(Get(s, Topic), Get(s, DesignDocument))
    case CodeOwnerReview => Assess(Get(s, DesignDocument), Get(s, Code))
    case SecurityOwnerReview => Assess(Get(s, Code), Get(s, SecurityReview))
    case TestOwnerReview => Assess(Get(s, Code), Get(s, TestCase))
    case QuestionOwnerReview => Assess(Get(s, TestCase), Get(s, QuestionAnswerTesting))
  }

  /** The partial update a generator returns: its artifact key only. */
  function Generated(n: Node, text: string): Update
    requires IsGenerator(n)
  {
    match n
    case ContentWriter => map[UserStories := text]
    case DesignEngineer => map[DesignDocument := text]
    case Coder => map[Code := text]
    case SecurityReviewCheck => map[SecurityReview := text]
    case Tester => map[TestCase := text]
    case QaTester => map[QuestionAnswerTesting := text]
  }

  /** The partial update a reviewer returns: its approval and feedback keys.
      The security reviewer files the reply's review text as feedback. */
  function Reviewed(n: Node, v: Verdict): Update
    requires IsReviewer(n)
  {
    match n
    case ProductOwnerReview => map[ProductApproval := v.approval, ProductFeedback := v.remark]
    case DesignOwnerReview => map[DesignApproval := v.approval, DesignFeedback := v.remark]
    case CodeOwnerReview => map[CodeApproval := v.approval, CodeFeedback := v.remark]
    case SecurityOwnerReview => map[SecurityApproval := v.approval, SecurityFeedback := v.remark]
    case TestOwnerReview => map[TestCaseApproval := v.approval, TestCaseFeedback := v.remark]
    case QuestionOwnerReview => map[QuestionAnswerTestingApproval := v.approval, QuestionAnswerTestingFeedback := v.remark]
  }

  /** The partial update a node returns for its capability's reply. */
  function NodeUpdate(n: Node, r: Reply): Update
    requires n != End && (r.Wrote? <==> IsGenerator(n))
  {
    if IsGenerator(n) then Generated(n, r.text) else Reviewed(n, r.verdict)
  }

  /** The keys of the per-stage table are pairwise distinct, so a reviewer's
      two writes never collide with each other or with the artifact. */
  lemma KeysDistinct(k: Stage)
    ensures ArtifactKey(k) != FeedbackKey(k) && ArtifactKey(k) != ApprovalKey(k)
    ensures FeedbackKey(k) != ApprovalKey(k)
  {
  }

  /** A generator's update holds exactly its artifact key, with the
      capability's text. */
  lemma GeneratedByStage(k: Stage, text: string)
    ensures Generated(Generator(k), text) == map[ArtifactKey(k) := text]
  {
  }

  /** Merging a generator's update stores the capability's text under the
      stage's artifact key. */
  lemma GeneratorWrites(k: Stage, s: State, text: string)
    ensures Get(Merge(s, Generated(Generator(k), text)), ArtifactKey(k)) == text
  {
    GeneratedByStage(k, text);
    MergeValues(s, Generated(Generator(k), text), ArtifactKey(k));
  }

  /** Merging a generator's update leaves every other key as it was. */
  lemma GeneratorFrame(k: Stage, s: State, text: string, key: Key)
    requires key != ArtifactKey(k)
    ensures Get(Merge(s, Generated(Generator(k), text)), key) == Get(s, key)
  {
    GeneratedByStage(k, text);
    MergeValues(s, Generated(Generator(k), text), key);
  }

  /** A reviewer's update holds exactly its approval and feedback keys. */
  lemma ReviewerKeys(k: Stage, v: Verdict)
    ensures Reviewed(Reviewer(k), v).Keys == {ApprovalKey(k), FeedbackKey(k)}
  {
    ReviewedByStage(k, v);
  }

  /** Merging a reviewer's update stores the verdict's two parts under the
      stage's approval and feedback keys. */
  lemma ReviewerWrites(k: Stage, s: State, v: Verdict)
    ensures Get(Merge(s, Reviewed(Reviewer(k), v)), ApprovalKey(k)) == v.approval
    ensures Get(Merge(s, Reviewed(Reviewer(k), v)), FeedbackKey(k)) == v.remark
  {
    ReviewedByStage(k, v);
    KeysDistinct(k);
    MergeValues(s, Reviewed(Reviewer(k), v), ApprovalKey(k));
    MergeValues(s, Reviewed(Reviewer(k), v), FeedbackKey(k));
  }

  /** Merging a reviewer's update leaves every other key, the stage's own
      artifact included, as it was. */
  lemma ReviewerFrame(k: Stage, s: State, v: Verdict, key: Key)
    requires key != ApprovalKey(k) && key != FeedbackKey(k)
    ensures Get(Merge(s, Reviewed(Reviewer(k), v)), key) == Get(s, key)
  {
    ReviewedByStage(k, v);
    MergeValues(s, Reviewed(Reviewer(k), v), key);
  }

  /** The reviewer's update, read off the per-stage key table. */
  lemma ReviewedByStage(k: Stage, v: Verdict)
    ensures Reviewed(Reviewer(k), v) == map[ApprovalKey(k) := v.approval, FeedbackKey(k) := v.remark]
  {
  }

  /** A generator revises exactly when its branch key is non-empty; the
      feedback then follows the stage's prefix verbatim (and can be read back
      from the line), and otherwise the feedback line is empty. The material is
      read from the stage's material key. */
  lemma GeneratorBranch(k: Stage, s: State)
    ensures RequestOf(Generator(k), s).Compose?
    ensures RequestOf(Generator(k), s).mode == Revise <==> Get(s, BranchKey(k)) != ""
    ensures RequestOf(Generator(k), s).feedbackLine ==
      (if Get(s, BranchKey(k)) != "" then FeedbackPrefix(k) + Get(s, BranchKey(k)) else "")
    ensures RequestOf(Generator(k), s).mode == Revise ==>
      RequestOf(Generator(k), s).feedbackLine[|FeedbackPrefix(k)|..] == Get(s, BranchKey(k))
    ensures RequestOf(Generator(k), s).material == Get(s, MaterialKey(k))
  {
    var line := RequestOf(Generator(k), s).feedbackLine;
    if Get(s, BranchKey(k)) != "" {
      assert line == FeedbackPrefix(k) + Get(s, BranchKey(k));
      assert line[|FeedbackPrefix(k)|..] == Get(s, BranchKey(k));
    }
  }

  /** Every generator but the security one branches on its own stage's
      feedback key; the security generator branches on its previous review. */
  lemma BranchKeys(k: Stage)
    ensures k != Security ==> BranchKey(k) == FeedbackKey(k)
    ensures BranchKey(Security) == ArtifactKey(Security) && BranchKey(Security) != FeedbackKey(Security)
  {
  }

  /** A reviewer sends its reference and the artifact under review. */
  lemma ReviewerRequest(k: Stage, s: State)
    ensures RequestOf(Reviewer(k), s) == Assess(Get(s, ReferenceKey(k)), Get(s, ArtifactKey(k)))
  {
  }

  /** When a reviewer other than the security one rejects, the next node is
      the same stage's generator. */
  lemma RejectionRegenerates(k: Stage, s: State, v: Verdict)
    requires k != Security && v.approval != Spelling(ApproveLabel(k))
    ensures Next(Reviewer(k), Merge(s, Reviewed(Reviewer(k), v))) == Generator(k)
  {
    ReviewerWrites(k, s, v);
    BackwardEdge(k, Merge(s, Reviewed(Reviewer(k), v)));
  }

  /** Feedback threading: after stage `k`'s reviewer has been merged (and for
      every stage but security, whose generator branches on something else),
      the stage's generator gets the reviewer's text verbatim after the stage
      prefix, or the create branch with an empty line when the text is empty.
      The material it builds on is untouched by the review. */
  lemma FeedbackThreaded(k: Stage, s: State, v: Verdict)
    requires k != Security
    ensures RequestOf(Generator(k), Merge(s, Reviewed(Reviewer(k), v))) ==
      if v.remark == "" then Compose(Create, Get(s, MaterialKey(k)), "")
      else Compose(Revise, Get(s, MaterialKey(k)), FeedbackPrefix(k) + v.remark)
  {
    ReviewerWrites(k, s, v);
    assert MaterialKey(k) != ApprovalKey(k) && MaterialKey(k) != FeedbackKey(k);
    ReviewerFrame(k, s, v, MaterialKey(k));
    BranchKeys(k);
    GeneratorBranch(k, Merge(s, Reviewed(Reviewer(k), v)));
  }

  /** The security reviewer files the reply's review text under the feedback
      key, records the approval, and leaves the security review artifact as the
      security generator wrote it. */
  lemma SecurityReviewerQuirk(s: State, v: Verdict)
    ensures Get(Merge(s, Reviewed(SecurityOwnerReview, v)), SecurityFeedback) == v.remark
    ensures Get(Merge(s, Reviewed(SecurityOwnerReview, v)), SecurityApproval) == v.approval
    ensures Get(Merge(s, Reviewed(SecurityOwnerReview, v)), SecurityReview) == Get(s, SecurityReview)
  {
    ReviewerWrites(Security, s, v);
    ReviewerFrame(Security, s, v, SecurityReview);
  }

  /** No node reads the security feedback key: neither what any node sends to
      its capability nor any routing decision depends on it. */
  lemma SecurityFeedbackUnread(n: Node, s: State, x: string)
    requires n != End
    ensures RequestOf(n, s[SecurityFeedback := x]) == RequestOf(n, s)
    ensures Next(n, s[SecurityFeedback := x]) == Next(n, s)
  {
  }

  /** Consequently, when the security reviewer rejects and control goes back
      to the coder, the coder receives exactly the context it would have
      received had the security review never happened: the security findings
      do not reach it. */
  lemma SecurityRejectionBypassesCoder(s: State, v: Verdict)
    requires v.approval != "Approved"
    ensures Next(SecurityOwnerReview, Merge(s, Reviewed(SecurityOwnerReview, v))) == Coder
    ensures RequestOf(Coder, Merge(s, Reviewed(SecurityOwnerReview, v))) == RequestOf(Coder, s)
  {
    var s' := Merge(s, Reviewed(SecurityOwnerReview, v));
    ReviewerWrites(Security, s, v);
    ReviewerFrame(Security, s, v, CodeFeedback);
    ReviewerFrame(Security, s, v, DesignDocument);
    BackwardEdge(Security, s');
  }
}
