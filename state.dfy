/** The shared workflow state: a dictionary with twenty string-valued keys, and
    the shallow last-writer-wins merge the executor applies after every node. */
module ArtifactState {

  /** The twenty keys of the state record, in declaration order. */
  datatype Key =
    | Topic
    | UserStories | ProductFeedback | ProductApproval
    | DesignDocument | DesignApproval | DesignFeedback
    | Code | CodeFeedback | CodeApproval
    | SecurityReview | SecurityApproval | SecurityFeedback
    | TestCase | TestCaseFeedback | TestCaseApproval
    | QuestionAnswerTesting | QuestionAnswerTestingFeedback | QuestionAnswerTestingApproval
    | FinalCodeDocs

  /** The state record: a dictionary from keys to strings. Every state a
      session reaches holds all twenty keys (see Total, Initial and
      MergeKeepsTotal), so the default of Get is never observed there. */
  type State = map<Key, string>

  /** A node's partial update: the keys it writes and their new values. */
  type Update = map<Key, string>

  /** The value a key holds; the empty string for a key the dictionary lacks. */
  function Get(s: State, k: Key): string
  {
    if k in s then s[k] else ""
  }

  /** Every key of the record is present. */
  ghost predicate Total(s: State)
  {
    forall k: Key :: k in s
  }

  /** The keys of the record. */
  function AllKeys(): set<Key>
  {
    {Topic,
     UserStories, ProductFeedback, ProductApproval,
     DesignDocument, DesignApproval, DesignFeedback,
     Code, CodeFeedback, CodeApproval,
     SecurityReview, SecurityApproval, SecurityFeedback,
     TestCase, TestCaseFeedback, TestCaseApproval,
     QuestionAnswerTesting, QuestionAnswerTestingFeedback, QuestionAnswerTestingApproval,
     FinalCodeDocs}
  }

  /** The list of keys is complete. */
  lemma EveryKeyListed()
    ensures forall k: Key :: k in AllKeys()
  {
    forall k: Key
      ensures k in AllKeys()
    {
      match k
      case Topic =>
      case UserStories =>
      case ProductFeedback =>
      case ProductApproval =>
      case DesignDocument =>
      case DesignApproval =>
      case DesignFeedback =>
      case Code =>
      case CodeFeedback =>
      case CodeApproval =>
      case SecurityReview =>
      case SecurityApproval =>
      case SecurityFeedback =>
      case TestCase =>
      case TestCaseFeedback =>
      case TestCaseApproval =>
      case QuestionAnswerTesting =>
      case QuestionAnswerTestingFeedback =>
      case QuestionAnswerTestingApproval =>
      case FinalCodeDocs =>
    }
  }

  /** The state a session starts with: every key holds the empty string. */
  function Initial(): (s: State)
    ensures Total(s)
    ensures forall k :: Get(s, k) == ""
  {
    EveryKeyListed();
    map k | k in AllKeys() :: ""
  }

  /** Shallow merge of a partial update into the state, as a dictionary's
      `update` does: keys in `u` take its value, every other key keeps its own.
      Nothing is ever deleted. */
  function Merge(s: State, u: Update): State
  {
    s + u
  }

  /** Keys in the update take its value, every other key keeps its own. */
  lemma MergeValues(s: State, u: Update, k: Key)
    ensures Get(Merge(s, u), k) == (if k in u then u[k] else Get(s, k))
  {
  }

  /** Merging never removes a key, so a state holding every key keeps holding
      every key. */
  lemma MergeKeepsTotal(s: State, u: Update)
    requires Total(s)
    ensures Total(Merge(s, u))
    ensures Merge(s, u).Keys == s.Keys
  {
    EveryKeyListed();
  }

  /** Two merges in a row are one merge of the right-biased union: the later
      writer wins on every key both updates write. */
  lemma MergeTwice(s: State, u1: Update, u2: Update)
    ensures Merge(Merge(s, u1), u2) == Merge(s, u1 + u2)
  {
    assert Merge(Merge(s, u1), u2).Keys == Merge(s, u1 + u2).Keys;
  }
}
