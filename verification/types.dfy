/** The records of the training application (types.ts), as immutable datatypes.
    Optional TypeScript fields (`x?: T`) become `Option<T>`. */
module Types {
  import opened Wrappers

  datatype TeamType = RedTeam | BlueTeam
  datatype Difficulty = Beginner | Intermediate | Advanced
  datatype Language = En | Bn

  /** The view tag the top-level container switches on. */
  datatype AppView =
    | Landing | Profile | RedTeamView | BlueTeamView | ForumView
    | Intelligence | BlogPostView | AdminView

  datatype UserStatus = Active | Suspended

  datatype User = User(
    id: string,
    codename: string,
    email: string,
    credits: int,
    status: UserStatus,
    rank: string,
    joinedDate: string)

  datatype QuizQuestion = QuizQuestion(
    question: string,
    options: seq<string>,
    correctAnswer: int)

  datatype Lab = Lab(
    name: string,
    objective: string,
    bnObjective: Option<string>,
    hackerTechnique: string,
    bnHackerTechnique: Option<string>,
    command: Option<string>,
    rule: Option<string>,
    instructions: seq<string>,
    bnInstructions: Option<seq<string>>,
    quiz: seq<QuizQuestion>,
    targetOs: Option<string>,
    requiredTools: Option<seq<string>>,
    setupWalkthrough: Option<string>)

  datatype Module = Module(
    id: string,
    title: string,
    category: string,
    team: TeamType,
    difficulty: Difficulty,
    credits: int,
    labs: seq<Lab>)

  datatype BlogContent = BlogContent(
    overview: string,
    bnOverview: string,
    labSetup: string,
    bnLabSetup: string,
    attackSteps: seq<string>,
    bnAttackSteps: seq<string>,
    remediation: string,
    bnRemediation: string)

  datatype BlogPost = BlogPost(
    id: string,
    title: string,
    bnTitle: string,
    author: string,
    date: string,
    category: string,
    excerpt: string,
    bnExcerpt: string,
    content: BlogContent)

  datatype ForumComment = ForumComment(
    id: string,
    author: string,
    text: string,
    timestamp: string)

  datatype ForumCategory = Exploit | Defense | General | ZeroDay

  datatype ForumPost = ForumPost(
    id: string,
    title: string,
    author: string,
    content: string,
    category: ForumCategory,
    timestamp: string,
    comments: seq<ForumComment>)

  /** The fields of a new forum post the author supplies; the container adds
      the id, the timestamp and an empty comment list. */
  datatype ForumPostDraft = ForumPostDraft(
    title: string,
    author: string,
    content: string,
    category: ForumCategory)

  /** A phase descriptor: the authored template data behind a contiguous block
      of generated labs. */
  datatype Phase = Phase(
    name: string,
    technique: string,
    bnTechnique: string,
    tools: seq<string>,
    os: string)
}
