/**
  The request and response schemas of the entities.  TrainingCreate and
  FeedbackCreate (and their response schemas) add a not_empty validator
  that rejects blank values; the other create schemas only declare a
  minimum length of 1, and their response schemas declare no constraint.
 */
module Schemas {

  import opened Wrappers
  import opened Text
  import opened Validation

  // ---- Training: not_empty validator on both fields ----

  datatype TrainingCreate = TrainingCreate(title: string, content: string)
  datatype Training = Training(title: string, content: string)

  function ParseTrainingCreate(title: Option<string>, content: Option<string>): Parsed<TrainingCreate> {
    match CheckPair(FieldRule("title", 1, true), title, FieldRule("content", 1, true), content)
    case Valid((a, b)) => Valid(TrainingCreate(a, b))
    case Invalid(es) => Invalid(es)
  }

  function ParseTraining(title: Option<string>, content: Option<string>): Parsed<Training> {
    match CheckPair(FieldRule("title", 0, true), title, FieldRule("content", 0, true), content)
    case Valid((a, b)) => Valid(Training(a, b))
    case Invalid(es) => Invalid(es)
  }

  /**
    Both fields are required; a value is accepted exactly when it holds a
    non-whitespace character, and is kept untrimmed.
   */
  lemma TrainingCreateContract(title: Option<string>, content: Option<string>)
    ensures ParseTrainingCreate(title, content).Valid?
        <==> title.Some? && content.Some? && !IsBlank(title.value) && !IsBlank(content.value)
    ensures ParseTrainingCreate(title, content).Valid? ==> ParseTrainingCreate(title, content).value == TrainingCreate(title.value, content.value)
  {
    CheckPairSpec(FieldRule("title", 1, true), title, FieldRule("content", 1, true), content);
  }

  /**
    The errors of a rejected body: an absent value is reported as missing,
    an empty one as too short, and a non-empty blank one with the
    validator's message; the first field's error comes first.
   */
  lemma TrainingCreateErrors(title: Option<string>, content: Option<string>)
    ensures title.None? ==> ParseTrainingCreate(title, content).Invalid? && ParseTrainingCreate(title, content).errors[0] == FieldError("title", Missing)
    ensures content.None? ==> ParseTrainingCreate(title, content).Invalid? && FieldError("content", Missing) in ParseTrainingCreate(title, content).errors
    ensures title == Some("") ==> ParseTrainingCreate(title, content).Invalid? && ParseTrainingCreate(title, content).errors[0] == FieldError("title", TooShort(1))
    ensures content == Some("") ==> ParseTrainingCreate(title, content).Invalid? && FieldError("content", TooShort(1)) in ParseTrainingCreate(title, content).errors
    ensures title.Some? && title.value != "" && IsBlank(title.value) ==>
      ParseTrainingCreate(title, content).Invalid? && ParseTrainingCreate(title, content).errors[0] == FieldError("title", Custom(BlankMessage("title")))
    ensures content.Some? && content.value != "" && IsBlank(content.value) ==>
      ParseTrainingCreate(title, content).Invalid? && FieldError("content", Custom(BlankMessage("content"))) in ParseTrainingCreate(title, content).errors
  {
    CheckPairSpec(FieldRule("title", 1, true), title, FieldRule("content", 1, true), content);
    CheckFieldSpec(FieldRule("title", 1, true), title);
    CheckFieldSpec(FieldRule("content", 1, true), content);
  }

  /**
    The response schema accepts exactly what the create schema accepts; it
    has no length constraint, so even the empty value gets the validator's message.
   */
  lemma TrainingContract(title: Option<string>, content: Option<string>)
    ensures ParseTraining(title, content).Valid? <==> ParseTrainingCreate(title, content).Valid?
    ensures ParseTraining(title, content).Valid? ==> ParseTraining(title, content).value == Training(title.value, content.value)
    ensures title.Some? && IsBlank(title.value) ==>
      ParseTraining(title, content).Invalid? && ParseTraining(title, content).errors[0] == FieldError("title", Custom(BlankMessage("title")))
  {
    CheckPairSpec(FieldRule("title", 1, true), title, FieldRule("content", 1, true), content);
    CheckPairSpec(FieldRule("title", 0, true), title, FieldRule("content", 0, true), content);
    CheckFieldSpec(FieldRule("title", 0, true), title);
  }

  // ---- Feedback: not_empty validator on both fields ----

  datatype FeedbackCreate = FeedbackCreate(user: string, content: string)
  datatype Feedback = Feedback(user: string, content: string)

  function ParseFeedbackCreate(user: Option<string>, content: Option<string>): Parsed<FeedbackCreate> {
    match CheckPair(FieldRule("user", 1, true), user, FieldRule("content", 1, true), content)
    case Valid((a, b)) => Valid(FeedbackCreate(a, b))
    case Invalid(es) => Invalid(es)
  }

  function ParseFeedback(user: Option<string>, content: Option<string>): Parsed<Feedback> {
    match CheckPair(FieldRule("user", 0, true), user, FieldRule("content", 0, true), content)
    case Valid((a, b)) => Valid(Feedback(a, b))
    case Invalid(es) => Invalid(es)
  }

  /**
    Both fields are required; a value is accepted exactly when it holds a
    non-whitespace character, and is kept untrimmed.
   */
  lemma FeedbackCreateContract(user: Option<string>, content: Option<string>)
    ensures ParseFeedbackCreate(user, content).Valid?
        <==> user.Some? && content.Some? && !IsBlank(user.value) && !IsBlank(content.value)
    ensures ParseFeedbackCreate(user, content).Valid? ==> ParseFeedbackCreate(user, content).value == FeedbackCreate(user.value, content.value)
  {
    CheckPairSpec(FieldRule("user", 1, true), user, FieldRule("content", 1, true), content);
  }

  /**
    The errors of a rejected body: an absent value is reported as missing,
    an empty one as too short, and a non-empty blank one with the
    validator's message; the first field's error comes first.
   */
  lemma FeedbackCreateErrors(user: Option<string>, content: Option<string>)
    ensures user.None? ==> ParseFeedbackCreate(user, content).Invalid? && ParseFeedbackCreate(user, content).errors[0] == FieldError("user", Missing)
    ensures content.None? ==> ParseFeedbackCreate(user, content).Invalid? && FieldError("content", Missing) in ParseFeedbackCreate(user, content).errors
    ensures user == Some("") ==> ParseFeedbackCreate(user, content).Invalid? && ParseFeedbackCreate(user, content).errors[0] == FieldError("user", TooShort(1))
    ensures content == Some("") ==> ParseFeedbackCreate(user, content).Invalid? && FieldError("content", TooShort(1)) in ParseFeedbackCreate(user, content).errors
    ensures user.Some? && user.value != "" && IsBlank(user.value) ==>
      ParseFeedbackCreate(user, content).Invalid? && ParseFeedbackCreate(user, content).errors[0] == FieldError("user", Custom(BlankMessage("user")))
    ensures content.Some? && content.value != "" && IsBlank(content.value) ==>
      ParseFeedbackCreate(user, content).Invalid? && FieldError("content", Custom(BlankMessage("content"))) in ParseFeedbackCreate(user, content).errors
  {
    CheckPairSpec(FieldRule("user", 1, true), user, FieldRule("content", 1, true), content);
    CheckFieldSpec(FieldRule("user", 1, true), user);
    CheckFieldSpec(FieldRule("content", 1, true), content);
  }

  /**
    The response schema accepts exactly what the create schema accepts; it
    has no length constraint, so even the empty value gets the validator's message.
   */
  lemma FeedbackContract(user: Option<string>, content: Option<string>)
    ensures ParseFeedback(user, content).Valid? <==> ParseFeedbackCreate(user, content).Valid?
    ensures ParseFeedback(user, content).Valid? ==> ParseFeedback(user, content).value == Feedback(user.value, content.value)
    ensures user.Some? && IsBlank(user.value) ==>
      ParseFeedback(user, content).Invalid? && ParseFeedback(user, content).errors[0] == FieldError("user", Custom(BlankMessage("user")))
  {
    CheckPairSpec(FieldRule("user", 1, true), user, FieldRule("content", 1, true), content);
    CheckPairSpec(FieldRule("user", 0, true), user, FieldRule("content", 0, true), content);
    CheckFieldSpec(FieldRule("user", 0, true), user);
  }

  // ---- News: min_length=1 on the create schema only ----

  datatype NewsCreate = NewsCreate(title: string, content: string)
  datatype News = News(title: string, content: string)

  function ParseNewsCreate(title: Option<string>, content: Option<string>): Parsed<NewsCreate> {
    match CheckPair(FieldRule("title", 1, false), title, FieldRule("content", 1, false), content)
    case Valid((a, b)) => Valid(NewsCreate(a, b))
    case Invalid(es) => Invalid(es)
  }

  function ParseNews(title: Option<string>, content: Option<string>): Parsed<News> {
    match CheckPair(FieldRule("title", 0, false), title, FieldRule("content", 0, false), content)
    case Valid((a, b)) => Valid(News(a, b))
    case Invalid(es) => Invalid(es)
  }

  /**
    Both fields are required and must be non-empty; nothing else is
    checked, so a whitespace-only value is accepted, and it is kept as given.
   */
  lemma NewsCreateContract(title: Option<string>, content: Option<string>)
    ensures ParseNewsCreate(title, content).Valid?
        <==> title.Some? && content.Some? && |title.value| >= 1 && |content.value| >= 1
    ensures ParseNewsCreate(title, content).Valid? ==> ParseNewsCreate(title, content).value == NewsCreate(title.value, content.value)
    ensures title.None? ==> ParseNewsCreate(title, content).Invalid? && ParseNewsCreate(title, content).errors[0] == FieldError("title", Missing)
    ensures content.None? ==> ParseNewsCreate(title, content).Invalid? && FieldError("content", Missing) in ParseNewsCreate(title, content).errors
    ensures title == Some("") ==> ParseNewsCreate(title, content).Invalid? && ParseNewsCreate(title, content).errors[0] == FieldError("title", TooShort(1))
    ensures content == Some("") ==> ParseNewsCreate(title, content).Invalid? && FieldError("content", TooShort(1)) in ParseNewsCreate(title, content).errors
  {
    CheckPairSpec(FieldRule("title", 1, false), title, FieldRule("content", 1, false), content);
    CheckFieldSpec(FieldRule("title", 1, false), title);
    CheckFieldSpec(FieldRule("content", 1, false), content);
  }

  /** The response schema only requires both fields to be present; any string, the empty one included, is accepted. */
  lemma NewsContract(title: Option<string>, content: Option<string>)
    ensures ParseNews(title, content).Valid? <==> title.Some? && content.Some?
    ensures ParseNews(title, content).Valid? ==> ParseNews(title, content).value == News(title.value, content.value)
  {
    CheckPairSpec(FieldRule("title", 0, false), title, FieldRule("content", 0, false), content);
  }

  // ---- Recommendation: min_length=1 on the create schema only ----

  datatype RecommendationCreate = RecommendationCreate(title: string, content: string)
  datatype Recommendation = Recommendation(title: string, content: string)

  function ParseRecommendationCreate(title: Option<string>, content: Option<string>): Parsed<RecommendationCreate> {
    match CheckPair(FieldRule("title", 1, false), title, FieldRule("content", 1, false), content)
    case Valid((a, b)) => Valid(RecommendationCreate(a, b))
    case Invalid(es) => Invalid(es)
  }

  function ParseRecommendation(title: Option<string>, content: Option<string>): Parsed<Recommendation> {
    match CheckPair(FieldRule("title", 0, false), title, FieldRule("content", 0, false), content)
    case Valid((a, b)) => Valid(Recommendation(a, b))
    case Invalid(es) => Invalid(es)
  }

  /**
    Both fields are required and must be non-empty; nothing else is
    checked, so a whitespace-only value is accepted, and it is kept as given.
   */
  lemma RecommendationCreateContract(title: Option<string>, content: Option<string>)
    ensures ParseRecommendationCreate(title, content).Valid?
        <==> title.Some? && content.Some? && |title.value| >= 1 && |content.value| >= 1
    ensures ParseRecommendationCreate(title, content).Valid? ==> ParseRecommendationCreate(title, content).value == RecommendationCreate(title.value, content.value)
    ensures title.None? ==> ParseRecommendationCreate(title, content).Invalid? && ParseRecommendationCreate(title, content).errors[0] == FieldError("title", Missing)
    ensures content.None? ==> ParseRecommendationCreate(title, content).Invalid? && FieldError("content", Missing) in ParseRecommendationCreate(title, content).errors
    ensures title == Some("") ==> ParseRecommendationCreate(title, content).Invalid? && ParseRecommendationCreate(title, content).errors[0] == FieldError("title", TooShort(1))
    ensures content == Some("") ==> ParseRecommendationCreate(title, content).Invalid? && FieldError("content", TooShort(1)) in ParseRecommendationCreate(title, content).errors
  {
    CheckPairSpec(FieldRule("title", 1, false), title, FieldRule("content", 1, false), content);
    CheckFieldSpec(FieldRule("title", 1, false), title);
    CheckFieldSpec(FieldRule("content", 1, false), content);
  }

  /** The response schema only requires both fields to be present; any string, the empty one included, is accepted. */
  lemma RecommendationContract(title: Option<string>, content: Option<string>)
    ensures ParseRecommendation(title, content).Valid? <==> title.Some? && content.Some?
    ensures ParseRecommendation(title, content).Valid? ==> ParseRecommendation(title, content).value == Recommendation(title.value, content.value)
  {
    CheckPairSpec(FieldRule("title", 0, false), title, FieldRule("content", 0, false), content);
  }

  // ---- Influence: min_length=1 on the create schema only ----

  datatype InfluenceCreate = InfluenceCreate(name: string, effect: string)
  datatype Influence = Influence(name: string, effect: string)

  function ParseInfluenceCreate(name: Option<string>, effect: Option<string>): Parsed<InfluenceCreate> {
    match CheckPair(FieldRule("name", 1, false), name, FieldRule("effect", 1, false), effect)
    case Valid((a, b)) => Valid(InfluenceCreate(a, b))
    case Invalid(es) => Invalid(es)
  }

  function ParseInfluence(name: Option<string>, effect: Option<string>): Parsed<Influence> {
    match CheckPair(FieldRule("name", 0, false), name, FieldRule("effect", 0, false), effect)
    case Valid((a, b)) => Valid(Influence(a, b))
    case Invalid(es) => Invalid(es)
  }

  /**
    Both fields are required and must be non-empty; nothing else is
    checked, so a whitespace-only value is accepted, and it is kept as given.
   */
  lemma InfluenceCreateContract(name: Option<string>, effect: Option<string>)
    ensures ParseInfluenceCreate(name, effect).Valid?
        <==> name.Some? && effect.Some? && |name.value| >= 1 && |effect.value| >= 1
    ensures ParseInfluenceCreate(name, effect).Valid? ==> ParseInfluenceCreate(name, effect).value == InfluenceCreate(name.value, effect.value)
    ensures name.None? ==> ParseInfluenceCreate(name, effect).Invalid? && ParseInfluenceCreate(name, effect).errors[0] == FieldError("name", Missing)
    ensures effect.None? ==> ParseInfluenceCreate(name, effect).Invalid? && FieldError("effect", Missing) in ParseInfluenceCreate(name, effect).errors
    ensures name == Some("") ==> ParseInfluenceCreate(name, effect).Invalid? && ParseInfluenceCreate(name, effect).errors[0] == FieldError("name", TooShort(1))
    ensures effect == Some("") ==> ParseInfluenceCreate(name, effect).Invalid? && FieldError("effect", TooShort(1)) in ParseInfluenceCreate(name, effect).errors
  {
    CheckPairSpec(FieldRule("name", 1, false), name, FieldRule("effect", 1, false), effect);
    CheckFieldSpec(FieldRule("name", 1, false), name);
    CheckFieldSpec(FieldRule("effect", 1, false), effect);
  }

  /** The response schema only requires both fields to be present; any string, the empty one included, is accepted. */
  lemma InfluenceContract(name: Option<string>, effect: Option<string>)
    ensures ParseInfluence(name, effect).Valid? <==> name.Some? && effect.Some?
    ensures ParseInfluence(name, effect).Valid? ==> ParseInfluence(name, effect).value == Influence(name.value, effect.value)
  {
    CheckPairSpec(FieldRule("name", 0, false), name, FieldRule("effect", 0, false), effect);
  }

  // ---- Task: min_length=1 on the create schema only ----

  datatype TaskCreate = TaskCreate(name: string, action: string)
  datatype Task = Task(name: string, action: string)

  function ParseTaskCreate(name: Option<string>, action: Option<string>): Parsed<TaskCreate> {
    match CheckPair(FieldRule("name", 1, false), name, FieldRule("action", 1, false), action)
    case Valid((a, b)) => Valid(TaskCreate(a, b))
    case Invalid(es) => Invalid(es)
  }

  function ParseTask(name: Option<string>, action: Option<string>): Parsed<Task> {
    match CheckPair(FieldRule("name", 0, false), name, FieldRule("action", 0, false), action)
    case Valid((a, b)) => Valid(Task(a, b))
    case Invalid(es) => Invalid(es)
  }

  /**
    Both fields are required and must be non-empty; nothing else is
    checked, so a whitespace-only value is accepted, and it is kept as given.
   */
  lemma TaskCreateContract(name: Option<string>, action: Option<string>)
    ensures ParseTaskCreate(name, action).Valid?
        <==> name.Some? && action.Some? && |name.value| >= 1 && |action.value| >= 1
    ensures ParseTaskCreate(name, action).Valid? ==> ParseTaskCreate(name, action).value == TaskCreate(name.value, action.value)
    ensures name.None? ==> ParseTaskCreate(name, action).Invalid? && ParseTaskCreate(name, action).errors[0] == FieldError("name", Missing)
    ensures action.None? ==> ParseTaskCreate(name, action).Invalid? && FieldError("action", Missing) in ParseTaskCreate(name, action).errors
    ensures name == Some("") ==> ParseTaskCreate(name, action).Invalid? && ParseTaskCreate(name, action).errors[0] == FieldError("name", TooShort(1))
    ensures action == Some("") ==> ParseTaskCreate(name, action).Invalid? && FieldError("action", TooShort(1)) in ParseTaskCreate(name, action).errors
  {
    CheckPairSpec(FieldRule("name", 1, false), name, FieldRule("action", 1, false), action);
    CheckFieldSpec(FieldRule("name", 1, false), name);
    CheckFieldSpec(FieldRule("action", 1, false), action);
  }

  /** The response schema only requires both fields to be present; any string, the empty one included, is accepted. */
  lemma TaskContract(name: Option<string>, action: Option<string>)
    ensures ParseTask(name, action).Valid? <==> name.Some? && action.Some?
    ensures ParseTask(name, action).Valid? ==> ParseTask(name, action).value == Task(name.value, action.value)
  {
    CheckPairSpec(FieldRule("name", 0, false), name, FieldRule("action", 0, false), action);
  }

  // ---- Role: min_length=1 on the create schema only ----

  datatype RoleCreate = RoleCreate(name: string, description: string)
  datatype Role = Role(name: string, description: string)

  function ParseRoleCreate(name: Option<string>, description: Option<string>): Parsed<RoleCreate> {
    match CheckPair(FieldRule("name", 1, false), name, FieldRule("description", 1, false), description)
    case Valid((a, b)) => Valid(RoleCreate(a, b))
    case Invalid(es) => Invalid(es)
  }

  function ParseRole(name: Option<string>, description: Option<string>): Parsed<Role> {
    match CheckPair(FieldRule("name", 0, false), name, FieldRule("description", 0, false), description)
    case Valid((a, b)) => Valid(Role(a, b))
    case Invalid(es) => Invalid(es)
  }

  /**
    Both fields are required and must be non-empty; nothing else is
    checked, so a whitespace-only value is accepted, and it is kept as given.
   */
  lemma RoleCreateContract(name: Option<string>, description: Option<string>)
    ensures ParseRoleCreate(name, description).Valid?
        <==> name.Some? && description.Some? && |name.value| >= 1 && |description.value| >= 1
    ensures ParseRoleCreate(name, description).Valid? ==> ParseRoleCreate(name, description).value == RoleCreate(name.value, description.value)
    ensures name.None? ==> ParseRoleCreate(name, description).Invalid? && ParseRoleCreate(name, description).errors[0] == FieldError("name", Missing)
    ensures description.None? ==> ParseRoleCreate(name, description).Invalid? && FieldError("description", Missing) in ParseRoleCreate(name, description).errors
    ensures name == Some("") ==> ParseRoleCreate(name, description).Invalid? && ParseRoleCreate(name, description).errors[0] == FieldError("name", TooShort(1))
    ensures description == Some("") ==> ParseRoleCreate(name, description).Invalid? && FieldError("description", TooShort(1)) in ParseRoleCreate(name, description).errors
  {
    CheckPairSpec(FieldRule("name", 1, false), name, FieldRule("description", 1, false), description);
    CheckFieldSpec(FieldRule("name", 1, false), name);
    CheckFieldSpec(FieldRule("description", 1, false), description);
  }

  /** The response schema only requires both fields to be present; any string, the empty one included, is accepted. */
  lemma RoleContract(name: Option<string>, description: Option<string>)
    ensures ParseRole(name, description).Valid? <==> name.Some? && description.Some?
    ensures ParseRole(name, description).Valid? ==> ParseRole(name, description).value == Role(name.value, description.value)
  {
    CheckPairSpec(FieldRule("name", 0, false), name, FieldRule("description", 0, false), description);
  }

  // ---- the gap between "non-empty" and "non-blank" ----

  /** Non-blank is strictly stronger than non-empty: every non-blank string is non-empty, and " " is non-empty but blank. */
  lemma NonBlankStrongerThanNonEmpty(s: string)
    ensures !IsBlank(s) ==> |s| >= 1
    ensures |" "| >= 1 && IsBlank(" ")
  {
  }

  /**
    A non-empty, whitespace-only value gets through every create schema that
    only declares min_length, and is refused by the two that strip.
   */
  lemma BlankValueGap(s: string)
    requires |s| >= 1 && IsBlank(s)
    ensures ParseNewsCreate(Some(s), Some(s)).Valid?
    ensures ParseRecommendationCreate(Some(s), Some(s)).Valid?
    ensures ParseInfluenceCreate(Some(s), Some(s)).Valid?
    ensures ParseTaskCreate(Some(s), Some(s)).Valid?
    ensures ParseRoleCreate(Some(s), Some(s)).Valid?
    ensures ParseTrainingCreate(Some(s), Some(s)).Invalid?
    ensures ParseFeedbackCreate(Some(s), Some(s)).Invalid?
  {
    NewsCreateContract(Some(s), Some(s));
    RecommendationCreateContract(Some(s), Some(s));
    InfluenceCreateContract(Some(s), Some(s));
    TaskCreateContract(Some(s), Some(s));
    RoleCreateContract(Some(s), Some(s));
    TrainingCreateContract(Some(s), Some(s));
    FeedbackCreateContract(Some(s), Some(s));
  }
}
