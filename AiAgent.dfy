/** The template generator of lib/aiAgent.ts. A `BlogAIAgent` holds one
    business context, fixed when it is constructed and never changed, so the
    agent is modelled by that context, passed to each operation. */
module AiAgent {
  import opened Text

  /** What the user describes: industry, audience, keywords and tone. */
  datatype BusinessContext = BusinessContext(
    industry: string,
    targetAudience: string,
    keywords: seq<string>,
    tone: string)

  /** A topic idea. */
  datatype BlogTopic = BlogTopic(
    title: string,
    angle: string,
    keywords: seq<string>,
    targetLength: int)

  /** What `generateBlogPost` returns. */
  datatype BlogContent = BlogContent(
    title: string,
    content: string,
    summary: string,
    keywords: seq<string>)

  /** One section of a generated post. */
  datatype Section = Section(heading: string, body: string)

  /** The fixed table topic ideas are drawn from, in order. */
  const BaseTopics: seq<string> := [
    "industry trends and innovations",
    "best practices and how-to guides",
    "case studies and success stories",
    "problem-solving and solutions",
    "tips and tricks for professionals",
    "future predictions and insights",
    "common mistakes to avoid",
    "tool comparisons and reviews"
  ]

  /** How many topics `generateTopicIdeas` makes when no count is given. */
  const DefaultTopicCount := 5

  /** The target length of every topic idea. */
  const TargetLength := 1500

  /** How many context keywords a topic carries at most. */
  const TopicKeywordLimit := 3

  /** The topic ideas: one per base topic, in table order, for the first
      `count` entries of the table (none when `count` is not positive). */
  method GenerateTopicIdeas(ctx: BusinessContext, count: int := DefaultTopicCount) returns (topics: seq<BlogTopic>)
    ensures |topics| == if count <= 0 then 0 else if count < |BaseTopics| then count else |BaseTopics|
    ensures forall i :: 0 <= i < |topics| ==>
      topics[i].title == ctx.industry + ": " + BaseTopics[i] &&
      topics[i].angle == "Targeted at " + ctx.targetAudience &&
      topics[i].keywords == Take(ctx.keywords, TopicKeywordLimit) &&
      topics[i].targetLength == TargetLength
  {
    topics := [];
    var i := 0;
    while i < count && i < |BaseTopics|
      invariant 0 <= i <= |BaseTopics|
      invariant count <= 0 ==> i == 0
      invariant count > 0 ==> i <= count
      invariant |topics| == i
      invariant forall j :: 0 <= j < i ==>
        topics[j].title == ctx.industry + ": " + BaseTopics[j] &&
        topics[j].angle == "Targeted at " + ctx.targetAudience &&
        topics[j].keywords == Take(ctx.keywords, TopicKeywordLimit) &&
        topics[j].targetLength == TargetLength
    {
      var baseTopic := BaseTopics[i];
      topics := topics + [BlogTopic(
        ctx.industry + ": " + baseTopic,
        "Targeted at " + ctx.targetAudience,
        Take(ctx.keywords, TopicKeywordLimit),
        TargetLength)];
      i := i + 1;
    }
  }

  /** `topic.keywords[0]` inside a template literal: the first keyword, or the
      text JavaScript prints for `undefined` when there is none. */
  function FirstKeyword(keywords: seq<string>): (r: string)
    ensures |keywords| > 0 ==> r == keywords[0]
    ensures |keywords| == 0 ==> r == "undefined"
  {
    if |keywords| > 0 then keywords[0] else "undefined"
  }

  // The fixed text below is written as concatenations of short literals of at
  // most sixteen characters: the verifier's cost grows steeply with the length
  // of a single literal. Together the pieces spell the template text exactly.

  /** The Introduction section. */
  function IntroductionSection(ctx: BusinessContext, topic: BlogTopic): (s: Section)
    ensures s.heading == "Introduction"
  {
    Section("Introduction",
      "In today's " + ctx.industry + " landscape, " + "understanding "
      + Lower(topic.title) + " is crucial for " + ctx.targetAudience
      + ". This " + "comprehensive " + "guide will "
      + "explore the key " + "aspects and " + "provide "
      + "actionable " + "insights.")
  }

  /** The Key Insights section; it lists the topic's keywords. */
  function KeyInsightsSection(ctx: BusinessContext, topic: BlogTopic): (s: Section)
    ensures s.heading == "Key Insights"
  {
    Section("Key Insights",
      "When it comes " + "to " + Join(topic.keywords, ", ")
      + ", there are " + "several " + "critical " + "factors to "
      + "consider:\n\n• " + "Market dynamics " + "and current "
      + "trends\n• Best " + "practices from " + "industry "
      + "leaders\n• " + "Practical " + "implementation "
      + "strategies\n• " + "Common " + "challenges and "
      + "solutions\n\n" + "These elements " + "form the "
      + "foundation of a " + "successful " + "approach in the "
      + ctx.industry + " sector.")
  }

  /** The Practical Applications section. */
  function PracticalApplicationsSection(ctx: BusinessContext, topic: BlogTopic): (s: Section)
    ensures s.heading == "Practical Applications"
  {
    Section("Practical Applications",
      "For " + ctx.targetAudience + ", applying " + "these concepts "
      + "means:\n\n1. " + "**Strategic " + "Planning**: "
      + "Develop a clear " + "roadmap aligned " + "with your "
      + "business goals\n" + "2. " + "**Implementation**: "
      + "Execute with " + "precision and " + "monitor "
      + "progress\n3. " + "**Optimization**: " + "Continuously "
      + "refine based on " + "data and " + "feedback\n4. "
      + "**Scaling**: " + "Expand " + "successful " + "initiatives "
      + "across your " + "organization\n\n" + "These steps "
      + "ensure you " + "maximize value " + "and achieve "
      + "sustainable " + "results.")
  }

  /** The Expert Recommendations section; it names the topic's first keyword. */
  function ExpertRecommendationsSection(ctx: BusinessContext, topic: BlogTopic): (s: Section)
    ensures s.heading == "Expert Recommendations"
  {
    Section("Expert Recommendations",
      "Based on " + "industry " + "analysis and " + "proven "
      + "methodologies, " + "here are key " + "recommendations:\n\n"
      + "• Stay informed " + "about " + ctx.industry
      + " developments\n• " + "Invest in tools " + "and training "
      + "that support " + FirstKeyword(topic.keywords)
      + "\n• Build a " + "culture of " + "continuous "
      + "improvement\n• " + "Measure and " + "track relevant "
      + "KPIs\n• Engage " + "with " + "communities and " + "thought "
      + "leaders\n\n" + "Implementing " + "these "
      + "recommendations " + "will position " + "you for "
      + "long-term " + "success.")
  }

  /** The Conclusion section. */
  function ConclusionSection(ctx: BusinessContext, topic: BlogTopic): (s: Section)
    ensures s.heading == "Conclusion"
  {
    Section("Conclusion",
      "Success in " + ctx.industry + " requires a " + "thoughtful "
      + "approach to " + Lower(topic.title) + ". By "
      + "understanding " + "the " + "fundamentals, "
      + "applying best " + "practices, and " + "staying "
      + "adaptable, " + ctx.targetAudience + " can navigate "
      + "challenges and " + "capitalize on " + "opportunities. "
      + "Start " + "implementing " + "these insights "
      + "today to see " + "meaningful " + "results.")
  }

  /** The five sections of a post about `topic`, in order. */
  function Sections(ctx: BusinessContext, topic: BlogTopic): (r: seq<Section>)
    ensures |r| == 5
  {
    [
      IntroductionSection(ctx, topic),
      KeyInsightsSection(ctx, topic),
      PracticalApplicationsSection(ctx, topic),
      ExpertRecommendationsSection(ctx, topic),
      ConclusionSection(ctx, topic)
    ]
  }

  /** One section as Markdown: a level-two heading, a blank line, the body. The
      rendering opens with the heading line. */
  function RenderSection(s: Section): (r: string)
    ensures "## " + s.heading + "\n\n" <= r
    ensures |r| == |s.heading| + |s.body| + 5
  {
    "## " + s.heading + "\n\n" + s.body
  }

  /** Every section rendered, in order. */
  function RenderSections(sections: seq<Section>): (r: seq<string>)
    ensures |r| == |sections|
    ensures forall i :: 0 <= i < |r| ==> r[i] == RenderSection(sections[i])
  {
    seq(|sections|, i requires 0 <= i < |sections| => RenderSection(sections[i]))
  }

  /** The post for `topic`: its title and keywords are the topic's, its content
      the rendered sections separated by blank lines, and its summary a fixed
      sentence naming the topic, audience and industry. */
  function GenerateBlogPost(ctx: BusinessContext, topic: BlogTopic): (r: BlogContent)
    ensures r.title == topic.title && r.keywords == topic.keywords
    ensures r.summary == "A comprehensive guide to " + Lower(topic.title) + " for "
      + ctx.targetAudience + " in the " + ctx.industry + " industry."
  {
    BlogContent(
      topic.title,
      Join(RenderSections(Sections(ctx, topic)), "\n\n"),
      "A comprehensive guide to " + Lower(topic.title) + " for " + ctx.targetAudience
        + " in the " + ctx.industry + " industry.",
      topic.keywords)
  }

  /** Five research prompts; the first names the topic, the next two the
      audience and the industry, the last two are fixed. */
  function ResearchTopic(ctx: BusinessContext, topic: string): (r: seq<string>)
    ensures |r| == 5
    ensures r[0] == "Current trends in " + topic
    ensures r[1] == "Best practices for " + ctx.targetAudience
    ensures r[2] == "Case studies from " + ctx.industry
  {
    [
      "Current trends in " + topic,
      "Best practices for " + ctx.targetAudience,
      "Case studies from " + ctx.industry,
      "Expert insights and predictions",
      "Practical implementation strategies"
    ]
  }

  // ---------------------------------------------------------------------
  // Properties of the generated content

  /** The content is exactly five sections, each rendered as `"## " +
      heading + "\n\n" + body`, with the headings Introduction, Key Insights,
      Practical Applications, Expert Recommendations and Conclusion in that
      order and a blank line between neighbours. */
  lemma ContentLayout(ctx: BusinessContext, topic: BlogTopic)
    ensures GenerateBlogPost(ctx, topic).content ==
      RenderSection(IntroductionSection(ctx, topic)) + "\n\n"
      + (RenderSection(KeyInsightsSection(ctx, topic)) + "\n\n"
      + (RenderSection(PracticalApplicationsSection(ctx, topic)) + "\n\n"
      + (RenderSection(ExpertRecommendationsSection(ctx, topic)) + "\n\n"
      + RenderSection(ConclusionSection(ctx, topic)))))
  {
    JoinFive(RenderSections(Sections(ctx, topic)), "\n\n");
  }

  /** The content opens with the Introduction heading line. */
  lemma ContentStartsWithIntroduction(ctx: BusinessContext, topic: BlogTopic)
    ensures "## " + "Introduction" + "\n\n" <= GenerateBlogPost(ctx, topic).content
  {
    var rendered := RenderSections(Sections(ctx, topic));
    var intro := IntroductionSection(ctx, topic);
    var h := "## " + intro.heading + "\n\n";
    assert rendered[0] == RenderSection(intro);
    assert h == GenerateBlogPost(ctx, topic).content[..|h|];
  }

  /** The tone is stored but never read: no output depends on it. */
  lemma ToneIsIgnored(ctx: BusinessContext, tone: string, topic: BlogTopic, subject: string)
    ensures GenerateBlogPost(ctx.(tone := tone), topic) == GenerateBlogPost(ctx, topic)
    ensures ResearchTopic(ctx.(tone := tone), subject) == ResearchTopic(ctx, subject)
  {
  }

  /** With no keywords the Key Insights section lists nothing and the Expert
      Recommendations section names "undefined" where a keyword belongs. */
  lemma NoKeywordsPrintsUndefined(ctx: BusinessContext, topic: BlogTopic)
    requires topic.keywords == []
    ensures KeyInsightsSection(ctx, topic) == KeyInsightsSection(ctx, topic.(keywords := [""]))
    ensures ExpertRecommendationsSection(ctx, topic)
      == ExpertRecommendationsSection(ctx, topic.(keywords := ["undefined"]))
  {
  }
}
