# Verified model of the blog generator's core

This project models the three pieces of logic behind the AI blog generator:

- **`BlogStore`** (`lib/blogStore.ts`) is the in-memory post table. It keeps
  a list of posts, newest first, and changes it in place. `Store.BlogStore`
  is a class with a `seq<BlogPost>` field. Each method is proved against a
  specification function on that sequence:
  - `FirstIndex` is the `find` scan;
  - `WithStatus` is the status update;
  - `Without` is the `filter`.
- **`BlogAIAgent`** (`lib/aiAgent.ts`) is the deterministic template
  generator. The agent only ever reads the business context it was built
  with, so the model passes that context to each operation.
  - `GenerateTopicIdeas` is a method with the source's bounded loop over the
    eight base topics.
  - `GenerateBlogPost` and `ResearchTopic` are functions that spell out the
    source's templates character for character.
- **The generate handler** (`app/api/generate/route.ts`) validates the
  request, parses the keyword string and defaults the tone. It then asks the
  agent for one topic and its post, and adds that post to the store as a
  draft. Validation and parsing are functions; the handler is a method that
  modifies a `Store.BlogStore`.

`Text` holds the JavaScript built-ins these need: `join`, a one-character
`split`, `trim`, ASCII `toLowerCase` and `slice(0, n)`. `Wrappers` holds
`Option` and `Result`.

Ids and creation times are produced in the source by `Math.random()` and
`new Date()`. Here they are parameters of `AddPost` and `Generate`, and
nothing assumes that ids are unique. When ids collide, the store's
operations treat them differently:

- `deletePost` removes every post with the id.
- `updatePostStatus` changes only the first match.
- A post's status can be set to either value at any time.

## Model

| member | source | states |
|---|---|---|
| Store.Find | lib/blogStore.ts:30 | `find`: `None` exactly when no post has the id, otherwise a stored post with that id |
| Store.WithStatus | lib/blogStore.ts:34-37 | the list after the status write keeps its length and every post's id |
| Store.FirstIndex | lib/blogStore.ts:29-31 | `find` by id: a result is an index whose post has the id and no earlier post has it; `None` exactly when no post has the id |
| Store.Without | lib/blogStore.ts:40-42 | the filtered list holds exactly the posts whose id differs, and is no longer than before |
| Store.BlogStore.constructor | lib/blogStore.ts:12-13 | a new store holds no posts |
| Store.BlogStore.AddPost | lib/blogStore.ts:15-23 | the stored post copies every caller field and carries the given id and time; the new list is that post followed by the old list, unchanged and in order |
| Store.BlogStore.GetPosts | lib/blogStore.ts:25-27 | returns the stored list, in store order, and changes nothing |
| Store.BlogStore.GetPostById | lib/blogStore.ts:29-31 | `None` exactly when no post has the id; otherwise the post at the first matching index; changes nothing |
| Store.BlogStore.UpdatePostStatus | lib/blogStore.ts:33-38 | the new list is `WithStatus` of the old one (status of the first match set, nothing else) |
| Store.BlogStore.DeletePost | lib/blogStore.ts:40-42 | the new list is `Without` of the old one |
| Store.FirstIndexOnlyIds | lib/blogStore.ts:30 | the lookup result depends only on the posts' ids |
| Store.UpdateChangesOnlyFirstMatch | lib/blogStore.ts:33-38 | a status update keeps the length and every field other than status; only the first match can change, and it gets the new status |
| Store.UpdateThenFind | lib/blogStore.ts:29-38 | after an update, lookup of that id finds the old first match with the new status |
| Store.UpdateAbsent | lib/blogStore.ts:33-38 | updating an id no post has changes nothing |
| Store.UpdateIdempotent | lib/blogStore.ts:33-38 | setting the same status twice equals setting it once |
| Store.WithoutAppend | lib/blogStore.ts:41 | deletion distributes over concatenation, so remaining posts keep their relative order |
| Store.DeleteAbsent | lib/blogStore.ts:40-42 | deleting an id no post has changes nothing |
| Store.DeleteIdempotent | lib/blogStore.ts:40-42 | deleting twice equals deleting once |
| Store.DeleteRemovesEveryMatch | lib/blogStore.ts:40-42 | the list shrinks by the number of posts with the id: every match is removed |
| Store.AddedPostIsFound | lib/blogStore.ts:21-30 | a post just added is what lookup of its id returns, even when older posts share the id |
| Store.UpdateAfterAddTouchesNewest | lib/blogStore.ts:21-38 | updating the id of a post just added changes only that post; older posts with the id keep their status |
| Store.DeleteAfterAddRemovesAll | lib/blogStore.ts:21-42 | deleting the id of a post just added removes it and every older post with that id |
| Text.Join | lib/aiAgent.ts:78 | `join`: empty for no parts, and otherwise begins with the first part |
| Text.JoinFive | lib/aiAgent.ts:78 | joining five parts places the separator between each neighbouring pair |
| Text.Split | app/api/generate/route.ts:18 | `split(',')` yields at least one piece and no piece holds the separator |
| Text.JoinSplit | app/api/generate/route.ts:18 | joining the pieces of a split with the separator gives back the string |
| Text.SplitWithoutSeparator | app/api/generate/route.ts:18 | a string without the separator splits into itself alone |
| Text.SplitAfterPiece | app/api/generate/route.ts:18 | splitting `a + sep + b` yields `a` and then the pieces of `b` |
| Text.SplitJoin | app/api/generate/route.ts:18 | splitting a join of separator-free parts gives back the parts |
| Text.TrimStart | app/api/generate/route.ts:18 | removes exactly the leading white space: the result is a suffix that does not start with white space, and every removed character is white space |
| Text.TrimEnd | app/api/generate/route.ts:18 | removes exactly the trailing white space, symmetrically |
| Text.IsSpace | app/api/generate/route.ts:18 | the white space `trim` removes: the ECMAScript WhiteSpace and LineTerminator code points |
| Text.Trim | app/api/generate/route.ts:18 | the trimmed string is no longer than the input and neither starts nor ends with white space (what it keeps is stated by TrimCutsOnlySpace) |
| Text.TrimCutsOnlySpace | app/api/generate/route.ts:18 | the trimmed string is the contiguous piece of the input that starts where the leading white space ends, and everything cut from either end is white space |
| Text.TrimKeepsCharacters | app/api/generate/route.ts:18 | every character of a trimmed string occurs in the input |
| Text.TrimEmpty | app/api/generate/route.ts:18 | a string trims to empty exactly when it is all white space |
| Text.TrimIdempotent | app/api/generate/route.ts:18 | trimming twice equals trimming once |
| Text.Lower | lib/aiAgent.ts:83 | `toLowerCase` keeps the length and maps each character, leaving no ASCII capital |
| Text.Take | lib/aiAgent.ts:41 | `slice(0, n)` is the first `min(n, length)` elements |
| AiAgent.GenerateTopicIdeas | lib/aiAgent.ts:22-47 | returns exactly `min(max(count, 0), 8)` topics (default count 5); topic `i` is titled `industry + ": " + BaseTopics[i]`, has angle `"Targeted at " + audience`, target length 1500 and the first at most three context keywords |
| AiAgent.FirstKeyword | lib/aiAgent.ts:70 | `keywords[0]` in a template: the first keyword, or the text "undefined" when there is none |
| AiAgent.IntroductionSection | lib/aiAgent.ts:56-59 | the first section is headed "Introduction" |
| AiAgent.KeyInsightsSection | lib/aiAgent.ts:60-63 | the second section is headed "Key Insights" |
| AiAgent.PracticalApplicationsSection | lib/aiAgent.ts:64-67 | the third section is headed "Practical Applications" |
| AiAgent.ExpertRecommendationsSection | lib/aiAgent.ts:68-71 | the fourth section is headed "Expert Recommendations" |
| AiAgent.ConclusionSection | lib/aiAgent.ts:72-75 | the fifth section is headed "Conclusion" |
| AiAgent.Sections | lib/aiAgent.ts:55-76 | the `sections` array holds exactly five sections; their headings and order are stated by the five section functions' contracts and ContentLayout |
| AiAgent.RenderSection | lib/aiAgent.ts:78 | the `map` callback: the rendering opens with `"## " + heading + "\n\n"` and is five characters longer than heading and body together |
| AiAgent.RenderSections | lib/aiAgent.ts:78 | one rendered string per section, in order, each `"## " + heading + "\n\n" + body` |
| AiAgent.GenerateBlogPost | lib/aiAgent.ts:49-86 | the post takes the topic's title and keywords; the summary is `"A comprehensive guide to " + lower(title) + " for " + audience + " in the " + industry + " industry."` |
| AiAgent.ResearchTopic | lib/aiAgent.ts:88-96 | exactly five prompts; the first three name the topic, the audience and the industry |
| AiAgent.ContentLayout | lib/aiAgent.ts:55-78 | the content is the five sections, Introduction to Conclusion in that order, each rendered with its heading line, separated by blank lines |
| AiAgent.ContentStartsWithIntroduction | lib/aiAgent.ts:55-78 | the content begins with `"## Introduction\n\n"` |
| AiAgent.ToneIsIgnored | lib/aiAgent.ts:15-96 | no output of the agent depends on the tone |
| AiAgent.NoKeywordsPrintsUndefined | lib/aiAgent.ts:60-71 | with no keywords, Key Insights lists nothing and Expert Recommendations prints "undefined" for the first keyword |
| GenerateRoute.Truthy | app/api/generate/route.ts:10-25 | JavaScript truthiness of a request field: present and not the empty string (the contracts of BuildContext and KeywordList are stated with it) |
| GenerateRoute.CleanPieces | app/api/generate/route.ts:18 | `map(trim).filter(Boolean)` keeps no empty entry and no entry with white space at either end |
| GenerateRoute.CleanedFromPieces | app/api/generate/route.ts:18 | every kept keyword is the trim of one of the pieces |
| GenerateRoute.CleanKeepsNonBlank | app/api/generate/route.ts:18 | every piece that is not all white space is kept, trimmed |
| GenerateRoute.CleanPiecesAppend | app/api/generate/route.ts:18 | cleaning distributes over concatenation, so keywords keep the order they were typed in |
| GenerateRoute.CleanedHasNoComma | app/api/generate/route.ts:18 | a kept keyword holds no comma |
| GenerateRoute.ParseKeywords | app/api/generate/route.ts:17-18 | every parsed keyword is non-empty, has no white space at either end and holds no comma |
| GenerateRoute.ParseKeywordsPieces | app/api/generate/route.ts:18 | the parsed keywords are exactly the non-blank pieces of the split, trimmed |
| GenerateRoute.TrimmedIsFixed | app/api/generate/route.ts:18 | a string with no white space at either end trims to itself |
| GenerateRoute.ParseKeywordsJoin | app/api/generate/route.ts:18 | parsing well-formed keywords written with commas between them gives back the same list |
| GenerateRoute.CleanWellFormed | app/api/generate/route.ts:18 | cleaning a list of well-formed keywords changes nothing |
| GenerateRoute.BlankKeywordsParseToNothing | app/api/generate/route.ts:17-18 | a string of only commas and white space, such as `" , "`, parses to no keywords |
| GenerateRoute.CleanBlank | app/api/generate/route.ts:18 | cleaning all-blank pieces leaves nothing |
| GenerateRoute.SplitPiecesFromInput | app/api/generate/route.ts:18 | every character of a split piece occurs in the string and is not the separator |
| GenerateRoute.KeywordList | app/api/generate/route.ts:17-19 | a truthy keyword string gives well-formed keywords; otherwise the list is exactly `[industry, targetAudience]` |
| GenerateRoute.BuildContext | app/api/generate/route.ts:10-26 | the 400 error exactly when industry or audience is missing or empty; otherwise the context carries them, the keyword list, and the tone or `"professional"` |
| GenerateRoute.FirstTopic | app/api/generate/route.ts:28-29 | `topics[0]` of `generateTopicIdeas(1)`; the handler proves its topic equals it, and FirstTopicShape states its title and keywords |
| GenerateRoute.FirstTopicShape | app/api/generate/route.ts:28-29 | the one topic requested is titled `industry + ": industry trends and innovations"` and has at most three keywords |
| GenerateRoute.BlankKeywordsPrintUndefined | app/api/generate/route.ts:17-29 | a blank keyword string such as `" , "` leaves the post without keywords, so its Expert Recommendations section prints "undefined" |
| GenerateRoute.Generate | app/api/generate/route.ts:5-40 | on a missing field: the error, with the store unchanged; otherwise exactly one post is added at the front, a draft with the given id and time, its topic equal to its title `industry + ": industry trends and innovations"`, at most three keywords, and the content and summary of the generated post |

## Left out

- The React page (`app/page.tsx`) and the posts route (`app/api/posts/route.ts`). The first is presentation and network I/O; the second only forwards `getPosts`.
- Request parsing (`request.json()`), `NextResponse`, HTTP status objects and the catch-all 500 path. The 400 outcome is `GenerateError.MissingRequiredFields`.
- `async`/`Promise`: nothing in the core waits for anything, so every operation is synchronous.
- Id and timestamp generation. Both are parameters, and the model neither assumes nor gives uniqueness.
- Object aliasing. `getPosts` returns a shallow copy whose post objects are shared with the store. Posts are values here, so a caller cannot change a stored post through that copy.
- Request fields of non-string types. `keywords.split` on a non-string value throws and lands in the 500 path; the request fields are `Option<string>`.
- Text.Lower: maps only ASCII capitals, not the rest of Unicode case mapping done by `toLowerCase`.
- AiAgent.GenerateTopicIdeas: `count` is an integer. A fractional JavaScript number, which would round the loop bound up, is not modelled.
