/** The `POST /api/generate` handler of app/api/generate/route.ts: it checks
    the request, turns the comma-separated keyword string into a list, defaults
    the tone, asks the agent for one topic and its post, and stores that post
    as a draft. */
module GenerateRoute {
  import opened Wrappers
  import opened Text
  import AiAgent
  import Store

  /** The JSON body of a request; a field the client left out is `None`. */
  datatype GenerateRequest = GenerateRequest(
    industry: Option<string>,
    targetAudience: Option<string>,
    keywords: Option<string>,
    tone: Option<string>)

  /** The one error the handler reports itself (HTTP 400). */
  datatype GenerateError = MissingRequiredFields

  /** The tone used when the request gives none. */
  const DefaultTone := "professional"

  /** JavaScript truthiness of an optional string field: present and not empty. */
  predicate Truthy(v: Option<string>)
  {
    v.Some? && v.value != ""
  }

  /** A keyword as the parser leaves it: not empty, no white space at either
      end, no comma inside. */
  predicate WellFormedKeyword(k: string)
  {
    k != [] && !IsSpace(k[0]) && !IsSpace(k[|k| - 1]) && ',' !in k
  }

  /** `pieces.map(k => k.trim()).filter(Boolean)`: every piece trimmed, the
      empty results dropped, the rest kept in order. */
  function CleanPieces(pieces: seq<string>): (r: seq<string>)
    ensures |r| <= |pieces|
    ensures forall i :: 0 <= i < |r| ==> r[i] != [] && !IsSpace(r[i][0]) && !IsSpace(r[i][|r[i]| - 1])
  {
    if |pieces| == 0 then []
    else
      var t := Trim(pieces[0]);
      (if t == [] then [] else [t]) + CleanPieces(pieces[1..])
  }

  /** Every kept keyword is the trim of one of the pieces. */
  lemma {:induction false} CleanedFromPieces(pieces: seq<string>, k: string)
    requires k in CleanPieces(pieces)
    ensures exists p :: p in pieces && Trim(p) == k
  {
    var t := Trim(pieces[0]);
    if k != t {
      assert k in CleanPieces(pieces[1..]);
      CleanedFromPieces(pieces[1..], k);
      var p :| p in pieces[1..] && Trim(p) == k;
      assert p in pieces;
    }
  }

  /** No piece with something besides white space in it is lost. */
  lemma {:induction false} CleanKeepsNonBlank(pieces: seq<string>, p: string)
    requires p in pieces && Trim(p) != []
    ensures Trim(p) in CleanPieces(pieces)
  {
    if p != pieces[0] {
      assert p in pieces[1..];
      CleanKeepsNonBlank(pieces[1..], p);
    }
  }

  /** Cleaning works piece by piece, so the kept keywords stay in the order
      they were typed. */
  lemma {:induction false} CleanPiecesAppend(a: seq<string>, b: seq<string>)
    ensures CleanPieces(a + b) == CleanPieces(a) + CleanPieces(b)
  {
    if |a| > 0 {
      assert (a + b)[1..] == a[1..] + b;
      CleanPiecesAppend(a[1..], b);
    } else {
      assert a + b == b;
    }
  }

  /** A piece of a comma split, once trimmed, holds no comma. */
  lemma CleanedHasNoComma(s: string, k: string)
    requires k in CleanPieces(Split(s, ','))
    ensures ',' !in k
  {
    var pieces := Split(s, ',');
    CleanedFromPieces(pieces, k);
    var p :| p in pieces && Trim(p) == k;
    if ',' in k {
      TrimKeepsCharacters(p, ',');
    }
  }

  /** The keyword list parsed from a truthy `keywords` string: every keyword is
      well formed. */
  function ParseKeywords(s: string): (r: seq<string>)
    ensures forall i :: 0 <= i < |r| ==> WellFormedKeyword(r[i])
  {
    var r := CleanPieces(Split(s, ','));
    assert forall i :: 0 <= i < |r| ==> ',' !in r[i] by {
      forall i | 0 <= i < |r| ensures ',' !in r[i] {
        CleanedHasNoComma(s, r[i]);
      }
    }
    r
  }

  /** Parsing keeps exactly the non-blank pieces of the split, trimmed: each
      keyword is a trimmed piece, and each piece that is not all white space
      appears, trimmed, among the keywords. */
  lemma ParseKeywordsPieces(s: string, k: string, p: string)
    ensures k in ParseKeywords(s) ==> exists q :: q in Split(s, ',') && Trim(q) == k
    ensures p in Split(s, ',') && Trim(p) != [] ==> Trim(p) in ParseKeywords(s)
  {
    if k in ParseKeywords(s) {
      CleanedFromPieces(Split(s, ','), k);
    }
    if p in Split(s, ',') && Trim(p) != [] {
      CleanKeepsNonBlank(Split(s, ','), p);
    }
  }

  /** A string already trimmed trims to itself. */
  lemma TrimmedIsFixed(k: string)
    requires k != [] && !IsSpace(k[0]) && !IsSpace(k[|k| - 1])
    ensures Trim(k) == k
  {
    assert TrimStart(k) == k;
  }

  /** Writing well-formed keywords with commas between them and parsing the
      result gives back the same list. */
  lemma {:induction false} ParseKeywordsJoin(ks: seq<string>)
    requires forall i :: 0 <= i < |ks| ==> WellFormedKeyword(ks[i])
    ensures ParseKeywords(Join(ks, [','])) == ks
  {
    var s := Join(ks, [',']);
    if |ks| == 0 {
      assert Split(s, ',') == [""];
      assert CleanPieces([""]) == [];
    } else {
      SplitJoin(ks, ',');
      CleanWellFormed(ks);
      assert ParseKeywords(s) == CleanPieces(Split(s, ','));
    }
  }

  /** Cleaning a list of well-formed keywords changes nothing. */
  lemma {:induction false} CleanWellFormed(ks: seq<string>)
    requires forall i :: 0 <= i < |ks| ==> WellFormedKeyword(ks[i])
    ensures CleanPieces(ks) == ks
  {
    if |ks| > 0 {
      TrimmedIsFixed(ks[0]);
      CleanWellFormed(ks[1..]);
    }
  }

  /** A keyword string made only of commas and white space, such as `" , "`,
      is truthy but parses to the empty list. */
  lemma BlankKeywordsParseToNothing(s: string)
    requires forall i :: 0 <= i < |s| ==> s[i] == ',' || IsSpace(s[i])
    ensures ParseKeywords(s) == []
  {
    var pieces := Split(s, ',');
    forall p | p in pieces ensures Trim(p) == [] {
      forall k | 0 <= k < |p| ensures IsSpace(p[k]) {
        SplitPiecesFromInput(s, ',', p, p[k]);
      }
      TrimEmpty(p);
    }
    CleanBlank(pieces);
    assert ParseKeywords(s) == CleanPieces(pieces);
  }

  /** Cleaning pieces that are all white space leaves nothing. */
  lemma {:induction false} CleanBlank(pieces: seq<string>)
    requires forall p :: p in pieces ==> Trim(p) == []
    ensures CleanPieces(pieces) == []
  {
    if |pieces| > 0 {
      assert pieces[0] in pieces;
      CleanBlank(pieces[1..]);
    }
  }

  /** Every character of a piece of a split occurs in the string. */
  lemma {:induction false} SplitPiecesFromInput(s: string, sep: char, p: string, c: char)
    requires p in Split(s, sep) && c in p
    ensures c in s && c != sep
  {
    if s != [] {
      var rest := Split(s[1..], sep);
      if s[0] == sep {
        assert p in rest;
        SplitPiecesFromInput(s[1..], sep, p, c);
      } else if p == [s[0]] + rest[0] {
        if c != s[0] {
          assert c in rest[0];
          SplitPiecesFromInput(s[1..], sep, rest[0], c);
        }
      } else {
        assert p in rest;
        SplitPiecesFromInput(s[1..], sep, p, c);
      }
    }
  }

  /** The keyword list the handler builds: the parsed string when it is truthy,
      otherwise the industry and the audience. */
  function KeywordList(keywords: Option<string>, industry: string, audience: string): (r: seq<string>)
    ensures Truthy(keywords) ==> forall i :: 0 <= i < |r| ==> WellFormedKeyword(r[i])
    ensures !Truthy(keywords) ==> r == [industry, audience]
  {
    if Truthy(keywords) then ParseKeywords(keywords.value) else [industry, audience]
  }

  /** The business context for a request, or the 400 error when the industry
      or the target audience is missing or empty. */
  function BuildContext(req: GenerateRequest): (r: Result<AiAgent.BusinessContext, GenerateError>)
    ensures r.Failure? <==> !Truthy(req.industry) || !Truthy(req.targetAudience)
    ensures r.Success? ==>
      r.value.industry == req.industry.value && r.value.targetAudience == req.targetAudience.value
    ensures r.Success? ==>
      r.value.keywords == KeywordList(req.keywords, req.industry.value, req.targetAudience.value)
    ensures r.Success? ==> r.value.tone == if Truthy(req.tone) then req.tone.value else DefaultTone
  {
    if !Truthy(req.industry) || !Truthy(req.targetAudience) then
      Failure(MissingRequiredFields)
    else
      var industry, audience := req.industry.value, req.targetAudience.value;
      Success(AiAgent.BusinessContext(
        industry,
        audience,
        KeywordList(req.keywords, industry, audience),
        if Truthy(req.tone) then req.tone.value else DefaultTone))
  }

  /** The topic the handler writes about: the first topic idea for `ctx`. */
  function FirstTopic(ctx: AiAgent.BusinessContext): AiAgent.BlogTopic
  {
    AiAgent.BlogTopic(ctx.industry + ": " + AiAgent.BaseTopics[0], "Targeted at " + ctx.targetAudience,
                      Take(ctx.keywords, AiAgent.TopicKeywordLimit), AiAgent.TargetLength)
  }

  /** The first topic is about the first base topic, "industry trends and
      innovations", and carries at most three of the context's keywords. */
  lemma FirstTopicShape(ctx: AiAgent.BusinessContext)
    ensures FirstTopic(ctx).title == ctx.industry + ": " + "industry trends and innovations"
    ensures |FirstTopic(ctx).keywords| <= AiAgent.TopicKeywordLimit
  {
  }

  /** A truthy keyword string made only of commas and white space, such as
      `" , "`, leaves the post's topic without keywords, so the Expert
      Recommendations section names "undefined" where a keyword belongs. */
  lemma BlankKeywordsPrintUndefined(req: GenerateRequest)
    requires Truthy(req.industry) && Truthy(req.targetAudience) && Truthy(req.keywords)
    requires forall i :: 0 <= i < |req.keywords.value| ==>
      req.keywords.value[i] == ',' || IsSpace(req.keywords.value[i])
    ensures BuildContext(req).value.keywords == []
    ensures FirstTopic(BuildContext(req).value).keywords == []
    ensures var ctx := BuildContext(req).value;
      AiAgent.ExpertRecommendationsSection(ctx, FirstTopic(ctx))
      == AiAgent.ExpertRecommendationsSection(ctx, FirstTopic(ctx).(keywords := ["undefined"]))
  {
    BlankKeywordsParseToNothing(req.keywords.value);
    var ctx := BuildContext(req).value;
    AiAgent.NoKeywordsPrintsUndefined(ctx, FirstTopic(ctx));
  }

  /** The handler. On a missing field it answers with the error and leaves the
      store alone; otherwise it adds exactly one post, a draft about the first
      base topic, whose topic is its title, and returns it. */
  method Generate(store: Store.BlogStore, req: GenerateRequest, id: string, createdAt: Store.Timestamp)
    returns (r: Result<Store.BlogPost, GenerateError>)
    modifies store
    ensures r.Failure? <==> !Truthy(req.industry) || !Truthy(req.targetAudience)
    ensures r.Failure? ==> store.posts == old(store.posts)
    ensures r.Success? ==> store.posts == [r.value] + old(store.posts)
    ensures r.Success? ==>
      var post, ctx := r.value, BuildContext(req).value;
      var blog := AiAgent.GenerateBlogPost(ctx, FirstTopic(ctx));
      post.id == id && post.createdAt == createdAt && post.status == Store.Draft
      && post.title == req.industry.value + ": " + AiAgent.BaseTopics[0]
      && post.topic == post.title
      && post.keywords == Take(ctx.keywords, AiAgent.TopicKeywordLimit)
      && |post.keywords| <= AiAgent.TopicKeywordLimit
      && post.content == blog.content && post.summary == blog.summary
  {
    var built := BuildContext(req);
    if built.Failure? {
      return Failure(built.error);
    }
    var ctx := built.value;
    var topics := AiAgent.GenerateTopicIdeas(ctx, 1);
    var topic := topics[0];
    assert topic == FirstTopic(ctx);
    var blog := AiAgent.GenerateBlogPost(ctx, topic);
    var post := store.AddPost(
      Store.PostFields(blog.title, blog.content, topic.title, Store.Draft, blog.keywords, blog.summary),
      id, createdAt);
    r := Success(post);
  }
}
