/** What `services/geminiService.ts` does with the AI service's responses:
    asterisk removal, the recursive clean-up of parsed JSON, the extraction of
    grounding links, the fallback texts, the normalisation of detection
    results and the choice of analysis prompt. The service calls themselves,
    `JSON.parse` and `crypto.randomUUID` are inputs. */
module GeminiService {
  import opened Wrappers
  import opened Text
  import Seqs

  // ---------------------------------------------------------------------------
  // cleanText
  // ---------------------------------------------------------------------------

  /** `text.replace(/\*\/g, '')`: the text with every asterisk removed. */
  function CleanText(s: string): (r: string)
    ensures '*' !in r
    ensures |r| <= |s|
  {
    if s == [] then []
    else (if s[0] == '*' then [] else [s[0]]) + CleanText(s[1..])
  }

  /** Only asterisks go, all of them, and the other characters keep their order. */
  lemma {:induction false} CleanTextRemovesOnlyStars(s: string)
    ensures multiset(CleanText(s)) == multiset(s)['*' := 0]
    ensures Seqs.IsSubsequence(CleanText(s), s)
  {
    if s != [] {
      var c, t := s[0], s[1..];
      CleanTextRemovesOnlyStars(t);
      assert s == [c] + t;
      assert multiset(s) == multiset{c} + multiset(t);
      if c == '*' {
        assert multiset(s)['*' := 0] == multiset(t)['*' := 0];
        assert CleanText(s) == CleanText(t);
      } else {
        assert CleanText(s) == [c] + CleanText(t);
        assert CleanText(s)[1..] == CleanText(t);
        assert multiset(CleanText(s)) == multiset{c} + multiset(CleanText(t));
      }
    }
  }

  /** Text without asterisks comes back unchanged. */
  lemma {:induction false} CleanTextStarFree(s: string)
    requires '*' !in s
    ensures CleanText(s) == s
  {
    if s != [] {
      assert '*' !in s[1..] by { assert forall c :: c in s[1..] ==> c in s; }
      CleanTextStarFree(s[1..]);
    }
  }

  /** Cleaning twice is cleaning once. */
  lemma CleanTextIdempotent(s: string)
    ensures CleanText(CleanText(s)) == CleanText(s)
  {
    CleanTextStarFree(CleanText(s));
  }

  /** Cleaning works piecewise: text split anywhere cleans to the cleaned pieces. */
  lemma {:induction false} CleanTextAppend(a: string, b: string)
    ensures CleanText(a + b) == CleanText(a) + CleanText(b)
  {
    if a == [] {
      assert a + b == b;
    } else {
      var head := if a[0] == '*' then [] else [a[0]];
      assert (a + b)[0] == a[0] && (a + b)[1..] == a[1..] + b;
      CleanTextAppend(a[1..], b);
      calc {
        CleanText(a + b);
        head + CleanText(a[1..] + b);
        head + (CleanText(a[1..]) + CleanText(b));
        (head + CleanText(a[1..])) + CleanText(b);
        CleanText(a) + CleanText(b);
      }
    }
  }

  // ---------------------------------------------------------------------------
  // cleanObjectStrings over parsed JSON
  // ---------------------------------------------------------------------------

  /** A value as `JSON.parse` returns it; an object is its map of own keys. */
  datatype Json =
    | JNull
    | JBool(b: bool)
    | JNum(n: real)
    | JStr(s: string)
    | JArr(items: seq<Json>)
    | JObj(fields: map<string, Json>)

  /** No string anywhere inside `v` holds an asterisk (keys are not strings
      inside the value). */
  predicate StarFree(v: Json) {
    match v
    case JStr(s) => '*' !in s
    case JArr(a) => forall i :: 0 <= i < |a| ==> StarFree(a[i])
    case JObj(m) => forall k :: k in m ==> StarFree(m[k])
    case _ => true
  }

  /** The key whose assignment `cleaned[key] = ...` sets the new object's
      prototype instead of creating an own property. */
  const ProtoKey: string := "__proto__"

  /** No object anywhere inside `v` has an own `__proto__` key. */
  predicate NoProtoKey(v: Json) {
    match v
    case JArr(a) => forall i :: 0 <= i < |a| ==> NoProtoKey(a[i])
    case JObj(m) => ProtoKey !in m && forall k :: k in m ==> NoProtoKey(m[k])
    case _ => true
  }

  /** `v` and `w` have the same structure: arrays of equal length with
      elementwise equal shape, objects with the same keys but `__proto__`,
      strings against strings, and equal scalars. */
  predicate SameShape(v: Json, w: Json) {
    match v
    case JStr(_) => w.JStr?
    case JArr(a) =>
      w.JArr? && |w.items| == |a| && forall i :: 0 <= i < |a| ==> SameShape(a[i], w.items[i])
    case JObj(m) =>
      && w.JObj? && w.fields.Keys == m.Keys - {ProtoKey}
      && forall k :: k in w.fields ==> SameShape(m[k], w.fields[k])
    case _ => w == v
  }

  /** The value `cleanObjectStrings(v)` returns: strings cleaned, arrays
      mapped element by element, objects key by key (a `__proto__` key of
      the parsed object leaves no own key in the copy), anything else as is. */
  function CleanJson(v: Json): (r: Json)
    ensures StarFree(r) && NoProtoKey(r)
    ensures SameShape(v, r)
  {
    match v
    case JStr(s) => JStr(CleanText(s))
    case JArr(a) => JArr(seq(|a|, i requires 0 <= i < |a| => CleanJson(a[i])))
    case JObj(m) => JObj(map k | k in m && k != ProtoKey :: CleanJson(m[k]))
    case _ => v
  }

  /** A value whose strings hold no asterisk and whose objects have no
      `__proto__` key comes back unchanged. */
  lemma {:induction false} CleanJsonStarFree(v: Json)
    requires StarFree(v) && NoProtoKey(v)
    ensures CleanJson(v) == v
  {
    match v
    case JStr(s) => CleanTextStarFree(s);
    case JArr(a) =>
      forall i | 0 <= i < |a| ensures CleanJson(a[i]) == a[i] {
        CleanJsonStarFree(a[i]);
      }
      assert CleanJson(v).items == a;
    case JObj(m) =>
      forall k | k in m ensures CleanJson(m[k]) == m[k] {
        CleanJsonStarFree(m[k]);
      }
      assert CleanJson(v).fields == m;
    case _ =>
  }

  /** A parsed object with a `__proto__` key: the copy has no such key. */
  lemma CleanJsonDropsProtoKey()
    ensures CleanJson(JObj(map[ProtoKey := JStr("a*")])) == JObj(map[])
  {
    assert (map k | k in map[ProtoKey := JStr("a*")] && k != ProtoKey :: JStr("")) == map[];
  }

  /** Applying `cleanObjectStrings` twice equals applying it once. */
  lemma CleanJsonIdempotent(v: Json)
    ensures CleanJson(CleanJson(v)) == CleanJson(v)
  {
    CleanJsonStarFree(CleanJson(v));
  }

  /** `cleanObjectStrings`, as the source runs it: recursion on arrays through
      `map` and on objects through a `for...in` loop that fills a fresh object. */
  method CleanObjectStrings(obj: Json) returns (r: Json)
    ensures r == CleanJson(obj)
    decreases obj
  {
    match obj {
      case JStr(s) =>
        r := JStr(CleanText(s));
      case JArr(a) =>
        var mapped: seq<Json> := [];
        var i := 0;
        while i < |a|
          invariant 0 <= i <= |a|
          invariant |mapped| == i
          invariant forall j :: 0 <= j < i ==> mapped[j] == CleanJson(a[j])
        {
          var item := CleanObjectStrings(a[i]);
          mapped := mapped + [item];
          i := i + 1;
        }
        assert mapped == CleanJson(obj).items;
        r := JArr(mapped);
      case JObj(m) =>
        var cleaned: map<string, Json> := map[];
        var pending := m.Keys;
        while pending != {}
          invariant pending <= m.Keys
          invariant cleaned.Keys == m.Keys - pending - {ProtoKey}
          invariant forall k :: k in cleaned ==> cleaned[k] == CleanJson(m[k])
          decreases pending
        {
          var key :| key in pending;
          var value := CleanObjectStrings(m[key]);
          // Assigning to `__proto__` replaces the prototype; no own key appears.
          if key != ProtoKey {
            cleaned := cleaned[key := value];
          }
          pending := pending - {key};
        }
        assert cleaned == CleanJson(obj).fields;
        r := JObj(cleaned);
      case _ =>
        r := obj;
    }
  }

  // ---------------------------------------------------------------------------
  // Response text and its fallback
  // ---------------------------------------------------------------------------

  /** `response.text || fallback`: an absent or empty text is replaced. */
  function TextOr(text: Option<string>, fallback: string): (r: string)
    ensures r == fallback <==> text == None || text == Some([]) || text == Some(fallback)
    ensures text.Some? && text.value != [] ==> r == text.value
  {
    if text.Some? && text.value != [] then text.value else fallback
  }

  const LocalResourcesFallback: string := "No specific local resources found."
  const PulseFallback: string := "Unable to fetch latest news."
  const IssueSearchFallback: string := "No information found for this query."

  /** The answer text of a grounded query: the cleaned response text, or the
      cleaned fallback message when the response has no text. */
  function AnswerText(text: Option<string>, fallback: string): (r: string)
    ensures '*' !in r
    ensures text == None || text == Some([]) ==> r == CleanText(fallback)
    ensures text.Some? && text.value != [] ==> r == CleanText(text.value)
  {
    CleanText(TextOr(text, fallback))
  }

  /** A fallback message without an asterisk is the answer to a response
      without text. */
  lemma FallbackAnswer(text: Option<string>, fallback: string)
    requires text == None || text == Some([])
    requires '*' !in fallback
    ensures AnswerText(text, fallback) == fallback
  {
    CleanTextStarFree(fallback);
  }

  /** The three fallback messages contain no asterisk. */
  lemma FallbacksStarFree()
    ensures '*' !in LocalResourcesFallback
    ensures '*' !in PulseFallback
    ensures '*' !in IssueSearchFallback
  {
  }

  // ---------------------------------------------------------------------------
  // Grounding links
  // ---------------------------------------------------------------------------

  /** A grounding source: `chunk.maps` or `chunk.web`. */
  datatype Source = Source(title: string, uri: string)
  datatype GroundingChunk = GroundingChunk(web: Option<Source>, maps: Option<Source>)
  datatype GroundingMetadata = GroundingMetadata(groundingChunks: Option<seq<GroundingChunk>>)
  datatype Candidate = Candidate(groundingMetadata: Option<GroundingMetadata>)
  datatype Response = Response(text: Option<string>, candidates: Option<seq<Candidate>>)

  datatype GroundingLink = GroundingLink(title: string, uri: string)
  datatype GroundedAnswer = GroundedAnswer(text: string, links: seq<GroundingLink>)

  /** Which grounding tool a query used: maps for local resources, web search
      for the news pulse and issue search. */
  datatype Tool = Maps | Web

  function SourceOf(chunk: GroundingChunk, tool: Tool): Option<Source> {
    match tool
    case Maps => chunk.maps
    case Web => chunk.web
  }

  /** `response.candidates?.[0]?.groundingMetadata?.groundingChunks` */
  function ChunksOf(response: Response): Option<seq<GroundingChunk>> {
    if response.candidates.None? || response.candidates.value == [] then None
    else
      match response.candidates.value[0].groundingMetadata
      case None => None
      case Some(meta) => meta.groundingChunks
  }

  /** The links of a chunk list: one `{title, uri}` per chunk that has a
      source for the tool, in chunk order. */
  function Links(chunks: seq<GroundingChunk>, tool: Tool): seq<GroundingLink> {
    if chunks == [] then []
    else
      var init := Links(chunks[..|chunks| - 1], tool);
      match SourceOf(chunks[|chunks| - 1], tool)
      case Some(src) => init + [GroundingLink(src.title, src.uri)]
      case None => init
  }

  /** The grounding loop: a `forEach` over the chunks that pushes one link per
      chunk carrying the tool's entry; no chunk list gives no links. */
  method ExtractLinks(chunks: Option<seq<GroundingChunk>>, tool: Tool) returns (links: seq<GroundingLink>)
    ensures chunks == None ==> links == []
    ensures chunks.Some? ==> links == Links(chunks.value, tool)
  {
    links := [];
    if chunks.Some? {
      var cs := chunks.value;
      var i := 0;
      while i < |cs|
        invariant 0 <= i <= |cs|
        invariant links == Links(cs[..i], tool)
      {
        assert cs[..i + 1][..i] == cs[..i];
        match SourceOf(cs[i], tool) {
          case Some(src) => links := links + [GroundingLink(src.title, src.uri)];
          case None =>
        }
        i := i + 1;
      }
      assert cs[..|cs|] == cs;
    }
  }

  /** The links of two chunk lists one after the other are the links of the
      first followed by those of the second. */
  lemma {:induction false} LinksAppend(a: seq<GroundingChunk>, b: seq<GroundingChunk>, tool: Tool)
    ensures Links(a + b, tool) == Links(a, tool) + Links(b, tool)
  {
    if b == [] {
      assert a + b == a;
    } else {
      var b' := b[..|b| - 1];
      assert (a + b)[..|a + b| - 1] == a + b';
      assert (a + b)[|a + b| - 1] == b[|b| - 1];
      LinksAppend(a, b', tool);
    }
  }

  /** A link is produced exactly when some chunk has that source for the tool. */
  lemma {:induction false} LinksMembership(chunks: seq<GroundingChunk>, tool: Tool, link: GroundingLink)
    ensures link in Links(chunks, tool) <==>
      exists i :: 0 <= i < |chunks| && SourceOf(chunks[i], tool) == Some(Source(link.title, link.uri))
  {
    if chunks != [] {
      var init := chunks[..|chunks| - 1];
      LinksMembership(init, tool, link);
      var n := |chunks| - 1;
      if exists i :: 0 <= i < |init| && SourceOf(init[i], tool) == Some(Source(link.title, link.uri)) {
        var i :| 0 <= i < |init| && SourceOf(init[i], tool) == Some(Source(link.title, link.uri));
        assert chunks[i] == init[i];
      }
      if exists i :: 0 <= i < |chunks| && SourceOf(chunks[i], tool) == Some(Source(link.title, link.uri)) {
        var i :| 0 <= i < |chunks| && SourceOf(chunks[i], tool) == Some(Source(link.title, link.uri));
        if i < n { assert init[i] == chunks[i]; }
      }
    }
  }

  /** There are never more links than chunks, and as many exactly when every
      chunk has the tool's entry. */
  lemma {:induction false} LinksCount(chunks: seq<GroundingChunk>, tool: Tool)
    ensures |Links(chunks, tool)| <= |chunks|
    ensures |Links(chunks, tool)| == |chunks| <==> forall i :: 0 <= i < |chunks| ==> SourceOf(chunks[i], tool).Some?
  {
    if chunks != [] {
      var init := chunks[..|chunks| - 1];
      LinksCount(init, tool);
      if forall i :: 0 <= i < |chunks| ==> SourceOf(chunks[i], tool).Some? {
        assert forall i :: 0 <= i < |init| ==> init[i] == chunks[i];
      }
    }
  }

  /** `findLocalEcoResources`: maps links and the local-resources fallback. */
  method FindLocalEcoResources(response: Response) returns (answer: GroundedAnswer)
    ensures answer.text == AnswerText(response.text, LocalResourcesFallback)
    ensures ChunksOf(response) == None ==> answer.links == []
    ensures ChunksOf(response).Some? ==> answer.links == Links(ChunksOf(response).value, Maps)
  {
    var links := ExtractLinks(ChunksOf(response), Maps);
    answer := GroundedAnswer(AnswerText(response.text, LocalResourcesFallback), links);
  }

  /** `getEnvironmentPulse`: web links and the news fallback. */
  method GetEnvironmentPulse(response: Response) returns (answer: GroundedAnswer)
    ensures answer.text == AnswerText(response.text, PulseFallback)
    ensures ChunksOf(response) == None ==> answer.links == []
    ensures ChunksOf(response).Some? ==> answer.links == Links(ChunksOf(response).value, Web)
  {
    var links := ExtractLinks(ChunksOf(response), Web);
    answer := GroundedAnswer(AnswerText(response.text, PulseFallback), links);
  }

  /** `searchEnvironmentalIssue`: web links and the no-information fallback. */
  method SearchEnvironmentalIssue(response: Response) returns (answer: GroundedAnswer)
    ensures answer.text == AnswerText(response.text, IssueSearchFallback)
    ensures ChunksOf(response) == None ==> answer.links == []
    ensures ChunksOf(response).Some? ==> answer.links == Links(ChunksOf(response).value, Web)
  {
    var links := ExtractLinks(ChunksOf(response), Web);
    answer := GroundedAnswer(AnswerText(response.text, IssueSearchFallback), links);
  }

  // ---------------------------------------------------------------------------
  // analyzeEnvironmentMedia
  // ---------------------------------------------------------------------------

  const VideoPrompt: string := "Analyze this video for environmental concerns. Provide deep reasoning for your impact score. Observe the entire clip. Identify the primary issue, its severity, and calculate an 'Impact Score' from 0 to 100 based on ecological damage shown. Provide a structured action plan. Return the response in strict JSON format. DO NOT use markdown formatting like asterisks in your text descriptions."
  const ImagePrompt: string := "Analyze this image for environmental concerns. Provide deep reasoning for your impact score. Identify the primary issue, its severity, and calculate an 'Impact Score' from 0 to 100 based on ecological damage. Provide a structured action plan. Return the response in strict JSON format. DO NOT use markdown formatting like asterisks in your text descriptions."

  /** The analysis prompt for a media type; `mimeType` defaults to `image/jpeg`. */
  function PromptFor(mimeType: Option<string>): (prompt: string)
    ensures prompt == VideoPrompt <==> StartsWith(mimeType.GetOr("image/jpeg"), "video/")
    ensures prompt == ImagePrompt <==> !StartsWith(mimeType.GetOr("image/jpeg"), "video/")
  {
    assert |VideoPrompt| != |ImagePrompt|;
    if StartsWith(mimeType.GetOr("image/jpeg"), "video/") then VideoPrompt else ImagePrompt
  }

  /** What `analyzeEnvironmentMedia` returns for a response: the parse of its
      text (`{}` when there is none) with every string cleaned; `None` when
      `JSON.parse` throws, which reaches the caller as an error. */
  function AnalysisResult(text: Option<string>, parse: string -> Option<Json>): (r: Option<Json>)
    ensures r.None? <==> parse(TextOr(text, "{}")).None?
    ensures r.Some? ==> StarFree(r.value) && SameShape(parse(TextOr(text, "{}")).value, r.value)
  {
    match parse(TextOr(text, "{}"))
    case None => None
    case Some(raw) => Some(CleanJson(raw))
  }

  // ---------------------------------------------------------------------------
  // detectEnvironmentalObjects
  // ---------------------------------------------------------------------------

  /** The own enumerable properties of an array or a string as object spread
      sees them: the decimal index of each element. */
  function IndexFields(items: seq<Json>): (m: map<string, Json>)
    ensures forall i :: 0 <= i < |items| ==> NatToString(i) in m
  {
    if items == [] then map[]
    else IndexFields(items[..|items| - 1])[NatToString(|items| - 1) := items[|items| - 1]]
  }

  /** The properties `{...v}` copies out of `v`: an object's own fields, the
      indices of an array or a string, nothing for a scalar or null. */
  function SpreadFields(v: Json): map<string, Json> {
    match v
    case JObj(m) => m
    case JArr(a) => IndexFields(a)
    case JStr(s) => IndexFields(seq(|s|, i requires 0 <= i < |s| => JStr([s[i]])))
    case _ => map[]
  }

  /** `{ ...obj, id }` */
  function WithId(v: Json, id: string): (r: Json)
    ensures r.JObj? && "id" in r.fields && r.fields["id"] == JStr(id)
    ensures v.JObj? ==> forall k :: k in v.fields && k != "id" ==> k in r.fields && r.fields[k] == v.fields[k]
    ensures v.JObj? ==> r.fields.Keys == v.fields.Keys + {"id"}
  {
    JObj(SpreadFields(v)["id" := JStr(id)])
  }

  /** `detectEnvironmentalObjects`: the parse of the response text (`[]` when
      there is none), each element of an array spread into a fresh object with
      the `i`-th fresh id; anything that is not an array, or a parse failure,
      gives the empty list. */
  function Detections(text: Option<string>, parse: string -> Option<Json>, freshId: nat -> string): (out: seq<Json>)
    ensures forall i :: 0 <= i < |out| ==> out[i].JObj? && "id" in out[i].fields
  {
    match parse(TextOr(text, "[]"))
    case Some(JArr(results)) =>
      var out := seq(|results|, i requires 0 <= i < |results| => WithId(results[i], freshId(i)));
      assert forall i :: 0 <= i < |out| ==> out[i] == WithId(results[i], freshId(i));
      out
    case _ => []
  }

  /** Unparseable or non-array responses give no detections. */
  lemma DetectionsFallback(text: Option<string>, parse: string -> Option<Json>, freshId: nat -> string)
    requires parse(TextOr(text, "[]")).None? || !parse(TextOr(text, "[]")).value.JArr?
    ensures Detections(text, parse, freshId) == []
  {
  }

  /** A parsed array gives one detection per element, in order; each is an
      object with its fresh id that keeps every field of an object element
      (its own `id` is overwritten). */
  lemma DetectionsOfArray(text: Option<string>, parse: string -> Option<Json>, freshId: nat -> string)
    requires parse(TextOr(text, "[]")).Some? && parse(TextOr(text, "[]")).value.JArr?
    ensures var results := parse(TextOr(text, "[]")).value.items;
      var out := Detections(text, parse, freshId);
      && |out| == |results|
      && (forall i :: 0 <= i < |out| ==> out[i].JObj? && out[i].fields["id"] == JStr(freshId(i)))
      && (forall i, k :: 0 <= i < |out| && results[i].JObj? && k in results[i].fields && k != "id" ==>
            k in out[i].fields && out[i].fields[k] == results[i].fields[k])
  {
  }

  /** With a fresh id per element, no two detections share an id. */
  lemma DetectionIdsDistinct(text: Option<string>, parse: string -> Option<Json>, freshId: nat -> string)
    requires forall i, j :: 0 <= i < j ==> freshId(i) != freshId(j)
    ensures var out := Detections(text, parse, freshId);
      forall i, j :: 0 <= i < j < |out| ==> out[i].fields["id"] != out[j].fields["id"]
  {
  }
}
