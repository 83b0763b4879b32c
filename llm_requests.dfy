/**
 * What `UniversalLLMHandler` in backend/llm.py builds before it hands a request to a
 * provider client: the routing by model-name prefix, the OpenAI parameters, the
 * Anthropic message rewrite, the Gemini image extraction, the DeepSeek request, and
 * the per-handler client cache keyed by the API key.
 */
module LlmRequests {
  import opened Wrappers
  import opened PyStrings
  import opened JsonValue
  import opened LlmRegistry

  // ---------------------------------------------------------------- routing

  datatype Provider = OpenAI | Claude | Gemini | DeepSeek

  /** The prefix tests of `setup_and_stream_response`, tried in order. */
  function Route(name: string): (r: Result<Provider, PyError>)
    ensures r == Ok(OpenAI) <==> StartsWith(name, "gpt") || StartsWith(name, "o1")
    ensures r == Ok(Claude) <==>
      !StartsWith(name, "gpt") && !StartsWith(name, "o1") && StartsWith(name, "claude")
    ensures r == Ok(Gemini) <==>
      !StartsWith(name, "gpt") && !StartsWith(name, "o1") && !StartsWith(name, "claude")
      && StartsWith(name, "gemini")
    ensures r == Ok(DeepSeek) <==>
      !StartsWith(name, "gpt") && !StartsWith(name, "o1") && !StartsWith(name, "claude")
      && !StartsWith(name, "gemini") && Contains(name, "deepseek")
    ensures r.Err? ==> r.error == RaisedError("Unknown model type")
  {
    if StartsWith(name, "gpt") || StartsWith(name, "o1") then Ok(OpenAI)
    else if StartsWith(name, "claude") then Ok(Claude)
    else if StartsWith(name, "gemini") then Ok(Gemini)
    else if Contains(name, "deepseek") then Ok(DeepSeek)
    else Err(RaisedError("Unknown model type"))
  }

  /** The provider family of each table member, read off its member name. */
  function Family(m: Llm): (r: Provider) {
    match m
    case Gpt4Vision => OpenAI
    case Gpt4Turbo20240409 => OpenAI
    case Gpt4o20240513 => OpenAI
    case Gpt4o20240806 => OpenAI
    case Gpt4o20241120 => OpenAI
    case Claude3Sonnet => Claude
    case Claude3Opus => Claude
    case Claude3Haiku => Claude
    case Claude35Sonnet20240620 => Claude
    case Claude35Sonnet20241022 => Claude
    case Claude37Sonnet20250219 => Claude
    case Gemini20FlashExp => Gemini
    case Gemini20Flash => Gemini
    case Gemini20ProExp => Gemini
    case O120241217 => OpenAI
  }

  lemma RouteClaudeName(name: string)
    requires StartsWith(name, "claude")
    ensures Route(name) == Ok(Claude)
  {
    assert name[0] == name[..6][0];
    NotStartsWithAt(name, "gpt", 0);
    NotStartsWithAt(name, "o1", 0);
  }

  lemma RouteGeminiName(name: string)
    requires StartsWith(name, "gemini")
    ensures Route(name) == Ok(Gemini)
  {
    assert name[0] == name[..6][0] && name[1] == name[..6][1];
    NotStartsWithAt(name, "gpt", 1);
    NotStartsWithAt(name, "o1", 0);
    NotStartsWithAt(name, "claude", 0);
  }

  /** Every table member routes to its own family; none reaches DeepSeek or the error. */
  lemma RouteOfTable(m: Llm)
    ensures Route(Spec(m).modelName) == Ok(Family(m))
    ensures Family(m) != DeepSeek
  {
    match Family(m)
    case OpenAI => RouteOfOpenAiMember(m);
    case Claude => RouteOfClaudeMember(m);
    case Gemini => RouteOfGeminiMember(m);
  }

  lemma RouteOfOpenAiMember(m: Llm)
    requires Family(m) == OpenAI
    ensures Route(Spec(m).modelName) == Ok(OpenAI)
  {
    var name := Spec(m).modelName;
    if m == O120241217 {
      assert name[..2] == "o1";
    } else {
      assert name[..3] == "gpt";
    }
  }

  lemma RouteOfClaudeMember(m: Llm)
    requires Family(m) == Claude
    ensures Route(Spec(m).modelName) == Ok(Claude)
  {
    var name := Spec(m).modelName;
    assert name[..6] == "claude";
    RouteClaudeName(name);
  }

  lemma RouteOfGeminiMember(m: Llm)
    requires Family(m) == Gemini
    ensures Route(Spec(m).modelName) == Ok(Gemini)
  {
    var name := Spec(m).modelName;
    assert name[..6] == "gemini";
    RouteGeminiName(name);
  }

  /** The prefix tests come first: a `gpt` name that mentions deepseek still goes to OpenAI. */
  lemma RoutePrefixBeforeSubstring()
    ensures Route("gpt-deepseek") == Ok(OpenAI)
  {
    assert "gpt-deepseek"[..3] == "gpt";
  }

  /** A name with none of the prefixes goes to DeepSeek when it mentions deepseek anywhere. */
  lemma RouteDeepSeekAnywhere()
    ensures Route("my-deepseek-model") == Ok(DeepSeek)
  {
    var s := "my-deepseek-model";
    assert s[3..][..8] == "deepseek";
    assert Contains(s[3..], "deepseek");
    assert s[1..][1..] == s[2..] && s[2..][1..] == s[3..];
    NotStartsWithAt(s, "gpt", 0);
    NotStartsWithAt(s, "o1", 0);
    NotStartsWithAt(s, "claude", 0);
    NotStartsWithAt(s, "gemini", 0);
  }

  /** Any other name is the "Unknown model type" error. */
  lemma RouteUnknown()
    ensures Route("llama-3") == Err(RaisedError("Unknown model type"))
  {
    var u := "llama-3";
    assert 'd' !in u;
    if Contains(u, "deepseek") {
      ContainsChar(u, "deepseek", 'd');
    }
    NotStartsWithAt(u, "gpt", 0);
    NotStartsWithAt(u, "o1", 0);
    NotStartsWithAt(u, "claude", 0);
    NotStartsWithAt(u, "gemini", 0);
  }

  // ---------------------------------------------------------------- OpenAI

  const O1Name: string := "o1-2024-12-17"

  /**
   * The `params` dict of `_handle_openai_like`; an absent key is None. The
   * `messages` entry is the handler's message list.
   */
  datatype OpenAIParams = OpenAIParams(
    model: string,
    messages: seq<Json>,
    timeout: int,
    temperature: Option<int>,
    stream: Option<bool>,
    maxTokens: Option<nat>,
    maxCompletionTokens: Option<nat>)

  /** The parameters `_handle_openai_like` assembles for a model name. */
  function OpenAIParamsFor(name: string, messages: seq<Json>): (p: OpenAIParams)
    ensures p.model == name && p.messages == messages && p.timeout == 600
    ensures p.temperature.Some? <==> name != O1Name
    ensures p.stream.Some? <==> name != O1Name
    ensures p.temperature.Some? ==> p.temperature.value == 0 && p.stream == Some(true)
    ensures p.maxTokens ==
      if name == "gpt-4o-2024-05-13" then Some(4096)
      else if name == "gpt-4o-2024-11-20" then Some(16384)
      else None
    ensures p.maxCompletionTokens == if name == O1Name then Some(20000) else None
    ensures p.maxTokens.None? || p.maxCompletionTokens.None?
  {
    var sampled := name != O1Name;
    OpenAIParams(
      name, messages, 600,
      if sampled then Some(0) else None,
      if sampled then Some(true) else None,
      if name == "gpt-4o-2024-05-13" then Some(4096)
      else if name == "gpt-4o-2024-11-20" then Some(16384)
      else None,
      if name == "gpt-4o-2024-05-13" || name == "gpt-4o-2024-11-20" then None
      else if name == O1Name then Some(20000)
      else None)
  }

  /** The parameters as the dict the source builds, keys in the order it inserts them. */
  function OpenAIParamsDict(p: OpenAIParams): (r: Fields) {
    [("model", JStr(p.model)), ("messages", JList(p.messages)), ("timeout", JInt(p.timeout))]
    + (if p.temperature.Some? then [("temperature", JInt(p.temperature.value))] else [])
    + (if p.stream.Some? then [("stream", JBool(p.stream.value))] else [])
    + (if p.maxTokens.Some? then [("max_tokens", JInt(p.maxTokens.value))] else [])
    + (if p.maxCompletionTokens.Some? then [("max_completion_tokens", JInt(p.maxCompletionTokens.value))] else [])
  }

  /**
   * For the table's OpenAI members the hardcoded parameters agree with the table
   * wherever they are set: a token field carries the member's max_tokens, temperature
   * is sent exactly when the member has one, and so is stream when it supports it.
   */
  lemma OpenAIParamsFollowTable(m: Llm, messages: seq<Json>)
    requires Family(m) == OpenAI
    ensures var p := OpenAIParamsFor(Spec(m).modelName, messages);
      (p.temperature.Some? <==> Spec(m).hasTemperature)
      && (p.stream.Some? <==> Spec(m).supportsStreaming)
      && (p.maxTokens.Some? ==> p.maxTokens.value == Spec(m).maxTokens)
      && (p.maxCompletionTokens.Some? ==> p.maxCompletionTokens.value == Spec(m).maxTokens)
  {
  }

  /** Three OpenAI members get no token limit at all, although the table gives them one. */
  lemma OpenAIParamsWithoutTokenField(m: Llm, messages: seq<Json>)
    requires m == Gpt4Vision || m == Gpt4Turbo20240409 || m == Gpt4o20240806
    ensures var p := OpenAIParamsFor(Spec(m).modelName, messages);
      p.maxTokens.None? && p.maxCompletionTokens.None? && Spec(m).maxTokens > 0
  {
  }

  // ---------------------------------------------------------------- Anthropic

  /** `max_tokens` of `_handle_claude_like`. */
  function ClaudeMaxTokens(name: string): (r: nat)
    ensures r == 20000 || r == 8192
    ensures r == 20000 <==> name == "claude-3-7-sonnet-20250219"
  {
    if name == "claude-3-7-sonnet-20250219" then 20000 else 8192
  }

  /** For the table's Claude members the hardcoded limit is the table's. */
  lemma ClaudeMaxTokensFollowTable(m: Llm)
    requires Family(m) == Claude
    ensures ClaudeMaxTokens(Spec(m).modelName) == Spec(m).maxTokens
  {
  }

  /**
   * `process_image`, which is not part of this model: from an image URL to
   * `(media_type, base64_data)`, or the exception it raises.
   */
  type ImageProcessor = Json -> Result<(string, string), PyError>

  /** `part["image_url"]["url"]` */
  function ImageUrlOf(part: Json): (r: Result<Json, PyError>) {
    var holder :- Subscript(part, "image_url");
    Subscript(holder, "url")
  }

  predicate IsImagePart(part: Json) {
    Subscript(part, "type") == Ok(JStr("image_url"))
  }

  /** The block that replaces an image URL. */
  function ClaudeSource(mediaType: string, data: string): (r: Json) {
    JObj([("type", JStr("base64")), ("media_type", JStr(mediaType)), ("data", JStr(data))])
  }

  /** The rewrite of one content part in `_handle_claude_like`. */
  function ClaudePart(processImage: ImageProcessor, part: Json): (r: Result<Json, PyError>)
    ensures Subscript(part, "type").Err? ==> r == Err(Subscript(part, "type").error)
    ensures Subscript(part, "type").Ok? && !IsImagePart(part) ==> r == Ok(part)
    ensures IsImagePart(part) ==>
      (r.Ok? <==> ImageUrlOf(part).Ok? && processImage(ImageUrlOf(part).value).Ok?)
  {
    var kind :- Subscript(part, "type");
    if kind == JStr("image_url") then
      var retyped := Put(part.fields, "type", JStr("image"));
      var url :- ImageUrlOf(part);
      var image :- processImage(url);
      var stripped := Remove(retyped, "image_url");
      Ok(JObj(Put(stripped, "source", ClaudeSource(image.0, image.1))))
    else
      Ok(part)
  }

  /**
   * A converted image part is typed "image", carries the processed image as its
   * `source` block, has lost its `image_url` key, and keeps every other key.
   */
  lemma ClaudePartImage(processImage: ImageProcessor, part: Json)
    requires IsImagePart(part) && ClaudePart(processImage, part).Ok?
    ensures var r := ClaudePart(processImage, part).value;
      var image := processImage(ImageUrlOf(part).value).value;
      r.JObj?
      && Get(r.fields, "type") == Some(JStr("image"))
      && Get(r.fields, "source") == Some(ClaudeSource(image.0, image.1))
      && (DistinctKeys(part.fields) ==> !HasKey(r.fields, "image_url") && DistinctKeys(r.fields))
      && forall k :: k != "type" && k != "image_url" && k != "source" ==> Get(r.fields, k) == Get(part.fields, k)
  {
    var retyped := Put(part.fields, "type", JStr("image"));
    var image := processImage(ImageUrlOf(part).value).value;
    var stripped := Remove(retyped, "image_url");
    assert ClaudePart(processImage, part).value == JObj(Put(stripped, "source", ClaudeSource(image.0, image.1)));
  }

  function ClaudePartStep(processImage: ImageProcessor): Json -> Result<Json, PyError> {
    part => ClaudePart(processImage, part)
  }

  /** One turn: a list content has each part rewritten; any other content is kept. */
  function ClaudeTurn(processImage: ImageProcessor, message: Json): (r: Result<Json, PyError>)
    ensures Subscript(message, "content").Err? ==> r == Err(Subscript(message, "content").error)
    ensures Subscript(message, "content").Ok? && !Subscript(message, "content").value.JList? ==> r == Ok(message)
    ensures Subscript(message, "content").Ok? && Subscript(message, "content").value.JList? ==>
      var parts := Subscript(message, "content").value.items;
      (r.Ok? <==> forall i :: 0 <= i < |parts| ==> ClaudePart(processImage, parts[i]).Ok?)
      && (r.Ok? ==>
            r.value.JObj?
            && (forall k :: k != "content" ==> Get(r.value.fields, k) == Get(message.fields, k))
            && exists out :: Get(r.value.fields, "content") == Some(JList(out))
                 && |out| == |parts|
                 && forall i :: 0 <= i < |parts| ==> ClaudePart(processImage, parts[i]) == Ok(out[i]))
  {
    var content :- Subscript(message, "content");
    if content.JList? then
      MapAllSpec(ClaudePartStep(processImage), content.items);
      var out :- MapAll(ClaudePartStep(processImage), content.items);
      Ok(JObj(Put(message.fields, "content", JList(out))))
    else
      Ok(message)
  }

  function ClaudeTurnStep(processImage: ImageProcessor): Json -> Result<Json, PyError> {
    message => ClaudeTurn(processImage, message)
  }

  /** The `ValueError` for element `#i` of a sequence given to `dict` when it holds `n` items. */
  function PairLengthError(i: nat, n: nat): (r: PyError) {
    ValueError("dictionary update sequence element #" + NatToString(i) + " has length " + NatToString(n)
               + "; 2 is required")
  }

  /**
   * The key and the value `dict` takes from element `#i` of a sequence: the element is
   * iterated (a string gives its characters, a dict its keys) and must give exactly two items.
   */
  function DictPair(i: nat, e: Json): (r: Result<(Json, Json), PyError>)
    ensures r.Ok? <==> (e.JList? && |e.items| == 2) || (e.JStr? && |e.s| == 2) || (e.JObj? && |e.fields| == 2)
    ensures e.JList? && r.Ok? ==> r.value == (e.items[0], e.items[1])
    ensures (e.JList? || e.JStr? || e.JObj?) && r.Err? ==> r.error.ValueError?
    ensures (e.JNull? || e.JBool? || e.JInt?) ==>
      r == Err(TypeError("cannot convert dictionary update sequence element #" + NatToString(i) + " to a sequence"))
  {
    match e
    case JList(items) => if |items| == 2 then Ok((items[0], items[1])) else Err(PairLengthError(i, |items|))
    case JStr(s) => if |s| == 2 then Ok((JStr([s[0]]), JStr([s[1]]))) else Err(PairLengthError(i, |s|))
    case JObj(f) => if |f| == 2 then Ok((JStr(f[0].0), JStr(f[1].0))) else Err(PairLengthError(i, |f|))
    case _ => Err(TypeError("cannot convert dictionary update sequence element #" + NatToString(i) + " to a sequence"))
  }

  /** The key of a pair: a string; a list or a dict is unhashable. */
  function DictKey(k: Json): (r: Result<string, PyError>)
    ensures r.Ok? <==> k.JStr?
    ensures r.Ok? ==> r.value == k.s
    ensures k.JList? ==> r == Err(TypeError("unhashable type: 'list'"))
    ensures k.JObj? ==> r == Err(TypeError("unhashable type: 'dict'"))
  {
    match k
    case JStr(s) => Ok(s)
    case JList(_) => Err(TypeError("unhashable type: 'list'"))
    case JObj(_) => Err(TypeError("unhashable type: 'dict'"))
    case _ => Err(TypeError("dict key is not a string"))
  }

  /** `dict(items)` from element `i` on, added to `acc`: a later pair overwrites an earlier one's value. */
  function DictFromSeq(items: seq<Json>, i: nat, acc: Fields): (r: Result<Fields, PyError>)
    requires i <= |items|
    ensures r.Ok? && DistinctKeys(acc) ==> DistinctKeys(r.value)
    ensures r.Ok? ==> |r.value| <= |acc| + |items| - i
    decreases |items| - i
  {
    if i == |items| then Ok(acc)
    else
      var pair :- DictPair(i, items[i]);
      var key :- DictKey(pair.0);
      DictFromSeq(items, i + 1, Put(acc, key, pair.1))
  }

  /** The characters of `s`, each a one-character string, as iterating a `str` gives them. */
  function Chars(s: string): (r: seq<Json>)
    ensures |r| == |s| && forall k :: 0 <= k < |s| ==> r[k] == JStr([s[k]])
  {
    seq(|s|, k requires 0 <= k < |s| => JStr([s[k]]))
  }

  /**
   * `dict(message)`: a dict is copied; a list or a string is read as a sequence of pairs,
   * so an empty one gives `{}`; anything else is not iterable.
   */
  function ToDict(message: Json): (r: Result<Json, PyError>)
    ensures r.Ok? ==> r.value.JObj? && DistinctKeys(r.value.fields) == (message.JObj? ==> DistinctKeys(message.fields))
    ensures message.JObj? ==> r == Ok(message)
    ensures message.JStr? ==> r == if message.s == "" then Ok(JObj([])) else Err(PairLengthError(0, 1))
    ensures message.JList? && message.items == [] ==> r == Ok(JObj([]))
    ensures message.JNull? || message.JBool? || message.JInt? ==>
      r == Err(TypeError("'" + TypeName(message) + "' object is not iterable"))
  {
    match message
    case JObj(_) => Ok(message)
    case JStr(s) =>
      var fields :- DictFromSeq(Chars(s), 0, []);
      Ok(JObj(fields))
    case JList(items) =>
      var fields :- DictFromSeq(items, 0, []);
      Ok(JObj(fields))
    case _ => Err(TypeError("'" + TypeName(message) + "' object is not iterable"))
  }

  /** Every element is a `[key, value]` list whose key is a string. */
  predicate IsPairList(items: seq<Json>) {
    forall i :: 0 <= i < |items| ==> items[i].JList? && |items[i].items| == 2 && items[i].items[0].JStr?
  }

  /** No two pairs share a key. */
  predicate DistinctPairKeys(items: seq<Json>)
    requires IsPairList(items)
  {
    forall i, j :: 0 <= i < j < |items| ==> items[i].items[0] != items[j].items[0]
  }

  /** The entries a list of `[key, value]` pairs names, in order. */
  function PairEntries(items: seq<Json>): (r: Fields)
    requires IsPairList(items)
    ensures |r| == |items|
    ensures forall i :: 0 <= i < |items| ==> r[i] == (items[i].items[0].s, items[i].items[1])
  {
    seq(|items|, i requires 0 <= i < |items| => (items[i].items[0].s, items[i].items[1]))
  }

  /**
   * A turn given as an empty string or an empty list becomes `{}`, whose rewrite then
   * fails on the missing `content`; a nonempty string already fails in `dict`.
   */
  lemma EmptyTurnLacksContent(processImage: ImageProcessor, message: Json)
    requires message == JStr("") || message == JList([])
    ensures ToDict(message) == Ok(JObj([]))
    ensures ClaudeTurn(processImage, ToDict(message).value) == Err(KeyError("content"))
  {
  }

  /** A list of `[key, value]` pairs with distinct string keys becomes exactly the dict of those entries. */
  lemma ToDictPairs(items: seq<Json>)
    requires IsPairList(items) && DistinctPairKeys(items)
    ensures ToDict(JList(items)) == Ok(JObj(PairEntries(items)))
  {
    var entries := PairEntries(items);
    forall k | 0 <= k < |items| ensures items[k] == JList([JStr(entries[k].0), entries[k].1]) {
      assert items[k].items == [items[k].items[0], items[k].items[1]];
    }
    DictFromSeqEntries(items, entries, 0);
    assert entries[..0] == [];
  }

  /** From pair `i` on, the dict built from the first `i` entries grows into all of them. */
  lemma {:induction false} DictFromSeqEntries(items: seq<Json>, entries: Fields, i: nat)
    requires |entries| == |items| && i <= |items| && DistinctKeys(entries)
    requires forall k :: 0 <= k < |items| ==> items[k] == JList([JStr(entries[k].0), entries[k].1])
    ensures DictFromSeq(items, i, entries[..i]) == Ok(entries)
    decreases |items| - i
  {
    if i == |items| {
      assert entries[..i] == entries;
    } else {
      TakeNewKey(entries, i);
      DictFromSeqNewPair(items, i, entries[..i], entries[i].0, entries[i].1);
      DictFromSeqEntries(items, entries, i + 1);
    }
  }

  /** A `[key, value]` pair whose key is new is appended to the dict built so far. */
  lemma DictFromSeqNewPair(items: seq<Json>, i: nat, acc: Fields, key: string, value: Json)
    requires i < |items| && items[i] == JList([JStr(key), value])
    requires !HasKey(acc, key)
    ensures DictFromSeq(items, i, acc) == DictFromSeq(items, i + 1, acc + [(key, value)])
  {
  }

  /** The provider calls the handlers would make; the streaming itself is not modelled. */
  datatype ProviderRequest =
    | OpenAICall(params: OpenAIParams)
    | ClaudeCall(modelName: string, turns: seq<Json>, system: Json, maxTokens: nat)
    | GeminiCall(messages: seq<Json>, images: seq<Json>)
    | DeepSeekCall(authorization: string, contentType: string, model: string, messages: seq<Json>, stream: bool, url: Json)

  /**
   * `_handle_claude_like` up to the provider call: the first message's content is the
   * system prompt and the rest, copied into dicts and rewritten, are the turns.
   */
  function ClaudeTranslate(processImage: ImageProcessor, name: string, messages: seq<Json>)
    : (r: Result<ProviderRequest, PyError>)
    ensures |messages| == 0 ==> r == Err(IndexError)
    ensures r.Ok? ==>
      |messages| > 0 && messages[0].JObj? && r.value.ClaudeCall?
      && r.value == ClaudeCall(name, r.value.turns, Get(messages[0].fields, "content").GetOr(JNull), ClaudeMaxTokens(name))
  {
    if |messages| == 0 then Err(IndexError)
    else
      var system :- DictGet(messages[0], "content");
      var dicts :- MapAll(ToDict, messages[1..]);
      var turns :- MapAll(ClaudeTurnStep(processImage), dicts);
      Ok(ClaudeCall(name, turns, system, ClaudeMaxTokens(name)))
  }

  /**
   * What the translation promises: the system prompt is the first message's content
   * whatever its role, the turns are the remaining messages in order, each copied by
   * `dict` and rewritten by `ClaudeTurn`, and the limit depends on the name only.
   */
  lemma ClaudeTranslateShape(processImage: ImageProcessor, name: string, messages: seq<Json>)
    ensures |messages| == 0 ==> ClaudeTranslate(processImage, name, messages) == Err(IndexError)
    ensures ClaudeTranslate(processImage, name, messages).Ok? ==>
      var c := ClaudeTranslate(processImage, name, messages).value;
      |messages| > 0
      && DictGet(messages[0], "content") == Ok(c.system)
      && |c.turns| == |messages| - 1
      && c.maxTokens == ClaudeMaxTokens(name)
      && forall i :: 1 <= i < |messages| ==>
           ToDict(messages[i]).Ok? && ClaudeTurn(processImage, ToDict(messages[i]).value) == Ok(c.turns[i - 1])
    ensures |messages| > 0 && DictGet(messages[0], "content").Ok?
      && (forall i :: 1 <= i < |messages| ==> messages[i].JObj? && ClaudeTurn(processImage, messages[i]).Ok?)
      ==> ClaudeTranslate(processImage, name, messages).Ok?
  {
    if |messages| > 0 && DictGet(messages[0], "content").Ok? {
      var rest := messages[1..];
      assert forall i :: 1 <= i < |messages| ==> messages[i] == rest[i - 1];
      var dicts := MapAll(ToDict, rest);
      MapAllSpec(ToDict, rest);
      if dicts.Ok? {
        MapAllSpec(ClaudeTurnStep(processImage), dicts.value);
      }
    }
  }

  /** After the rewrite no part of any turn is still an `image_url` part. */
  lemma ClaudeTurnsHaveNoImageUrl(processImage: ImageProcessor, name: string, messages: seq<Json>, i: nat, j: nat)
    requires ClaudeTranslate(processImage, name, messages).Ok?
    requires i < |ClaudeTranslate(processImage, name, messages).value.turns|
    requires Subscript(ClaudeTranslate(processImage, name, messages).value.turns[i], "content").Ok?
    requires Subscript(ClaudeTranslate(processImage, name, messages).value.turns[i], "content").value.JList?
    requires j < |Subscript(ClaudeTranslate(processImage, name, messages).value.turns[i], "content").value.items|
    ensures !IsImagePart(Subscript(ClaudeTranslate(processImage, name, messages).value.turns[i], "content").value.items[j])
  {
    ClaudeTranslateShape(processImage, name, messages);
    var turn := ClaudeTranslate(processImage, name, messages).value.turns[i];
    assert ClaudeTurn(processImage, ToDict(messages[i + 1]).value) == Ok(turn);
    ClaudeTurnHasNoImageUrl(processImage, ToDict(messages[i + 1]).value, turn, j);
  }

  /** No part of one rewritten turn is still an `image_url` part. */
  lemma ClaudeTurnHasNoImageUrl(processImage: ImageProcessor, message: Json, turn: Json, j: nat)
    requires ClaudeTurn(processImage, message) == Ok(turn)
    requires Subscript(turn, "content").Ok? && Subscript(turn, "content").value.JList?
    requires j < |Subscript(turn, "content").value.items|
    ensures !IsImagePart(Subscript(turn, "content").value.items[j])
  {
    var items := Subscript(turn, "content").value.items;
    var content := Subscript(message, "content");
    if content.Ok? && content.value.JList? {
      var parts := content.value.items;
      var out :| Get(turn.fields, "content") == Some(JList(out))
        && |out| == |parts| && forall k :: 0 <= k < |parts| ==> ClaudePart(processImage, parts[k]) == Ok(out[k]);
      assert items == out;
      ClaudePartNotImage(processImage, parts[j]);
    }
  }

  /** A rewritten part is never an `image_url` part. */
  lemma ClaudePartNotImage(processImage: ImageProcessor, part: Json)
    requires ClaudePart(processImage, part).Ok?
    ensures !IsImagePart(ClaudePart(processImage, part).value)
  {
    if IsImagePart(part) {
      ClaudePartImage(processImage, part);
    }
  }

  /** The inner loop of `_handle_claude_like` over one message's content parts. */
  method RewriteParts(processImage: ImageProcessor, parts: seq<Json>) returns (r: Result<seq<Json>, PyError>)
    ensures r == MapAll(ClaudePartStep(processImage), parts)
  {
    var step := ClaudePartStep(processImage);
    var out: seq<Json> := [];
    var j := 0;
    assert parts[..0] == [];
    while j < |parts|
      invariant 0 <= j <= |parts|
      invariant MapAll(step, parts[..j]) == Ok(out)
    {
      var converted := step(parts[j]);
      MapAllStep(step, parts, j, out);
      if converted.Err? {
        return Err(converted.error);
      }
      out := out + [converted.value];
      j := j + 1;
    }
    MapAllDone(step, parts, out);
    return Ok(out);
  }

  /** One pass of the outer loop: the message with its list content rewritten. */
  method RewriteTurn(processImage: ImageProcessor, message: Json) returns (r: Result<Json, PyError>)
    ensures r == ClaudeTurn(processImage, message)
  {
    var content := Subscript(message, "content");
    if content.Err? {
      return Err(content.error);
    }
    if content.value.JList? {
      var out := RewriteParts(processImage, content.value.items);
      if out.Err? {
        return Err(out.error);
      }
      return Ok(JObj(Put(message.fields, "content", JList(out.value))));
    }
    return Ok(message);
  }

  /**
   * The loops of `_handle_claude_like` over the copied messages. Values are immutable,
   * so working on the copy cannot change the caller's messages.
   */
  method TranslateForClaude(processImage: ImageProcessor, name: string, messages: seq<Json>)
    returns (r: Result<ProviderRequest, PyError>)
    ensures r == ClaudeTranslate(processImage, name, messages)
  {
    var maxTokens := ClaudeMaxTokens(name);
    if |messages| == 0 {
      return Err(IndexError);
    }
    var system := DictGet(messages[0], "content");
    if system.Err? {
      return Err(system.error);
    }
    var rest := messages[1..];
    var dicts: seq<Json> := [];
    var i := 0;
    assert rest[..0] == [];
    while i < |rest|
      invariant 0 <= i <= |rest|
      invariant MapAll(ToDict, rest[..i]) == Ok(dicts)
    {
      var d := ToDict(rest[i]);
      MapAllStep(ToDict, rest, i, dicts);
      if d.Err? {
        return Err(d.error);
      }
      dicts := dicts + [d.value];
      i := i + 1;
    }
    MapAllDone(ToDict, rest, dicts);
    var step := ClaudeTurnStep(processImage);
    var turns: seq<Json> := [];
    i := 0;
    assert dicts[..0] == [];
    while i < |dicts|
      invariant 0 <= i <= |dicts|
      invariant MapAll(step, dicts[..i]) == Ok(turns)
    {
      var turn := RewriteTurn(processImage, dicts[i]);
      assert turn == step(dicts[i]);
      MapAllStep(step, dicts, i, turns);
      if turn.Err? {
        return Err(turn.error);
      }
      turns := turns + [turn.value];
      i := i + 1;
    }
    MapAllDone(step, dicts, turns);
    return Ok(ClaudeCall(name, turns, system.value, maxTokens));
  }

  // ---------------------------------------------------------------- Gemini and data URLs

  /**
   * `url.split(";")[0].split(":")[1]` and `url.split(",")[1]`, each failing with
   * IndexError when the separator is missing.
   */
  function DataUrlParts(url: string): (r: Result<(string, string), PyError>)
    ensures r.Err? ==> r.error == IndexError
  {
    var colonPieces := Split(Split(url, ';')[0], ':');
    var commaPieces := Split(url, ',');
    if |colonPieces| < 2 then Err(IndexError)
    else if |commaPieces| < 2 then Err(IndexError)
    else Ok((colonPieces[1], commaPieces[1]))
  }

  /**
   * A data URL `data:<mime>;<params>,<payload>` yields the media type and the payload up
   * to any further comma.
   */
  lemma DataUrlPartsOf(mime: string, params: string, payload: string)
    requires ';' !in mime && ':' !in mime && ',' !in mime && ',' !in params
    ensures DataUrlParts("data:" + mime + ";" + params + "," + payload) == Ok((mime, Split(payload, ',')[0]))
  {
    var url := "data:" + mime + ";" + params + "," + payload;
    var head := "data:" + mime;
    assert ';' !in "data:" && ',' !in "data:" && ',' !in ";" && ':' !in "data";
    assert url == head + [';'] + (params + "," + payload);
    SplitAt(head, ';', params + "," + payload);
    assert head == "data" + [':'] + mime;
    SplitAt("data", ':', mime);
    SplitNone(mime, ':');
    var front := head + ";" + params;
    assert ',' !in front;
    assert url == front + [','] + payload;
    SplitAt(front, ',', payload);
  }

  /** The example URL `data:image/png;base64,abc` gives `image/png` and `abc`. */
  lemma DataUrlExample()
    ensures DataUrlParts("data:" + "image/png" + ";" + "base64" + "," + "abc") == Ok(("image/png", "abc"))
  {
    DataUrlPartsOf("image/png", "base64", "abc");
    SplitNone("abc", ',');
  }

  /** The entry a Gemini image becomes: inline data for a data URL, a URI otherwise. */
  function GeminiImage(url: string): (r: Result<Json, PyError>)
    ensures !StartsWith(url, "data:") ==> r == Ok(JObj([("uri", JStr(url))]))
    ensures StartsWith(url, "data:") ==>
      (r.Ok? <==> DataUrlParts(url).Ok?)
      && (r.Ok? ==> r == Ok(JObj([("mime_type", JStr(DataUrlParts(url).value.0)), ("data", JStr(DataUrlParts(url).value.1))])))
  {
    if StartsWith(url, "data:") then
      var parts :- DataUrlParts(url);
      Ok(JObj([("mime_type", JStr(parts.0)), ("data", JStr(parts.1))]))
    else
      Ok(JObj([("uri", JStr(url))]))
  }

  /** The image entry an `image_url` part yields. */
  function GeminiPartImage(part: Json): (r: Result<Json, PyError>) {
    var url :- ImageUrlOf(part);
    var text :- AsString(url, "startswith");
    GeminiImage(text)
  }

  /** The scan over the last message's parts, which stops at the first `image_url` part. */
  function ScanForImage(parts: seq<Json>): (r: Result<seq<Json>, PyError>)
    ensures r.Ok? ==> |r.value| <= 1
    decreases |parts|
  {
    if |parts| == 0 then Ok([])
    else
      var kind :- Subscript(parts[0], "type");
      if kind == JStr("image_url") then
        var image :- GeminiPartImage(parts[0]);
        Ok([image])
      else
        ScanForImage(parts[1..])
  }

  /** The image list of `_handle_gemini_like`. */
  function GeminiImages(messages: seq<Json>): (r: Result<seq<Json>, PyError>)
    ensures |messages| == 0 ==> r == Err(IndexError)
    ensures r.Ok? ==> |messages| > 0 && messages[|messages| - 1].JObj? && |r.value| <= 1
  {
    if |messages| == 0 then Err(IndexError)
    else
      var content :- Subscript(messages[|messages| - 1], "content");
      var parts :- Iterate(content);
      ScanForImage(parts)
  }

  /**
   * The first `image_url` part decides: the parts before it are only inspected, and the
   * parts after it are never looked at.
   */
  lemma {:induction false} ScanFirstImageWins(parts: seq<Json>, k: nat)
    requires k < |parts| && IsImagePart(parts[k])
    requires forall i :: 0 <= i < k ==> Subscript(parts[i], "type").Ok? && !IsImagePart(parts[i])
    ensures ScanForImage(parts) == (match GeminiPartImage(parts[k]) case Ok(im) => Ok([im]) case Err(e) => Err(e))
    decreases k
  {
    if k > 0 {
      assert forall i :: 0 <= i < k - 1 ==> parts[1..][i] == parts[i + 1];
      ScanFirstImageWins(parts[1..], k - 1);
    }
  }

  /** With no `image_url` part among inspectable parts the list is empty. */
  lemma {:induction false} ScanNoImage(parts: seq<Json>)
    requires forall i :: 0 <= i < |parts| ==> Subscript(parts[i], "type").Ok? && !IsImagePart(parts[i])
    ensures ScanForImage(parts) == Ok([])
    decreases |parts|
  {
    if |parts| > 0 {
      assert forall i :: 0 <= i < |parts| - 1 ==> parts[1..][i] == parts[i + 1];
      ScanNoImage(parts[1..]);
    }
  }

  /** Only the last message is read. */
  lemma GeminiImagesLastOnly(earlier: seq<Json>, last: Json)
    ensures GeminiImages(earlier + [last]) == GeminiImages([last])
  {
    assert (earlier + [last])[|earlier + [last]| - 1] == last;
  }

  // ---------------------------------------------------------------- DeepSeek

  const DeepSeekDefaultUrl: string := "https://api.deepseek.com/v1/chat/completions"

  /**
   * `_handle_deepseek_like`: the bearer header, a fixed model name whatever model was
   * asked for, streaming on, and `base_url or` the default URL.
   */
  function DeepSeekRequest(messages: seq<Json>, apiKey: string, baseUrl: Json): (r: ProviderRequest)
    ensures r.DeepSeekCall?
    ensures r.authorization == "Bearer " + apiKey && r.contentType == "application/json"
    ensures r.model == "deepseek-chat" && r.stream && r.messages == messages
    ensures Truthy(baseUrl) ==> r.url == baseUrl
    ensures !Truthy(baseUrl) ==> r.url == JStr(DeepSeekDefaultUrl)
  {
    DeepSeekCall("Bearer " + apiKey, "application/json", "deepseek-chat", messages, true,
                 if Truthy(baseUrl) then baseUrl else JStr(DeepSeekDefaultUrl))
  }

  // ---------------------------------------------------------------- the request a handler builds

  /** What `setup_and_stream_response` builds for a model before the (stubbed) provider call. */
  function BuildRequest(processImage: ImageProcessor, messages: seq<Json>, apiKey: string, model: ModelSpec, baseUrl: Json)
    : (r: Result<ProviderRequest, PyError>)
    ensures Route(model.modelName).Err? ==> r == Err(RaisedError("Unknown model type"))
    ensures Route(model.modelName) == Ok(OpenAI) ==> r == Ok(OpenAICall(OpenAIParamsFor(model.modelName, messages)))
    ensures Route(model.modelName) == Ok(Claude) ==> r == ClaudeTranslate(processImage, model.modelName, messages)
    ensures Route(model.modelName) == Ok(Gemini) ==>
      (r.Ok? <==> GeminiImages(messages).Ok?)
      && (r.Ok? ==> r.value == GeminiCall(messages, GeminiImages(messages).value))
    ensures Route(model.modelName) == Ok(DeepSeek) ==> r == Ok(DeepSeekRequest(messages, apiKey, baseUrl))
  {
    var provider :- Route(model.modelName);
    match provider
    case OpenAI => Ok(OpenAICall(OpenAIParamsFor(model.modelName, messages)))
    case Claude => ClaudeTranslate(processImage, model.modelName, messages)
    case Gemini =>
      var images :- GeminiImages(messages);
      Ok(GeminiCall(messages, images))
    case DeepSeek => Ok(DeepSeekRequest(messages, apiKey, baseUrl))
  }

  // ---------------------------------------------------------------- the client cache

  /** The opaque SDK clients, recorded by what they were built with. */
  datatype Client = OpenAIClient(key: string, baseUrl: Json) | AnthropicClient(key: string) | GeminiClient(key: string)

  /** `self.clients` after a request was routed: a client is built only for an unseen key. */
  function ClientsAfter(clients: map<string, Client>, route: Result<Provider, PyError>, apiKey: string, baseUrl: Json)
    : (r: map<string, Client>)
    ensures apiKey in clients ==> r == clients
    ensures route.Err? || route == Ok(DeepSeek) ==> r == clients
    ensures apiKey !in clients && route == Ok(OpenAI) ==> r == clients[apiKey := OpenAIClient(apiKey, baseUrl)]
    ensures apiKey !in clients && route == Ok(Claude) ==> r == clients[apiKey := AnthropicClient(apiKey)]
    ensures apiKey !in clients && route == Ok(Gemini) ==> r == clients[apiKey := GeminiClient(apiKey)]
  {
    if apiKey in clients then clients
    else
      match route
      case Ok(OpenAI) => clients[apiKey := OpenAIClient(apiKey, baseUrl)]
      case Ok(Claude) => clients[apiKey := AnthropicClient(apiKey)]
      case Ok(Gemini) => clients[apiKey := GeminiClient(apiKey)]
      case _ => clients
  }

  /** The cache only grows, and an entry, once made, is never replaced. */
  lemma ClientsNeverReplaced(clients: map<string, Client>, route: Result<Provider, PyError>, apiKey: string, baseUrl: Json)
    ensures var r := ClientsAfter(clients, route, apiKey, baseUrl);
      (forall k :: k in clients ==> k in r && r[k] == clients[k])
      && r.Keys <= clients.Keys + {apiKey}
  {
  }

  /**
   * The key alone decides: after an OpenAI request, a Claude request with the same key
   * finds and would use the OpenAI client.
   */
  lemma ClientsSharedAcrossFamilies(clients: map<string, Client>, apiKey: string, baseUrl: Json)
    requires apiKey !in clients
    ensures var first := ClientsAfter(clients, Ok(OpenAI), apiKey, baseUrl);
      ClientsAfter(first, Ok(Claude), apiKey, JNull)[apiKey] == OpenAIClient(apiKey, baseUrl)
  {
  }

  // ---------------------------------------------------------------- completions

  /** `{"duration": …, "code": …}`; durations are whole clock units here. */
  datatype Completion = Completion(duration: int, code: string)

  /** What every `_stream_*_sync` stub returns. */
  const StubCompletion: Completion := Completion(0, "Sync method cannot handle async streaming")
}
