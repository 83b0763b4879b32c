/**
 * The `LlmWithConfig` table of backend/llm.py and the two ways the module looks a
 * model up in it.
 */
module LlmRegistry {
  import opened Wrappers
  import opened PyStrings

  /** One member per table row, in declaration order. */
  datatype Llm =
    | Gpt4Vision
    | Gpt4Turbo20240409
    | Gpt4o20240513
    | Gpt4o20240806
    | Gpt4o20241120
    | Claude3Sonnet
    | Claude3Opus
    | Claude3Haiku
    | Claude35Sonnet20240620
    | Claude35Sonnet20241022
    | Claude37Sonnet20250219
    | Gemini20FlashExp
    | Gemini20Flash
    | Gemini20ProExp
    | O120241217

  /**
   * A member's configuration tuple `(model_name, max_tokens, temperature, supports_streaming)`.
   * The temperature is 0.0 for every member but o1, where it is None; only whether it is
   * set is kept.
   */
  datatype ModelSpec = ModelSpec(modelName: string, maxTokens: nat, hasTemperature: bool, supportsStreaming: bool)

  function Spec(m: Llm): (r: ModelSpec) {
    match m
    case Gpt4Vision => ModelSpec("gpt-4-vision-preview", 4096, true, true)
    case Gpt4Turbo20240409 => ModelSpec("gpt-4-turbo-2024-04-09", 4096, true, true)
    case Gpt4o20240513 => ModelSpec("gpt-4o-2024-05-13", 4096, true, true)
    case Gpt4o20240806 => ModelSpec("gpt-4o-2024-08-06", 16384, true, true)
    case Gpt4o20241120 => ModelSpec("gpt-4o-2024-11-20", 16384, true, true)
    case Claude3Sonnet => ModelSpec("claude-3-sonnet-20240229", 8192, true, false)
    case Claude3Opus => ModelSpec("claude-3-opus-20240229", 8192, true, false)
    case Claude3Haiku => ModelSpec("claude-3-haiku-20240307", 8192, true, false)
    case Claude35Sonnet20240620 => ModelSpec("claude-3-5-sonnet-20240620", 8192, true, false)
    case Claude35Sonnet20241022 => ModelSpec("claude-3-5-sonnet-20241022", 8192, true, false)
    case Claude37Sonnet20250219 => ModelSpec("claude-3-7-sonnet-20250219", 20000, true, false)
    case Gemini20FlashExp => ModelSpec("gemini-2.0-flash-exp", 8192, true, false)
    case Gemini20Flash => ModelSpec("gemini-2.0-flash", 8192, true, false)
    case Gemini20ProExp => ModelSpec("gemini-2.0-pro-exp-02-05", 8192, true, false)
    case O120241217 => ModelSpec("o1-2024-12-17", 20000, false, false)
  }

  /** `for llm in LlmWithConfig` visits the members in this order. */
  const Declared: seq<Llm> := [
    Gpt4Vision, Gpt4Turbo20240409, Gpt4o20240513, Gpt4o20240806, Gpt4o20241120,
    Claude3Sonnet, Claude3Opus, Claude3Haiku, Claude35Sonnet20240620, Claude35Sonnet20241022,
    Claude37Sonnet20250219, Gemini20FlashExp, Gemini20Flash, Gemini20ProExp, O120241217
  ]

  /** The fallback both lookups use. */
  const DefaultModel: Llm := Gpt4o20241120

  /** A member's position in declaration order. */
  function Index(m: Llm): (i: nat)
    ensures i < |Declared| && Declared[i] == m
  {
    match m
    case Gpt4Vision => 0
    case Gpt4Turbo20240409 => 1
    case Gpt4o20240513 => 2
    case Gpt4o20240806 => 3
    case Gpt4o20241120 => 4
    case Claude3Sonnet => 5
    case Claude3Opus => 6
    case Claude3Haiku => 7
    case Claude35Sonnet20240620 => 8
    case Claude35Sonnet20241022 => 9
    case Claude37Sonnet20250219 => 10
    case Gemini20FlashExp => 11
    case Gemini20Flash => 12
    case Gemini20ProExp => 13
    case O120241217 => 14
  }

  /** Every member is declared exactly once. */
  lemma IndexOfDeclared(i: nat)
    requires i < |Declared|
    ensures Index(Declared[i]) == i
  {
  }

  /** No two members share a model name. */
  lemma NamesDistinct(m: Llm, m': Llm)
    requires Spec(m).modelName == Spec(m').modelName
    ensures m == m'
  {
  }

  // ---------------------------------------------------------------- exact lookup

  /** The first member of `models` whose model name is `name`. */
  function FindByName(models: seq<Llm>, name: string): (r: Option<nat>)
    ensures r.Some? ==> r.value < |models| && Spec(models[r.value]).modelName == name
    ensures r.Some? ==> forall j :: 0 <= j < r.value ==> Spec(models[j]).modelName != name
    ensures r.None? <==> forall j :: 0 <= j < |models| ==> Spec(models[j]).modelName != name
    decreases |models|
  {
    if |models| == 0 then None
    else if Spec(models[0]).modelName == name then Some(0)
    else
      match FindByName(models[1..], name)
      case None => None
      case Some(i) => Some(i + 1)
  }

  /**
   * What `legacy_stream_openai_response` receives as its model: an `LlmWithConfig`
   * member, another object with a string `.value` (a string enum), or anything else,
   * which it turns into a name with `str(model)`.
   */
  datatype ModelArg = TableMember(member: Llm) | ValueObject(value: string) | Plain(text: string)

  /**
   * The name compared against the table: `model.value` when the argument has one,
   * `str(model)` otherwise. A table member's `.value` is its 4-tuple, which equals no
   * model name, so it yields no name at all.
   */
  function LegacyName(arg: ModelArg): (r: Option<string>) {
    match arg
    case TableMember(_) => None
    case ValueObject(v) => Some(v)
    case Plain(s) => Some(s)
  }

  /** The model `legacy_stream_openai_response` streams with. */
  function LegacyLookup(arg: ModelArg): (r: Llm)
    ensures r == DefaultModel || LegacyName(arg) == Some(Spec(r).modelName)
  {
    match LegacyName(arg)
    case None => DefaultModel
    case Some(name) =>
      match FindByName(Declared, name)
      case None => DefaultModel
      case Some(i) =>
      IndexOfDeclared(i);
      Declared[i]
  }

  /**
   * A name in the table selects the member that carries it; any other name falls back.
   * This holds for every argument that has a name: a plain string and an object's `.value` alike.
   */
  lemma LegacyLookupByName(arg: ModelArg, name: string)
    requires LegacyName(arg) == Some(name)
    ensures forall m :: Spec(m).modelName == name ==> LegacyLookup(arg) == m
    ensures (forall m :: Spec(m).modelName != name) ==> LegacyLookup(arg) == DefaultModel
  {
    forall m | Spec(m).modelName == name ensures LegacyLookup(arg) == m {
      assert Spec(Declared[Index(m)]).modelName == name;
      var i := FindByName(Declared, name).value;
      NamesDistinct(Declared[i], m);
    }
    if forall m :: Spec(m).modelName != name {
      assert forall j :: 0 <= j < |Declared| ==> Spec(Declared[j]).modelName != name;
    }
  }

  /** Passing a table member itself never matches: the legacy path always uses the default. */
  lemma LegacyLookupOfMember(m: Llm)
    ensures LegacyLookup(TableMember(m)) == DefaultModel
  {
  }

  // ---------------------------------------------------------------- exact-or-substring lookup

  /** `model.model_name == query or query in model.model_name`, on the name alone. */
  predicate NameMatches(name: string, query: string) {
    name == query || Contains(name, query)
  }

  predicate MatchesQuery(m: Llm, query: string) {
    NameMatches(Spec(m).modelName, query)
  }

  /** The model names in declaration order. */
  const DeclaredNames: seq<string> := [
    "gpt-4-vision-preview", "gpt-4-turbo-2024-04-09", "gpt-4o-2024-05-13", "gpt-4o-2024-08-06",
    "gpt-4o-2024-11-20", "claude-3-sonnet-20240229", "claude-3-opus-20240229",
    "claude-3-haiku-20240307", "claude-3-5-sonnet-20240620", "claude-3-5-sonnet-20241022",
    "claude-3-7-sonnet-20250219", "gemini-2.0-flash-exp", "gemini-2.0-flash",
    "gemini-2.0-pro-exp-02-05", "o1-2024-12-17"
  ]

  lemma DeclaredName(i: nat)
    requires i < |Declared|
    ensures i < |DeclaredNames| && DeclaredNames[i] == Spec(Declared[i]).modelName
  {
  }

  /** The first position of `names` whose name matches `query`. */
  function FirstMatching(names: seq<string>, query: string): (r: Option<nat>)
    ensures r.Some? ==> r.value < |names| && NameMatches(names[r.value], query)
    ensures r.Some? ==> forall j :: 0 <= j < r.value ==> !NameMatches(names[j], query)
    ensures r.None? <==> forall j :: 0 <= j < |names| ==> !NameMatches(names[j], query)
    decreases |names|
  {
    if |names| == 0 then None
    else if NameMatches(names[0], query) then Some(0)
    else
      match FirstMatching(names[1..], query)
      case None => None
      case Some(i) => Some(i + 1)
  }

  /** A matching position with no match before it is the one the scan finds. */
  lemma FirstMatchingAt(names: seq<string>, query: string, k: nat)
    requires k < |names| && NameMatches(names[k], query)
    requires forall j :: 0 <= j < k ==> !NameMatches(names[j], query)
    ensures FirstMatching(names, query) == Some(k)
  {
    assert FirstMatching(names, query).Some?;
  }

  /** When no declared name matches, no member matches at all. */
  lemma NoMatchAnywhere(query: string)
    requires FirstMatching(DeclaredNames, query).None?
    ensures forall m :: !MatchesQuery(m, query)
  {
    forall m ensures !MatchesQuery(m, query) {
      DeclaredName(Index(m));
    }
  }

  /** The member found at position `i` matches, and no member declared before it does. */
  lemma FirstMatchingMember(query: string, i: nat)
    requires FirstMatching(DeclaredNames, query) == Some(i)
    ensures i < |Declared| && MatchesQuery(Declared[i], query)
    ensures forall j :: 0 <= j < Index(Declared[i]) ==> !MatchesQuery(Declared[j], query)
  {
    DeclaredName(i);
    IndexOfDeclared(i);
    forall j | 0 <= j < i ensures !MatchesQuery(Declared[j], query) {
      DeclaredName(j);
    }
  }

  /** The model `main_llm_processor` selects for a name: the first declared member that matches, else the default. */
  function MainLookup(query: string): (r: Llm)
    ensures MatchesQuery(r, query) ==> forall j :: 0 <= j < Index(r) ==> !MatchesQuery(Declared[j], query)
    ensures !MatchesQuery(r, query) ==> r == DefaultModel && forall m :: !MatchesQuery(m, query)
  {
    match FirstMatching(DeclaredNames, query)
    case None =>
      NoMatchAnywhere(query);
      DefaultModel
    case Some(i) =>
      FirstMatchingMember(query, i);
      Declared[i]
  }

  /**
   * The substring test runs in declaration order, so the exact name of
   * GEMINI_2_0_FLASH selects GEMINI_2_0_FLASH_EXP, whose name contains it and which is
   * declared first.
   */
  lemma MainLookupPrefersEarlierSuperstring()
    ensures MainLookup("gemini-2.0-flash") == Gemini20FlashExp
  {
    var q := "gemini-2.0-flash";
    assert DeclaredNames[11][..|q|] == q;
    assert NameMatches(DeclaredNames[11], q);
    assert 'm' in q;
    forall j | 0 <= j < 11 ensures !NameMatches(DeclaredNames[j], q) {
      var name := DeclaredNames[j];
      if j < 5 { GptNamesLackM(j); } else { ClaudeNamesLackM(j); }
      if Contains(name, q) {
        ContainsChar(name, q, 'm');
      }
    }
    FirstMatchingAt(DeclaredNames, q, 11);
  }

  lemma GptNamesLackM(j: nat)
    requires j < 5
    ensures 'm' !in DeclaredNames[j]
  {
  }

  lemma ClaudeNamesLackM(j: nat)
    requires 5 <= j < 11
    ensures 'm' !in DeclaredNames[j]
  {
  }

  /** An exact name that no earlier member's name contains selects its own member. */
  lemma MainLookupExactName(m: Llm)
    requires forall j :: 0 <= j < Index(m) ==> !MatchesQuery(Declared[j], Spec(m).modelName)
    ensures MainLookup(Spec(m).modelName) == m
  {
    var q := Spec(m).modelName;
    DeclaredName(Index(m));
    forall j | 0 <= j < Index(m) ensures !NameMatches(DeclaredNames[j], q) {
      DeclaredName(j);
      assert !MatchesQuery(Declared[j], q);
    }
    FirstMatchingAt(DeclaredNames, q, Index(m));
  }
}
