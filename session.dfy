/**
 * The session state machine of app.py: the keys of `st.session_state` the
 * application owns, the seeding done at the start of every run, the button
 * handlers that move between pages or change the keys, and the pre-dispatch
 * step of `main`.
 */
module Session {
  import opened Wrappers
  import opened Text
  import opened Retrieval
  import opened Prompts
  import opened Ideas

  /** The session keys `init_session_state` seeds. */
  datatype Key =
    | PageKey | SpecificationsKey | GenerateNewKey | DomainInputsKey | IdeasKey | MessagesKey
    | ChatHistoryKey | PreviousPromptKey | SelectedIdeaKey | FinalIdeaKey | NavigatingKey

  const AllKeys: set<Key> := {PageKey, SpecificationsKey, GenerateNewKey, DomainInputsKey, IdeasKey,
    MessagesKey, ChatHistoryKey, PreviousPromptKey, SelectedIdeaKey, FinalIdeaKey, NavigatingKey}

  /** The page functions `main` can dispatch to. */
  datatype Page = Home | GetIdea | ReviewIdea | FinalPaper | Explore

  /** The key of each page in `main`'s `pages` dictionary. */
  function PageName(p: Page): string
  {
    match p
    case Home => "home"
    case GetIdea => "get_idea"
    case ReviewIdea => "review_idea"
    case FinalPaper => "final_paper"
    case Explore => "explore"
  }

  const PageNames: set<string> := {"home", "get_idea", "review_idea", "final_paper", "explore"}

  /** `pages.get(name, home_page)`: a known name selects its page, anything else the home page. */
  function PageOf(name: string): (p: Page)
    ensures name in PageNames ==> PageName(p) == name
    ensures name !in PageNames ==> p == Home
  {
    if name == "get_idea" then GetIdea
    else if name == "review_idea" then ReviewIdea
    else if name == "final_paper" then FinalPaper
    else if name == "explore" then Explore
    else Home
  }

  /** Every page is reachable by its own name. */
  lemma PageNameRoundTrip(p: Page)
    ensures PageName(p) in PageNames && PageOf(PageName(p)) == p
  {
  }

  /** The whole state of a session, as one value. */
  datatype View = View(
    keys: set<Key>,
    page: string,
    specifications: string,
    generateNew: bool,
    domainInputs: seq<string>,
    ideas: seq<Idea>,
    messages: seq<ChatMessage>,
    chatHistory: seq<ChatMessage>,
    previousPrompt: string,
    selectedIdea: Option<Idea>,
    finalIdea: Option<FinalIdea>,
    navigatingToFinal: bool,
    suggestions: map<nat, string>)

  /** A value held under one of the seeded keys. */
  datatype Value =
    | Str(string) | Flag(bool) | Strs(seq<string>) | IdeaList(seq<Idea>)
    | MessageList(seq<ChatMessage>) | MaybeIdea(Option<Idea>) | MaybeFinal(Option<FinalIdea>)

  /** `st.session_state[k]` for a seeded key `k`. */
  function Slot(v: View, k: Key): Value
  {
    match k
    case PageKey => Str(v.page)
    case SpecificationsKey => Str(v.specifications)
    case GenerateNewKey => Flag(v.generateNew)
    case DomainInputsKey => Strs(v.domainInputs)
    case IdeasKey => IdeaList(v.ideas)
    case MessagesKey => MessageList(v.messages)
    case ChatHistoryKey => MessageList(v.chatHistory)
    case PreviousPromptKey => Str(v.previousPrompt)
    case SelectedIdeaKey => MaybeIdea(v.selectedIdea)
    case FinalIdeaKey => MaybeFinal(v.finalIdea)
    case NavigatingKey => Flag(v.navigatingToFinal)
  }

  /** Two states with the same keys, the same suggestions and the same value
      under every seeded key are the same state. */
  lemma SlotsDetermine(a: View, b: View)
    requires a.keys == b.keys && a.suggestions == b.suggestions
    requires forall k :: Slot(a, k) == Slot(b, k)
    ensures a == b
  {
    assert Slot(a, PageKey) == Slot(b, PageKey);
    assert Slot(a, SpecificationsKey) == Slot(b, SpecificationsKey);
    assert Slot(a, GenerateNewKey) == Slot(b, GenerateNewKey);
    assert Slot(a, DomainInputsKey) == Slot(b, DomainInputsKey);
    assert Slot(a, IdeasKey) == Slot(b, IdeasKey);
    assert Slot(a, MessagesKey) == Slot(b, MessagesKey);
    assert Slot(a, ChatHistoryKey) == Slot(b, ChatHistoryKey);
    assert Slot(a, PreviousPromptKey) == Slot(b, PreviousPromptKey);
    assert Slot(a, SelectedIdeaKey) == Slot(b, SelectedIdeaKey);
    assert Slot(a, FinalIdeaKey) == Slot(b, FinalIdeaKey);
    assert Slot(a, NavigatingKey) == Slot(b, NavigatingKey);
  }

  /** The values under the keys the consistency conditions speak of. */
  lemma SlotValues(v: View)
    ensures Slot(v, DomainInputsKey) == Strs(v.domainInputs)
    ensures Slot(v, PageKey) == Str(v.page)
    ensures Slot(v, SelectedIdeaKey) == MaybeIdea(v.selectedIdea)
  {
  }

  /** The defaults `init_session_state` writes (app.py:17-39), with every key present. */
  const Defaults: View :=
    View(AllKeys, "home", "", false, [""], [], [], [], "", None, None, false, map[])

  /** The order in which `init_session_state` tests the keys. */
  const SeedOrder: seq<Key> := [SpecificationsKey, GenerateNewKey, PageKey, DomainInputsKey, IdeasKey,
    MessagesKey, ChatHistoryKey, PreviousPromptKey, SelectedIdeaKey, FinalIdeaKey, NavigatingKey]

  /** One `if key not in st.session_state: st.session_state.key = default`. */
  function SeedOne(v: View, k: Key): View
  {
    if k in v.keys then v
    else
      var w := v.(keys := v.keys + {k});
      match k
      case PageKey => w.(page := Defaults.page)
      case SpecificationsKey => w.(specifications := Defaults.specifications)
      case GenerateNewKey => w.(generateNew := Defaults.generateNew)
      case DomainInputsKey => w.(domainInputs := Defaults.domainInputs)
      case IdeasKey => w.(ideas := Defaults.ideas)
      case MessagesKey => w.(messages := Defaults.messages)
      case ChatHistoryKey => w.(chatHistory := Defaults.chatHistory)
      case PreviousPromptKey => w.(previousPrompt := Defaults.previousPrompt)
      case SelectedIdeaKey => w.(selectedIdea := Defaults.selectedIdea)
      case FinalIdeaKey => w.(finalIdea := Defaults.finalIdea)
      case NavigatingKey => w.(navigatingToFinal := Defaults.navigatingToFinal)
  }

  /** The tests for the keys `ks`, in order. */
  function SeedAll(v: View, ks: seq<Key>): View
    decreases |ks|
  {
    if |ks| == 0 then v else SeedAll(SeedOne(v, ks[0]), ks[1..])
  }

  /** `init_session_state` on the state `v`. */
  function Seed(v: View): View
  {
    SeedAll(v, SeedOrder)
  }

  /** `init_session_state` written out: the eleven tests in source order. */
  lemma SeedInOrder(v: View)
    ensures Seed(v) ==
      SeedOne(SeedOne(SeedOne(SeedOne(SeedOne(SeedOne(SeedOne(SeedOne(SeedOne(SeedOne(SeedOne(v,
        SpecificationsKey), GenerateNewKey), PageKey), DomainInputsKey), IdeasKey), MessagesKey),
        ChatHistoryKey), PreviousPromptKey), SelectedIdeaKey), FinalIdeaKey), NavigatingKey)
  {
  }

  /** One test adds its key and writes the default only under that key, and
      only when the key was absent. */
  lemma SeedOneSlot(v: View, k: Key, j: Key)
    ensures SeedOne(v, k).keys == v.keys + {k}
    ensures SeedOne(v, k).suggestions == v.suggestions
    ensures Slot(SeedOne(v, k), j) == if j == k && k !in v.keys then Slot(Defaults, j) else Slot(v, j)
  {
    // The case split adds no fact; it keeps the solver from unfolding all
    // eleven updates of `SeedOne` against all eleven slots at once.
    if k !in v.keys {
      match k
      case PageKey =>
      case SpecificationsKey =>
      case GenerateNewKey =>
      case DomainInputsKey =>
      case IdeasKey =>
      case MessagesKey =>
      case ChatHistoryKey =>
      case PreviousPromptKey =>
      case SelectedIdeaKey =>
      case FinalIdeaKey =>
      case NavigatingKey =>
    }
  }

  /** After the tests for `ks`, the keys of `ks` are present, and a key holds
      its default exactly when it is one of `ks` and was absent before. */
  lemma {:induction false} SeedAllSlot(v: View, ks: seq<Key>, j: Key)
    ensures SeedAll(v, ks).keys == v.keys + set k | k in ks
    ensures SeedAll(v, ks).suggestions == v.suggestions
    ensures Slot(SeedAll(v, ks), j) == if j in ks && j !in v.keys then Slot(Defaults, j) else Slot(v, j)
    decreases |ks|
  {
    if |ks| > 0 {
      var v1 := SeedOne(v, ks[0]);
      SeedOneSlot(v, ks[0], j);
      SeedAllSlot(v1, ks[1..], j);
      assert (set k | k in ks) == {ks[0]} + set k | k in ks[1..];
      assert j in ks <==> j == ks[0] || j in ks[1..];
    }
  }

  /** `init_session_state` makes every seeded key present; a key that was
      present keeps its value and an absent one gets its default; the
      suggestion keys are untouched. */
  lemma SeedSlot(v: View, j: Key)
    ensures Seed(v).keys == v.keys + AllKeys
    ensures Seed(v).suggestions == v.suggestions
    ensures Slot(Seed(v), j) == if j in v.keys then Slot(v, j) else Slot(Defaults, j)
  {
    SeedAllSlot(v, SeedOrder, j);
    SeedOrderCovers();
  }

  /** `init_session_state` tests every seeded key. */
  lemma SeedOrderCovers()
    ensures (set k | k in SeedOrder) == AllKeys
  {
  }

  /** A state in which every key is already present is left as it is. */
  lemma SeedKeepsSeeded(v: View)
    requires AllKeys <= v.keys
    ensures Seed(v) == v
  {
    forall k ensures Slot(Seed(v), k) == Slot(v, k) {
      SeedSlot(v, k);
    }
    SeedSlot(v, PageKey);
    SlotsDetermine(Seed(v), v);
  }

  /** Seeding twice is seeding once. */
  lemma SeedIdempotent(v: View)
    ensures Seed(Seed(v)) == Seed(v)
  {
    SeedSlot(v, PageKey);
    SeedKeepsSeeded(Seed(v));
  }

  /** A new session is seeded with exactly the defaults. */
  lemma SeedFresh(v: View)
    requires v.keys == {}
    ensures Seed(v) == Defaults.(suggestions := v.suggestions)
  {
    SeedFreshSlots(v);
    SeedSlot(v, PageKey);
    SlotsDetermine(Seed(v), Defaults.(suggestions := v.suggestions));
  }

  /** In a new session every key is seeded with its default. */
  lemma SeedFreshSlots(v: View)
    requires v.keys == {}
    ensures forall k :: Slot(Seed(v), k) == Slot(Defaults.(suggestions := v.suggestions), k)
  {
    forall k ensures Slot(Seed(v), k) == Slot(Defaults.(suggestions := v.suggestions), k) {
      SeedSlot(v, k);
      SlotIgnoresSuggestions(Defaults, v.suggestions, k);
    }
  }

  /** The suggestion keys are not among the seeded ones. */
  lemma SlotIgnoresSuggestions(v: View, m: map<nat, string>, k: Key)
    ensures Slot(v.(suggestions := m), k) == Slot(v, k)
  {
  }

  /** What every handler preserves: there is always at least one domain box,
      and the review page is only ever entered with no idea selected. */
  ghost predicate Consistent(v: View)
  {
    && (DomainInputsKey in v.keys ==> |v.domainInputs| >= 1)
    && (PageKey in v.keys && v.page == "review_idea" ==> SelectedIdeaKey in v.keys && v.selectedIdea.None?)
  }

  /** Seeding keeps the state consistent. */
  lemma SeedConsistent(v: View)
    requires Consistent(v)
    ensures Consistent(Seed(v))
  {
    SeedSlot(v, DomainInputsKey);
    SeedSlot(v, PageKey);
    SeedSlot(v, SelectedIdeaKey);
    SlotValues(Seed(v));
    SlotValues(v);
    SlotValues(Defaults);
  }

  /** What one press of "Generate Ideas" ends in. */
  datatype IdeasOutcome =
    | MissingInput                         // the "Please fill in ..." warning
    | IdeasSearchFailed(error: SearchError) // raised by the retrieval adapter
    | IdeasCompletionFailed                // raised by the completion call
    | ReplyNotJson                         // "Error generating ideas: ..."
    | InvalidFormat                        // "Invalid response format"
    | IdeasShown(ideas: seq<Idea>)

  /** What one message on the explore page ends in. */
  datatype ChatOutcome =
    | NoQuestion
    | ChatSearchFailed(error: SearchError)
    | ChatCompletionFailed
    | Answered(reply: string)

  /** One run of the idea generation on the state `before`, with the given
      specifications text, ends in `o` and the state `after`: a warning
      without a non-empty domain and specifications; otherwise the prompt for
      the non-empty domains, the completion with `$` escaped, fence cleaning
      and parsing, each of which can fail and leave the state as it was; only
      a reply with an `ideas` key replaces the ideas. */
  ghost predicate Generation(before: View, after: View, o: IdeasOutcome, specText: string, b: Backend,
                             parse: string -> Reply)
  {
    if !(AnyNonEmpty(before.domainInputs) && specText != "") then o == MissingInput && after == before
    else
      match IdeaRequest(b, NonEmpty(before.domainInputs), specText)
      case Failure(e) => o == IdeasSearchFailed(e) && after == before
      case Success(prompt) =>
        match Complete(b, prompt)
        case None => o == IdeasCompletionFailed && after == before
        case Some(response) =>
          match parse(CleanReply(response))
          case Malformed => o == ReplyNotJson && after == before
          case NoIdeasKey => o == InvalidFormat && after == before
          case IdeasReply(found) => o == IdeasShown(found) && after == before.(ideas := found)
  }

  /** The specifications after a suggestion. */
  function Refined(specifications: string, suggestion: string): string
  {
    specifications + "\nAdditional context: " + suggestion
  }

  /** A suggestion only adds to the specifications: the old text is kept
      unchanged at the front and the suggestion is the end of the new one. */
  lemma RefinedExtends(specifications: string, suggestion: string)
    ensures |Refined(specifications, suggestion)| == |specifications| + |"\nAdditional context: "| + |suggestion|
    ensures Refined(specifications, suggestion)[..|specifications|] == specifications
    ensures Refined(specifications, suggestion)[|specifications| + |"\nAdditional context: "|..] == suggestion
  {
  }

  /** In every consistent state that shows the review page, the page starts
      with both text areas empty. */
  lemma ReviewPrefillEmpty(v: View)
    requires Consistent(v) && PageKey in v.keys && v.page == "review_idea"
    ensures ReviewPrefill(v.selectedIdea) == ("", "")
  {
  }

  /** The reply to one explore-page question, given the retrieved context;
      `None` when the completion call raises. */
  function ChatAnswer(b: Backend, context: string, question: string): Option<string>
  {
    Complete(b, ChatPrompt(context, question))
  }

  /** `st.session_state` as far as the application's own keys go. `keys` is
      the set of those keys that are present; the field of an absent key
      holds no meaningful value. */
  class SessionState {
    var keys: set<Key>
    var page: string
    var specifications: string
    var generateNew: bool
    var domainInputs: seq<string>
    var ideas: seq<Idea>
    var messages: seq<ChatMessage>
    var chatHistory: seq<ChatMessage>
    var previousPrompt: string
    var selectedIdea: Option<Idea>
    var finalIdea: Option<FinalIdea>
    var navigatingToFinal: bool
    /** The `suggestion_{i}` keys written by "Submit Suggestion". */
    var suggestions: map<nat, string>

    function State(): View
      reads this
    {
      View(keys, page, specifications, generateNew, domainInputs, ideas, messages, chatHistory,
           previousPrompt, selectedIdea, finalIdea, navigatingToFinal, suggestions)
    }

    /** The consistency every handler preserves. */
    ghost predicate Valid()
      reads this
    {
      Consistent(State())
    }

    /** Every key `init_session_state` seeds is present. */
    predicate Seeded()
      reads this
    {
      AllKeys <= keys
    }

    /** A new session: no key is present yet. */
    constructor ()
      ensures Valid() && keys == {} && suggestions == map[]
    {
      keys := {};
      page, specifications, generateNew := "", "", false;
      domainInputs, ideas, messages, chatHistory := [], [], [], [];
      previousPrompt, selectedIdea, finalIdea, navigatingToFinal := "", None, None, false;
      suggestions := map[];
    }

    /** One key's test in `init_session_state`. */
    method SeedKey(k: Key)
      modifies this
      ensures State() == SeedOne(old(State()), k)
    {
      if k !in keys {
        match k {
          case PageKey => page := "home";
          case SpecificationsKey => specifications := "";
          case GenerateNewKey => generateNew := false;
          case DomainInputsKey => domainInputs := [""];
          case IdeasKey => ideas := [];
          case MessagesKey => messages := [];
          case ChatHistoryKey => chatHistory := [];
          case PreviousPromptKey => previousPrompt := "";
          case SelectedIdeaKey => selectedIdea := None;
          case FinalIdeaKey => finalIdea := None;
          case NavigatingKey => navigatingToFinal := false;
        }
        keys := keys + {k};
      }
    }

    /** `init_session_state`: each key gets its default only when it is
        absent; a present key keeps its value. */
    method Init()
      requires Valid()
      modifies this
      ensures State() == Seed(old(State()))
      ensures Valid() && Seeded()
      ensures old(Seeded()) ==> State() == old(State())
    {
      SeedKey(SpecificationsKey);
      SeedKey(GenerateNewKey);
      SeedKey(PageKey);
      SeedKey(DomainInputsKey);
      SeedKey(IdeasKey);
      SeedKey(MessagesKey);
      SeedKey(ChatHistoryKey);
      SeedKey(PreviousPromptKey);
      SeedKey(SelectedIdeaKey);
      SeedKey(FinalIdeaKey);
      SeedKey(NavigatingKey);
      SeedInOrder(old(State()));
      SeedConsistent(old(State()));
      SeedSlot(old(State()), PageKey);
      if old(Seeded()) {
        SeedKeepsSeeded(old(State()));
      }
    }

    /** The sidebar's "Clear conversation": empties the message lists and the
        ideas, leaves one empty domain box and goes home; the selected idea,
        the final idea, the specifications and the flags are kept. */
    method ClearConversation()
      requires Valid() && Seeded()
      modifies this
      ensures Valid()
      ensures State() == old(State()).(messages := [], ideas := [], domainInputs := [""],
                                       chatHistory := [], page := "home")
    {
      messages := [];
      ideas := [];
      domainInputs := [""];
      chatHistory := [];
      page := "home";
    }

    /** The "Home" button shown on every page but the home page: only the page changes. */
    method GoHome()
      requires Valid() && Seeded()
      modifies this
      ensures Valid()
      ensures State() == old(State()).(page := "home")
    {
      page := "home";
    }

    /** "Get Started" on the home page. */
    method GetStarted()
      requires Valid() && Seeded()
      modifies this
      ensures Valid()
      ensures State() == old(State()).(page := "get_idea")
    {
      page := "get_idea";
    }

    /** "Analyze Now" on the home page: forgets the selected idea, then opens the review page. */
    method AnalyzeNow()
      requires Valid() && Seeded()
      modifies this
      ensures Valid()
      ensures State() == old(State()).(selectedIdea := None, page := "review_idea")
    {
      selectedIdea := None;
      page := "review_idea";
    }

    /** "Explore" on the home page. */
    method ExploreMore()
      requires Valid() && Seeded()
      modifies this
      ensures Valid()
      ensures State() == old(State()).(page := "explore")
    {
      page := "explore";
    }

    /** The domain text boxes write their contents back, box by box. */
    method EditDomains(values: seq<string>)
      requires Valid() && Seeded()
      requires |values| == |domainInputs|
      modifies this
      ensures Valid()
      ensures State() == old(State()).(domainInputs := values)
    {
      for i := 0 to |values|
        invariant |domainInputs| == |values|
        invariant domainInputs[..i] == values[..i]
        invariant domainInputs[i..] == old(domainInputs)[i..]
        invariant State() == old(State()).(domainInputs := domainInputs)
      {
        domainInputs := domainInputs[i := values[i]];
      }
      assert domainInputs == domainInputs[..|values|];
    }

    /** The "+" button: one more, empty, domain box. */
    method AddDomain()
      requires Valid() && Seeded()
      modifies this
      ensures Valid()
      ensures State() == old(State()).(domainInputs := old(domainInputs) + [""])
    {
      domainInputs := domainInputs + [""];
    }

    /** "Generate Ideas" with the given specifications text: needs a non-empty
        domain and non-empty specifications; prompts with the non-empty
        domains only; stores the ideas only when the reply parses and has an
        `ideas` key, and otherwise leaves the state as it was. */
    method GenerateIdeas(specText: string, b: Backend, parse: string -> Reply) returns (o: IdeasOutcome)
      requires Valid() && Seeded()
      modifies this
      ensures Valid()
      ensures Generation(old(State()), State(), o, specText, b, parse)
    {
      if !(AnyNonEmpty(domainInputs) && specText != "") {
        return MissingInput;
      }
      var domains := NonEmpty(domainInputs);
      var prompt := GenerateIdeaPrompt(b, domains, specText);
      if prompt.Failure? {
        return IdeasSearchFailed(prompt.error);
      }
      var response := Complete(b, prompt.value);
      if response.None? {
        return IdeasCompletionFailed;
      }
      var reply := parse(CleanReply(response.value));
      match reply
      case Malformed =>
        o := ReplyNotJson;
      case NoIdeasKey =>
        o := InvalidFormat;
      case IdeasReply(found) =>
        ideas := found;
        o := IdeasShown(found);
    }

    /** The idea page's trigger: ideas are generated when the button is
        pressed, and also on any run while no regeneration is pending
        (`generate_new` false); `None`, with nothing changed, when neither holds. */
    method IdeaPageRun(pressed: bool, specText: string, b: Backend, parse: string -> Reply)
      returns (o: Option<IdeasOutcome>)
      requires Valid() && Seeded()
      modifies this
      ensures Valid()
      ensures o.None? <==> !pressed && old(generateNew)
      ensures o.None? ==> State() == old(State())
      ensures o.Some? ==> Generation(old(State()), State(), o.value, specText, b, parse)
    {
      if pressed || !generateNew {
        var r := GenerateIdeas(specText, b, parse);
        return Some(r);
      }
      return None;
    }

    /** "Submit Suggestion" under idea `i`: when the suggestion is not blank,
        the current specifications become the previous prompt, the suggestion
        is appended to them, and regeneration is flagged. */
    method SubmitSuggestion(i: nat, specText: string, suggestion: string)
      requires Valid() && Seeded()
      requires i < |ideas|
      modifies this
      ensures Valid()
      ensures Strip(suggestion) == "" ==> State() == old(State())
      ensures Strip(suggestion) != "" ==>
                State() == old(State()).(previousPrompt := specText,
                                         specifications := Refined(specText, suggestion),
                                         generateNew := true,
                                         suggestions := old(suggestions)[i := suggestion])
    {
      if Strip(suggestion) != "" {
        previousPrompt := specText;
        specifications := Refined(specText, suggestion);
        generateNew := true;
        suggestions := suggestions[i := suggestion];
      }
    }

    /** "Develop Idea" under idea `i`: selects it, asks for its paper, and
        flags the move to the paper page. */
    method DevelopIdea(i: nat)
      requires Valid() && Seeded()
      requires i < |ideas|
      modifies this
      ensures Valid()
      ensures State() == old(State()).(selectedIdea := Some(old(ideas)[i]),
                                       finalIdea := Some(FinalIdeaOf(old(ideas)[i])),
                                       generateNew := false,
                                       page := "final_paper",
                                       navigatingToFinal := true)
    {
      var idea := ideas[i];
      selectedIdea := Some(idea);
      finalIdea := Some(FinalIdeaOf(idea));
      generateNew := false;
      page := "final_paper";
      navigatingToFinal := true;
    }

    /** The pre-filled contents of the review page's two text areas. Since the
        only way onto that page is "Analyze Now", which drops the selection,
        they are always empty while the review page is the current one. */
    method ReviewPrefillNow() returns (idea: string, topics: string)
      requires Valid() && Seeded()
      ensures (idea, topics) == ReviewPrefill(selectedIdea)
      ensures page == "review_idea" ==> idea == "" && topics == ""
    {
      if page == "review_idea" {
        ReviewPrefillEmpty(State());
      }
      idea, topics := "", "";
      if selectedIdea.Some? && selectedIdea.value.IsTruthy() {
        idea := selectedIdea.value.Description();
        topics := Join(", ", selectedIdea.value.References());
      }
    }

    /** "Generate Complete Paper": with both texts non-empty, they become the
        final idea and the paper page opens; otherwise nothing changes. */
    method GeneratePaper(ideaText: string, topics: string) returns (accepted: bool)
      requires Valid() && Seeded()
      modifies this
      ensures Valid()
      ensures accepted <==> ideaText != "" && topics != ""
      ensures accepted ==> State() == old(State()).(finalIdea := Some(FinalIdea(ideaText, topics)),
                                                    page := "final_paper")
      ensures !accepted ==> State() == old(State())
    {
      accepted := ideaText != "" && topics != "";
      if accepted {
        finalIdea := Some(FinalIdea(ideaText, topics));
        page := "final_paper";
      }
    }

    /** One message on the explore page: the question is recorded first, then
        context is retrieved and the model's answer recorded. A failing
        retrieval or completion leaves the question recorded without an answer. */
    method ExploreRound(question: string, b: Backend) returns (o: ChatOutcome)
      requires Valid() && Seeded()
      modifies this
      ensures Valid()
      ensures question == "" ==> o == NoQuestion && State() == old(State())
      ensures question != "" ==>
                match Retrieve(b, question)
                case Failure(e) =>
                  o == ChatSearchFailed(e) &&
                  State() == old(State()).(chatHistory := old(chatHistory) + [ChatMessage(User, question)])
                case Success(found) =>
                  match ChatAnswer(b, found.context, question)
                  case None =>
                    o == ChatCompletionFailed &&
                    State() == old(State()).(chatHistory := old(chatHistory) + [ChatMessage(User, question)])
                  case Some(answer) =>
                    o == Answered(answer) &&
                    State() == old(State()).(chatHistory := old(chatHistory) +
                      [ChatMessage(User, question), ChatMessage(Assistant, answer)])
    {
      if question == "" {
        return NoQuestion;
      }
      chatHistory := chatHistory + [ChatMessage(User, question)];
      var found := Query(b, question);
      if found.Failure? {
        return ChatSearchFailed(found.error);
      }
      var response := Complete(b, ChatPrompt(found.value.context, question));
      if response.None? {
        return ChatCompletionFailed;
      }
      chatHistory := chatHistory + [ChatMessage(Assistant, response.value)];
      o := Answered(response.value);
    }

    /** `main` after the sidebar: a pending move to the paper page is carried
        out and its flag cleared; then the page is looked up by name. */
    method Route() returns (p: Page)
      requires Valid() && Seeded()
      modifies this
      ensures Valid()
      ensures old(navigatingToFinal) ==> State() == old(State()).(page := "final_paper", navigatingToFinal := false)
      ensures !old(navigatingToFinal) ==> State() == old(State())
      ensures p == PageOf(page)
    {
      if navigatingToFinal {
        page := "final_paper";
        navigatingToFinal := false;
      }
      p := PageOf(page);
    }
  }

  /** "Develop Idea", then the run it triggers: seeding changes nothing, and
      the dispatch lands on the paper page with the flag cleared. */
  method DevelopThenRerun(s: SessionState, i: nat) returns (p: Page)
    requires s.Valid() && s.Seeded() && i < |s.ideas|
    modifies s
    ensures s.Valid() && p == FinalPaper && s.page == "final_paper" && !s.navigatingToFinal
    ensures s.selectedIdea == Some(old(s.ideas)[i]) && s.finalIdea == Some(FinalIdeaOf(old(s.ideas)[i]))
  {
    s.DevelopIdea(i);
    s.Init();
    p := s.Route();
  }

  /** "Submit Suggestion", then the run it triggers: the idea page does not
      regenerate on its own, so the old ideas stay until the button is pressed. */
  method SuggestThenRerun(s: SessionState, i: nat, specText: string, suggestion: string, b: Backend,
                          parse: string -> Reply) returns (o: Option<IdeasOutcome>)
    requires s.Valid() && s.Seeded() && i < |s.ideas| && Strip(suggestion) != ""
    modifies s
    ensures o.None?
    ensures s.specifications == Refined(specText, suggestion) && s.previousPrompt == specText
    ensures s.ideas == old(s.ideas)
  {
    s.SubmitSuggestion(i, specText, suggestion);
    s.Init();
    o := s.IdeaPageRun(false, s.specifications, b, parse);
  }

  /** With no regeneration pending, a run of the idea page without a press
      stores the ideas of a reply that parses with an `ideas` key. */
  method RunStoresReply(s: SessionState, specText: string, b: Backend, parse: string -> Reply,
                        found: seq<Idea>) returns (o: Option<IdeasOutcome>)
    requires s.Valid() && s.Seeded() && !s.generateNew
    requires AnyNonEmpty(s.domainInputs) && specText != ""
    requires IdeaRequest(b, NonEmpty(s.domainInputs), specText).Success?
    requires Complete(b, IdeaRequest(b, NonEmpty(s.domainInputs), specText).value).Some?
    requires parse(CleanReply(Complete(b, IdeaRequest(b, NonEmpty(s.domainInputs), specText).value).value))
             == IdeasReply(found)
    modifies s
    ensures o == Some(IdeasShown(found)) && s.ideas == found
  {
    o := s.IdeaPageRun(false, specText, b, parse);
  }

  /** A fresh session seeded twice is the same as seeded once, and is on the home page. */
  method SeedTwice(s: SessionState) returns (p: Page)
    requires s.Valid() && s.keys == {}
    modifies s
    ensures s.Valid() && s.Seeded() && p == Home
    ensures s.State() == Defaults.(suggestions := old(s.suggestions))
  {
    SeedFresh(s.State());
    s.Init();
    s.Init();
    p := s.Route();
  }

  /** From home, "Explore", one answered question, then "Home": back home
      with the question and its answer still in the history. */
  method ExploreThenHome(s: SessionState, question: string, b: Backend) returns (o: ChatOutcome)
    requires s.Valid() && s.Seeded() && question != "" && Retrieve(b, question).Success?
    requires ChatAnswer(b, Retrieve(b, question).value.context, question).Some?
    modifies s
    ensures s.Valid() && s.page == "home"
    ensures s.chatHistory == old(s.chatHistory) +
      [ChatMessage(User, question),
       ChatMessage(Assistant, ChatAnswer(b, Retrieve(b, question).value.context, question).value)]
  {
    s.ExploreMore();
    var p := s.Route();
    o := s.ExploreRound(question, b);
    s.GoHome();
  }
}
