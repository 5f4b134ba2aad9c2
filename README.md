# InspireIt session model

InspireIt (`app.py`) is a Streamlit application that runs on Snowflake. A user enters business domains and free-text specifications. The application retrieves related documents from a Cortex search service, asks a language model for ideas in JSON form, and shows the ideas. The user can then refine the request with suggestions, develop one idea into a paper request, review an idea by hand, or chat about the documents on an explore page.

This project models the logic underneath the view code:

- **`Session`** (`session.dfy`) is the state machine over the keys of `st.session_state` that the application owns. `page`, `specifications`, `generate_new`, `domain_inputs`, `ideas`, `messages`, `chat_history`, `previous_prompt`, `selected_idea`, `final_idea` and `navigating_to_final` are fields of the class `SessionState`. So are the `suggestion_{i}` keys, as a map. The field `keys` records which keys are present.
  - Every button handler is a method that updates these fields in place. Its contract gives the whole new state as `State() == old(State()).(...)`, so nothing else changes.
  - `init_session_state` is modelled key by key. `SeedKey` performs one `if key not in st.session_state` test and `Init` runs the eleven tests in source order. `SeedKey` is specified by the pure function `SeedOne` and `Init` by `Seed` (the tests for all keys in order), and the seeding properties are lemmas about `Seed`, stated per key through `Slot` (the value under a key).
  - The invariant `Valid` is kept by every handler. It says the domain list is never empty, and that the review page is only current while no idea is selected.
- **`Retrieval`** (`retrieval.dfy`) models `query_cortex_search_service` and `complete`. The `context_str +=` loop is the method `BuildContext`, proved against `ContextText`. A front-to-back definition `Labelled` supplies the "one label per result, in order" property.
- **`Prompts`** (`prompts.dfy`) has the search query, the two f-string prompts (with the template text copied from the source) and `generate_idea_prompt`.
- **`Ideas`** (`ideas.dfy`) holds the values the pages pass around: an idea is a dict whose keys may be absent, and `final_idea`, chat messages and the parsed reply sit beside it.
- **`Text`** (`text.dfy`) models the Python string operations the application uses:
  - `str.replace` with leftmost, non-overlapping matches;
  - `str.strip` with the `str.isspace` character set;
  - `str.join`, `str.lower`, `any`, the empty-domain filter and `str(int)`;
  - the two rewrites built from them: `$` escaping and code-fence removal.

The search service, the completion model, the service catalogue and the selected service are fields of a `Backend` value, so they are inputs. The search and the completion each give `None` when the call raises. `json.loads` is a parameter `parse: string -> Reply`.

A behaviour of the source that follows from the proofs:

- The review page never shows a pre-filled idea. The only way onto that page is "Analyze Now", and it clears `selected_idea` first. The comment at `app.py:367` says the pre-fill is for arrivals from "Develop Idea", but "Develop Idea" goes to the paper page. `Valid` and `ReviewPrefillNow` state this.

A property of the model, which lets the write at `app.py:332` through (see "Left out" for what Streamlit does with it):

- After "Submit Suggestion", the next run of the idea page does not regenerate ideas on its own. `generate_new` is then true, and ideas are generated when the button is pressed or `generate_new` is false (`app.py:266`). The old ideas stay until the button is pressed (`SuggestThenRerun`).

## Model

| member | source | states |
|---|---|---|
| Text.Replace | app.py:123 | `str.replace` with leftmost, non-overlapping matches; its properties are stated by `ReplaceAbsent`, `UnescapeEscape` and `RemoveFenceClears` |
| Text.EscapeDollar | app.py:123 | `.replace("$", "\$")`; its properties are stated by `EscapeLength`, `EscapeGuards` and `UnescapeEscape` |
| Text.Strip | app.py:283 | `str.strip()`; its properties are stated by `StripShape`, `StripNonEmpty`, `SkipSpace` and `SkipSpaceBack` |
| Text.CleanReply | app.py:283 | `response.strip().replace("```json", "").replace("```", "")`; its properties are stated by `CleanReplyHasNoFence` and `CleanReplyWithoutTicks` |
| Text.Join | app.py:128 | `sep.join(xs)`; its properties are stated by `JoinElementAt`, `JoinSeparatorAfter` and `JoinContains` |
| Text.IsSpace | app.py:283 | Python's `str.isspace`: the 29 whitespace characters that `strip()` removes here and at `app.py:329`; used by `StripShape` and `StripNonEmpty` |
| Text.ReplaceAbsent | app.py:283 | `replace` leaves a text unchanged when the pattern's first character never occurs in it |
| Text.EscapeLength | app.py:123 | the escaped completion is the input's length plus one per `$` |
| Text.EscapeGuards | app.py:123 | in the escaped completion every `$` has a backslash right before it |
| Text.UnescapeEscape | app.py:123 | replacing `\$` with `$` in the escaped text gives back the original, so escaping loses nothing |
| Text.StripShape | app.py:283 | `strip()` is the part of the text between its leading and trailing whitespace, and neither starts nor ends with whitespace |
| Text.StripNonEmpty | app.py:329 | `suggestion.strip()` is truthy exactly when the suggestion has a non-whitespace character |
| Text.SkipSpace | app.py:283 | the first non-whitespace position at or after `i`; everything before it from `i` is whitespace |
| Text.SkipSpaceBack | app.py:283 | the position after the last non-whitespace before `j`; everything after it up to `j` is whitespace |
| Text.RemoveFencePrefix | app.py:283 | removing fences never makes a text start with two backticks when it did not |
| Text.RemoveFenceClears | app.py:283 | after `.replace("```", "")` no triple backtick is left, even where a removal joins backticks |
| Text.CleanReplyHasNoFence | app.py:283-284 | the text given to `json.loads` contains no triple-backtick substring |
| Text.CleanReplyWithoutTicks | app.py:283 | for a reply without backticks, the cleaning is only `strip()` |
| Text.JoinElementAt | app.py:128 | each element of `sep.join(xs)` appears verbatim at its offset |
| Text.JoinSeparatorAfter | app.py:128 | every element but the last is followed by the separator, and the next element starts right after it |
| Text.JoinContains | app.py:345 | every element of a joined list is a substring of the joined text |
| Text.ContainsWithin | app.py:133-160 | helper of `FillEmbeds` and `IdeaPromptEmbeds`, not a model of a source line: a substring of a middle piece is a substring of the whole |
| Text.ContainsTransitive | app.py:133-160 | helper of `IdeaPromptEmbeds`, not a model of a source line: a substring of a substring is a substring |
| Text.NonEmpty | app.py:274 | `[d for d in domains if d]` keeps exactly the non-empty domains and is no longer than its input |
| Text.AnyNonEmpty | app.py:267 | `any(st.session_state.domain_inputs)`: some domain is a non-empty string |
| Text.AnyNonEmptyFilter | app.py:267-274 | `any(domains)` holds exactly when the filtered list at `app.py:274` is not empty, so the prompt always gets at least one domain |
| Text.NonEmptyAppend | app.py:274 | the filter keeps the order of the domains it keeps |
| Text.NonEmptyIdempotent | app.py:274 | filtering twice is filtering once |
| Text.NatToString | app.py:114 | `str(i+1)` is a non-empty digit string with no leading zero |
| Text.ParseNatToString | app.py:114 | the decimal label reads back as the number |
| Text.Lower | app.py:110 | `lower()` turns each ASCII capital into its small letter, keeps every other character, and leaves no ASCII capital |
| Retrieval.ServiceIndex | app.py:109-110 | the first catalogue entry named after the selected service, or the catalogue's length when there is none |
| Retrieval.SearchColumn | app.py:109-110 | the lower-cased search column is missing (the `[0]` raises) exactly when no entry has the selected name |
| Retrieval.HasColumn | app.py:114 | every `r[search_col]` lookup of the loop finds the column; `BuildContext` succeeds exactly when it holds |
| Retrieval.Column | app.py:114 | the values `r[search_col]`, in result order; used by `ContextText` and `BuildContext` |
| Retrieval.Entry | app.py:114 | `f"Context document {i+1}: {r[search_col]} \n" + "\n"`; its place in the context string is stated by `ContextEntryAt` and `ContextIsLabelled` |
| Retrieval.ContextText | app.py:112-114 | the context string is empty exactly when there are no results |
| Retrieval.LabelledSnoc | app.py:112-114 | adding a result at the end adds its entry, with the next label, at the end |
| Retrieval.ContextIsLabelled | app.py:112-114 | the context string is the concatenation, in result order, of one entry per result labelled 1, 2, 3, ... |
| Retrieval.ContextPrefix | app.py:112-114 | the text for the first `k` results is a prefix of the whole context |
| Retrieval.ContextEntryAt | app.py:112-114 | result `k` contributes exactly its entry, labelled `k+1`, right after the text of the results before it |
| Retrieval.ContextStep | app.py:113-114 | one more iteration of the loop appends exactly that hit's entry |
| Retrieval.BuildContext | app.py:112-114 | the loop succeeds exactly when every hit has the search column, and then builds the context string |
| Retrieval.Retrieve | app.py:93-119 | the search-raised failure happens exactly when the search call raises; a success returns the search results unchanged; the no-such-service failure happens exactly when the search returns and the column lookup finds nothing |
| Retrieval.Query | app.py:93-119 | the retrieval adapter returns or raises what `Retrieve` says |
| Retrieval.Complete | app.py:121-123 | the completion fails exactly when the model call raises; otherwise every `$` in the answer is escaped and un-escaping gives back the model's text |
| Prompts.IdeaQuery | app.py:128 | `" ".join(domains + [specifications])`; its property is stated by `IdeaQueryMentions` |
| Prompts.IdeaPrompt | app.py:133-160 | the idea-generation f-string; its property is stated by `IdeaPromptEmbeds` |
| Prompts.IdeaRequest | app.py:125-160 | what `generate_idea_prompt` returns or raises; `GenerateIdeaPrompt` is proved equal to it |
| Prompts.ChatPrompt | app.py:480-489 | the explore page's f-string; its property is stated by `ChatPromptEmbeds` |
| Prompts.FillEmbeds | app.py:133-160 | every value substituted into an f-string appears verbatim in the result |
| Prompts.IdeaQueryMentions | app.py:128 | the search query contains every domain and the specifications verbatim |
| Prompts.IdeaPromptEmbeds | app.py:133-160 | the idea prompt contains every domain, the specifications and the retrieved context verbatim |
| Prompts.GenerateIdeaPrompt | app.py:125-160 | retrieval with the joined query, then the filled template; a returned prompt contains the specifications |
| Prompts.ChatPromptEmbeds | app.py:480-489 | the chat prompt contains the retrieved context and the question verbatim |
| Ideas.Idea.Description | app.py:344 | `idea.get("description", "")`, also at `app.py:394`; used by `FinalIdeaOf` and `ReviewPrefill` |
| Ideas.Idea.References | app.py:345 | `idea.get("references", [])`, also at `app.py:395`; used by `FinalIdeaOf` and `ReviewPrefill` |
| Ideas.Idea.IsTruthy | app.py:371 | the truth of `if st.session_state.selected_idea:`: the dict has at least one key; used by `ReviewPrefill` |
| Ideas.FinalIdeaOf | app.py:343-346 | the `final_idea` dict "Develop Idea" builds; its properties are stated by `FinalIdeaNamesReferences` and `PrefillMatchesDevelop` |
| Ideas.ReviewPrefill | app.py:369-395 | the review page's initial texts; its properties are stated by `PrefillMatchesDevelop` and `SessionState.ReviewPrefillNow` |
| Ideas.FinalIdeaNamesReferences | app.py:343-346 | every reference of a developed idea is named in its `topics` |
| Ideas.PrefillMatchesDevelop | app.py:394-395 | pre-filling the review page from an idea proposes the same idea and topics that "Develop Idea" sends |
| Session.PageName | app.py:917-923 | the key of each page in the `pages` dict; `PageNameRoundTrip` states that each page is found under its own key |
| Session.PageOf | app.py:917-925 | a known page name selects that page; any other name falls back to the home page |
| Session.PageNameRoundTrip | app.py:917-925 | every page is selected by its own name |
| Session.SeedOne | app.py:17-39 | one `if key not in st.session_state` test; its property is stated by `SeedOneSlot` |
| Session.Seed | app.py:15-39 | `init_session_state`; its properties are stated by `SeedSlot`, `SeedIdempotent`, `SeedFresh` and `SeedConsistent` |
| Session.SlotsDetermine | app.py:15-39 | two states with the same keys, suggestions and value under every seeded key are equal |
| Session.SeedInOrder | app.py:15-39 | seeding is the eleven key tests one after another, in the order of the source |
| Session.SeedOneSlot | app.py:17-39 | one key test adds its key, and writes the default only under that key and only when it was absent |
| Session.SeedAllSlot | app.py:15-39 | after a run of key tests, a key holds its default exactly when it was tested and was absent, and keeps its value otherwise |
| Session.SeedOrderCovers | app.py:15-39 | `init_session_state` tests every one of the eleven keys |
| Session.SeedSlot | app.py:15-39 | seeding makes every key present; a present key keeps its value, an absent key gets its default, and the suggestion keys are untouched |
| Session.SeedKeepsSeeded | app.py:15-39 | seeding a state in which all keys are present changes nothing |
| Session.SeedIdempotent | app.py:15-39 | seeding twice gives the same state as seeding once |
| Session.SeedFreshSlots | app.py:15-39 | in a new session every key gets its default |
| Session.SeedFresh | app.py:15-39 | a new session is seeded with exactly the defaults |
| Session.SeedConsistent | app.py:15-39 | seeding keeps the session invariant |
| Session.Refined | app.py:332 | `f"{specifications}\nAdditional context: {suggestion}"`; its property is stated by `RefinedExtends` |
| Session.RefinedExtends | app.py:332 | the refined specifications keep the old text at the front and end with the suggestion |
| Session.ChatAnswer | app.py:491 | `complete(st.session_state.model_name, full_prompt)` on the explore page's prompt; `ExploreRound` appends it, and `Complete` states that it fails exactly when the model call raises |
| Session.ReviewPrefillEmpty | app.py:369-395 | in every consistent state showing the review page, both pre-filled texts are empty |
| Session.SessionState.constructor | app.py:15 | a new session has no keys |
| Session.SessionState.SeedKey | app.py:17-39 | one `if key not in st.session_state` test, as `SeedOne` describes it |
| Session.SessionState.Init | app.py:15-39 | the new state is `Seed` of the old one; the invariant holds and every key is present; an already seeded session is unchanged |
| Session.SessionState.ClearConversation | app.py:65-70 | messages, ideas and chat history become empty, one empty domain box is left, the page is home, and nothing else changes |
| Session.SessionState.GoHome | app.py:193-194 | only the page changes, to home |
| Session.SessionState.GetStarted | app.py:215-217 | only the page changes, to the idea page |
| Session.SessionState.AnalyzeNow | app.py:226-228 | the selection is cleared and the review page opens; nothing else changes |
| Session.SessionState.ExploreMore | app.py:238-240 | only the page changes, to the explore page |
| Session.SessionState.EditDomains | app.py:250-252 | after the box-by-box write-back the domain list equals the edited values; nothing else changes |
| Session.SessionState.AddDomain | app.py:255-257 | one empty domain box is appended; nothing else changes |
| Session.Generation | app.py:267-290 | the outcome and new state of one idea generation; `GenerateIdeas` and `IdeaPageRun` are proved against it |
| Session.SessionState.GenerateIdeas | app.py:267-290 | without a non-empty domain and specifications, only a warning; otherwise the empty domains are dropped, and a failing search, a failing completion, a reply that does not parse and a reply without an `ideas` key each leave the state as it was; only a reply with an `ideas` key replaces the ideas, with exactly the parsed ones |
| Session.SessionState.IdeaPageRun | app.py:266-270 | generation runs exactly when the button is pressed or no regeneration is pending, and then ends in the outcome and state `GenerateIdeas` gives; otherwise nothing changes |
| Session.SessionState.SubmitSuggestion | app.py:328-336 | a blank suggestion changes nothing; otherwise the specifications become the previous prompt, the suggestion is appended, regeneration is flagged and the suggestion is stored under its index (with the write at `app.py:332` allowed) |
| Session.SessionState.DevelopIdea | app.py:340-352 | the idea is selected, its paper request is set from its description and references, `generate_new` is cleared, the page is the paper page and the navigation flag is set; nothing else changes |
| Session.SessionState.ReviewPrefillNow | app.py:367-395 | the pre-filled texts come from the selected idea, and are both empty whenever the review page is the current page |
| Session.SessionState.GeneratePaper | app.py:400-409 | the paper request is accepted exactly when both texts are non-empty; it then becomes the final idea and the paper page opens, and otherwise nothing changes |
| Session.SessionState.ExploreRound | app.py:469-492 | an empty question does nothing; else the question is appended first, then the answer only if both retrieval and completion succeeded; earlier entries are untouched |
| Session.SessionState.Route | app.py:913-925 | a pending move to the paper page is carried out and its flag cleared; the page shown is the one named by `page`, home when unknown |
| Session.DevelopThenRerun | app.py:913-915 | after "Develop Idea" and the rerun it triggers, the paper page is shown with the flag cleared and the idea's paper request in place |
| Session.SeedTwice | app.py:15-39 | a new session seeded twice holds exactly the defaults and shows the home page |
| Session.ExploreThenHome | app.py:469-492 | "Explore", one answered question, then "Home" lands on home with the question and answer appended to the history |
| Session.SuggestThenRerun | app.py:266 | in the model, which allows the write at `app.py:332`, the idea page does not regenerate on its own after a suggestion, so the ideas are unchanged |
| Session.RunStoresReply | app.py:266-290 | with no regeneration pending, a run of the idea page without a press stores exactly the ideas of a reply that parses with an `ideas` key |

## Left out

- Rendering: all `st.markdown` HTML, columns, containers, the CSS of `apply_custom_styles`, and the display loops over ideas and chat history. They change no state.
- Snowflake: service discovery (`init_service_metadata`), the database and schema lookup, and the search call with its fixed columns, language filter and chunk limit. These are the `Backend` fields; the search returns the rows as given.
- The completion call and the model choice: `Backend.llm` is one fixed function of the prompt. Any exception it raises is one outcome, `None`, without its message. The same goes for the service lookup and the search call in `Backend.search`.
- What Streamlit does with an exception that escapes a page: a failing search or completion in the idea generation (`app.py:275-280`, before the `try`), or on the explore page (`app.py:474-491`), ends the run with an error. The model gives an outcome for it and keeps the state reached before the call. On the explore page that means the question alone is appended.
- `json.loads`: the parameter `parse` gives its outcome (raised, object without `ideas`, object with `ideas`). JSON that is not an object, and idea values that are not strings or lists of strings, are not represented. Nor are extra keys in an idea.
- The paper page (`final_paper_page`, `generate_final_paper_prompt`): it reads `final_idea` and calls the model but writes no session key.
- Streamlit runtime: `st.rerun`, and the binding of widget keys (`key="specifications"`, `domain_{i}`, `suggest_{i}`) to session keys. The model takes each widget's current value as a parameter. It does not model Streamlit refusing a write to a key whose widget has already been drawn, as happens at `app.py:332`: the `specifications` text area is drawn first at `app.py:259`. In the program that write raises, the handler at `app.py:359` catches it, and `app.py:333-335` never run. So `previous_prompt` is updated, but `specifications`, `generate_new` and `suggestion_{i}` are not, and no rerun follows. `SubmitSuggestion` and `SuggestThenRerun` describe the handler with the write allowed.
- The sidebar settings other than "Clear conversation" (service, model, chunk count, history length, debug) and the debug displays.
- Exceptions raised while ideas are displayed, after `st.session_state.ideas` has been set.
- Text.Lower: `str.lower` is modelled for ASCII letters only; other cased characters are left unchanged.
- The `description` and `references` of an idea are read with `.get` defaults (`""`, `[]`), as the code does. A key that is present with a non-string value (such as `null`) is outside the model.
