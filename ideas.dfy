/**
 * The values the pages pass around: an idea as parsed from the model's JSON,
 * the idea chosen for the paper, chat messages, and the result of
 * `json.loads` as the idea page inspects it.
 */
module Ideas {
  import opened Wrappers
  import opened Text

  /** One element of `ideas_data["ideas"]`: each key may be absent. */
  datatype Idea = Idea(
    title: Option<string>,
    description: Option<string>,
    opportunities: Option<seq<string>>,
    drawbacks: Option<seq<string>>,
    references: Option<seq<string>>,
    paperUrl: Option<string>)
  {
    /** `idea.get("description", "")`. */
    function Description(): string
    {
      description.GetOr("")
    }

    /** `idea.get("references", [])`. */
    function References(): seq<string>
    {
      references.GetOr([])
    }

    /** Python truthiness of the dict: it has at least one key. */
    predicate IsTruthy()
    {
      title.Some? || description.Some? || opportunities.Some? ||
      drawbacks.Some? || references.Some? || paperUrl.Some?
    }
  }

  /** `st.session_state.final_idea`: `{"idea": ..., "topics": ...}`. */
  datatype FinalIdea = FinalIdea(idea: string, topics: string)

  datatype Role = User | Assistant

  /** `{"role": ..., "content": ...}`. */
  datatype ChatMessage = ChatMessage(role: Role, content: string)

  /** The outcome of `json.loads` on the cleaned reply: it raised, it gave an
      object without an `ideas` key, or it gave one with that key. */
  datatype Reply = Malformed | NoIdeasKey | IdeasReply(ideas: seq<Idea>)

  /** The paper request built by "Develop Idea": the description, and the
      references joined with ", ". */
  function FinalIdeaOf(idea: Idea): FinalIdea
  {
    FinalIdea(idea.Description(), Join(", ", idea.References()))
  }

  /** Every reference of the developed idea is named in its topics. */
  lemma FinalIdeaNamesReferences(idea: Idea)
    ensures forall k :: 0 <= k < |idea.References()| ==> Contains(FinalIdeaOf(idea).topics, idea.References()[k])
  {
    forall k | 0 <= k < |idea.References()| ensures Contains(FinalIdeaOf(idea).topics, idea.References()[k]) {
      JoinContains(", ", idea.References(), k);
    }
  }

  /** The two text areas of the review page, pre-filled from the selected idea
      when there is a (truthy) one. */
  function ReviewPrefill(selected: Option<Idea>): (string, string)
  {
    if selected.Some? && selected.value.IsTruthy() then
      (selected.value.Description(), Join(", ", selected.value.References()))
    else ("", "")
  }

  /** Pre-filling the review page from an idea proposes the same idea and
      topics that "Develop Idea" sends to the paper page, even for an empty dict. */
  lemma PrefillMatchesDevelop(idea: Idea)
    ensures FinalIdea(ReviewPrefill(Some(idea)).0, ReviewPrefill(Some(idea)).1) == FinalIdeaOf(idea)
  {
  }
}
