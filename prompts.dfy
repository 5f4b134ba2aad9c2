/**
 * The prompt builders: `generate_idea_prompt` (app.py:125-160) and the
 * chat prompt of the explore page (app.py:480-489). The fixed instruction
 * text is reproduced as constants; what matters is where the user's input
 * and the retrieved context are substituted.
 */
module Prompts {
  import opened Wrappers
  import opened Text
  import opened Retrieval

  const IdeaHead :=
    "\n"
    + "    [INST]\n"
    + "    As an AI research consultant, generate creative business ideas based on the following:\n"
    + "    \n"
    + "    Domains: "
  const IdeaSpecs :=
    "\n"
    + "    User Specifications: "
  const IdeaContext :=
    "\n"
    + "    \n"
    + "    Consider this relevant context:\n"
    + "    "
  const IdeaTail :=
    "\n"
    + "    \n"
    + "    Provide your response in JSON format with the following structure:\n"
    + "    {\n"
    + "        \"ideas\": [\n"
    + "            {\n"
    + "                \"title\": \"Idea title\",\n"
    + "                \"description\": \"Brief description\",\n"
    + "                \"opportunities\": [\"opp1\", \"opp2\", ...],\n"
    + "                \"drawbacks\": [\"drawback1\", \"drawback2\", ...],\n"
    + "                \"references\": [\"ref1\", \"ref2\", ...],\n"
    + "                \"paper_url\": \"URL of the reference paper\"\n"
    + "            }\n"
    + "        ]\n"
    + "    }\n"
    + "    \n"
    + "    Generate 3 innovative ideas that combine elements from the specified domains.\n"
    + "    Include URLs for reference papers where available from the context.\n"
    + "    [/INST]\n"
    + "    "

  const ChatHead :=
    "\n"
    + "        [INST]\n"
    + "        Consider this context:\n"
    + "        "
  const ChatQuestion :=
    "\n"
    + "        \n"
    + "        User question: "
  const ChatTail :=
    "\n"
    + "        \n"
    + "        Provide a helpful and informative response.\n"
    + "        [/INST]\n"
    + "        "

  /** The search query for idea generation: `" ".join(domains + [specifications])`. */
  function IdeaQuery(domains: seq<string>, specifications: string): string
  {
    Join(" ", domains + [specifications])
  }

  /** An f-string: the fixed `parts` with the `values` substituted between them. */
  function Fill(parts: seq<string>, values: seq<string>): string
    requires |parts| == |values| + 1
    decreases |values|
  {
    if |values| == 0 then parts[0] else parts[0] + values[0] + Fill(parts[1..], values[1..])
  }

  /** Every substituted value appears verbatim in the filled template. */
  lemma {:induction false} FillEmbeds(parts: seq<string>, values: seq<string>, k: nat)
    requires |parts| == |values| + 1 && k < |values|
    ensures Contains(Fill(parts, values), values[k])
    decreases |values|
  {
    var rest := Fill(parts[1..], values[1..]);
    if k == 0 {
      assert OccursAt(values[0], values[0], 0);
      ContainsWithin(parts[0], values[0], rest, values[0]);
    } else {
      FillEmbeds(parts[1..], values[1..], k - 1);
      ContainsWithin(parts[0] + values[0], rest, "", values[k]);
      assert parts[0] + values[0] + rest + "" == Fill(parts, values);
    }
  }

  /** The idea-generation prompt around the joined domains, the specifications
      and the retrieved context. */
  function IdeaPrompt(domains: seq<string>, specifications: string, context: string): string
  {
    Fill([IdeaHead, IdeaSpecs, IdeaContext, IdeaTail], [Join(", ", domains), specifications, context])
  }

  /** The search query names every domain and the specifications verbatim. */
  lemma IdeaQueryMentions(domains: seq<string>, specifications: string)
    ensures forall k :: 0 <= k < |domains| ==> Contains(IdeaQuery(domains, specifications), domains[k])
    ensures Contains(IdeaQuery(domains, specifications), specifications)
  {
    var all := domains + [specifications];
    forall k | 0 <= k < |domains| ensures Contains(IdeaQuery(domains, specifications), domains[k]) {
      JoinContains(" ", all, k);
      assert all[k] == domains[k];
    }
    JoinContains(" ", all, |domains|);
  }

  /** The prompt embeds every domain, the specifications and the context verbatim. */
  lemma IdeaPromptEmbeds(domains: seq<string>, specifications: string, context: string)
    ensures forall k :: 0 <= k < |domains| ==> Contains(IdeaPrompt(domains, specifications, context), domains[k])
    ensures Contains(IdeaPrompt(domains, specifications, context), specifications)
    ensures Contains(IdeaPrompt(domains, specifications, context), context)
  {
    var parts := [IdeaHead, IdeaSpecs, IdeaContext, IdeaTail];
    var values := [Join(", ", domains), specifications, context];
    var p := Fill(parts, values);
    FillEmbeds(parts, values, 0);
    forall k | 0 <= k < |domains| ensures Contains(p, domains[k]) {
      JoinContains(", ", domains, k);
      ContainsTransitive(p, values[0], domains[k]);
    }
    FillEmbeds(parts, values, 1);
    FillEmbeds(parts, values, 2);
  }

  /** What `generate_idea_prompt(domains, specifications)` returns or raises. */
  function IdeaRequest(b: Backend, domains: seq<string>, specifications: string): Result<string, SearchError>
  {
    match Retrieve(b, IdeaQuery(domains, specifications))
    case Failure(e) => Failure(e)
    case Success(found) => Success(IdeaPrompt(domains, specifications, found.context))
  }

  /** `generate_idea_prompt`: retrieve context for the joined query, then fill the template. */
  method GenerateIdeaPrompt(b: Backend, domains: seq<string>, specifications: string)
    returns (r: Result<string, SearchError>)
    ensures r == IdeaRequest(b, domains, specifications)
    ensures r.Success? ==> Contains(r.value, specifications)
  {
    var found := Query(b, IdeaQuery(domains, specifications));
    if found.Failure? {
      return Failure(found.error);
    }
    IdeaPromptEmbeds(domains, specifications, found.value.context);
    return Success(IdeaPrompt(domains, specifications, found.value.context));
  }

  /** The explore page's prompt around the retrieved context and the question. */
  function ChatPrompt(context: string, question: string): string
  {
    Fill([ChatHead, ChatQuestion, ChatTail], [context, question])
  }

  /** The chat prompt embeds the context and the question verbatim. */
  lemma ChatPromptEmbeds(context: string, question: string)
    ensures Contains(ChatPrompt(context, question), context)
    ensures Contains(ChatPrompt(context, question), question)
  {
    FillEmbeds([ChatHead, ChatQuestion, ChatTail], [context, question], 0);
    FillEmbeds([ChatHead, ChatQuestion, ChatTail], [context, question], 1);
  }
}
