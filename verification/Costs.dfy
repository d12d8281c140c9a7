/**
 What the two prompt adapters charge over a whole run: the tokens that the accepted documents state.
 */
module Costs {
  import opened Wire
  import opened Fetching
  import opened Budget
  import opened Answers
  import opened Prompts

  /** The positive token counts of these documents, summed. */
  function TokenSum(docs: seq<Json>, tokens: Json -> int): real {
    if docs == [] then 0.0
    else
      var n := tokens(docs[|docs| - 1]);
      TokenSum(docs[..|docs| - 1], tokens) + if n > 0 then n as real else 0.0
  }

  lemma {:induction false} CostsAreTokens(log: seq<Accepted>, docs: seq<Json>, tokens: Json -> int)
    requires |log| == |docs|
    requires forall i :: 0 <= i < |log| ==> CostIs(log[i].cost, tokens(docs[i]))
    ensures SumCosts(log) == TokenSum(docs, tokens)
  {
    if log != [] {
      var n := |log| - 1;
      CostsAreTokens(log[..n], docs[..n], tokens);
      assert CostIs(log[n].cost, tokens(docs[n]));
    }
  }

  /** The adapter reports, for each document it can read, that many tokens. */
  ghost predicate Charges(a: Adapter, tokens: Json -> int) {
    && NeedsDocument(a)
    && forall st: AdapterState, doc: Json {:trigger a.parse(st, Some(doc))} ::
         a.parse(st, Some(doc)).1.Some? ==> CostIs(a.cost(a.parse(st, Some(doc)).0), tokens(doc))
  }

  lemma OpenAICharges(prompts: seq<string>)
    ensures Charges(OpenAI(prompts), (doc: Json) => TokensUnder(doc, "total_tokens"))
  {
    forall st: AdapterState, doc: Json | OpenAI(prompts).parse(st, Some(doc)).1.Some?
      ensures CostIs(OpenAI(prompts).cost(OpenAI(prompts).parse(st, Some(doc)).0),
                     TokensUnder(doc, "total_tokens"))
    {
      OpenAIReads(prompts, st, Some(doc));
    }
  }

  lemma AnthropicCharges(prompts: seq<string>)
    ensures Charges(Anthropic(prompts), (doc: Json) =>
              TokensUnder(doc, "input_tokens") + TokensUnder(doc, "output_tokens"))
  {
    forall st: AdapterState, doc: Json | Anthropic(prompts).parse(st, Some(doc)).1.Some?
      ensures CostIs(Anthropic(prompts).cost(Anthropic(prompts).parse(st, Some(doc)).0),
                     TokensUnder(doc, "input_tokens") + TokensUnder(doc, "output_tokens"))
    {
      AnthropicReads(prompts, st, Some(doc));
    }
  }

  lemma ChargedPerDocument(e: Setup, tokens: Json -> int, ticks: seq<Tick>)
    requires Charges(e.adapter, tokens)
    ensures SumCosts(Play(e, ticks).core.log) == TokenSum(Documents(e, ticks), tokens)
  {
    var log, docs := Play(e, ticks).core.log, Documents(e, ticks);
    forall i | 0 <= i < |log|
      ensures CostIs(log[i].cost, tokens(docs[i]))
    {
      var st := BatchFromDocument(e, ticks, i);
      assert e.adapter.parse(st, Some(docs[i])).1.Some?;
    }
    CostsAreTokens(log, docs, tokens);
  }

  /** Costs, and between fetch cycles the spending of a policy with a budget, are those tokens. */
  predicate TokensCharged(e: Setup, l: Lane, docs: seq<Json>, tokens: Json -> int) {
    && SumCosts(l.core.log) == TokenSum(docs, tokens)
    && (Quiet(l) && e.policy.budget.Some? ==> l.core.spent == TokenSum(docs, tokens))
  }

  lemma ChargedAlways(e: Setup, tokens: Json -> int, ticks: seq<Tick>)
    requires Charges(e.adapter, tokens)
    ensures TokensCharged(e, Play(e, ticks), Documents(e, ticks), tokens)
  {
    ChargedPerDocument(e, tokens, ticks);
    if Quiet(Play(e, ticks)) && e.policy.budget.Some? { CumulativeIsSum(e, ticks); }
  }

  /** With openai, on every run: the cumulative cost is the sum of usage.total_tokens, where positive,
      over the accepted documents. */
  lemma OpenAICosts(e: Setup, prompts: seq<string>, ticks: seq<Tick>)
    requires e.adapter == OpenAI(prompts)
    ensures TokensCharged(e, Play(e, ticks), Documents(e, ticks),
                          (doc: Json) => TokensUnder(doc, "total_tokens"))
  {
    OpenAICharges(prompts);
    ChargedAlways(e, (doc: Json) => TokensUnder(doc, "total_tokens"), ticks);
  }

  /** With anthropic, of usage.input_tokens + usage.output_tokens. */
  lemma AnthropicCosts(e: Setup, prompts: seq<string>, ticks: seq<Tick>)
    requires e.adapter == Anthropic(prompts)
    ensures TokensCharged(e, Play(e, ticks), Documents(e, ticks), (doc: Json) =>
              TokensUnder(doc, "input_tokens") + TokensUnder(doc, "output_tokens"))
  {
    AnthropicCharges(prompts);
    ChargedAlways(e, (doc: Json) =>
      TokensUnder(doc, "input_tokens") + TokensUnder(doc, "output_tokens"), ticks);
  }
}
