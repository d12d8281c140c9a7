/**
 OpenAIAdapter and AnthropicAdapter: the page token is the index of the prompt to send, written
 in decimal.
 */
module Prompts {
  import opened Wire
  import opened Decimal
  import opened Fetching
  import opened Chain
  import opened Windows

  /** The index a token spells; 0 for no token and for one that spells no number. */
  function Index(token: string): int {
    match if token == "" then None else Stoi(token)
    case Some(i) => i
    case None => 0
  }

  function PromptAt(prompts: seq<string>, i: int): Request {
    Prompt(if 0 <= i < |prompts| then prompts[i] else "")
  }

  function NextPrompt(prompts: seq<string>, current: Cursor): Cursor {
    var i := Index(current.token) + 1;
    if i >= |prompts| then current.(exhausted := true, token := "")
    else current.(token := ToText(i), exhausted := false)
  }

  function CostOfTokens(st: AdapterState): Option<real> {
    if st.lastTokens > 0 then Some(st.lastTokens as real) else None
  }

  // ---- OpenAI ----

  /** None when reading usage.total_tokens throws. */
  function TotalTokens(doc: Json): Option<int> {
    var usage := doc.Field("usage");
    match if usage.Some? then usage.value.Field("total_tokens") else None
    case Some(Num(n)) => Some(n)
    case Some(_) => None
    case None => Some(0)
  }

  function ParseChoices(st: AdapterState, body: Option<Json>): (AdapterState, Option<Batch>) {
    match body
    case None => (st, None)
    case Some(doc) =>
      match doc.Field("choices")
      case Some(Arr(items)) =>
        (match TotalTokens(doc)
         case Some(n) => (AdapterState(doc, n), Some(items))
         case None => (AdapterState(doc, 0), None))
      case _ => (st.(lastParsed := doc), None)
  }

  function OpenAI(prompts: seq<string>): Adapter {
    Adapter((c: Cursor) => PromptAt(prompts, Index(c.token)),
            ParseChoices,
            (st: AdapterState, c: Cursor) => NextPrompt(prompts, c),
            CostOfTokens)
  }

  class OpenAIAdapter {
    const prompts: seq<string>
    var lastParsed: Json
    var lastTotalTokens: int

    function State(): AdapterState
      reads this
    {
      AdapterState(lastParsed, lastTotalTokens)
    }

    constructor (prompts: seq<string>)
      ensures this.prompts == prompts && State() == FRESH_ADAPTER
    {
      this.prompts := prompts;
      lastParsed, lastTotalTokens := Null, 0;
    }

    /** The caller's batch is overwritten as soon as the choices are read, even if the usage then
        cannot be. */
    method ParseResponse(body: Option<Json>, out: Batch) returns (ok: bool, batch: Batch)
      modifies this
      ensures (State(), if ok then Some(batch) else None) == ParseChoices(old(State()), body)
      ensures forall items ::
                body.Some? && HoldsList(body.value, "choices", items) ==> batch == items
      ensures body.None? || !HoldsAList(body.value, "choices") ==> batch == out
    {
      ok, batch := false, out;
      if body.None? { return; }
      lastParsed := body.value;
      var choices := lastParsed.Field("choices");
      if choices.None? || !choices.value.Arr? { return; }
      batch := choices.value.items;
      lastTotalTokens := 0;
      var usage := lastParsed.Field("usage");
      if usage.Some? {
        var total := usage.value.Field("total_tokens");
        if total.Some? {
          if !total.value.Num? { return; }
          lastTotalTokens := total.value.n;
        }
      }
      ok := true;
    }

    method NextCursor(current: Cursor) returns (next: Cursor)
      ensures next == NextPrompt(prompts, current)
    {
      next := current;
      var promptIdx := Index(current.token);
      promptIdx := promptIdx + 1;
      if promptIdx >= |prompts| {
        next := next.(exhausted := true, token := "");
      } else {
        next := next.(token := ToText(promptIdx), exhausted := false);
      }
    }
  }

  // ---- Anthropic ----

  /** usage.value(key, 0); None when it throws. */
  function UsageValue(usage: Json, key: string): Option<int> {
    if !usage.Obj? then None
    else
      match usage.Field(key)
      case Some(Num(n)) => Some(n)
      case Some(_) => None
      case None => Some(0)
  }

  function UsageTokens(doc: Json): Option<int> {
    match doc.Field("usage")
    case None => Some(0)
    case Some(usage) =>
      var input, output := UsageValue(usage, "input_tokens"), UsageValue(usage, "output_tokens");
      if input.Some? && output.Some? then Some(input.value + output.value) else None
  }

  function ParseContent(st: AdapterState, body: Option<Json>): (AdapterState, Option<Batch>) {
    match body
    case None => (st, None)
    case Some(doc) =>
      match doc.Field("content")
      case Some(Arr(items)) =>
        (match UsageTokens(doc)
         case Some(n) => (AdapterState(doc, n), Some(items))
         case None => (AdapterState(doc, 0), None))
      case _ => (st.(lastParsed := doc), None)
  }

  function NextCounted(prompts: seq<string>, st: AdapterState, current: Cursor): Cursor {
    var next := NextPrompt(prompts, current);
    if st.lastTokens > 0 then next.SetExtra(EXTRA_TOKEN_COUNT, ToText(st.lastTokens)) else next
  }

  function Anthropic(prompts: seq<string>): Adapter {
    Adapter((c: Cursor) => PromptAt(prompts, Index(c.token)),
            ParseContent,
            (st: AdapterState, c: Cursor) => NextCounted(prompts, st, c),
            CostOfTokens)
  }

  class AnthropicAdapter {
    const prompts: seq<string>
    var lastParsed: Json
    var lastTokenCount: int

    function State(): AdapterState
      reads this
    {
      AdapterState(lastParsed, lastTokenCount)
    }

    constructor (prompts: seq<string>)
      ensures this.prompts == prompts && State() == FRESH_ADAPTER
    {
      this.prompts := prompts;
      lastParsed, lastTokenCount := Null, 0;
    }

    /** The caller's batch is overwritten as soon as the content is read, even if the usage then
        cannot be. */
    method ParseResponse(body: Option<Json>, out: Batch) returns (ok: bool, batch: Batch)
      modifies this
      ensures (State(), if ok then Some(batch) else None) == ParseContent(old(State()), body)
      ensures forall items ::
                body.Some? && HoldsList(body.value, "content", items) ==> batch == items
      ensures body.None? || !HoldsAList(body.value, "content") ==> batch == out
    {
      ok, batch := false, out;
      if body.None? { return; }
      lastParsed := body.value;
      var content := lastParsed.Field("content");
      if content.None? || !content.value.Arr? { return; }
      batch := content.value.items;
      lastTokenCount := 0;
      var usage := lastParsed.Field("usage");
      if usage.Some? {
        var input := UsageValue(usage.value, "input_tokens");
        var output := UsageValue(usage.value, "output_tokens");
        if input.None? || output.None? { return; }
        lastTokenCount := input.value + output.value;
      }
      ok := true;
    }

    method NextCursor(current: Cursor) returns (next: Cursor)
      ensures next == NextCounted(prompts, State(), current)
    {
      next := current;
      var promptIdx := Index(current.token) + 1;
      if promptIdx >= |prompts| {
        next := next.(exhausted := true, token := "");
      } else {
        next := next.(token := ToText(promptIdx), exhausted := false);
      }
      if lastTokenCount > 0 {
        next := next.SetExtra(EXTRA_TOKEN_COUNT, ToText(lastTokenCount));
      }
    }
  }

  // ---- What an answer is ----

  /** A document whose usage under `key` is absent or a number. */
  predicate CountReadable(usage: Json, key: string) {
    usage.Obj? && key in usage.fields ==> usage.fields[key].Num?
  }

  /** The number of tokens a document's usage states under `key`; 0 where it states none. */
  function TokensUnder(doc: Json, key: string): int {
    if doc.Obj? && "usage" in doc.fields && doc.fields["usage"].Obj?
       && key in doc.fields["usage"].fields && doc.fields["usage"].fields[key].Num?
    then doc.fields["usage"].fields[key].n
    else 0
  }

  /** A cost is reported only if it is positive. */
  predicate CostIs(cost: Option<real>, tokens: int) {
    cost == if tokens > 0 then Some(tokens as real) else None
  }

  /** An answer is readable exactly if it has a list of choices and any total_tokens is a number. Its
      records are the choices, in order, and its cost is total_tokens. */
  lemma OpenAIReads(prompts: seq<string>, st: AdapterState, body: Option<Json>)
    ensures var (st', batch) := OpenAI(prompts).parse(st, body);
            && (batch.Some? <==>
                  && body.Some? && HoldsAList(body.value, "choices")
                  && ("usage" in body.value.fields ==>
                        CountReadable(body.value.fields["usage"], "total_tokens")))
            && (batch.Some? ==>
                  && HoldsList(body.value, "choices", batch.value)
                  && CostIs(OpenAI(prompts).cost(st'), TokensUnder(body.value, "total_tokens")))
  {
  }

  /** Likewise with the content; any usage must be an object, its input_tokens and output_tokens, if
      any, numbers, and the cost is their sum. */
  lemma AnthropicReads(prompts: seq<string>, st: AdapterState, body: Option<Json>)
    ensures var (st', batch) := Anthropic(prompts).parse(st, body);
            && (batch.Some? <==>
                  && body.Some? && HoldsAList(body.value, "content")
                  && ("usage" in body.value.fields ==>
                        && body.value.fields["usage"].Obj?
                        && CountReadable(body.value.fields["usage"], "input_tokens")
                        && CountReadable(body.value.fields["usage"], "output_tokens")))
            && (batch.Some? ==>
                  && HoldsList(body.value, "content", batch.value)
                  && CostIs(Anthropic(prompts).cost(st'),
                            TokensUnder(body.value, "input_tokens")
                            + TokensUnder(body.value, "output_tokens")))
  {
  }

  /** Room for an entry of the cursor's extra metadata: sixteen keys, and 256 characters each. */
  predicate Room(extra: map<string, string>, key: string, value: string) {
    |value| <= 256 && (key in extra || |extra| < 16)
  }

  /** After an answer of n > 0 tokens the cursor carries n, in decimal, if there is room; otherwise
      the extra metadata stays as it was. */
  lemma TokensTravel(prompts: seq<string>, st: AdapterState, doc: Json, c: Cursor)
    requires Anthropic(prompts).parse(st, Some(doc)).1.Some?
    ensures var next := Anthropic(prompts).next(Anthropic(prompts).parse(st, Some(doc)).0, c);
            var n := TokensUnder(doc, "input_tokens") + TokensUnder(doc, "output_tokens");
            next.extra == if n > 0 && Room(c.extra, "_token_count", ToText(n))
                          then c.extra["_token_count" := ToText(n)] else c.extra
  {
    AnthropicReads(prompts, st, Some(doc));
  }

  lemma OpenAIKeepsPromises(prompts: seq<string>)
    ensures var a := OpenAI(prompts); HistoryFree(a) && WindowBlind(a) && Carries(a)
  {
  }

  lemma AnthropicForgets(prompts: seq<string>)
    ensures HistoryFree(Anthropic(prompts))
  {
  }

  lemma NextCountedIsBlind(prompts: seq<string>, st: AdapterState, c: Cursor, x: int)
    ensures NextCounted(prompts, st, c.(end := x)).(end := 0) == NextCounted(prompts, st, c).(end := 0)
    ensures NextCounted(prompts, st, c).start == c.start && NextCounted(prompts, st, c).end == c.end
  {
  }

  lemma AnthropicIsBlind(prompts: seq<string>)
    ensures WindowBlind(Anthropic(prompts)) && Carries(Anthropic(prompts))
  {
    forall st: AdapterState, c: Cursor, x: int
      ensures Anthropic(prompts).next(st, c.(end := x)).(end := 0)
           == Anthropic(prompts).next(st, c).(end := 0)
      ensures Anthropic(prompts).next(st, c).start == c.start
           && Anthropic(prompts).next(st, c).end == c.end
    {
      NextCountedIsBlind(prompts, st, c, x);
    }
  }

  // ---- Every prompt once, in order ----

  /** The adapter sends the prompt its token stands for, and moves on to the next one. `index`
      reads tokens; only its value on the tokens the adapter writes matters. */
  ghost predicate Walks(a: Adapter, prompts: seq<string>, index: string -> int) {
    && index("") == 0
    && (forall c: Cursor :: a.build(c) == PromptAt(prompts, index(c.token)))
    && (forall st: AdapterState, c: Cursor :: index(c.token) >= 0 ==>
          && (a.next(st, c).exhausted <==> index(c.token) + 1 >= |prompts|)
          && (if a.next(st, c).exhausted then a.next(st, c).token == ""
              else index(a.next(st, c).token) == index(c.token) + 1))
  }

  predicate NextIsNext(prompts: seq<string>, c: Cursor, next: Cursor) {
    && (next.exhausted <==> Index(c.token) + 1 >= |prompts|)
    && (if next.exhausted then next.token == "" else Index(next.token) == Index(c.token) + 1)
  }

  /** The index is the number the token spells, and 0 if it spells none that fits an int. */
  lemma IndexIs(token: string)
    ensures forall v :: Spells(token, v) && INT_MIN <= v <= INT_MAX ==> Index(token) == v
    ensures (forall v :: Spells(token, v) ==> !(INT_MIN <= v <= INT_MAX)) ==> Index(token) == 0
  {
    forall v
      ensures Stoi(token) == Some(v) <==> Spells(token, v) && INT_MIN <= v <= INT_MAX
    {
      StoiIff(token, v);
    }
  }

  lemma IndexReadBack(i: nat)
    requires i <= INT_MAX
    ensures Index(ToText(i)) == i
  {
    StoiOfText(i);
    assert NatText(i) != "";
  }

  lemma NextIndex(prompts: seq<string>, c: Cursor)
    requires |prompts| <= INT_MAX && Index(c.token) >= 0
    ensures NextIsNext(prompts, c, NextPrompt(prompts, c))
  {
    var i := Index(c.token) + 1;
    if i < |prompts| { IndexReadBack(i); }
  }

  /** Each adapter walks its prompts: the index printed into the token is read back. */
  lemma OpenAIWalks(prompts: seq<string>)
    requires |prompts| <= INT_MAX
    ensures Walks(OpenAI(prompts), prompts, Index)
  {
    forall st: AdapterState, c: Cursor | Index(c.token) >= 0
      ensures NextIsNext(prompts, c, OpenAI(prompts).next(st, c))
    {
      NextIndex(prompts, c);
    }
  }

  lemma CountedIndex(prompts: seq<string>, st: AdapterState, c: Cursor)
    requires |prompts| <= INT_MAX && Index(c.token) >= 0
    ensures NextIsNext(prompts, c, NextCounted(prompts, st, c))
  {
    NextIndex(prompts, c);
  }

  lemma AnthropicWalks(prompts: seq<string>)
    requires |prompts| <= INT_MAX
    ensures Walks(Anthropic(prompts), prompts, Index)
  {
    forall st: AdapterState, c: Cursor | Index(c.token) >= 0
      ensures NextIsNext(prompts, c, Anthropic(prompts).next(st, c))
    {
      CountedIndex(prompts, st, c);
    }
  }

  /** How many successes exhaust the cursor: one per prompt, and one even when there is none. */
  function Turns(prompts: seq<string>): nat { if prompts == [] then 1 else |prompts| }

  predicate PromptOrder(prompts: seq<string>, index: string -> int, f: Fetch, c: Core) {
    var k := |c.log|;
    && k <= Turns(prompts)
    && (forall i :: 0 <= i < k ==> c.log[i].req == PromptAt(prompts, i))
    && (c.cursor.exhausted <==> k == Turns(prompts))
    && (!c.cursor.exhausted ==> index(c.cursor.token) == k)
    && (BeforeAdvance(f.pc) ==> !c.cursor.exhausted)
    && (f.pc.Handle? || f.pc.Parse? || f.pc.Advance? ==> f.pc.req == PromptAt(prompts, k))
  }

  lemma PromptHandle(
    e: Setup, prompts: seq<string>, index: string -> int, f: Fetch, c: Core)
    requires KeepsKey(e.policy) && f.pc.Handle? && PromptOrder(prompts, index, f, c)
    ensures var (f', c') := HandleError(e, f, c); PromptOrder(prompts, index, f', c')
  {
    var shrunk := e.policy.adjust(c.cursor, false);
    HandleEffect(e, f, c);
    assert shrunk == c.cursor.(end := shrunk.end);
  }

  lemma PromptAdvance(
    e: Setup, prompts: seq<string>, index: string -> int, f: Fetch, c: Core)
    requires KeepsKey(e.policy) && Walks(e.adapter, prompts, index)
    requires f.pc.Advance? && PromptOrder(prompts, index, f, c)
    ensures var (f', c') := AdvanceCursor(e, f, c); PromptOrder(prompts, index, f', c')
  {
    var next := e.adapter.next(c.adapter, c.cursor);
    assert e.policy.adjust(next, true) == next.(end := e.policy.adjust(next, true).end);
  }

  lemma PromptFrame(
    prompts: seq<string>, index: string -> int, f: Fetch, c: Core, f': Fetch, c': Core)
    requires PromptOrder(prompts, index, f, c) && c'.cursor == c.cursor && c'.log == c.log
    requires BeforeAdvance(f'.pc) ==> !c.cursor.exhausted
    requires f'.pc.Handle? || f'.pc.Parse? || f'.pc.Advance?
             ==> f'.pc.req == PromptAt(prompts, |c.log|)
    ensures PromptOrder(prompts, index, f', c')
  {
  }

  lemma PromptStep(
    e: Setup, prompts: seq<string>, index: string -> int, f: Fetch, c: Core)
    requires KeepsKey(e.policy) && Walks(e.adapter, prompts, index)
    requires Running(f) && PromptOrder(prompts, index, f, c)
    ensures PromptOrder(prompts, index, Step(e, f, c).0, Step(e, f, c).1)
  {
    if f.pc.Handle? {
      PromptHandle(e, prompts, index, f, c);
    } else if f.pc.Advance? {
      PromptAdvance(e, prompts, index, f, c);
    } else {
      CursorUntouched(e, f, c);
      PromptFrame(prompts, index, f, c, Step(e, f, c).0, Step(e, f, c).1);
    }
  }

  predicate LanePrompts(e: Setup, prompts: seq<string>, index: string -> int, l: Lane) {
    if l.fetches == [] then l.core.cursor == e.initial && l.core.log == []
    else PromptOrder(prompts, index, Last(l), l.core)
  }

  lemma PromptTick(
    e: Setup, prompts: seq<string>, index: string -> int, l: Lane, t: Tick)
    requires LanePrompts(e, prompts, index, l) && !t.StepTick? && index("") == 0
    requires e.initial.token == "" && !e.initial.exhausted
    ensures LanePrompts(e, prompts, index, Play1(e, l, t))
  {
  }

  lemma {:induction false} PromptsHold(
    e: Setup, prompts: seq<string>, index: string -> int, ticks: seq<Tick>)
    requires KeepsKey(e.policy) && Walks(e.adapter, prompts, index)
    requires e.initial.token == "" && !e.initial.exhausted
    ensures LanePrompts(e, prompts, index, Play(e, ticks))
  {
    if ticks != [] {
      var l, t := Play(e, ticks[..|ticks| - 1]), ticks[|ticks| - 1];
      PromptsHold(e, prompts, index, ticks[..|ticks| - 1]);
      if !t.StepTick? { PromptTick(e, prompts, index, l, t); }
      else if !Quiet(l) { PromptStep(e, prompts, index, Last(l), l.core); }
    }
  }

  /** For every schedule of faults and cancels, the prompts of the successful requests are
      0, 1, 2, ... in order, none skipped or repeated, and the cursor becomes exhausted after
      exactly one success per prompt. */
  lemma PromptsInOrder(e: Setup, prompts: seq<string>, ticks: seq<Tick>)
    requires e.adapter == OpenAI(prompts) || e.adapter == Anthropic(prompts)
    requires KeepsKey(e.policy) && |prompts| <= INT_MAX
    requires e.initial.token == "" && !e.initial.exhausted
    ensures var c := Play(e, ticks).core;
            && (forall i :: 0 <= i < |c.log| ==>
                  c.log[i].req == Prompt(if i < |prompts| then prompts[i] else ""))
            && (c.cursor.exhausted <==> |c.log| == Turns(prompts))
            && |c.log| <= Turns(prompts)
  {
    if e.adapter == OpenAI(prompts) { OpenAIWalks(prompts); } else { AnthropicWalks(prompts); }
    PromptsHold(e, prompts, Index, ticks);
  }
}
