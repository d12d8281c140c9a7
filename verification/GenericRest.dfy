/**
 GenericRestAdapter: token-chain pagination. The cursor's next token is read from the document
 that the last parse left behind.
 */
module GenericRest {
  import opened Wire
  import opened Fetching
  import opened Chain
  import opened Delivery
  import opened DefaultPolicy
  import opened Windows
  import opened Prefetch
  import opened Projection
  import opened Completion
  import opened Answers

  datatype RestConfig = RestConfig(dataField: string, nextField: string)

  /** nlohmann's empty(): null, [] and {} are. */
  predicate IsEmpty(j: Json) { j == Null || j == Arr([]) || j == Obj(map[]) }

  function ParseWith(cfg: RestConfig, st: AdapterState, body: Option<Json>)
    : (AdapterState, Option<Batch>)
  {
    match body
    case None => (st, None)
    case Some(doc) =>
      match doc.Field(cfg.dataField)
      case Some(Arr(items)) => (AdapterState(doc, 0), Some(items))
      case _ => (AdapterState(doc, 0), None)
  }

  /** The token named by the document, if it names one. */
  function NextToken(cfg: RestConfig, doc: Json): Option<string> {
    match doc.Field(cfg.nextField)
    case Some(Null) => None
    case Some(Str(s)) => Some(s)
    case Some(_) => Some("")
    case None => None
  }

  function NextWith(cfg: RestConfig, st: AdapterState, current: Cursor): Cursor {
    var token := NextToken(cfg, st.lastParsed);
    var next :=
      if token.Some? then current.(token := token.value, exhausted := false)
      else current.(token := "", exhausted := true);
    var data := st.lastParsed.Field(cfg.dataField);
    if data.Some? && IsEmpty(data.value) then next.(exhausted := true) else next
  }

  function AsAdapter(cfg: RestConfig): Adapter {
    Adapter((c: Cursor) => Page(c.token),
            (st: AdapterState, body: Option<Json>) => ParseWith(cfg, st, body),
            (st: AdapterState, c: Cursor) => NextWith(cfg, st, c),
            (st: AdapterState) => None)
  }

  class GenericRestAdapter {
    const cfg: RestConfig
    var lastParsed: Json

    function State(): AdapterState
      reads this
    {
      AdapterState(lastParsed, 0)
    }

    constructor (cfg: RestConfig)
      ensures this.cfg == cfg && State() == FRESH_ADAPTER
    {
      this.cfg := cfg;
      lastParsed := Null;
    }

    /** False leaves the caller's batch alone; the parsed document is kept even so. */
    method ParseResponse(body: Option<Json>, out: Batch) returns (ok: bool, batch: Batch)
      modifies this
      ensures (State(), if ok then Some(batch) else None) == ParseWith(cfg, old(State()), body)
      ensures !ok ==> batch == out
      ensures forall items ::
                ok && batch == items <==> body.Some? && HoldsList(body.value, cfg.dataField, items)
    {
      ok, batch := false, out;
      if body.None? { return; }
      lastParsed := body.value;
      var data := lastParsed.Field(cfg.dataField);
      if data.None? || !data.value.Arr? { return; }
      ok, batch := true, data.value.items;
    }

    method NextCursor(current: Cursor) returns (next: Cursor)
      ensures next == NextWith(cfg, State(), current)
    {
      next := current;
      var token := lastParsed.Field(cfg.nextField);
      if token.Some? && token.value != Null {
        next := next.(token := if token.value.Str? then token.value.s else "", exhausted := false);
      } else {
        next := next.(token := "", exhausted := true);
      }
      var data := lastParsed.Field(cfg.dataField);
      if data.Some? && IsEmpty(data.value) {
        next := next.(exhausted := true);
      }
    }
  }

  /** What the engine theorems ask of an adapter. */
  lemma KeepsPromises(cfg: RestConfig)
    ensures var a := AsAdapter(cfg); HistoryFree(a) && WindowBlind(a) && Carries(a)
  {
  }

  /** A page is the list the document holds under the data field, in order, and nothing else is a
      page. The document is kept either way. */
  lemma PageIsTheList(cfg: RestConfig, st: AdapterState, body: Option<Json>)
    ensures var (st', batch) := AsAdapter(cfg).parse(st, body);
            && (forall items ::
                  batch == Some(items) <==> body.Some? && HoldsList(body.value, cfg.dataField, items))
            && st'.lastParsed == if body.Some? then body.value else st.lastParsed
  {
  }

  /** The document names a next token: any value but null under that key. */
  predicate NamesToken(doc: Json, key: string) {
    doc.Obj? && key in doc.fields && doc.fields[key] != Null
  }

  /** The token it names; one that is not a string counts as the empty token. */
  function TokenNamed(doc: Json, key: string): string
    requires NamesToken(doc, key)
  {
    if doc.fields[key].Str? then doc.fields[key].s else ""
  }

  /** The document's page is the last: it has no records, or names no next token. */
  predicate IsLast(cfg: RestConfig, doc: Json) {
    HoldsList(doc, cfg.dataField, []) || !NamesToken(doc, cfg.nextField)
  }

  /** After a successful parse the stream goes on exactly if the page has records and names a
      next token; that token is then the next request. */
  lemma GoesOnIff(cfg: RestConfig, st: AdapterState, doc: Json, c: Cursor)
    requires AsAdapter(cfg).parse(st, Some(doc)).1.Some?
    ensures var next := AsAdapter(cfg).next(AsAdapter(cfg).parse(st, Some(doc)).0, c);
            && (next.exhausted <==> IsLast(cfg, doc))
            && (NamesToken(doc, cfg.nextField) ==>
                  AsAdapter(cfg).build(next) == Page(TokenNamed(doc, cfg.nextField)))
            && (!NamesToken(doc, cfg.nextField) ==> next.token == "")
            && next == c.(token := next.token, exhausted := next.exhausted)
  {
  }

  lemma RestEnder(cfg: RestConfig)
    ensures Ender(AsAdapter(cfg), (doc: Json) => IsLast(cfg, doc))
  {
  }

  /** On every run the cursor is exhausted exactly from the first accepted last page on. */
  lemma RestEnds(e: Setup, rest: RestConfig, ticks: seq<Tick>)
    requires e.adapter == AsAdapter(rest) && KeepsKey(e.policy)
    ensures EndsThere(e, (doc: Json) => IsLast(rest, doc), Documents(e, ticks),
                      Play(e, ticks).core.cursor)
  {
    RestEnder(rest);
    EndsExactly(e, (doc: Json) => IsLast(rest, doc), ticks);
  }

  lemma PolicyKeepsKey(p: Policy, cfg: Config)
    requires Follows(p, cfg)
    ensures KeepsKey(p)
  {
    forall c: Cursor, ok: bool
      ensures p.adjust(c, ok) == c.(end := p.adjust(c, ok).end)
    {
      assert p.adjust(c, ok) == AdjustCursor(cfg, c, ok);
    }
  }

  /** Tokens that lead from page to page: the first is the one the stream starts with, each other the
      one that the page before it names. */
  predicate FollowsTokens(rest: RestConfig, server: Server, first: string, tokens: seq<string>) {
    && (tokens != [] ==> tokens[0] == first)
    && forall i :: 0 <= i < |tokens| - 1 ==>
         NamesNext(server(Page(tokens[i])), rest.nextField, tokens[i + 1])
  }

  predicate NamesNext(doc: Json, key: string, token: string) {
    NamesToken(doc, key) && TokenNamed(doc, key) == token
  }

  /** These are the records of those pages, page by page; only the last page may be a last one. */
  predicate ArePages(rest: RestConfig, server: Server, tokens: seq<string>, got: seq<Batch>) {
    && |tokens| == |got|
    && (forall i :: 0 <= i < |got| ==> HoldsList(server(Page(tokens[i])), rest.dataField, got[i]))
    && (forall i :: 0 <= i < |got| - 1 ==> !IsLast(rest, server(Page(tokens[i]))))
  }

  /** From the page at cursor `c`, whose records are `batch`, the documents lead to cursor `d`. */
  predicate Leads(rest: RestConfig, server: Server, c: Cursor, batch: Batch, d: Cursor) {
    var doc := server(Page(c.token));
    && HoldsList(doc, rest.dataField, batch)
    && (d.exhausted <==> IsLast(rest, doc))
    && (NamesToken(doc, rest.nextField) ==> d.token == TokenNamed(doc, rest.nextField))
  }

  lemma ChainLeads(e: Setup, rest: RestConfig, server: Server, k: nat)
    requires e.adapter == AsAdapter(rest) && KeepsKey(e.policy) && ChainBatch(e, server, k).Some?
    ensures Leads(rest, server, ChainCursor(e, server, k), ChainBatch(e, server, k).value,
                  ChainCursor(e, server, k + 1))
  {
    var c := ChainCursor(e, server, k);
    var doc := server(Page(c.token));
    PageIsTheList(rest, FRESH_ADAPTER, Some(doc));
    GoesOnIff(rest, FRESH_ADAPTER, doc, c);
    var next := AsAdapter(rest).next(AsAdapter(rest).parse(FRESH_ADAPTER, Some(doc)).0, c);
    assert e.policy.adjust(next, true) == next.(end := e.policy.adjust(next, true).end);
    assert ChainCursor(e, server, k + 1) == e.policy.adjust(next, true);
  }

  /** The first cursors of the chain, and that these batches are its pages. */
  predicate OnTheChain(e: Setup, server: Server, got: seq<Batch>, cursors: seq<Cursor>) {
    && |cursors| == |got| + 1
    && (forall i :: 0 <= i < |cursors| ==> cursors[i] == ChainCursor(e, server, i))
    && forall i :: 0 <= i < |got| ==>
         !cursors[i].exhausted && Some(got[i]) == ChainBatch(e, server, i)
  }

  lemma LeadsAt(
    e: Setup, rest: RestConfig, server: Server, got: seq<Batch>, cursors: seq<Cursor>, i: nat)
    requires e.adapter == AsAdapter(rest) && KeepsKey(e.policy)
    requires OnTheChain(e, server, got, cursors) && i < |got|
    ensures Leads(rest, server, cursors[i], got[i], cursors[i + 1])
  {
    assert Some(got[i]) == ChainBatch(e, server, i);
    assert cursors[i] == ChainCursor(e, server, i) && cursors[i + 1] == ChainCursor(e, server, i + 1);
    ChainLeads(e, rest, server, i);
  }

  predicate LeadsAll(rest: RestConfig, server: Server, got: seq<Batch>, cursors: seq<Cursor>) {
    && |cursors| == |got| + 1
    && (forall i :: 0 <= i < |got| ==> !cursors[i].exhausted)
    && forall i :: 0 <= i < |got| ==> Leads(rest, server, cursors[i], got[i], cursors[i + 1])
  }

  /** Tokens of cursors that lead from page to page. */
  lemma PagesOf(
    rest: RestConfig, server: Server, got: seq<Batch>, cursors: seq<Cursor>, tokens: seq<string>)
    requires LeadsAll(rest, server, got, cursors) && |tokens| == |got|
    requires forall i :: 0 <= i < |tokens| ==> tokens[i] == cursors[i].token
    ensures FollowsTokens(rest, server, cursors[0].token, tokens)
    ensures ArePages(rest, server, tokens, got)
    ensures got != [] && cursors[|got|].exhausted ==> IsLast(rest, server(Page(tokens[|got| - 1])))
  {
    forall i | 0 <= i < |got|
      ensures HoldsList(server(Page(tokens[i])), rest.dataField, got[i])
    {
      assert Leads(rest, server, cursors[i], got[i], cursors[i + 1]);
    }
    forall i | 0 <= i < |got| - 1
      ensures !IsLast(rest, server(Page(tokens[i])))
      ensures NamesNext(server(Page(tokens[i])), rest.nextField, tokens[i + 1])
    {
      assert Leads(rest, server, cursors[i], got[i], cursors[i + 1]);
      assert !cursors[i + 1].exhausted && tokens[i + 1] == cursors[i + 1].token;
    }
    if got != [] {
      assert Leads(rest, server, cursors[|got| - 1], got[|got| - 1], cursors[|got| - 1 + 1]);
    }
  }

  /** The cursors behind what the caller received. */
  lemma DeliveredLeads(e: Setup, rest: RestConfig, server: Server, acts: seq<Action>)
    returns (cursors: seq<Cursor>)
    requires e.adapter == AsAdapter(rest) && KeepsKey(e.policy) && Faithful(e, server)
    ensures var got := Delivered(Exec(e, acts).returned);
            && OnTheChain(e, server, got, cursors) && LeadsAll(rest, server, got, cursors)
  {
    var got := Delivered(Exec(e, acts).returned);
    cursors := seq(|got| + 1, i requires 0 <= i => ChainCursor(e, server, i));
    KeepsPromises(rest);
    DeliveredFromChain(e, server, true, acts);
    ExecIsPlay(e, acts);
    FaultTransparency(e, server, true, Ticks(e, acts));
    DeliveredPrefix(e, acts);
    forall i | 0 <= i < |got|
      ensures Leads(rest, server, cursors[i], got[i], cursors[i + 1])
    {
      LeadsAt(e, rest, server, got, cursors, i);
    }
  }

  /** generic_rest with the default policy: whatever faults are inserted, 429s included, and
      whatever is cancelled or times out, in both modes, the k-th batch the caller receives is the
      list in the server's k-th page, found by following the documents' own next tokens. */
  lemma RestDeliversChain(
    e: Setup, rest: RestConfig, cfg: Config, server: Server, acts: seq<Action>)
    returns (tokens: seq<string>)
    requires e.adapter == AsAdapter(rest) && Follows(e.policy, cfg) && Faithful(e, server)
    ensures FollowsTokens(rest, server, e.initial.token, tokens)
    ensures ArePages(rest, server, tokens, Delivered(Exec(e, acts).returned))
  {
    PolicyKeepsKey(e.policy, cfg);
    var cursors := DeliveredLeads(e, rest, server, acts);
    tokens := TokensOf(e, rest, server, Delivered(Exec(e, acts).returned), cursors);
  }

  lemma TokensOf(
    e: Setup, rest: RestConfig, server: Server, got: seq<Batch>, cursors: seq<Cursor>)
    returns (tokens: seq<string>)
    requires OnTheChain(e, server, got, cursors) && LeadsAll(rest, server, got, cursors)
    ensures FollowsTokens(rest, server, e.initial.token, tokens) && ArePages(rest, server, tokens, got)
    ensures got != [] && cursors[|got|].exhausted ==> IsLast(rest, server(Page(tokens[|got| - 1])))
  {
    tokens := seq(|got|, i requires 0 <= i < |got| => cursors[i].token);
    assert cursors[0] == ChainCursor(e, server, 0) == e.initial;
    PagesOf(rest, server, got, cursors, tokens);
  }

  /** And when the stream reports completion, they are all of its pages, down to a last one. */
  lemma RestDeliversAll(
    e: Setup, rest: RestConfig, cfg: Config, server: Server, acts: seq<Action>)
    returns (tokens: seq<string>)
    requires e.adapter == AsAdapter(rest) && Follows(e.policy, cfg) && Faithful(e, server)
    requires !e.initial.exhausted && StreamSaysOk(Exec(e, acts))
    ensures FollowsTokens(rest, server, e.initial.token, tokens) && tokens != []
    ensures ArePages(rest, server, tokens, Delivered(Exec(e, acts).returned))
    ensures IsLast(rest, server(Page(tokens[|tokens| - 1])))
  {
    var got := Delivered(Exec(e, acts).returned);
    PolicyKeepsKey(e.policy, cfg);
    var cursors := DeliveredLeads(e, rest, server, acts);
    AllDelivered(e, rest, server, acts, cursors);
    tokens := TokensOf(e, rest, server, got, cursors);
  }

  lemma AllDelivered(
    e: Setup, rest: RestConfig, server: Server, acts: seq<Action>, cursors: seq<Cursor>)
    requires e.adapter == AsAdapter(rest) && KeepsKey(e.policy) && Faithful(e, server)
    requires !e.initial.exhausted && StreamSaysOk(Exec(e, acts))
    requires OnTheChain(e, server, Delivered(Exec(e, acts).returned), cursors)
    ensures var got := Delivered(Exec(e, acts).returned); got != [] && cursors[|got|].exhausted
  {
    KeepsPromises(rest);
    CompletionIsHonest(e, server, true, acts);
    assert ChainCursor(e, server, 0) == e.initial;
  }
}
