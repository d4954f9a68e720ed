/**
 * The initial-recommendation flow: its input and output schemas, the choice among the five prompt
 * variants that the nested Handlebars conditions of the prompt template make, and the flow that
 * validates the input, sends the chosen prompt to the AI service and validates the reply.
 * The template text itself is opaque; only which variant is chosen, and which input fields it
 * interpolates, is modelled.
 */
module Recommendation {
  import opened Wrappers
  import opened JsonValues

  /** The most data-bundle URIs the input schema admits. */
  const MaxUris: nat := 10

  /** The flow's input: bundle URIs, an optional sector or industry and two display hints. */
  datatype RecommendationInput = RecommendationInput(
    uris: seq<string>,
    sector: Option<string>,
    ticker: Option<string>,
    companyName: Option<string>)

  /** The structured reply every prompt variant must produce. */
  datatype RecommendationOutput = RecommendationOutput(recommendation: string, reasoning: seq<string>)

  /** The five prompt variants of the template. */
  datatype Mode = SectorAnalysis | TopPick | CompareTwo | SingleStock | AiPick

  /** The input fields a prompt variant interpolates. */
  datatype Slot = SectorSlot | UriSlot(index: nat) | TickerSlot | CompanyNameSlot

  /** Why a flow run failed: the input or the reply did not pass its schema, or the service failed. */
  datatype FlowError = InvalidInput | InvalidOutput | ServiceFailure(message: string)

  /** What the AI service answers to a prompt: a JSON reply or a failure. */
  datatype ModelReply = Replied(reply: Json) | ServiceFailed(message: string)

  /** The input schema: at most ten URIs (the field types are checked by the type system). */
  predicate InputConforms(x: RecommendationInput) {
    |x.uris| <= MaxUris
  }

  /** Handlebars truthiness of an optional string: defined and not empty. */
  predicate Truthy(s: Option<string>) {
    s.Some? && s.value != ""
  }

  /** `uris.[i]` in the template: the URI at index `i`, or `undefined` past the end. */
  function UriAt(uris: seq<string>, i: nat): (r: Option<string>)
    ensures r.Some? <==> i < |uris|
    ensures r.Some? ==> r.value == uris[i]
  {
    if i < |uris| then Some(uris[i]) else None
  }

  /**
   * The input shape that selects each variant, written as five flat conditions independently of
   * the nesting of the template.
   */
  predicate HasShape(m: Mode, x: RecommendationInput) {
    match m
    case SectorAnalysis => Truthy(x.sector)
    case AiPick => !Truthy(x.sector) && |x.uris| == 0
    case SingleStock => !Truthy(x.sector) && |x.uris| >= 1 && (|x.uris| == 1 || x.uris[1] == "")
    case CompareTwo =>
      !Truthy(x.sector) && |x.uris| >= 2 && x.uris[1] != "" && (|x.uris| == 2 || x.uris[2] == "")
    case TopPick => !Truthy(x.sector) && |x.uris| >= 3 && x.uris[1] != "" && x.uris[2] != ""
  }

  /** The variant the nested `{{#if sector}}`, `{{#if uris.length}}`, `{{#if uris.[1]}}`, `{{#if uris.[2]}}` pick. */
  function SelectMode(x: RecommendationInput): (m: Mode)
    ensures HasShape(m, x)
  {
    if Truthy(x.sector) then SectorAnalysis
    else if |x.uris| > 0 then
      if Truthy(UriAt(x.uris, 1)) then
        if Truthy(UriAt(x.uris, 2)) then TopPick else CompareTwo
      else SingleStock
    else AiPick
  }

  /** No input has two shapes, so the five shapes partition the inputs. */
  lemma ShapesAreExclusive(x: RecommendationInput, m1: Mode, m2: Mode)
    requires HasShape(m1, x) && HasShape(m2, x)
    ensures m1 == m2
  {
  }

  /** The variant chosen is the one whose shape the input has, and no other. */
  lemma SelectModeIffShape(x: RecommendationInput, m: Mode)
    ensures SelectMode(x) == m <==> HasShape(m, x)
  {
    if HasShape(m, x) {
      ShapesAreExclusive(x, m, SelectMode(x));
    }
  }

  /** A non-empty sector wins whatever the URIs are. */
  lemma SectorWins(x: RecommendationInput, s: string)
    requires s != ""
    ensures SelectMode(x.(sector := Some(s))) == SectorAnalysis
  {
  }

  /** The ticker and company name never influence the choice. */
  lemma DisplayHintsDoNotRoute(x: RecommendationInput, ticker: Option<string>, companyName: Option<string>)
    ensures SelectMode(x.(ticker := ticker, companyName := companyName)) == SelectMode(x)
  {
  }

  /** An empty second URI is falsy: `["a", ""]` selects the single-stock variant. */
  lemma EmptySecondUriIsSingle(a: string)
    ensures SelectMode(RecommendationInput([a, ""], None, None, None)) == SingleStock
  {
  }

  /**
   * Routing is by truthiness, not by count: three URIs whose second is empty select the
   * single-stock variant, and three whose third is empty select the comparison.
   */
  lemma RoutingIsNotByCount(a: string, b: string, c: string)
    requires b != ""
    ensures SelectMode(RecommendationInput([a, "", c], None, None, None)) == SingleStock
    ensures SelectMode(RecommendationInput([a, b, ""], None, None, None)) == CompareTwo
  {
  }

  /** The fields each variant interpolates: `{{sector}}`, `{{uris.[0]}}`/`{{uris.[1]}}`, `{{ticker}}`/`{{companyName}}`. */
  function Slots(m: Mode): (r: set<Slot>)
    ensures TickerSlot in r || CompanyNameSlot in r ==> m == SingleStock
    ensures forall s :: s in r && s.UriSlot? ==> m == CompareTwo && s.index < 2
  {
    match m
    case SectorAnalysis => {SectorSlot}
    case TopPick => {}
    case CompareTwo => {UriSlot(0), UriSlot(1)}
    case SingleStock => {TickerSlot, CompanyNameSlot}
    case AiPick => {}
  }

  /**
   * Every sector or URI slot of the chosen variant is filled by a defined value, and every one
   * but `uris.[0]` by a non-empty one. The ticker and company name are not checked by any
   * condition: the single-stock variant interpolates whatever the caller passed.
   */
  lemma {:induction false} ChosenSlotsAreDefined(x: RecommendationInput)
    ensures forall s :: s in Slots(SelectMode(x)) && s.UriSlot? ==> s.index < |x.uris|
    ensures forall s :: s in Slots(SelectMode(x)) && s.UriSlot? && s.index > 0 ==> x.uris[s.index] != ""
    ensures SectorSlot in Slots(SelectMode(x)) ==> Truthy(x.sector)
  {
    var m := SelectMode(x);
    if m == CompareTwo {
      assert |x.uris| >= 2 && x.uris[1] != "";
      forall s | s in Slots(m) ensures s == UriSlot(0) || s == UriSlot(1) { }
    }
  }

  /** `items` as a JSON array of strings. */
  function JsonStrings(items: seq<string>): (r: seq<Json>)
    ensures |r| == |items|
    ensures forall k :: 0 <= k < |items| ==> r[k] == JString(items[k])
  {
    seq(|items|, k requires 0 <= k < |items| => JString(items[k]))
  }

  /** A zod `z.array(z.string())` check: the strings when every item is one. */
  function StringItems(items: seq<Json>): (r: Option<seq<string>>)
    ensures r.Some? <==> forall k :: 0 <= k < |items| ==> items[k].JString?
    ensures r.Some? ==> items == JsonStrings(r.value)
    decreases |items|
  {
    if items == [] then Some([])
    else if !items[0].JString? then None
    else
      match StringItems(items[1..])
      case None => None
      case Some(rest) => Some([items[0].s] + rest)
  }

  /** The output schema: an object with a `recommendation` string and a `reasoning` string array. */
  function ParseOutput(j: Json): (r: Option<RecommendationOutput>)
    ensures r.Some? ==> j.JObject? && "recommendation" in j.fields && "reasoning" in j.fields
    ensures r.Some? ==> j.fields["recommendation"] == JString(r.value.recommendation)
    ensures r.Some? ==> j.fields["reasoning"] == JArray(JsonStrings(r.value.reasoning))
  {
    if !j.JObject? then None
    else
      match StringField(j.fields, "recommendation")
      case None => None
      case Some(text) =>
        if "reasoning" !in j.fields || !j.fields["reasoning"].JArray? then None
        else
          match StringItems(j.fields["reasoning"].items)
          case None => None
          case Some(bullets) => Some(RecommendationOutput(text, bullets))
  }

  /** An output as the JSON object the AI service returns for it. */
  function OutputJson(o: RecommendationOutput): Json {
    JObject(map["recommendation" := JString(o.recommendation), "reasoning" := JArray(JsonStrings(o.reasoning))])
  }

  /** Every output passes the schema once encoded, and decodes to itself, whatever other keys the reply carries. */
  lemma {:induction false} ParseOutputJson(o: RecommendationOutput, extra: map<string, Json>)
    ensures ParseOutput(OutputJson(o)) == Some(o)
    ensures ParseOutput(JObject(extra + OutputJson(o).fields)) == Some(o)
  {
    StringsRoundTrip(o.reasoning);
    var fields := OutputJson(o).fields;
    assert StringField(fields, "recommendation") == Some(o.recommendation);
    var all := extra + fields;
    assert all["recommendation"] == fields["recommendation"] && all["reasoning"] == fields["reasoning"];
    assert StringField(all, "recommendation") == Some(o.recommendation);
    assert all["reasoning"] == JArray(JsonStrings(o.reasoning));
    assert StringItems(all["reasoning"].items) == Some(o.reasoning);
    assert StringItems(fields["reasoning"].items) == Some(o.reasoning);
  }

  /** Decoding a JSON string array gives back the strings. */
  lemma {:induction false} StringsRoundTrip(items: seq<string>)
    ensures StringItems(JsonStrings(items)) == Some(items)
    decreases |items|
  {
    if items != [] {
      StringsRoundTrip(items[1..]);
      var js := JsonStrings(items);
      assert js[1..] == JsonStrings(items[1..]);
      assert js[0] == JString(items[0]);
      assert [items[0]] + items[1..] == items;
    }
  }

  /** The schema sets no bounds on the strings: an empty recommendation with no bullets passes. */
  lemma SchemaAdmitsEmptyReply()
    ensures ParseOutput(OutputJson(RecommendationOutput("", []))) == Some(RecommendationOutput("", []))
  {
    ParseOutputJson(RecommendationOutput("", []), map[]);
  }

  /**
   * One run of the flow: the input is checked against its schema, the prompt variant it selects
   * is sent to the AI service (`reply` gives the service's answer to each variant) and the reply
   * is checked against the output schema.
   */
  function Flow(x: RecommendationInput, reply: Mode -> ModelReply): (r: Result<RecommendationOutput, FlowError>)
    ensures !InputConforms(x) ==> r == Failure(InvalidInput)
    ensures r.Success? ==> reply(SelectMode(x)).Replied? && ParseOutput(reply(SelectMode(x)).reply) == Some(r.value)
    ensures InputConforms(x) && reply(SelectMode(x)).Replied? && ParseOutput(reply(SelectMode(x)).reply).None?
            ==> r == Failure(InvalidOutput)
    ensures InputConforms(x) && reply(SelectMode(x)).ServiceFailed?
            ==> r == Failure(ServiceFailure(reply(SelectMode(x)).message))
  {
    if !InputConforms(x) then Failure(InvalidInput)
    else
      match reply(SelectMode(x))
      case ServiceFailed(message) => Failure(ServiceFailure(message))
      case Replied(j) =>
        match ParseOutput(j)
        case None => Failure(InvalidOutput)
        case Some(o) => Success(o)
  }

  /** Only the chosen variant's reply matters: answers to the other four prompts never change the result. */
  lemma FlowAsksOnlyChosenVariant(x: RecommendationInput, reply1: Mode -> ModelReply, reply2: Mode -> ModelReply)
    requires reply1(SelectMode(x)) == reply2(SelectMode(x))
    ensures Flow(x, reply1) == Flow(x, reply2)
  {
  }

  /** A conforming input whose chosen prompt is answered with an encoded output yields that output. */
  lemma FlowReturnsConformingReply(x: RecommendationInput, reply: Mode -> ModelReply, o: RecommendationOutput)
    requires InputConforms(x) && reply(SelectMode(x)) == Replied(OutputJson(o))
    ensures Flow(x, reply) == Success(o)
  {
    ParseOutputJson(o, map[]);
  }
}
