/**
 * The dashboard client page: its usage check and remaining-count display, the request it builds
 * from the selected stocks, the markdown of a recommendation, and the message list it updates
 * while a recommendation or a follow-up answer is on its way.
 */
module DashboardClient {
  import opened Wrappers
  import opened Users
  import opened Text
  import opened Chat
  import opened Recommendation
  import opened MultiSelect
  import Stocks
  import Actions

  /** The signed-in user as the page sees it. */
  datatype AuthUser = AuthUser(uid: string, isAnonymous: bool)

  /** The separator between ticker and company name in an option label. */
  const LabelSeparator := " - "

  /** The option a stock is offered as: its bundle path as value, `id - company name` as label. */
  function StockOption(s: Stocks.Stock): (o: SelectOption)
    ensures o.value == s.bundleGcsPath
    ensures StartsWith(o.text, s.id + LabelSeparator)
  {
    var text := s.id + LabelSeparator + s.companyName;
    assert text[..|s.id + LabelSeparator|] == s.id + LabelSeparator;
    SelectOption(s.bundleGcsPath, text)
  }

  /** `label.split(' - ')[0]`. */
  function TickerOf(text: string): string {
    Split(text, LabelSeparator)[0]
  }

  /**
   * Splitting the label of a stock whose id holds no space gives back the id; when the company
   * name does not hold the separator either, the split is exactly id and name.
   */
  lemma LabelSplitRecoversTicker(s: Stocks.Stock)
    requires ' ' !in s.id
    ensures TickerOf(StockOption(s).text) == s.id
    ensures (forall k :: !OccursAt(s.companyName, k, LabelSeparator)) ==>
              Split(StockOption(s).text, LabelSeparator) == [s.id, s.companyName]
  {
    NoOccurrenceInside(s.id, LabelSeparator, s.companyName);
    SplitAtFirst(s.id, LabelSeparator, s.companyName);
    if forall k :: !OccursAt(s.companyName, k, LabelSeparator) {
      SplitWithoutSeparator(s.companyName, LabelSeparator);
    }
  }

  /**
   * An id free of the whole separator is not enough: with id `"A -"` the separator is found
   * straddling the id and the one added after it, and the ticker comes out as `"A"`.
   */
  lemma LabelSplitNeedsMoreThanNoSeparator()
    ensures forall k :: !OccursAt("A -", k, LabelSeparator)
    ensures TickerOf(StockOption(Stocks.Stock("A -", "X", "p")).text) == "A"
  {
    forall k ensures !OccursAt("A -", k, LabelSeparator) {
      if 0 <= k && k + 3 <= 3 {
        assert "A -"[k..k + 3][0] == 'A';
      }
    }
    assert StockOption(Stocks.Stock("A -", "X", "p")).text == "A" + LabelSeparator + "- X";
    NoOccurrenceInside("A", LabelSeparator, "- X");
    SplitAtFirst("A", LabelSeparator, "- X");
  }

  /** The request of `getRecommendation`: ticker and company name are only sent for a single stock. */
  function BuildRequest(selected: seq<SelectOption>): (x: RecommendationInput)
    ensures |x.uris| == |selected| && forall k :: 0 <= k < |selected| ==> x.uris[k] == selected[k].value
    ensures x.sector == None
    ensures x.ticker.Some? <==> |selected| == 1
    ensures x.companyName.Some? ==> |selected| == 1
    ensures |selected| == 1 ==> x.ticker == Some(TickerOf(selected[0].text))
  {
    var uris := seq(|selected|, k requires 0 <= k < |selected| => selected[k].value);
    if |selected| == 1 then
      var parts := Split(selected[0].text, LabelSeparator);
      RecommendationInput(uris, None, Some(parts[0]), if |parts| > 1 then Some(parts[1]) else None)
    else RecommendationInput(uris, None, None, None)
  }

  /**
   * For one selected stock whose id holds no space and whose company name does not hold the
   * separator, the request carries exactly that stock's ticker and company name.
   */
  lemma BuildRequestSingleStock(s: Stocks.Stock)
    requires ' ' !in s.id
    requires forall k :: !OccursAt(s.companyName, k, LabelSeparator)
    ensures BuildRequest([StockOption(s)]).uris == [s.bundleGcsPath]
    ensures BuildRequest([StockOption(s)]).ticker == Some(s.id)
    ensures BuildRequest([StockOption(s)]).companyName == Some(s.companyName)
  {
    LabelSplitRecoversTicker(s);
  }

  /** The client's copy of the quota rule (`checkUsageLimit`). */
  predicate ClientBlocks(u: UserRecord) {
    u.usageCount >= 5 && !u.isSubscribed
  }

  /** The client blocks exactly the requests the server gate would refuse. */
  lemma ClientCheckMatchesGate(users: map<string, UserRecord>, uid: string, newUser: UserRecord,
                               input: RecommendationInput, traceId: string, reply: Mode -> ModelReply)
    ensures ClientBlocks(Upsert(users, uid, newUser)[uid])
            <==> Actions.Gate(users, uid, newUser, input, traceId, reply).response.Refused?
  {
    Actions.GateRefusesIffOverQuota(users, uid, newUser, input, traceId, reply);
  }

  /** `Math.max(0, 5 - usageCount)`: the free analyses left to a non-subscriber. */
  function Remaining(usageCount: nat): (r: nat)
    ensures r <= FreeAnalyses
    ensures r == 0 <==> usageCount >= FreeAnalyses
    ensures usageCount <= FreeAnalyses ==> r + usageCount == FreeAnalyses
  {
    if FreeAnalyses - usageCount > 0 then FreeAnalyses - usageCount else 0
  }

  /** A non-subscriber is shown none left exactly when the server refuses them. */
  lemma NoneLeftIffRefused(u: UserRecord)
    requires !u.isSubscribed
    ensures Remaining(u.usageCount) == 0 <==> Actions.OverQuota(u)
  {
  }

  /** The reasoning items as a markdown bullet list. */
  function Bullets(items: seq<string>): string {
    Join(seq(|items|, k requires 0 <= k < |items| => "- " + items[k]), "\n")
  }

  /** The recommendation message without the template's surrounding whitespace. */
  function MarkdownBody(o: RecommendationOutput): string {
    "**Recommendation:** " + o.recommendation + "\n\n**Reasoning:**\n" + Bullets(o.reasoning)
  }

  /** The template literal: a line break, the body, a line break and the source's indentation. */
  function Template(o: RecommendationOutput, indent: string): string {
    "\n" + MarkdownBody(o) + ("\n" + indent)
  }

  /** The message shown for a recommendation: the trimmed template. */
  function RecommendationMarkdown(o: RecommendationOutput): (r: string)
    ensures r == TrimEnd(MarkdownBody(o))
  {
    TemplateTrims(o, "      ");
    Trim(Template(o, "      "))
  }

  /**
   * Trimming the template leaves the body without its trailing whitespace, whatever the
   * indentation, so the text sent with a follow-up is the text that was shown.
   */
  lemma TemplateTrims(o: RecommendationOutput, indent: string)
    requires forall k :: 0 <= k < |indent| ==> indent[k] == ' '
    ensures Trim(Template(o, indent)) == TrimEnd(MarkdownBody(o))
  {
    var body := MarkdownBody(o);
    assert body[0] == '*';
    TrimAround("\n", body, "\n" + indent);
  }

  /** The follow-up's recommendation text equals the displayed message. */
  lemma FollowUpTextIsDisplayedText(o: RecommendationOutput)
    ensures Trim(Template(o, "  ")) == RecommendationMarkdown(o)
  {
    TemplateTrims(o, "  ");
  }

  /** The request of `getAITopPick`: the bundle URI of every stock, in order, and nothing else. */
  function TopPickRequest(stocks: seq<Stocks.Stock>): (x: RecommendationInput)
    ensures |x.uris| == |stocks| && forall k :: 0 <= k < |stocks| ==> x.uris[k] == stocks[k].bundleGcsPath
    ensures x.sector == None && x.ticker == None && x.companyName == None
  {
    RecommendationInput(seq(|stocks|, k requires 0 <= k < |stocks| => stocks[k].bundleGcsPath), None, None, None)
  }

  /**
   * The top pick sends every stock, while the input schema admits ten URIs: with more than ten
   * stocks a non-subscriber under quota is charged an analysis and the flow rejects the input.
   */
  lemma TopPickOverTenStocksIsChargedAndRejected(users: map<string, UserRecord>, uid: string, newUser: UserRecord,
                                                  stocks: seq<Stocks.Stock>, traceId: string, reply: Mode -> ModelReply)
    requires |stocks| > MaxUris
    requires var u := Upsert(users, uid, newUser)[uid]; !u.isSubscribed && u.usageCount < FreeAnalyses
    ensures var g := Actions.Gate(users, uid, newUser, TopPickRequest(stocks), traceId, reply);
            && g.response == Actions.Raised(InvalidInput)
            && g.users[uid].usageCount == Upsert(users, uid, newUser)[uid].usageCount + 1
  {
    Actions.FlowErrorsAreRethrownAfterCharge(users, uid, newUser, TopPickRequest(stocks), traceId, reply);
  }

  /** The tickers sent with a follow-up: the ticker part of each selected label. */
  function SelectedTickers(selected: seq<SelectOption>): (r: seq<string>)
    ensures |r| == |selected| && forall k :: 0 <= k < |r| ==> r[k] == TickerOf(selected[k].text)
  {
    seq(|selected|, k requires 0 <= k < |selected| => TickerOf(selected[k].text))
  }

  /** The state of the dashboard client page that the modelled handlers read and write. */
  class ClientPage {
    var selectedTickers: seq<SelectOption>
    var messages: seq<Message>
    var isLoading: bool
    var initialRecommendation: Option<RecommendationOutput>
    var usageCount: nat
    var isSubscribed: bool
    var showSubscriptionDialog: bool

    /** The state on first render. */
    constructor ()
      ensures selectedTickers == [] && messages == [] && !isLoading && initialRecommendation == None
      ensures usageCount == 0 && !isSubscribed && !showSubscriptionDialog
    {
      selectedTickers := [];
      messages := [];
      isLoading := false;
      initialRecommendation := None;
      usageCount := 0;
      isSubscribed := false;
      showSubscriptionDialog := false;
    }

    /**
     * `checkUsageLimit`: without a user it answers false and touches nothing; otherwise the
     * record is fetched (`newUser` is the record a first visit creates), mirrored into the page,
     * and a user over quota is shown the subscription dialog.
     */
    method CheckUsageLimit(store: Store, user: Option<AuthUser>, newUser: UserRecord) returns (allowed: bool)
      modifies this, store
      ensures user.None? ==> !allowed && store.users == old(store.users)
      ensures user.None? ==> usageCount == old(usageCount) && isSubscribed == old(isSubscribed)
      ensures user.Some? ==>
                var u := Upsert(old(store.users), user.value.uid, newUser)[user.value.uid];
                && store.users == Upsert(old(store.users), user.value.uid, newUser)
                && (allowed <==> !ClientBlocks(u))
                && usageCount == u.usageCount && isSubscribed == u.isSubscribed
      ensures showSubscriptionDialog == (old(showSubscriptionDialog) || (user.Some? && !allowed))
      ensures selectedTickers == old(selectedTickers) && messages == old(messages)
      ensures isLoading == old(isLoading) && initialRecommendation == old(initialRecommendation)
    {
      if user.None? {
        return false;
      }
      var dbUser := store.GetOrCreate(user.value.uid, newUser);
      usageCount := dbUser.usageCount;
      isSubscribed := dbUser.isSubscribed;
      if dbUser.usageCount >= 5 && !dbUser.isSubscribed {
        showSubscriptionDialog := true;
        return false;
      }
      allowed := true;
    }

    /**
     * What the page does with the server's answer: a refusal that asks for a subscription opens
     * the dialog, any other refusal or error clears the messages, and a recommendation is kept,
     * shown as markdown, and the usage count is read again.
     */
    method Present(store: Store, uid: string, newUser: UserRecord, response: Actions.Response)
      requires uid in store.users
      modifies this, store
      ensures store.users == Upsert(old(store.users), uid, newUser)
      ensures !response.Recommendation? ==> store.users == old(store.users)
      ensures !isLoading && selectedTickers == old(selectedTickers) && isSubscribed == old(isSubscribed)
      ensures response.Recommendation? ==>
                && messages == [Message(Assistant, Text(RecommendationMarkdown(response.output)))]
                && initialRecommendation == Some(response.output)
                && usageCount == Upsert(old(store.users), uid, newUser)[uid].usageCount
      ensures !response.Recommendation? ==>
                messages == [] && initialRecommendation == old(initialRecommendation) && usageCount == old(usageCount)
      ensures showSubscriptionDialog
              == (old(showSubscriptionDialog) || (response.Refused? && response.required == Some(Actions.RequiresSubscription)))
    {
      if response.Refused? && response.required == Some(Actions.RequiresSubscription) {
        showSubscriptionDialog := true;
        messages := [];
        isLoading := false;
        return;
      }
      if !response.Recommendation? {
        messages := [];
        isLoading := false;
        return;
      }
      var dbUser := store.GetOrCreate(uid, newUser);
      usageCount := dbUser.usageCount;
      initialRecommendation := Some(response.output);
      messages := [Message(Assistant, Text(RecommendationMarkdown(response.output)))];
      isLoading := false;
    }

    /**
     * `getRecommendation`: nothing happens while loading, with no selection or without a user.
     * Otherwise the usage check runs, and when it allows, a skeleton is shown, the request built
     * from the selection goes through the server gate and its answer is presented.
     */
    method GetRecommendation(store: Store, user: Option<AuthUser>, newUser: UserRecord, traceId: string,
                             reply: Mode -> ModelReply)
      modifies this, store
      ensures old(isLoading) || old(|selectedTickers|) == 0 || user.None? ==>
                && store.users == old(store.users) && messages == old(messages)
                && initialRecommendation == old(initialRecommendation) && isLoading == old(isLoading)
                && showSubscriptionDialog == old(showSubscriptionDialog)
      ensures !(old(isLoading) || old(|selectedTickers|) == 0 || user.None?) ==>
                var g := Actions.Gate(old(store.users), user.value.uid, newUser, BuildRequest(old(selectedTickers)), traceId, reply);
                && store.users == g.users
                && !isLoading
                && (g.response.Refused? ==>
                      showSubscriptionDialog && messages == old(messages) && initialRecommendation == old(initialRecommendation))
                && (g.response.Recommendation? ==>
                      messages == [Message(Assistant, Text(RecommendationMarkdown(g.response.output)))]
                      && initialRecommendation == Some(g.response.output))
                && (g.response.Raised? ==> messages == [] && initialRecommendation == old(initialRecommendation))
                && (!g.response.Refused? ==> showSubscriptionDialog == old(showSubscriptionDialog))
      ensures selectedTickers == old(selectedTickers)
    {
      if isLoading || |selectedTickers| == 0 || user.None? {
        return;
      }
      var uid := user.value.uid;
      ghost var before := store.users;
      ghost var g := Actions.Gate(before, uid, newUser, BuildRequest(selectedTickers), traceId, reply);
      Actions.GateRefusesIffOverQuota(before, uid, newUser, BuildRequest(selectedTickers), traceId, reply);
      var allowed := CheckUsageLimit(store, user, newUser);
      if !allowed {
        return;
      }
      isLoading := true;
      messages := [Message(Assistant, Skeleton)];
      var input := BuildRequest(selectedTickers);
      assert store.users == Upsert(before, uid, newUser);
      assert Actions.Gate(store.users, uid, newUser, input, traceId, reply) == g;
      var response, _ := Actions.HandleGetRecommendation(store, uid, input, traceId, newUser, reply);
      Present(store, uid, newUser, response);
    }

    /**
     * `getAITopPick`: without a user nothing happens. Otherwise the usage check runs, and when it
     * allows, the selection is cleared and a skeleton shown; an empty stock list fails, any other
     * list sends the bundle URI of every stock through the server gate and its answer is
     * presented. `stocks` is what `getStocks` returned.
     */
    method GetAiTopPick(store: Store, user: Option<AuthUser>, newUser: UserRecord, stocks: seq<Stocks.Stock>,
                        traceId: string, reply: Mode -> ModelReply)
      modifies this, store
      ensures user.None? ==>
                && store.users == old(store.users) && messages == old(messages)
                && selectedTickers == old(selectedTickers) && isLoading == old(isLoading)
                && initialRecommendation == old(initialRecommendation)
                && showSubscriptionDialog == old(showSubscriptionDialog)
                && usageCount == old(usageCount) && isSubscribed == old(isSubscribed)
      ensures user.Some? ==> isSubscribed == Upsert(old(store.users), user.value.uid, newUser)[user.value.uid].isSubscribed
      ensures user.Some? && ClientBlocks(Upsert(old(store.users), user.value.uid, newUser)[user.value.uid]) ==>
                && store.users == Upsert(old(store.users), user.value.uid, newUser)
                && showSubscriptionDialog && messages == old(messages) && selectedTickers == old(selectedTickers)
                && usageCount == Upsert(old(store.users), user.value.uid, newUser)[user.value.uid].usageCount
                && isLoading == old(isLoading) && initialRecommendation == old(initialRecommendation)
      ensures user.Some? && !ClientBlocks(Upsert(old(store.users), user.value.uid, newUser)[user.value.uid]) ==>
                var g := Actions.Gate(old(store.users), user.value.uid, newUser, TopPickRequest(stocks), traceId, reply);
                && selectedTickers == [] && !isLoading
                && showSubscriptionDialog == old(showSubscriptionDialog)
                && usageCount == (if |stocks| > 0 && g.response.Recommendation? then g.users[user.value.uid].usageCount
                                  else Upsert(old(store.users), user.value.uid, newUser)[user.value.uid].usageCount)
                && (|stocks| == 0 ==> store.users == Upsert(old(store.users), user.value.uid, newUser) && messages == [])
                && (|stocks| > 0 ==> store.users == g.users)
                && (|stocks| > 0 && g.response.Recommendation? ==>
                      messages == [Message(Assistant, Text(RecommendationMarkdown(g.response.output)))]
                      && initialRecommendation == Some(g.response.output))
                && (|stocks| > 0 && !g.response.Recommendation? ==> messages == [])
                && (!(|stocks| > 0 && g.response.Recommendation?) ==> initialRecommendation == old(initialRecommendation))
    {
      if user.None? {
        return;
      }
      var uid := user.value.uid;
      ghost var before := store.users;
      ghost var g := Actions.Gate(before, uid, newUser, TopPickRequest(stocks), traceId, reply);
      Actions.GateRefusesIffOverQuota(before, uid, newUser, TopPickRequest(stocks), traceId, reply);
      var allowed := CheckUsageLimit(store, user, newUser);
      if !allowed {
        return;
      }
      isLoading := true;
      messages := [];
      selectedTickers := [];
      messages := [Message(Assistant, Skeleton)];
      if |stocks| == 0 {
        messages := [];
        isLoading := false;
        return;
      }
      var input := TopPickRequest(stocks);
      assert Actions.Gate(store.users, uid, newUser, input, traceId, reply)
             == Actions.Gate(before, uid, newUser, input, traceId, reply);
      var response, _ := Actions.HandleGetRecommendation(store, uid, input, traceId, newUser, reply);
      Present(store, uid, newUser, response);
    }

    /**
     * `submitFollowUp`. Nothing happens without a question, while loading or before a first
     * recommendation. Otherwise the question and a skeleton are appended; the request carries the
     * chat history of the messages as they were before, the selected tickers and the
     * recommendation text. An answer replaces the skeleton; a failure drops both new messages.
     * `followUp` is the follow-up flow; the request it was given is returned.
     */
    method SubmitFollowUp(question: Option<string>, followUp: Actions.FollowUpQuestionInput -> Result<string, string>)
      returns (sent: Option<Actions.FollowUpQuestionInput>)
      modifies this
      ensures question.None? || question.value == "" || old(isLoading) || old(initialRecommendation).None? ==>
                sent == None && messages == old(messages) && isLoading == old(isLoading)
      ensures !(question.None? || question.value == "" || old(isLoading) || old(initialRecommendation).None?) ==>
                && sent == Some(Actions.ToFollowUpInput(Actions.FollowUpRequest(
                     question.value, SelectedTickers(old(selectedTickers)),
                     Trim(Template(old(initialRecommendation).value, "  ")), ChatHistory(old(messages)))))
                && !isLoading
                && (followUp(sent.value).Success? ==>
                      messages == old(messages) + [Message(User, Text(question.value)),
                                                   Message(Assistant, Text(followUp(sent.value).value))])
                && (followUp(sent.value).Failure? ==> messages == old(messages))
      ensures selectedTickers == old(selectedTickers) && initialRecommendation == old(initialRecommendation)
      ensures usageCount == old(usageCount) && isSubscribed == old(isSubscribed)
      ensures showSubscriptionDialog == old(showSubscriptionDialog)
    {
      if question.None? || question.value == "" || isLoading || initialRecommendation.None? {
        return None;
      }
      var q := question.value;
      var rendered := messages;
      messages := messages + [Message(User, Text(q))];
      isLoading := true;
      messages := messages + [Message(Assistant, Skeleton)];
      assert messages == rendered + [Message(User, Text(q)), Message(Assistant, Skeleton)];
      var chatHistory := ChatHistory(rendered);
      var recommendationText := Trim(Template(initialRecommendation.value, "  "));
      var request := Actions.FollowUpRequest(q, SelectedTickers(selectedTickers), recommendationText, chatHistory);
      var input := Actions.ToFollowUpInput(request);
      sent := Some(input);
      var result := followUp(input);
      if result.Success? {
        assert messages[..|messages| - 1] == rendered + [Message(User, Text(q))];
        messages := messages[..|messages| - 1] + [Message(Assistant, Text(result.value))];
      } else {
        assert messages[..|messages| - 2] == rendered;
        messages := messages[..|messages| - 2];
      }
      isLoading := false;
    }
  }
}
