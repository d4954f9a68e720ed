/**
 * The tabbed dashboard page: the per-tab selection limit, the reset when the tab changes, the
 * rules that disable its buttons and show its chat, and its follow-up handler.
 */
module DashboardPage {
  import opened Wrappers
  import opened Chat
  import opened MultiSelect
  import Actions

  const AiTopPickTab := "ai-top-pick"
  const StockAnalysisTab := "stock-analysis"
  const SectorAnalysisTab := "sector-analysis"
  const IndustryAnalysisTab := "industry-analysis"

  /** The message a fresh or reset page shows. */
  const Welcome := Message(System, Text("Select an analysis type and make a selection to start."))

  /** How many tickers a tab lets the user select. */
  function TabLimit(tab: string): (n: nat)
    ensures n == 1 || n == 2
    ensures n == 1 <==> tab == AiTopPickTab
  {
    if tab == AiTopPickTab then 1 else 2
  }

  /** `isGetRecommendationDisabled`. */
  function GetRecommendationDisabled(tab: string, isLoading: bool, tickerCount: nat, sector: string, industry: string): bool {
    if tab == AiTopPickTab || tab == StockAnalysisTab then isLoading || tickerCount == 0
    else if tab == SectorAnalysisTab then isLoading || sector == ""
    else if tab == IndustryAnalysisTab then isLoading || industry == ""
    else true
  }

  /**
   * The button is disabled on every tab while loading and on any unknown tab; on a known tab it
   * is enabled exactly when that tab's selection is not empty.
   */
  lemma GetRecommendationDisabledRules(tab: string, isLoading: bool, tickerCount: nat, sector: string, industry: string)
    ensures isLoading ==> GetRecommendationDisabled(tab, isLoading, tickerCount, sector, industry)
    ensures !(tab in {AiTopPickTab, StockAnalysisTab, SectorAnalysisTab, IndustryAnalysisTab})
            ==> GetRecommendationDisabled(tab, isLoading, tickerCount, sector, industry)
    ensures tab == SectorAnalysisTab ==>
              (GetRecommendationDisabled(tab, isLoading, tickerCount, sector, industry) <==> isLoading || sector == "")
    ensures tab == IndustryAnalysisTab ==>
              (GetRecommendationDisabled(tab, isLoading, tickerCount, sector, industry) <==> isLoading || industry == "")
    ensures tab == AiTopPickTab || tab == StockAnalysisTab ==>
              (GetRecommendationDisabled(tab, isLoading, tickerCount, sector, industry) <==> isLoading || tickerCount == 0)
  {
  }

  /** The `showChat` condition of `renderChat`. */
  predicate ShowChat(tab: string, messages: seq<Message>) {
    (tab == AiTopPickTab || tab == StockAnalysisTab)
    || |messages| > 1 || (|messages| == 1 && messages[0].role != System)
  }

  /**
   * The chat always shows on the two stock tabs. Elsewhere, on a list where only the first
   * message may be a system message (as every update of the page keeps it), it shows exactly
   * once there is a message that is not a system message.
   */
  lemma ShowChatRules(tab: string, messages: seq<Message>)
    requires forall k :: 1 <= k < |messages| ==> messages[k].role != System
    ensures tab == AiTopPickTab || tab == StockAnalysisTab ==> ShowChat(tab, messages)
    ensures !(tab == AiTopPickTab || tab == StockAnalysisTab) ==>
              (ShowChat(tab, messages) <==> exists k :: 0 <= k < |messages| && messages[k].role != System)
  {
    if !(tab == AiTopPickTab || tab == StockAnalysisTab) && ShowChat(tab, messages) {
      if |messages| > 1 {
        assert messages[1].role != System;
      } else {
        assert messages[0].role != System;
      }
    }
  }

  /** The disabled rule of the follow-up input and its send button. */
  predicate FollowUpDisabled(isLoading: bool, messages: seq<Message>, initialRecommendation: string) {
    isLoading || |messages| == 0 || initialRecommendation == ""
  }

  /**
   * The follow-up input and its button are enabled exactly when nothing is loading, some message
   * is shown and a recommendation has been stored; in particular never while a request is on its way.
   */
  lemma FollowUpDisabledRules(isLoading: bool, messages: seq<Message>, initialRecommendation: string)
    ensures !FollowUpDisabled(isLoading, messages, initialRecommendation)
            <==> !isLoading && |messages| > 0 && initialRecommendation != ""
    ensures isLoading ==> FollowUpDisabled(isLoading, messages, initialRecommendation)
  {
  }

  /** Only the first message of a list is a system message. */
  predicate SystemOnlyFirst(messages: seq<Message>) {
    forall k :: 1 <= k < |messages| ==> messages[k].role != System
  }

  /** The page state the modelled handlers read and write. */
  class Page {
    var activeTab: string
    var selectedTickers: seq<SelectOption>
    var selectedSector: string
    var selectedIndustry: string
    var messages: seq<Message>
    var isLoading: bool
    var initialRecommendation: string

    /** The selection fits the tab, and only the first message may be a system message. */
    predicate Valid()
      reads this
    {
      |selectedTickers| <= TabLimit(activeTab) && SystemOnlyFirst(messages)
    }

    /** The state on first render: the top-pick tab, nothing selected, the welcome message. */
    constructor ()
      ensures Valid()
      ensures activeTab == AiTopPickTab && selectedTickers == [] && selectedSector == "" && selectedIndustry == ""
      ensures messages == [Welcome] && !isLoading && initialRecommendation == ""
      ensures FollowUpDisabled(isLoading, messages, initialRecommendation)
      ensures GetRecommendationDisabled(activeTab, isLoading, |selectedTickers|, selectedSector, selectedIndustry)
    {
      activeTab := AiTopPickTab;
      selectedTickers := [];
      selectedSector := "";
      selectedIndustry := "";
      messages := [Welcome];
      isLoading := false;
      initialRecommendation := "";
    }

    /** `handleTickerSelection`: a selection over the tab's limit is ignored. */
    method HandleTickerSelection(selected: seq<SelectOption>)
      modifies this
      ensures |selected| <= TabLimit(activeTab) ==> selectedTickers == selected
      ensures |selected| > TabLimit(activeTab) ==> selectedTickers == old(selectedTickers)
      ensures activeTab == old(activeTab) && selectedSector == old(selectedSector)
      ensures selectedIndustry == old(selectedIndustry) && messages == old(messages)
      ensures isLoading == old(isLoading) && initialRecommendation == old(initialRecommendation)
      ensures old(Valid()) ==> Valid()
    {
      var limit := if activeTab == AiTopPickTab then 1 else 2;
      if |selected| <= limit {
        selectedTickers := selected;
      }
    }

    /**
     * A click on a tab, followed by the effect that depends on the active tab: a different tab
     * clears the ticker, sector and industry selections and puts back the welcome message; the
     * same tab changes nothing.
     */
    method SelectTab(tab: string)
      modifies this
      ensures activeTab == tab
      ensures tab != old(activeTab) ==>
                selectedTickers == [] && selectedSector == "" && selectedIndustry == "" && messages == [Welcome]
      ensures tab == old(activeTab) ==>
                selectedTickers == old(selectedTickers) && selectedSector == old(selectedSector)
                && selectedIndustry == old(selectedIndustry) && messages == old(messages)
      ensures isLoading == old(isLoading) && initialRecommendation == old(initialRecommendation)
      ensures old(Valid()) ==> Valid()
      ensures tab != old(activeTab) ==> Valid()
    {
      if tab != activeTab {
        activeTab := tab;
        selectedTickers := [];
        selectedSector := "";
        selectedIndustry := "";
        messages := [Welcome];
      }
    }

    /**
     * `submitFollowUp` of this page: nothing happens without a question or while loading;
     * otherwise the question and a skeleton are appended and the request carries the chat
     * history of the earlier messages and the selected values. An answer replaces the skeleton;
     * a failure is not caught, so the question and the skeleton stay and loading stays on.
     */
    method SubmitFollowUp(question: Option<string>, followUp: Actions.FollowUpQuestionInput -> Result<string, string>)
      returns (sent: Option<Actions.FollowUpQuestionInput>)
      modifies this
      ensures question.None? || question.value == "" || old(isLoading) ==>
                sent == None && messages == old(messages) && isLoading == old(isLoading)
      ensures !(question.None? || question.value == "" || old(isLoading)) ==>
                && sent == Some(Actions.ToFollowUpInput(Actions.FollowUpRequest(
                     question.value, Values(old(selectedTickers)), old(initialRecommendation), ChatHistory(old(messages)))))
                && (followUp(sent.value).Success? ==>
                      !isLoading
                      && messages == old(messages) + [Message(User, Text(question.value)),
                                                      Message(Assistant, Text(followUp(sent.value).value))])
                && (followUp(sent.value).Failure? ==>
                      isLoading && FollowUpDisabled(isLoading, messages, initialRecommendation)
                      && messages == old(messages) + [Message(User, Text(question.value)), Message(Assistant, Skeleton)])
      ensures activeTab == old(activeTab) && selectedTickers == old(selectedTickers)
      ensures selectedSector == old(selectedSector) && selectedIndustry == old(selectedIndustry)
      ensures initialRecommendation == old(initialRecommendation)
      ensures old(Valid()) ==> Valid()
    {
      if question.None? || question.value == "" || isLoading {
        return None;
      }
      var q := question.value;
      var rendered := messages;
      messages := messages + [Message(User, Text(q))];
      isLoading := true;
      messages := messages + [Message(Assistant, Skeleton)];
      assert messages == rendered + [Message(User, Text(q)), Message(Assistant, Skeleton)];
      var chatHistory := ChatHistory(rendered);
      var request := Actions.FollowUpRequest(q, Values(selectedTickers), initialRecommendation, chatHistory);
      var input := Actions.ToFollowUpInput(request);
      sent := Some(input);
      var result := followUp(input);
      if result.Failure? {
        return;
      }
      assert messages[..|messages| - 1] == rendered + [Message(User, Text(q))];
      messages := messages[..|messages| - 1] + [Message(Assistant, Text(result.value))];
      isLoading := false;
    }
  }

  /** The values of the selected options, in order. */
  function Values(selected: seq<SelectOption>): (r: seq<string>)
    ensures |r| == |selected| && forall k :: 0 <= k < |r| ==> r[k] == selected[k].value
  {
    seq(|selected|, k requires 0 <= k < |selected| => selected[k].value)
  }
}
