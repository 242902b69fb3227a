/** How the pages and the server fit together. */
module EndToEnd {
  import opened Wrappers
  import opened Text
  import opened Query
  import opened Schema
  import opened Ui
  import Routes
  import Chatbot
  import SoilAnalysis
  import Advisories

  /** Text the chat page sends passes the server's content check and is stored unchanged. */
  lemma SentChatStoredVerbatim(input: string, language: string, id: nat)
    requires Chatbot.OutgoingContent(input).Some?
    ensures var c := Chatbot.OutgoingContent(input).value;
      && Routes.HasContent(Some(c))
      && Trim(c) == c
      && Routes.NewChatMessage(id, "user", Trim(c), Routes.RequestLanguage(Some(language))).content == Trim(input)
  {
    TrimIdempotent(input);
  }

  /**
   * Clicking the enabled send button and posting its request to the server:
   * the request is never refused with 400, and the stored user message holds
   * exactly the trimmed input, followed by the answer when the AI replies.
   */
  method SendToServer(page: Chatbot.ChatPage, store: Routes.Store, ai: (string, string) -> Routes.AiResult)
    returns (sent: Option<Chatbot.ChatRequest>, r: Routes.Reply<Routes.ChatExchange>)
    requires store.Valid()
    requires !Chatbot.SendDisabled(page.input, page.pending)
    modifies page, store
    ensures store.Valid()
    ensures sent == Some(Chatbot.ChatRequest(Trim(old(page.input)), page.language))
    ensures r.Fail? ==> r == Routes.Fail(500, "Failed to process chat message")
    ensures |store.chatMessages| > |old(store.chatMessages)|
    ensures store.chatMessages[..|old(store.chatMessages)|] == old(store.chatMessages)
    ensures var user := store.chatMessages[|old(store.chatMessages)|];
      user.role == "user" && user.content == Trim(old(page.input))
      && user.farmerId == Some(Routes.CurrentFarmerId)
    ensures r.Json? ==> r.body.userMessage == store.chatMessages[|old(store.chatMessages)|]
  {
    sent := page.ClickSend();
    var c := sent.value.content;
    Chatbot.SendEnabledIff(old(page.input), old(page.pending));
    TrimEmptyIff(old(page.input));
    TrimIdempotent(old(page.input));
    TrimEmptyIff(c);
    r := store.PostChatMessage(Some(c), Some(sent.value.language), ai);
  }

  /** The stored pair is laid out user on the right, assistant on the left. */
  lemma ExchangeLayout(id: nat, question: string, answer: string, language: string)
    ensures Chatbot.Alignment(Routes.NewChatMessage(id, "user", question, language)) == Chatbot.Right
    ensures Chatbot.Alignment(Routes.NewChatMessage(id + 1, "assistant", answer, language)) == Chatbot.Left
  {
  }

  /** The JSON body the wizard posts: every field present. */
  function RequestOf(f: SoilAnalysis.SoilForm): (body: Routes.SoilRequest)
    ensures body.soilType == Some(f.soilType) && body.ph == Some(f.ph)
    ensures body.nitrogen == Some(f.nitrogen) && body.phosphorus == Some(f.phosphorus)
    ensures body.potassium == Some(f.potassium) && body.organicMatter == Some(f.organicMatter)
  {
    Routes.SoilRequest(Some(f.soilType), Some(f.nitrogen), Some(f.phosphorus),
      Some(f.potassium), Some(f.ph), Some(f.organicMatter))
  }

  /**
   * A form the schema accepts is never refused with 400. The AI sees the
   * submitted values, except that a pH of 0 reaches it as 7; the stored row
   * keeps every submitted value.
   */
  lemma ValidFormAnalysed(f: SoilAnalysis.SoilForm, id: nat, text: string)
    requires SoilAnalysis.Validate(f).Ok?
    ensures Routes.SoilTypePresent(RequestOf(f))
    ensures Routes.AiSoilInput(RequestOf(f)) ==
      Routes.SoilInput(f.soilType, f.nitrogen, f.phosphorus, f.potassium,
        if f.ph == 0.0 then 7.0 else f.ph, f.organicMatter)
    ensures var row := Routes.StoredAnalysis(id, RequestOf(f), text);
      && row.soilType == f.soilType && row.ph == Some(f.ph)
      && row.nitrogen == Some(f.nitrogen) && row.phosphorus == Some(f.phosphorus)
      && row.potassium == Some(f.potassium) && row.organicMatter == Some(f.organicMatter)
      && row.recommendations == Some(text)
  {
    assert SoilAnalysis.FieldOk(f, SoilAnalysis.SoilType);
  }

  /**
   * On the advisories page, fed by the newest-first list, advisories without
   * a timestamp (the "recently" cards) come before every dated one.
   */
  lemma UndatedAdvisoriesFirst(advisories: seq<Advisory>)
    ensures var page := Advisories.Page(false, Some(SortBy(advisories, AdvisoryStamp, true)));
      page.Items? ==>
        forall i, j :: 0 <= i < j < |page.items| && page.items[j].date.Recently? ==>
          page.items[i].date.Recently?
  {
    var sorted := SortBy(advisories, AdvisoryStamp, true);
    var page := Advisories.Page(false, Some(sorted));
    if page.Items? {
      forall i, j | 0 <= i < j < |page.items| && page.items[j].date.Recently?
        ensures page.items[i].date.Recently?
      {
        assert InOrder(true, AdvisoryStamp(sorted[i]), AdvisoryStamp(sorted[j]));
      }
    }
  }
}
