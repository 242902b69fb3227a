/**
 * The server's request handlers over an in-memory store. Each table is a
 * sequence in insertion order; the database's `now()` is an abstract clock
 * that advances with every insert and also supplies fresh row identifiers.
 * The AI service is a function parameter that answers with text or fails.
 */
module Routes {
  import opened Wrappers
  import opened Text
  import opened Query
  import opened Schema

  /** `CURRENT_FARMER_ID`. */
  const CurrentFarmerId := "default-farmer"

  /** An HTTP reply: a JSON body, or an error status with its `message`. */
  datatype Reply<T> = Json(body: T) | Fail(status: int, message: string)

  /** The outcome of one call to the AI service. */
  datatype AiResult = Answer(text: string) | AiError

  /** The body of a successful chat reply. */
  datatype ChatExchange = ChatExchange(userMessage: ChatMessage, assistantMessage: ChatMessage)

  /** The JSON body of a soil-analysis request; absent or `null` fields are `None`. */
  datatype SoilRequest = SoilRequest(
    soilType: Option<string>, nitrogen: Option<real>, phosphorus: Option<real>,
    potassium: Option<real>, ph: Option<real>, organicMatter: Option<real>)

  /** What the soil analysis asks the AI about. */
  datatype SoilInput = SoilInput(
    soilType: string, nitrogen: real, phosphorus: real, potassium: real, ph: real, organicMatter: real)

  // ----- request rules -----

  /** `!content || !content.trim()` is false: the message has visible content. */
  function HasContent(content: Option<string>): (present: bool)
    ensures present <==> content.Some? && !AllWhitespace(content.value)
  {
    if content.Some? then TrimEmptyIff(content.value); Trim(content.value) != "" else false
  }

  /** `language || "en"`. */
  function RequestLanguage(language: Option<string>): (lang: string)
    ensures lang != ""
    ensures language.Some? && language.value != "" ==> lang == language.value
    ensures language.None? || language.value == "" ==> lang == "en"
  {
    if language.Some? && language.value != "" then language.value else "en"
  }

  /** `x || d` on a number that may be absent: absent and 0 are falsy. */
  function OrDefault(x: Option<real>, d: real): (v: real)
    ensures x.Some? && x.value != 0.0 ==> v == x.value
    ensures x.None? || x.value == 0.0 ==> v == d
  {
    if x.Some? && x.value != 0.0 then x.value else d
  }

  /** With default 0 the rule is transparent: a present value is passed as it is. */
  lemma ZeroDefaultKeepsValue(x: Option<real>)
    ensures OrDefault(x, 0.0) == (if x.Some? then x.value else 0.0)
  {
  }

  /** `!soilType` is false. */
  function SoilTypePresent(body: SoilRequest): (present: bool)
    ensures !present <==> body.soilType.None? || body.soilType == Some("")
  {
    body.soilType.Some? && body.soilType.value != ""
  }

  /** The defaulted inputs handed to the AI: missing nutrients are 0, a missing or zero pH is 7. */
  function AiSoilInput(body: SoilRequest): (input: SoilInput)
    requires SoilTypePresent(body)
    ensures input.soilType == body.soilType.value
    ensures input.nitrogen == (if body.nitrogen.Some? then body.nitrogen.value else 0.0)
    ensures input.phosphorus == (if body.phosphorus.Some? then body.phosphorus.value else 0.0)
    ensures input.potassium == (if body.potassium.Some? then body.potassium.value else 0.0)
    ensures input.organicMatter == (if body.organicMatter.Some? then body.organicMatter.value else 0.0)
    ensures input.ph == (if body.ph.Some? && body.ph.value != 0.0 then body.ph.value else 7.0)
  {
    ZeroDefaultKeepsValue(body.nitrogen);
    ZeroDefaultKeepsValue(body.phosphorus);
    ZeroDefaultKeepsValue(body.potassium);
    ZeroDefaultKeepsValue(body.organicMatter);
    SoilInput(
      body.soilType.value,
      OrDefault(body.nitrogen, 0.0), OrDefault(body.phosphorus, 0.0), OrDefault(body.potassium, 0.0),
      OrDefault(body.ph, 7.0), OrDefault(body.organicMatter, 0.0))
  }

  /** The row stored for an analysis: the raw submitted values plus the recommendation. */
  function StoredAnalysis(id: nat, body: SoilRequest, recommendation: string): (row: SoilAnalysisRecord)
    requires SoilTypePresent(body)
    ensures row.id == id && row.farmerId == Some(CurrentFarmerId) && row.createdAt == Some(id)
    ensures row.soilType == body.soilType.value
    ensures row.nitrogen == body.nitrogen && row.phosphorus == body.phosphorus
    ensures row.potassium == body.potassium && row.ph == body.ph
    ensures row.organicMatter == body.organicMatter
    ensures row.recommendations == Some(recommendation)
  {
    SoilAnalysisRecord(
      id, Some(CurrentFarmerId), body.soilType.value, body.nitrogen, body.phosphorus,
      body.potassium, body.ph, body.organicMatter, Some(recommendation), Some(id))
  }

  /** A pH of 0 passes the client's schema, is stored as 0, but reaches the AI as 7. */
  lemma ZeroPhSentAsNeutral(body: SoilRequest, id: nat, text: string)
    requires SoilTypePresent(body) && body.ph == Some(0.0)
    ensures AiSoilInput(body).ph == 7.0
    ensures StoredAnalysis(id, body, text).ph == Some(0.0)
  {
  }

  // ----- the chat history query -----

  function OfCurrentFarmer(m: ChatMessage): bool
  {
    m.farmerId == Some(CurrentFarmerId)
  }

  /** `where farmerId = CURRENT_FARMER_ID orderBy timestamp limit 50`. */
  function ChatHistory(chat: seq<ChatMessage>): (h: seq<ChatMessage>)
    ensures |h| == Min(50, |Filter(chat, OfCurrentFarmer)|)
    ensures forall k :: 0 <= k < |h| ==> h[k] in chat && OfCurrentFarmer(h[k])
    ensures SortedBy(h, ChatStamp, false)
  {
    var sorted := SortBy(Filter(chat, OfCurrentFarmer), ChatStamp, false);
    var h := Take(sorted, 50);
    assert forall k :: 0 <= k < |h| ==> h[k] == sorted[k] && sorted[k] in multiset(sorted);
    h
  }

  /** Every message carries a timestamp before `clock`, strictly increasing in insertion order. */
  ghost predicate Chronological(chat: seq<ChatMessage>, clock: nat)
  {
    && (forall k :: 0 <= k < |chat| ==> chat[k].timestamp.Some? && chat[k].timestamp.value < clock)
    && (forall i, j :: 0 <= i < j < |chat| ==> chat[i].timestamp.value < chat[j].timestamp.value)
  }

  /** In a chronological table, the history is the farmer's first 50 messages in insertion order. */
  lemma HistoryInInsertionOrder(chat: seq<ChatMessage>, clock: nat)
    requires Chronological(chat, clock)
    ensures ChatHistory(chat) == Take(Filter(chat, OfCurrentFarmer), 50)
  {
    assert SortedBy(chat, ChatStamp, false);
    FilterKeepsSorted(chat, OfCurrentFarmer, ChatStamp, false);
    SortSorted(Filter(chat, OfCurrentFarmer), ChatStamp, false);
  }

  /**
   * The history shows the oldest 50 messages: once the farmer has 50, later
   * messages never appear in it.
   */
  lemma HistoryFrozenAfterFifty(chat: seq<ChatMessage>, later: seq<ChatMessage>, clock: nat)
    requires Chronological(chat + later, clock)
    requires |Filter(chat, OfCurrentFarmer)| >= 50
    ensures ChatHistory(chat + later) == ChatHistory(chat)
  {
    ChronologicalPrefix(chat, later, clock);
    HistoryInInsertionOrder(chat + later, clock);
    HistoryInInsertionOrder(chat, clock);
    FilterAppend(chat, later, OfCurrentFarmer);
    TakeAppend(Filter(chat, OfCurrentFarmer), Filter(later, OfCurrentFarmer), 50);
  }

  /** While the farmer has at most 48 messages, a new exchange appears at the end of the history. */
  lemma HistoryShowsExchange(chat: seq<ChatMessage>, user: ChatMessage, assistant: ChatMessage, clock: nat)
    requires Chronological(chat + [user, assistant], clock)
    requires OfCurrentFarmer(user) && OfCurrentFarmer(assistant)
    requires |Filter(chat, OfCurrentFarmer)| <= 48
    ensures ChatHistory(chat + [user, assistant]) == ChatHistory(chat) + [user, assistant]
  {
    ChronologicalPrefix(chat, [user, assistant], clock);
    HistoryInInsertionOrder(chat + [user, assistant], clock);
    HistoryInInsertionOrder(chat, clock);
    FilterAppend(chat, [user, assistant], OfCurrentFarmer);
    assert [user, assistant][1..] == [assistant];
    assert Filter([user, assistant], OfCurrentFarmer) == [user, assistant];
  }

  lemma ChronologicalPrefix(chat: seq<ChatMessage>, later: seq<ChatMessage>, clock: nat)
    requires Chronological(chat + later, clock)
    ensures Chronological(chat, clock)
  {
    forall k | 0 <= k < |chat| ensures chat[k].timestamp.Some? && chat[k].timestamp.value < clock {
      assert (chat + later)[k] == chat[k];
    }
    forall i, j | 0 <= i < j < |chat| ensures chat[i].timestamp.value < chat[j].timestamp.value {
      assert (chat + later)[i] == chat[i] && (chat + later)[j] == chat[j];
    }
  }

  /** The messages a successful or half-failed chat request stores. */
  function NewChatMessage(id: nat, role: string, content: string, language: string): (m: ChatMessage)
    ensures OfCurrentFarmer(m) && m.timestamp == Some(id)
  {
    ChatMessage(id, Some(CurrentFarmerId), role, content, Some(id), language)
  }

  /** The recent-advisories query: newest first, at most three. */
  function RecentAdvisories(advisories: seq<Advisory>): (r: seq<Advisory>)
    ensures |r| == Min(3, |advisories|)
    ensures multiset(r) <= multiset(advisories)
    ensures SortedBy(r, AdvisoryStamp, true)
  {
    var key := AdvisoryStamp;
    var sorted := SortBy(advisories, key, true);
    var r := Take(sorted, 3);
    assert sorted == r + sorted[|r|..];
    assert multiset(sorted) == multiset(r) + multiset(sorted[|r|..]);
    r
  }

  /** No advisory left out of the recent three is newer than one shown. */
  lemma RecentAdvisoriesNewest(advisories: seq<Advisory>)
    ensures var r := RecentAdvisories(advisories);
      forall a, k :: a in multiset(advisories) - multiset(r) && 0 <= k < |r| ==>
        StampLe(a.timestamp, r[k].timestamp)
  {
    var r := RecentAdvisories(advisories);
    var key := AdvisoryStamp;
    TopRows(advisories, key, true, 3);
    assert r == Take(SortBy(advisories, key, true), 3);
    forall a, k | a in multiset(advisories) - multiset(r) && 0 <= k < |r|
      ensures StampLe(a.timestamp, r[k].timestamp)
    {
      assert InOrder(true, key(r[k]), key(a));
    }
  }

  /** The current-resources query: the month's rows, at most three, in table order. */
  function CurrentResources(resources: seq<Resource>, month: string): (r: seq<Resource>)
    ensures |r| <= 3
    ensures forall k :: 0 <= k < |r| ==> r[k] in resources && r[k].month == month
    ensures |r| < 3 ==> forall k :: 0 <= k < |resources| && resources[k].month == month ==> resources[k] in r
  {
    Take(Filter(resources, (r: Resource) => r.month == month), 3)
  }

  // ----- the handlers -----

  class Store {
    var weather: seq<WeatherData>
    var crops: seq<Crop>
    var resources: seq<Resource>
    var advisories: seq<Advisory>
    var chatMessages: seq<ChatMessage>
    var soilAnalyses: seq<SoilAnalysisRecord>
    var pestsDiseases: seq<PestDisease>
    /** The database's notion of now: advances with every insert. */
    var clock: nat

    ghost predicate Valid()
      reads this
    {
      Chronological(chatMessages, clock)
    }

    /** A store seeded with reference data and no chat or analyses yet. */
    constructor (weather: seq<WeatherData>, crops: seq<Crop>, resources: seq<Resource>,
                 advisories: seq<Advisory>, pestsDiseases: seq<PestDisease>)
      ensures Valid()
      ensures this.weather == weather && this.crops == crops && this.resources == resources
      ensures this.advisories == advisories && this.pestsDiseases == pestsDiseases
      ensures chatMessages == [] && soilAnalyses == [] && clock == 0
    {
      this.weather := weather;
      this.crops := crops;
      this.resources := resources;
      this.advisories := advisories;
      this.pestsDiseases := pestsDiseases;
      chatMessages := [];
      soilAnalyses := [];
      clock := 0;
    }

    /** `GET /api/weather/current`: the latest row, or 404 when there is none. */
    method GetCurrentWeather() returns (r: Reply<WeatherData>)
      ensures weather == [] <==> r.Fail?
      ensures r.Fail? ==> r == Fail(404, "No weather data available")
      ensures r.Json? ==> r.body in weather && forall w :: w in weather ==> StampLe(w.timestamp, r.body.timestamp)
    {
      var sorted := SortBy(weather, WeatherStamp, true);
      if |sorted| == 0 {
        r := Fail(404, "No weather data available");
      } else {
        SortedHeadFirst(sorted, WeatherStamp, true);
        assert sorted[0] in multiset(weather);
        forall w | w in weather ensures w in sorted {
          assert w in multiset(sorted);
        }
        r := Json(sorted[0]);
      }
    }

    /** `GET /api/crops/recommended`: the first four crops. */
    method GetRecommendedCrops() returns (r: seq<Crop>)
      ensures |r| == Min(4, |crops|) && r <= crops
    {
      r := Take(crops, 4);
    }

    /** `GET /api/crops`. */
    method GetAllCrops() returns (r: seq<Crop>)
      ensures r == crops
    {
      r := crops;
    }

    /** `GET /api/resources/current`: rows of the given month only (the year is not compared). */
    method GetCurrentResources(currentMonth: string, currentYear: int) returns (r: seq<Resource>)
      ensures r == CurrentResources(resources, currentMonth)
      ensures |r| <= 3
      ensures forall k :: 0 <= k < |r| ==> r[k] in resources && r[k].month == currentMonth
      ensures IsSubsequence(r, resources)
    {
      var inMonth := Filter(resources, (x: Resource) => x.month == currentMonth);
      FilterIsSubsequence(resources, (x: Resource) => x.month == currentMonth);
      r := Take(inMonth, 3);
      PrefixIsSubsequence(r, inMonth);
      SubsequenceTransitive(r, inMonth, resources);
    }

    /** `GET /api/advisories/recent`: the three newest advisories, newest first. */
    method GetRecentAdvisories() returns (r: seq<Advisory>)
      ensures r == RecentAdvisories(advisories)
      ensures |r| == Min(3, |advisories|) && SortedBy(r, AdvisoryStamp, true)
      ensures forall k :: 0 <= k < |r| ==> r[k] in advisories
      ensures forall a, k :: a in multiset(advisories) - multiset(r) && 0 <= k < |r| ==>
        StampLe(a.timestamp, r[k].timestamp)
    {
      var sorted := SortBy(advisories, AdvisoryStamp, true);
      r := Take(sorted, 3);
      assert SortedBy(r, AdvisoryStamp, true) by {
        forall i, j | 0 <= i < j < |r|
          ensures InOrder(true, AdvisoryStamp(r[i]), AdvisoryStamp(r[j]))
        {
          assert r[i] == sorted[i] && r[j] == sorted[j];
        }
      }
      forall k | 0 <= k < |r| ensures r[k] in advisories {
        assert r[k] == sorted[k];
        assert sorted[k] in multiset(advisories);
      }
      RecentAdvisoriesNewest(advisories);
    }

    /** `GET /api/advisories`: every advisory, newest first. */
    method GetAllAdvisories() returns (r: seq<Advisory>)
      ensures SortedBy(r, AdvisoryStamp, true) && multiset(r) == multiset(advisories)
    {
      r := SortBy(advisories, AdvisoryStamp, true);
    }

    /** `GET /api/chat/messages`: the current farmer's first 50 messages, oldest first. */
    method GetChatMessages() returns (r: seq<ChatMessage>)
      requires Valid()
      ensures r == ChatHistory(chatMessages)
      ensures r == Take(Filter(chatMessages, OfCurrentFarmer), 50)
      ensures forall k :: 0 <= k < |r| ==> r[k] in chatMessages && OfCurrentFarmer(r[k])
    {
      r := Take(SortBy(Filter(chatMessages, OfCurrentFarmer), ChatStamp, false), 50);
      HistoryInInsertionOrder(chatMessages, clock);
    }

    /** `GET /api/pests-diseases`. */
    method GetPestsDiseases() returns (r: seq<PestDisease>)
      ensures r == pestsDiseases
    {
      r := pestsDiseases;
    }

    /** One insert into the chat table, stamped with the current clock. */
    method InsertChatMessage(role: string, content: string, language: string) returns (m: ChatMessage)
      requires Valid()
      modifies this
      ensures Valid()
      ensures m == NewChatMessage(old(clock), role, content, language)
      ensures chatMessages == old(chatMessages) + [m] && clock == old(clock) + 1
      ensures weather == old(weather) && crops == old(crops) && resources == old(resources)
      ensures advisories == old(advisories) && pestsDiseases == old(pestsDiseases)
      ensures soilAnalyses == old(soilAnalyses)
    {
      m := NewChatMessage(clock, role, content, language);
      chatMessages := chatMessages + [m];
      clock := clock + 1;
    }

    /**
     * `POST /api/chat/message`: 400 without content; otherwise the user
     * message is stored, the AI is asked, and its answer stored after it.
     * When the AI fails the user message stays stored and the reply is 500.
     */
    method PostChatMessage(content: Option<string>, language: Option<string>, ai: (string, string) -> AiResult)
      returns (r: Reply<ChatExchange>)
      requires Valid()
      modifies this
      ensures Valid()
      ensures weather == old(weather) && crops == old(crops) && resources == old(resources)
      ensures advisories == old(advisories) && pestsDiseases == old(pestsDiseases)
      ensures soilAnalyses == old(soilAnalyses)
      ensures !HasContent(content) ==>
        r == Fail(400, "Message content is required")
        && chatMessages == old(chatMessages) && clock == old(clock)
      ensures HasContent(content) ==>
        var text, lang := Trim(content.value), RequestLanguage(language);
        var user := NewChatMessage(old(clock), "user", text, lang);
        match ai(text, lang)
        case Answer(answer) =>
          var assistant := NewChatMessage(old(clock) + 1, "assistant", answer, lang);
          r == Json(ChatExchange(user, assistant)) && chatMessages == old(chatMessages) + [user, assistant]
        case AiError =>
          r == Fail(500, "Failed to process chat message") && chatMessages == old(chatMessages) + [user]
    {
      if !HasContent(content) {
        return Fail(400, "Message content is required");
      }
      var text := Trim(content.value);
      var lang := RequestLanguage(language);
      var userMessage := InsertChatMessage("user", text, lang);
      var aiResponse := ai(text, lang);
      if aiResponse.AiError? {
        return Fail(500, "Failed to process chat message");
      }
      var assistantMessage := InsertChatMessage("assistant", aiResponse.text, lang);
      r := Json(ChatExchange(userMessage, assistantMessage));
    }

    /**
     * `POST /api/soil/analyze`: 400 without a soil type; otherwise the AI is
     * asked first (with defaulted inputs) and the row is stored only when it
     * answers, with the raw submitted values.
     */
    method AnalyzeSoil(body: SoilRequest, ai: SoilInput -> AiResult) returns (r: Reply<SoilAnalysisRecord>)
      requires Valid()
      modifies this
      ensures Valid()
      ensures weather == old(weather) && crops == old(crops) && resources == old(resources)
      ensures advisories == old(advisories) && pestsDiseases == old(pestsDiseases)
      ensures chatMessages == old(chatMessages)
      ensures !SoilTypePresent(body) ==>
        r == Fail(400, "Soil type is required") && soilAnalyses == old(soilAnalyses) && clock == old(clock)
      ensures SoilTypePresent(body) ==>
        match ai(AiSoilInput(body))
        case Answer(text) =>
          var row := StoredAnalysis(old(clock), body, text);
          r == Json(row) && soilAnalyses == old(soilAnalyses) + [row] && clock == old(clock) + 1
        case AiError =>
          r == Fail(500, "Failed to analyze soil") && soilAnalyses == old(soilAnalyses) && clock == old(clock)
    {
      if !SoilTypePresent(body) {
        return Fail(400, "Soil type is required");
      }
      var recommendations := ai(AiSoilInput(body));
      if recommendations.AiError? {
        return Fail(500, "Failed to analyze soil");
      }
      var row := StoredAnalysis(clock, body, recommendations.text);
      soilAnalyses := soilAnalyses + [row];
      clock := clock + 1;
      r := Json(row);
    }
  }
}
