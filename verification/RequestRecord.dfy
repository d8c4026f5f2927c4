/**
  internal/travel/cache.go: the record of a request that its hash is taken of. The hash itself, SHA-256
  of the record in JSON, is not part of this model.
 */
module RequestRecord {
  import opened Text
  import opened Brief

  const QUICK := "quick"
  const EXPERT := "expert"

  datatype Record = Record(
    departureCity: string,
    destinationCity: string,
    days: int,
    budget: real,
    interests: seq<string>,
    travelers: int,
    dateRange: string,
    transportMode: string,
    pace: string,
    walkingTolerance: string,
    hotelArea: string,
    mustVisit: seq<string>,
    avoid: seq<string>,
    travelerType: string,
    budgetType: string,
    budgetIncludes: seq<string>,
    testMode: bool,
    agentMode: string,
    userID: string)

  function NormalizeAgentMode(value: string): (r: string)
    ensures r == QUICK || r == EXPERT
  {
    if ToLower(TrimSpace(value)) == EXPERT then EXPERT else QUICK
  }

  function RecordOf(request: TravelRequest, testMode: bool, userID: string, agentMode: string): Record {
    var req := Normalized(request);
    Record(
      req.departureCity, req.destinationCity, req.days, req.budget, Sort(req.interests), req.travelers,
      req.dateRange, req.transportMode, req.pace, req.walkingTolerance, req.hotelArea,
      Sort(req.mustVisit), Sort(req.avoid), req.travelerType, req.budgetType, Sort(req.budgetIncludes),
      testMode, NormalizeAgentMode(agentMode), userID)
  }

  /** CreatePlanRequest.ToDomain: the request under its own id or the given one, normalized. */
  function ToDomain(request: TravelRequest, id: string): TravelRequest {
    Normalized(if request.id != "" then request else request.(id := id))
  }

  /** The same text, where a blank one stands for this fallback. */
  predicate SameText(a: string, b: string, fallback: string) {
    var x, y := TrimSpace(a), TrimSpace(b);
    x == y || (x in {"", fallback} && y in {"", fallback})
  }

  /** The fields that are not lists say the same: the same numbers, cities, texts and choices. */
  predicate SameScalars(a: TravelRequest, b: TravelRequest) {
    && TrimSpace(a.departureCity) == TrimSpace(b.departureCity)
    && TrimSpace(a.destinationCity) == TrimSpace(b.destinationCity)
    && a.days == b.days && a.budget == b.budget && a.travelers == b.travelers
    && SameText(a.dateRange, b.dateRange, "任意")
    && Chosen(MODES, a.transportMode) == Chosen(MODES, b.transportMode)
    && Chosen(PACES, a.pace) == Chosen(PACES, b.pace)
    && Chosen(WALKING, a.walkingTolerance) == Chosen(WALKING, b.walkingTolerance)
    && SameText(a.hotelArea, b.hotelArea, "任意")
    && SameText(a.travelerType, b.travelerType, "无要求")
    && Chosen(BUDGET_TYPES, a.budgetType) == Chosen(BUDGET_TYPES, b.budgetType)
  }

  lemma TextsAgree(a: string, b: string, fallback: string)
    ensures DefaultString(a, fallback) == DefaultString(b, fallback) <==> SameText(a, b, fallback)
  {
    hide TrimSpace;
  }

  lemma ScalarsAgree(a: TravelRequest, b: TravelRequest)
    ensures SameScalars(a, b) <==>
              && TrimSpace(a.departureCity) == TrimSpace(b.departureCity)
              && TrimSpace(a.destinationCity) == TrimSpace(b.destinationCity)
              && a.days == b.days && a.budget == b.budget && a.travelers == b.travelers
              && DefaultString(a.dateRange, ANY) == DefaultString(b.dateRange, ANY)
              && NormalizeTransportMode(a.transportMode) == NormalizeTransportMode(b.transportMode)
              && NormalizePace(a.pace) == NormalizePace(b.pace)
              && NormalizeWalkingTolerance(a.walkingTolerance) == NormalizeWalkingTolerance(b.walkingTolerance)
              && DefaultString(a.hotelArea, ANY) == DefaultString(b.hotelArea, ANY)
              && DefaultString(a.travelerType, DEFAULT_TRAVELER) == DefaultString(b.travelerType, DEFAULT_TRAVELER)
              && NormalizeBudgetType(a.budgetType) == NormalizeBudgetType(b.budgetType)
  {
    hide NormalizeTransportMode, NormalizePace, NormalizeWalkingTolerance, NormalizeBudgetType, DefaultString,
      TrimSpace, SameText, Chosen;
    TextsAgree(a.dateRange, b.dateRange, "任意");
    TextsAgree(a.hotelArea, b.hotelArea, "任意");
    TextsAgree(a.travelerType, b.travelerType, "无要求");
    ChoicesAre(a);
    ChoicesAre(b);
  }

  /** What a budget covers: the values given, or the usual ones when none is. */
  function Covered(includes: seq<string>): set<string> {
    if Values(includes) == {} then {"住宿", "餐饮", "门票", "市内交通"} else Values(includes)
  }

  ghost predicate SameLists(a: TravelRequest, b: TravelRequest) {
    && Values(a.interests) == Values(b.interests)
    && Values(a.mustVisit) == Values(b.mustVisit)
    && Values(a.avoid) == Values(b.avoid)
    && Covered(a.budgetIncludes) == Covered(b.budgetIncludes)
  }

  lemma {:induction false} ListsAgree(a: seq<string>, b: seq<string>)
    ensures Sort(FirstOccurrences(a)) == Sort(FirstOccurrences(b)) <==> Values(a) == Values(b)
  {
    FirstOccurrencesAre(a);
    FirstOccurrencesAre(b);
    SortIsCanonical(FirstOccurrences(a), FirstOccurrences(b));
  }

  lemma CoveredIs(includes: seq<string>)
    ensures Distinct(WithDefault(FirstOccurrences(includes)))
    ensures Elements(WithDefault(FirstOccurrences(includes))) == Covered(includes)
  {
    hide FirstOccurrences, TrimSpace, Values;
    FirstOccurrencesAre(includes);
    var clean := FirstOccurrences(includes);
    assert Elements(BUDGET_INCLUDES) == {"住宿", "餐饮", "门票", "市内交通"};
    assert clean != [] ==> clean[0] in Elements(clean);
  }

  lemma {:induction false} IncludesAgree(a: seq<string>, b: seq<string>)
    ensures Sort(WithDefault(FirstOccurrences(a))) == Sort(WithDefault(FirstOccurrences(b)))
            <==> Covered(a) == Covered(b)
  {
    CoveredIs(a);
    CoveredIs(b);
    SortIsCanonical(WithDefault(FirstOccurrences(a)), WithDefault(FirstOccurrences(b)));
  }

  /**
    Two requests have the same record exactly when they have the same numbers, cities, texts and choices,
    under whatever names, and each list names the same set of values, whatever the order, the repetitions
    and the blanks around them.
   */
  lemma {:induction false} SameRecordIff(a: TravelRequest, b: TravelRequest, testMode: bool, userID: string,
      agentMode: string)
    ensures RecordOf(a, testMode, userID, agentMode) == RecordOf(b, testMode, userID, agentMode)
            <==> SameScalars(a, b) && SameLists(a, b)
  {
    hide NormalizeTransportMode, NormalizePace, NormalizeWalkingTolerance, NormalizeBudgetType,
      WithDefault, DefaultString, FirstOccurrences, TrimSpace, Sort, NormalizeAgentMode, Values, Covered, SameScalars;
    ScalarsAgree(a, b);
    ListsAgree(a.interests, b.interests);
    ListsAgree(a.mustVisit, b.mustVisit);
    ListsAgree(a.avoid, b.avoid);
    IncludesAgree(a.budgetIncludes, b.budgetIncludes);
  }

  /** Test mode, user and the kind of agent keep requests apart; the spelling of the agent's kind does not. */
  lemma OtherDimensions(a: TravelRequest, b: TravelRequest, testA: bool, testB: bool,
                        userA: string, userB: string, modeA: string, modeB: string)
    ensures RecordOf(a, testA, userA, modeA) == RecordOf(b, testB, userB, modeB) <==>
            && RecordOf(a, testA, userA, modeA) == RecordOf(b, testA, userA, modeA)
            && testA == testB && userA == userB
            && (ToLower(TrimSpace(modeA)) == "expert" <==> ToLower(TrimSpace(modeB)) == "expert")
  {
    hide Normalized, Sort, TrimSpace, ToLower;
  }

  /**
    The record that CreateTask takes, of the request normalized before, is that of the request itself,
    under any id.
   */
  lemma {:induction false} NormalizingChangesNoRecord(request: TravelRequest, id: string, testMode: bool,
      userID: string, agentMode: string)
    ensures var record := RecordOf(request, testMode, userID, agentMode);
            && RecordOf(ToDomain(request, id), testMode, userID, agentMode) == record
            && RecordOf(request, testMode, userID, NormalizeAgentMode(agentMode)) == record
  {
    ModeTwice(agentMode);
    hide NormalizeTransportMode, NormalizePace, NormalizeWalkingTolerance, NormalizeBudgetType,
      WithDefault, DefaultString, FirstOccurrences, TrimSpace, Sort, NormalizeAgentMode;
    var named := if request.id != "" then request else request.(id := id);
    NormalizedTwice(named);
    assert Normalized(named) == Normalized(request).(id := named.id);
  }

  lemma ModeTwice(mode: string)
    ensures NormalizeAgentMode(NormalizeAgentMode(mode)) == NormalizeAgentMode(mode)
  {
  }
}
