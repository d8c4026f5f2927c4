/** internal/domain/brief.go: defaults and legacy names of a travel request. */
module Brief {
  import opened Text

  const ANY := "任意"
  const DEFAULT_PACE := "适中"
  const DEFAULT_TRAVELER := "无要求"
  const TOTAL_BUDGET := "总预算"
  const PER_PERSON := "人均预算"
  const BUDGET_INCLUDES: seq<string> := ["住宿", "餐饮", "门票", "市内交通"]

  datatype TravelRequest = TravelRequest(
    id: string,
    departureCity: string,
    destinationCity: string,
    days: int,
    budget: real,
    interests: seq<string>,
    travelers: int,
    dateRange: string,
    transportMode: string,
    pace: string,
    walkingTolerance: string,
    hotelArea: string,
    mustVisit: seq<string>,
    avoid: seq<string>,
    travelerType: string,
    budgetType: string,
    budgetIncludes: seq<string>)

  function NormalizeTransportMode(value: string): string {
    var v := ToLower(TrimSpace(value));
    if v in {"", "any", "任意", "不限", "无要求"} then ANY
    else if v in {"train_taxi", "高铁 + 打车", "高铁+打车"} then "高铁 + 打车"
    else if v in {"train_walk", "高铁 + 步行", "高铁+步行"} then "高铁 + 步行"
    else if v in {"train_subway", "高铁 + 地铁", "高铁+地铁"} then "高铁 + 地铁"
    else if v in {"subway_walk", "地铁 + 步行", "地铁+步行"} then "地铁 + 步行"
    else if v in {"subway_taxi", "地铁 + 打车", "地铁+打车"} then "地铁 + 打车"
    else if v in {"flight_taxi", "飞机 + 打车", "飞机+打车"} then "飞机 + 打车"
    else if v in {"flight_subway", "飞机 + 地铁", "飞机+地铁"} then "飞机 + 地铁"
    else if v in {"walk_taxi", "步行 + 打车", "步行+打车"} then "步行 + 打车"
    else TrimSpace(value)
  }

  function NormalizePace(value: string): string {
    var v := ToLower(TrimSpace(value));
    if v in {"", "balanced", "balance", "适中", "均衡", "平衡"} then DEFAULT_PACE
    else if v in {"relaxed", "轻松", "悠闲"} then "轻松"
    else if v in {"intensive", "紧凑", "充实"} then "紧凑"
    else TrimSpace(value)
  }

  function NormalizeWalkingTolerance(value: string): string {
    var v := ToLower(TrimSpace(value));
    if v in {"", "any", "任意", "不限", "无要求"} then ANY
    else if v in {"low", "低", "少走路", "少步行"} then "低"
    else if v in {"medium", "中", "适中"} then "中"
    else if v in {"high", "高", "不介意多走"} then "高"
    else TrimSpace(value)
  }

  function NormalizeBudgetType(value: string): string {
    var v := ToLower(TrimSpace(value));
    if v in {"", "total", "总预算"} then TOTAL_BUDGET
    else if v in {"per_person", "per person", "人均", "人均预算"} then PER_PERSON
    else TrimSpace(value)
  }

  predicate IsRelaxedPace(value: string) { NormalizePace(value) == "轻松" }

  predicate IsIntensivePace(value: string) { NormalizePace(value) == "紧凑" }

  predicate IsLowWalkingTolerance(value: string) { NormalizeWalkingTolerance(value) == "低" }

  function DefaultString(value: string, fallback: string): string {
    if TrimSpace(value) == "" then fallback else TrimSpace(value)
  }

  /** The trimmed, non-empty values, each where it occurs first. */
  function FirstOccurrences(values: seq<string>): seq<string> {
    if values == [] then []
    else
      var before := FirstOccurrences(values[..|values| - 1]);
      var v := TrimSpace(values[|values| - 1]);
      if v == "" || v in before then before else before + [v]
  }

  method NormalizeStringSlice(values: seq<string>) returns (out: seq<string>)
    ensures out == FirstOccurrences(values)
  {
    out := [];
    var seen: set<string> := {};
    for i := 0 to |values|
      invariant out == FirstOccurrences(values[..i])
      invariant seen == Elements(out)
    {
      assert values[..i + 1][..i] == values[..i];
      var value := TrimSpace(values[i]);
      if value == "" {
        continue;
      }
      if value in seen {
        continue;
      }
      seen := seen + {value};
      out := out + [value];
    }
    assert values[..|values|] == values;
  }

  function WithDefault(includes: seq<string>): seq<string> {
    if includes == [] then BUDGET_INCLUDES else includes
  }

  /** NormalizeTravelBrief as a function of the request. */
  function Normalized(req: TravelRequest): TravelRequest {
    TravelRequest(
      req.id, TrimSpace(req.departureCity), TrimSpace(req.destinationCity), req.days, req.budget,
      FirstOccurrences(req.interests), req.travelers,
      DefaultString(req.dateRange, ANY), NormalizeTransportMode(req.transportMode),
      NormalizePace(req.pace), NormalizeWalkingTolerance(req.walkingTolerance),
      DefaultString(req.hotelArea, ANY), FirstOccurrences(req.mustVisit), FirstOccurrences(req.avoid),
      DefaultString(req.travelerType, DEFAULT_TRAVELER), NormalizeBudgetType(req.budgetType),
      WithDefault(FirstOccurrences(req.budgetIncludes)))
  }

  /** The list holds the values of the given one, each once and trimmed. */
  ghost predicate Cleaned(out: seq<string>, values: seq<string>) {
    Elements(out) == Values(values) && Distinct(out) && forall v | v in out :: v != "" && Trimmed(v)
  }

  // ---------------------------------------------------------------- the names of one choice

  /** The label that is shown for a choice, and the names it goes by, in small letters. */
  datatype Choice = Choice(shown: string, names: set<string>)

  const PACES := [
    Choice("适中", {"", "balanced", "balance", "适中", "均衡", "平衡"}),
    Choice("轻松", {"relaxed", "轻松", "悠闲"}),
    Choice("紧凑", {"intensive", "紧凑", "充实"})]

  const WALKING := [
    Choice("任意", {"", "any", "任意", "不限", "无要求"}),
    Choice("低", {"low", "低", "少走路", "少步行"}),
    Choice("中", {"medium", "中", "适中"}),
    Choice("高", {"high", "高", "不介意多走"})]

  const BUDGET_TYPES := [
    Choice("总预算", {"", "total", "总预算"}),
    Choice("人均预算", {"per_person", "per person", "人均", "人均预算"})]

  const MODES := [
    Choice("任意", {"", "any", "任意", "不限", "无要求"}),
    Choice("高铁 + 打车", {"train_taxi", "高铁 + 打车", "高铁+打车"}),
    Choice("高铁 + 步行", {"train_walk", "高铁 + 步行", "高铁+步行"}),
    Choice("高铁 + 地铁", {"train_subway", "高铁 + 地铁", "高铁+地铁"}),
    Choice("地铁 + 步行", {"subway_walk", "地铁 + 步行", "地铁+步行"}),
    Choice("地铁 + 打车", {"subway_taxi", "地铁 + 打车", "地铁+打车"}),
    Choice("飞机 + 打车", {"flight_taxi", "飞机 + 打车", "飞机+打车"}),
    Choice("飞机 + 地铁", {"flight_subway", "飞机 + 地铁", "飞机+地铁"}),
    Choice("步行 + 打车", {"walk_taxi", "步行 + 打车", "步行+打车"})]

  /** The first choice, from the i-th on, that goes by this name; any other text stays, trimmed. */
  function ChosenFrom(choices: seq<Choice>, i: nat, value: string): string
    requires i <= |choices|
    decreases |choices| - i
  {
    if i == |choices| then TrimSpace(value)
    else if ToLower(TrimSpace(value)) in choices[i].names then choices[i].shown
    else ChosenFrom(choices, i + 1, value)
  }

  function Chosen(choices: seq<Choice>, value: string): string {
    ChosenFrom(choices, 0, value)
  }

  lemma ChosenPace(value: string)
    ensures NormalizePace(value) == Chosen(PACES, value)
  {
    hide ToLower, TrimSpace;
    assert ChosenFrom(PACES, 3, value) == TrimSpace(value);
    assert ChosenFrom(PACES, 2, value) == if ToLower(TrimSpace(value)) in PACES[2].names then "紧凑"
           else TrimSpace(value);
  }

  lemma ChosenWalking(value: string)
    ensures NormalizeWalkingTolerance(value) == Chosen(WALKING, value)
  {
    hide ToLower, TrimSpace;
    assert ChosenFrom(WALKING, 4, value) == TrimSpace(value);
    assert ChosenFrom(WALKING, 3, value) == if ToLower(TrimSpace(value)) in WALKING[3].names then "高"
           else TrimSpace(value);
  }

  lemma ChosenBudgetType(value: string)
    ensures NormalizeBudgetType(value) == Chosen(BUDGET_TYPES, value)
  {
    hide ToLower, TrimSpace;
    assert ChosenFrom(BUDGET_TYPES, 2, value) == TrimSpace(value);
  }

  lemma OneChoice(choices: seq<Choice>, i: nat, value: string)
    requires i < |choices|
    ensures ChosenFrom(choices, i, value) ==
              if ToLower(TrimSpace(value)) in choices[i].names then choices[i].shown
              else ChosenFrom(choices, i + 1, value)
  {
  }

  lemma ChosenMode(value: string)
    ensures NormalizeTransportMode(value) == Chosen(MODES, value)
  {
    FirstModes(value);
    LastModes(value);
    ModeIs(value);
    hide ToLower, TrimSpace, ChosenFrom, NormalizeTransportMode;
  }

  /** The mode, read from the first four choices, or else from the last five. */
  lemma ModeIs(value: string)
    ensures var v := ToLower(TrimSpace(value)); var mode := NormalizeTransportMode(value);
            if v in MODES[0].names then mode == MODES[0].shown
            else if v in MODES[1].names then mode == MODES[1].shown
            else if v in MODES[2].names then mode == MODES[2].shown
            else if v in MODES[3].names then mode == MODES[3].shown
            else mode == OtherMode(value)
  {
    hide ToLower, TrimSpace;
  }

  function OtherMode(value: string): string {
    var v := ToLower(TrimSpace(value));
    if v in MODES[4].names then MODES[4].shown
    else if v in MODES[5].names then MODES[5].shown
    else if v in MODES[6].names then MODES[6].shown
    else if v in MODES[7].names then MODES[7].shown
    else if v in MODES[8].names then MODES[8].shown
    else TrimSpace(value)
  }

  lemma FirstModes(value: string)
    ensures var v := ToLower(TrimSpace(value));
            Chosen(MODES, value) ==
              if v in MODES[0].names then MODES[0].shown
              else if v in MODES[1].names then MODES[1].shown
              else if v in MODES[2].names then MODES[2].shown
              else if v in MODES[3].names then MODES[3].shown
              else ChosenFrom(MODES, 4, value)
  {
    hide ToLower, TrimSpace, ChosenFrom;
    OneChoice(MODES, 0, value);
    OneChoice(MODES, 1, value);
    OneChoice(MODES, 2, value);
    OneChoice(MODES, 3, value);
  }

  lemma LastModes(value: string)
    ensures ChosenFrom(MODES, 4, value) == OtherMode(value)
  {
    hide ToLower, TrimSpace, ChosenFrom;
    OneChoice(MODES, 4, value);
    OneChoice(MODES, 5, value);
    OneChoice(MODES, 6, value);
    OneChoice(MODES, 7, value);
    OneChoice(MODES, 8, value);
    NoChoice(MODES, value);
  }

  lemma NoChoice(choices: seq<Choice>, value: string)
    ensures ChosenFrom(choices, |choices|, value) == TrimSpace(value)
  {
  }

  /** The text given, trimmed, or this one when it is blank. */
  predicate FilledFrom(filled: string, value: string, fallback: string) {
    filled == if TrimSpace(value) == "" then fallback else TrimSpace(value)
  }

  lemma ChoicesAre(request: TravelRequest)
    ensures NormalizeTransportMode(request.transportMode) == Chosen(MODES, request.transportMode)
    ensures NormalizePace(request.pace) == Chosen(PACES, request.pace)
    ensures NormalizeWalkingTolerance(request.walkingTolerance) == Chosen(WALKING, request.walkingTolerance)
    ensures NormalizeBudgetType(request.budgetType) == Chosen(BUDGET_TYPES, request.budgetType)
  {
    ChosenMode(request.transportMode);
    ChosenPace(request.pace);
    ChosenWalking(request.walkingTolerance);
    ChosenBudgetType(request.budgetType);
  }

  /**
    Normalizing again changes nothing; the lists are cleaned, each choice is shown by its label, blank
    fields have their fallbacks, and what is not text is as it was.
   */
  ghost predicate NormalizedFrom(req: TravelRequest, request: TravelRequest) {
    && Normalized(req) == req
    && Cleaned(req.interests, request.interests)
    && Cleaned(req.mustVisit, request.mustVisit) && Cleaned(req.avoid, request.avoid)
    && (if Values(request.budgetIncludes) == {} then req.budgetIncludes == BUDGET_INCLUDES
        else Cleaned(req.budgetIncludes, request.budgetIncludes))
    && req.departureCity == TrimSpace(request.departureCity)
    && req.destinationCity == TrimSpace(request.destinationCity)
    && req.transportMode == Chosen(MODES, request.transportMode) && req.pace == Chosen(PACES, request.pace)
    && req.walkingTolerance == Chosen(WALKING, request.walkingTolerance)
    && req.budgetType == Chosen(BUDGET_TYPES, request.budgetType)
    && FilledFrom(req.dateRange, request.dateRange, "任意") && FilledFrom(req.hotelArea, request.hotelArea, "任意")
    && FilledFrom(req.travelerType, request.travelerType, "无要求")
    && req.id == request.id && req.days == request.days && req.budget == request.budget
       && req.travelers == request.travelers
  }

  lemma NormalizedIsFrom(request: TravelRequest)
    ensures NormalizedFrom(Normalized(request), request)
  {
    NormalizedTwice(request);
    FirstOccurrencesAre(request.interests);
    FirstOccurrencesAre(request.mustVisit);
    FirstOccurrencesAre(request.avoid);
    FirstOccurrencesAre(request.budgetIncludes);
    ChoicesAre(request);
    hide NormalizeTransportMode, NormalizePace, NormalizeWalkingTolerance, NormalizeBudgetType, FirstOccurrences,
      TrimSpace, Trimmed, Distinct, Values, Chosen;
    var includes := FirstOccurrences(request.budgetIncludes);
    assert includes != [] ==> includes[0] in Elements(includes);
  }

  method NormalizeTravelBrief(request: TravelRequest) returns (req: TravelRequest)
    ensures req == Normalized(request)
    ensures NormalizedFrom(req, request)
  {
    NormalizedIsFrom(request);
    hide NormalizeTransportMode, NormalizePace, NormalizeWalkingTolerance, NormalizeBudgetType, NormalizedFrom;
    req := request;
    req := req.(departureCity := TrimSpace(req.departureCity), destinationCity := TrimSpace(req.destinationCity));
    var interests := NormalizeStringSlice(req.interests);
    req := req.(interests := interests);
    req := req.(dateRange := DefaultString(req.dateRange, ANY));
    req := req.(transportMode := NormalizeTransportMode(req.transportMode));
    req := req.(pace := NormalizePace(req.pace));
    req := req.(walkingTolerance := NormalizeWalkingTolerance(req.walkingTolerance));
    req := req.(hotelArea := DefaultString(req.hotelArea, ANY));
    var mustVisit := NormalizeStringSlice(req.mustVisit);
    var avoid := NormalizeStringSlice(req.avoid);
    req := req.(mustVisit := mustVisit, avoid := avoid);
    req := req.(travelerType := DefaultString(req.travelerType, DEFAULT_TRAVELER));
    req := req.(budgetType := NormalizeBudgetType(req.budgetType));
    var includes := NormalizeStringSlice(req.budgetIncludes);
    req := req.(budgetIncludes := includes);
    if |req.budgetIncludes| == 0 {
      req := req.(budgetIncludes := BUDGET_INCLUDES);
    }
  }

  // ---------------------------------------------------------------- lists

  /** The values a list field stands for. */
  function Values(values: seq<string>): set<string> {
    set v | v in values && TrimSpace(v) != "" :: TrimSpace(v)
  }

  /** Cleaning a list keeps its values, once each, and each of them trimmed. */
  lemma {:induction false} FirstOccurrencesAre(values: seq<string>)
    ensures Elements(FirstOccurrences(values)) == Values(values)
    ensures Distinct(FirstOccurrences(values))
    ensures forall v | v in FirstOccurrences(values) :: v != "" && Trimmed(v)
  {
    if values != [] {
      var n := |values| - 1;
      FirstOccurrencesAre(values[..n]);
      assert values == values[..n] + [values[n]];
      TrimTwice(values[n]);
      var v := TrimSpace(values[n]);
      assert Values(values) == Values(values[..n]) + if v == "" then {} else {v};
    }
  }

  lemma {:induction false} CleanListStays(values: seq<string>)
    requires Distinct(values) && forall v | v in values :: v != "" && Trimmed(v)
    ensures FirstOccurrences(values) == values
  {
    if values != [] {
      var n := |values| - 1;
      CleanListStays(values[..n]);
      assert values == values[..n] + [values[n]];
      TrimTwice(values[n]);
    }
  }

  // ---------------------------------------------------------------- twice is once

  /** Text that has nothing to trim and no capital letters. */
  predicate Plain(s: string) {
    Trimmed(s) && forall c | c in s :: Lower(c) == c
  }

  lemma PlainStays(s: string)
    requires Plain(s)
    ensures ToLower(TrimSpace(s)) == s && TrimSpace(s) == s
  {
  }

  predicate IsTransportMode(s: string) {
    IsRailMode(s) || IsOtherMode(s)
  }

  predicate IsRailMode(s: string) {
    s == ANY || s == "高铁 + 打车" || s == "高铁 + 步行" || s == "高铁 + 地铁"
  }

  predicate IsOtherMode(s: string) {
    || s == "地铁 + 步行" || s == "地铁 + 打车" || s == "飞机 + 打车" || s == "飞机 + 地铁"
    || s == "步行 + 打车"
  }

  lemma RailModeStays(s: string)
    requires IsRailMode(s)
    ensures NormalizeTransportMode(s) == s
  {
    assert Plain(s);
    PlainStays(s);
    hide ToLower, TrimSpace, Plain;
  }

  lemma OtherModeStays(s: string)
    requires IsOtherMode(s)
    ensures NormalizeTransportMode(s) == s
  {
    if s == "地铁 + 步行" || s == "地铁 + 打车" {
      SubwayModeStays(s);
    } else {
      OpenModeStays(s);
    }
    hide NormalizeTransportMode;
  }

  lemma SubwayModeStays(s: string)
    requires s == "地铁 + 步行" || s == "地铁 + 打车"
    ensures NormalizeTransportMode(s) == s
  {
    assert Plain(s);
    PlainStays(s);
    hide ToLower, TrimSpace, Plain;
  }

  lemma OpenModeStays(s: string)
    requires s == "飞机 + 打车" || s == "飞机 + 地铁" || s == "步行 + 打车"
    ensures NormalizeTransportMode(s) == s
  {
    assert Plain(s);
    PlainStays(s);
    hide ToLower, TrimSpace, Plain;
  }

  lemma {:induction false} TransportModeStays(s: string)
    requires IsTransportMode(s)
    ensures NormalizeTransportMode(s) == s
  {
    hide NormalizeTransportMode;
    if IsRailMode(s) {
      RailModeStays(s);
    } else {
      OtherModeStays(s);
    }
  }

  lemma TransportTwice(value: string)
    ensures NormalizeTransportMode(NormalizeTransportMode(value)) == NormalizeTransportMode(value)
  {
    var v := NormalizeTransportMode(value);
    TrimTwice(value);
    if v != TrimSpace(value) {
      assert IsTransportMode(v);
      hide NormalizeTransportMode;
      TransportModeStays(v);
    }
  }

  lemma PaceTwice(value: string)
    ensures NormalizePace(NormalizePace(value)) == NormalizePace(value)
  {
    var v := NormalizePace(value);
    TrimTwice(value);
    if v != TrimSpace(value) {
      assert Plain(v);
      PlainStays(v);
    }
  }

  lemma WalkingTwice(value: string)
    ensures NormalizeWalkingTolerance(NormalizeWalkingTolerance(value)) == NormalizeWalkingTolerance(value)
  {
    var v := NormalizeWalkingTolerance(value);
    TrimTwice(value);
    if v != TrimSpace(value) {
      assert Plain(v);
      PlainStays(v);
    }
  }

  lemma BudgetTypeTwice(value: string)
    ensures NormalizeBudgetType(NormalizeBudgetType(value)) == NormalizeBudgetType(value)
  {
    var v := NormalizeBudgetType(value);
    TrimTwice(value);
    if v != TrimSpace(value) {
      assert Plain(v);
      PlainStays(v);
    }
  }

  lemma ListTwice(values: seq<string>)
    ensures FirstOccurrences(FirstOccurrences(values)) == FirstOccurrences(values)
  {
    FirstOccurrencesAre(values);
    CleanListStays(FirstOccurrences(values));
  }

  lemma IncludesTwice(values: seq<string>)
    ensures var once := WithDefault(FirstOccurrences(values)); WithDefault(FirstOccurrences(once)) == once
  {
    ListTwice(values);
    CleanListStays(BUDGET_INCLUDES);
  }

  lemma DefaultTwice(value: string, fallback: string)
    requires fallback != "" && Trimmed(fallback)
    ensures DefaultString(DefaultString(value, fallback), fallback) == DefaultString(value, fallback)
  {
    TrimTwice(value);
    TrimTwice(fallback);
  }

  /** Normalizing a request twice is normalizing it once. */
  lemma {:induction false} NormalizedTwice(req: TravelRequest)
    ensures Normalized(Normalized(req)) == Normalized(req)
  {
    hide NormalizeTransportMode, NormalizePace, NormalizeWalkingTolerance, NormalizeBudgetType,
      WithDefault, DefaultString, FirstOccurrences, TrimSpace;
    TrimTwice(req.departureCity);
    TrimTwice(req.destinationCity);
    ListTwice(req.interests);
    ListTwice(req.mustVisit);
    ListTwice(req.avoid);
    IncludesTwice(req.budgetIncludes);
    DefaultTwice(req.dateRange, ANY);
    DefaultTwice(req.hotelArea, ANY);
    DefaultTwice(req.travelerType, DEFAULT_TRAVELER);
    TransportTwice(req.transportMode);
    PaceTwice(req.pace);
    WalkingTwice(req.walkingTolerance);
    BudgetTypeTwice(req.budgetType);
  }
}
