/** internal/agent/eino/nodes.go: which places are kept, in which order, and on which day they are visited. */
module Itinerary {
  import opened Text
  import opened Brief
  import opened TravelPlan
  import L = LlmWarnings
  import Bytes

  /** strings.Contains(text, name) for one of the trimmed, non-empty preferences. */
  predicate ContainsAny(text: string, prefs: seq<string>) {
    exists pref | pref in prefs :: TrimSpace(pref) != "" && L.Contains(text, TrimSpace(pref))
  }

  method ContainsAnyPreference(text: string, prefs: seq<string>) returns (found: bool)
    ensures found == ContainsAny(text, prefs)
  {
    for i := 0 to |prefs|
      invariant !ContainsAny(text, prefs[..i])
    {
      var pref := TrimSpace(prefs[i]);
      if pref != "" && L.Contains(text, pref) {
        assert prefs[i] in prefs;
        return true;
      }
      assert prefs[..i + 1] == prefs[..i] + [prefs[i]];
    }
    assert prefs[..|prefs|] == prefs;
    return false;
  }

  predicate Avoided(poi: Poi, avoid: seq<string>) {
    ContainsAny(poi.name + " " + poi.category + " " + poi.address, avoid)
  }

  /** The places that are not avoided, in their order. */
  function Unavoided(pois: seq<Poi>, avoid: seq<string>): seq<Poi> {
    if pois == [] then []
    else
      var last := pois[|pois| - 1];
      Unavoided(pois[..|pois| - 1], avoid) + if Avoided(last, avoid) then [] else [last]
  }

  /** All are kept when all would be avoided. */
  function Kept(pois: seq<Poi>, avoid: seq<string>): seq<Poi> {
    if Unavoided(pois, avoid) == [] then pois else Unavoided(pois, avoid)
  }

  predicate Matches(poi: Poi, name: string) {
    L.Contains(poi.name, name) || L.Contains(name, poi.name)
  }

  /** The first place that matches, or the number of places. */
  function FirstMatch(pois: seq<Poi>, name: string): (n: nat)
    ensures n <= |pois|
    ensures forall i | 0 <= i < n :: !Matches(pois[i], name)
    ensures n < |pois| ==> Matches(pois[n], name)
  {
    if pois == [] || Matches(pois[0], name) then 0 else 1 + FirstMatch(pois[1..], name)
  }

  function ToFront<T>(s: seq<T>, i: nat): seq<T> {
    if i < |s| then [s[i]] + s[..i] + s[i + 1..] else s
  }

  /** One wish: the first place that matches it comes to the front. */
  function Granted(pois: seq<Poi>, wish: string): seq<Poi> {
    var name := TrimSpace(wish);
    if name == "" then pois else ToFront(pois, FirstMatch(pois, name))
  }

  /** All wishes, the last one first. */
  function AllGranted(pois: seq<Poi>, wishes: seq<string>): seq<Poi>
    decreases |wishes|
  {
    if wishes == [] then pois
    else AllGranted(Granted(pois, wishes[|wishes| - 1]), wishes[..|wishes| - 1])
  }

  function Preferred(pois: seq<Poi>, req: TravelRequest): seq<Poi> {
    if pois == [] then [] else AllGranted(Kept(pois, req.avoid), req.mustVisit)
  }

  /**
    append([]MockPOI{poi}, append(filtered[:idx], filtered[idx+1:]...)...): the inner append shifts the
    rest of the same array down in place, the outer one makes a new array.
   */
  method MoveToFront(filtered: array<Poi>, idx: nat) returns (moved: array<Poi>)
    requires idx < filtered.Length
    modifies filtered
    ensures fresh(moved) && moved[..] == ToFront(old(filtered[..]), idx)
  {
    ghost var was := filtered[..];
    var poi := filtered[idx];
    for i := idx to filtered.Length - 1
      invariant filtered[..i] == was[..idx] + was[idx + 1..i + 1]
      invariant filtered[i..] == was[i..]
    {
      assert filtered[i + 1] == filtered[i..][1] == was[i + 1];
      filtered[i] := filtered[i + 1];
    }
    var n := filtered.Length;
    moved := new Poi[n] (i requires 0 <= i < n reads filtered => if i == 0 then poi else filtered[i - 1]);
    assert moved[..] == [poi] + filtered[..n - 1];
    assert was[idx + 1..n] == was[idx + 1..];
    Bytes.Assoc([poi], was[..idx], was[idx + 1..]);
  }

  /** The first loop of applyPOIPreferences: a new list, of the places that are not avoided, or of all. */
  method KeepUnavoided(pois: array<Poi>, avoid: seq<string>) returns (filtered: array<Poi>)
    ensures fresh(filtered) && filtered[..] == Kept(pois[..], avoid)
  {
    hide ContainsAny;
    var kept: seq<Poi> := [];
    for i := 0 to pois.Length
      invariant kept == Unavoided(pois[..i], avoid)
    {
      assert pois[..i + 1][..i] == pois[..i];
      var poi := pois[i];
      var avoided := ContainsAnyPreference(poi.name + " " + poi.category + " " + poi.address, avoid);
      if avoided {
        continue;
      }
      kept := kept + [poi];
    }
    assert pois[..pois.Length] == pois[..];
    if |kept| == 0 {
      kept := pois[..];
    }
    filtered := new Poi[|kept|] (i requires 0 <= i < |kept| => kept[i]);
    assert filtered[..] == kept;
  }

  /** The body of the second loop. */
  method Grant(filtered: array<Poi>, wish: string) returns (result: array<Poi>)
    modifies filtered
    ensures result[..] == Granted(old(filtered[..]), wish)
    ensures result == filtered || fresh(result)
  {
    hide Matches, TrimSpace;
    var name := TrimSpace(wish);
    if name == "" {
      return filtered;
    }
    var idx := 0;
    while idx < filtered.Length && !Matches(filtered[idx], name)
      invariant 0 <= idx <= filtered.Length
      invariant FirstMatch(filtered[..], name) == idx + FirstMatch(filtered[idx..], name)
    {
      assert filtered[idx..][1..] == filtered[idx + 1..];
      idx := idx + 1;
    }
    if idx == filtered.Length {
      return filtered;
    }
    result := MoveToFront(filtered, idx);
  }

  /** applyPOIPreferences. The places handed in are not changed. */
  method ApplyPoiPreferences(pois: array<Poi>, req: TravelRequest) returns (result: array<Poi>)
    ensures result[..] == Preferred(pois[..], req)
    ensures result == pois || fresh(result)
  {
    hide Kept, Granted;
    if pois.Length == 0 {
      return pois;
    }
    var filtered := KeepUnavoided(pois, req.avoid);
    var wish := |req.mustVisit|;
    assert req.mustVisit[..wish] == req.mustVisit;
    while wish > 0
      invariant 0 <= wish <= |req.mustVisit|
      invariant fresh(filtered)
      invariant AllGranted(filtered[..], req.mustVisit[..wish]) == Preferred(pois[..], req)
    {
      wish := wish - 1;
      assert req.mustVisit[..wish + 1][..wish] == req.mustVisit[..wish];
      filtered := Grant(filtered, req.mustVisit[wish]);
    }
    return filtered;
  }

  // ---------------------------------------------------------------- what is kept

  lemma {:induction false} UnavoidedAre(pois: seq<Poi>, avoid: seq<string>)
    ensures forall poi :: poi in Unavoided(pois, avoid) <==> poi in pois && !Avoided(poi, avoid)
    ensures Unavoided(pois, avoid) == [] <==> forall poi | poi in pois :: Avoided(poi, avoid)
  {
    hide Avoided;
    if pois != [] {
      var n := |pois| - 1;
      UnavoidedAre(pois[..n], avoid);
      assert pois == pois[..n] + [pois[n]];
      assert pois[n] in pois;
    }
  }

  /** A place that is to be avoided is kept only if every place is; the places not avoided are all kept. */
  lemma AvoidedOnlyIfAllAre(pois: seq<Poi>, req: TravelRequest)
    ensures var all := forall poi | poi in pois :: Avoided(poi, req.avoid);
            forall poi :: poi in Preferred(pois, req) <==> poi in pois && (all || !Avoided(poi, req.avoid))
    ensures |pois| > 0 ==> |Preferred(pois, req)| > 0
  {
    hide Avoided, AllGranted;
    UnavoidedAre(pois, req.avoid);
    var order, k := MovedAndTheRest(Kept(pois, req.avoid), req.mustVisit);
    var kept := Kept(pois, req.avoid);
    var result := AllGranted(kept, req.mustVisit);
    assert forall poi :: poi in result <==> poi in kept by {
      ArrangementKeeps(kept, result, order, k, req.mustVisit);
    }
  }

  /** A part of a text, somewhere in it. */
  predicate Within(part: string, text: string) {
    exists i, j | 0 <= i <= j <= |text| :: text[i..j] == part
  }

  lemma ContainsIsWithin(text: string, part: string)
    ensures L.Contains(text, part) <==> Within(part, text)
  {
    if L.Contains(text, part) {
      var i :| 0 <= i <= |text| && L.OccursAt(text, part, i);
      assert text[i..i + |part|] == part;
    }
    if Within(part, text) {
      var i, j :| 0 <= i <= j <= |text| && text[i..j] == part;
      assert L.OccursAt(text, part, i);
    }
  }

  /** One of the words to avoid is in the name, the category and the address, one behind the other. */
  ghost predicate Unwanted(poi: Poi, avoid: seq<string>) {
    exists w | w in avoid :: TrimSpace(w) != ""
        && Within(TrimSpace(w), poi.name + " " + poi.category + " " + poi.address)
  }

  lemma UnwantedIsAvoided(poi: Poi, avoid: seq<string>)
    ensures Unwanted(poi, avoid) <==> Avoided(poi, avoid)
  {
    hide TrimSpace, L.Contains, Within;
    var text := poi.name + " " + poi.category + " " + poi.address;
    forall w | w in avoid
      ensures L.Contains(text, TrimSpace(w)) <==> Within(TrimSpace(w), text)
    {
      ContainsIsWithin(text, TrimSpace(w));
    }
  }

  /**
    Exactly the places without a word to avoid are planned with, or all of them when every place has one.
    So no word to avoid is in the name, the category or the address of any, unless every place has one.
   */
  lemma KeptIffWanted(pois: seq<Poi>, req: TravelRequest)
    ensures var all := forall poi | poi in pois :: Unwanted(poi, req.avoid);
            && (forall poi :: poi in Preferred(pois, req) <==> poi in pois && (all || !Unwanted(poi, req.avoid)))
            && (!all ==> forall poi, w | poi in Preferred(pois, req) && w in req.avoid && TrimSpace(w) != "" ::
                  !Within(TrimSpace(w), poi.name) && !Within(TrimSpace(w), poi.category)
                  && !Within(TrimSpace(w), poi.address))
  {
    hide Preferred, TrimSpace, Within, Unwanted, Avoided;
    AvoidedOnlyIfAllAre(pois, req);
    forall poi
      ensures Unwanted(poi, req.avoid) <==> Avoided(poi, req.avoid)
    {
      UnwantedIsAvoided(poi, req.avoid);
    }
    forall poi, w | poi in Preferred(pois, req) && !Unwanted(poi, req.avoid) && w in req.avoid && TrimSpace(w) != ""
      ensures !Within(TrimSpace(w), poi.name) && !Within(TrimSpace(w), poi.category)
              && !Within(TrimSpace(w), poi.address)
    {
      PartsHaveNoWord(poi, w, req.avoid);
    }
  }

  lemma PartsHaveNoWord(poi: Poi, w: string, avoid: seq<string>)
    requires !Unwanted(poi, avoid) && w in avoid && TrimSpace(w) != ""
    ensures !Within(TrimSpace(w), poi.name) && !Within(TrimSpace(w), poi.category)
            && !Within(TrimSpace(w), poi.address)
  {
    hide TrimSpace;
    var word, text := TrimSpace(w), poi.name + " " + poi.category + " " + poi.address;
    WithinLonger(word, "", poi.name, " " + poi.category + " " + poi.address);
    WithinLonger(word, poi.name + " ", poi.category, " " + poi.address);
    WithinLonger(word, poi.name + " " + poi.category + " ", poi.address, "");
    assert "" + poi.name + (" " + poi.category + " " + poi.address) == text;
    assert poi.name + " " + poi.category + (" " + poi.address) == text && text + "" == text;
  }

  lemma WithinLonger(part: string, before: string, text: string, after: string)
    ensures Within(part, text) ==> Within(part, before + text + after)
  {
    if Within(part, text) {
      var i, j :| 0 <= i <= j <= |text| && text[i..j] == part;
      var all := before + text + after;
      assert all[|before| + i..|before| + j] == part;
    }
  }

  // ---------------------------------------------------------------- in which order

  predicate Wished(poi: Poi, wishes: seq<string>) {
    exists w | w in wishes :: TrimSpace(w) != "" && Matches(poi, TrimSpace(w))
  }

  /**
    `s` is `base` in another order: `order` gives the old places, first k of those that some wish
    matches, then all the others as they stood to each other.
   */
  ghost predicate Arrangement(base: seq<Poi>, s: seq<Poi>, order: seq<nat>, k: nat, wishes: seq<string>) {
    && |s| == |order| == |base| && k <= |s|
    && Distinct(order)
    && (forall i | 0 <= i < |s| :: order[i] < |base| && s[i] == base[order[i]])
    && (forall i, j | k <= i < j < |s| :: order[i] < order[j])
    && (forall i | 0 <= i < k :: Wished(s[i], wishes))
  }

  lemma GrantedIsArranged(base: seq<Poi>, s: seq<Poi>, order: seq<nat>, k: nat, wishes: seq<string>, wish: string)
    returns (order': seq<nat>, k': nat)
    requires Arrangement(base, s, order, k, wishes) && wish in wishes
    ensures Arrangement(base, Granted(s, wish), order', k', wishes)
    ensures k' <= k + 1
  {
    hide Matches, TrimSpace, Arrangement;
    var name := TrimSpace(wish);
    var i := FirstMatch(s, name);
    if name == "" || i == |s| {
      order', k' := order, k;
    } else {
      assert Wished(s[i], wishes);
      order' := ToFront(order, i);
      k' := if i < k then k else k + 1;
      MovedIsArranged(base, s, order, k, wishes, i);
    }
  }

  lemma {:induction false} MovedIsArranged(base: seq<Poi>, s: seq<Poi>, order: seq<nat>, k: nat,
      wishes: seq<string>, i: nat)
    requires Arrangement(base, s, order, k, wishes) && i < |s| && Wished(s[i], wishes)
    ensures Arrangement(base, ToFront(s, i), ToFront(order, i), if i < k then k else k + 1, wishes)
  {
    hide Wished, ToFront;
    ToFrontAt(s, i);
    ToFrontAt(order, i);
  }

  /** Where each element is after one has come to the front. */
  lemma ToFrontAt<T>(s: seq<T>, i: nat)
    requires i < |s|
    ensures |ToFront(s, i)| == |s|
    ensures forall j | 0 <= j < |s| :: ToFront(s, i)[j] == s[if j == 0 then i else if j <= i then j - 1 else j]
  {
  }

  lemma {:induction false} AllGrantedIsArranged(base: seq<Poi>, s: seq<Poi>, order: seq<nat>, k: nat,
      wishes: seq<string>, n: nat)
    returns (order': seq<nat>, k': nat)
    requires n <= |wishes| && Arrangement(base, s, order, k, wishes)
    ensures Arrangement(base, AllGranted(s, wishes[..n]), order', k', wishes)
    ensures k' <= k + n
    decreases n
  {
    if n == 0 {
      order', k' := order, k;
    } else {
      hide Arrangement, Granted;
      assert wishes[..n][..n - 1] == wishes[..n - 1];
      order', k' := GrantedIsArranged(base, s, order, k, wishes, wishes[n - 1]);
      order', k' := AllGrantedIsArranged(base, Granted(s, wishes[n - 1]), order', k', wishes, n - 1);
    }
  }

  /**
    For every list of places and of wishes: granting the wishes rearranges the list, nothing lost and
    nothing doubled. At most as many places as there are wishes come to the front, each matched by one of
    the wishes, and all others stay in their order.
   */
  lemma MovedAndTheRest(pois: seq<Poi>, wishes: seq<string>) returns (order: seq<nat>, k: nat)
    ensures Arrangement(pois, AllGranted(pois, wishes), order, k, wishes)
    ensures k <= |wishes|
  {
    order := seq(|pois|, i => i);
    assert Arrangement(pois, pois, order, 0, wishes);
    order, k := AllGrantedIsArranged(pois, pois, order, 0, wishes, |wishes|);
    assert wishes[..|wishes|] == wishes;
  }

  /** An arrangement holds the same places. */
  lemma ArrangementKeeps(base: seq<Poi>, s: seq<Poi>, order: seq<nat>, k: nat, wishes: seq<string>)
    requires Arrangement(base, s, order, k, wishes)
    ensures forall poi :: poi in s <==> poi in base
  {
    forall poi | poi in base
      ensures poi in s
    {
      var i :| 0 <= i < |base| && base[i] == poi;
      AllTaken(order, |base|);
      assert i in order;
      var j :| 0 <= j < |order| && order[j] == i;
      assert s[j] == poi;
    }
  }

  /** n different numbers below n are all of them. */
  lemma {:induction false} AllTaken(order: seq<nat>, n: nat)
    requires |order| == n && Distinct(order) && forall i | 0 <= i < n :: order[i] < n
    ensures forall x: nat | x < n :: x in order
  {
    DistinctCount(order);
    BelowAre(n);
    SameSize(Elements(order), Below(n));
    forall x: nat | x < n
      ensures x in order
    {
      assert x in Below(n);
    }
  }

  function Below(n: nat): set<nat> {
    if n == 0 then {} else Below(n - 1) + {n - 1}
  }

  lemma {:induction false} BelowAre(n: nat)
    ensures forall x: nat :: x in Below(n) <==> x < n
    ensures |Below(n)| == n
  {
    if n > 0 {
      BelowAre(n - 1);
      assert n - 1 !in Below(n - 1);
    }
  }

  lemma {:induction false} DistinctCount(s: seq<nat>)
    requires Distinct(s)
    ensures |Elements(s)| == |s|
  {
    if s != [] {
      DistinctCount(s[1..]);
      assert s == [s[0]] + s[1..];
      assert Elements(s) == Elements(s[1..]) + {s[0]};
    }
  }

  lemma SameSize(a: set<nat>, b: set<nat>)
    requires a <= b && |a| == |b|
    ensures a == b
  {
    assert b == a + (b - a);
    assert |b - a| == 0;
  }

  /** The first wish, if any place matches it, decides which kind of place comes first. */
  lemma FirstWishComesFirst(pois: seq<Poi>, wishes: seq<string>)
    requires wishes != [] && TrimSpace(wishes[0]) != ""
    requires exists poi | poi in pois :: Matches(poi, TrimSpace(wishes[0]))
    ensures AllGranted(pois, wishes) != [] && Matches(AllGranted(pois, wishes)[0], TrimSpace(wishes[0]))
  {
    hide Matches;
    var name := TrimSpace(wishes[0]);
    var before := LastGrant(pois, wishes);
    var poi :| poi in pois && Matches(poi, name);
    assert poi in before;
    var i :| 0 <= i < |before| && before[i] == poi;
    assert FirstMatch(before, name) < |before|;
  }

  /** The wish and the name of the place, one within the other. */
  ghost predicate Meets(poi: Poi, wish: string) {
    Within(TrimSpace(wish), poi.name) || Within(poi.name, TrimSpace(wish))
  }

  lemma MeetsIsMatch(poi: Poi, wish: string)
    ensures Meets(poi, wish) <==> Matches(poi, TrimSpace(wish))
  {
    ContainsIsWithin(poi.name, TrimSpace(wish));
    ContainsIsWithin(TrimSpace(wish), poi.name);
    hide TrimSpace, Within, L.Contains;
  }

  /** Granting n wishes moves a place back by n at most. */
  lemma {:induction false} MovedBack(s: seq<Poi>, wishes: seq<string>, p: nat) returns (q: nat)
    requires p < |s|
    ensures q < |AllGranted(s, wishes)| && q <= p + |wishes| && AllGranted(s, wishes)[q] == s[p]
    decreases |wishes|
  {
    hide Matches, TrimSpace, ToFront;
    q := p;
    if wishes != [] {
      var wish := wishes[|wishes| - 1];
      var name := TrimSpace(wish);
      var next := p;
      if name != "" && FirstMatch(s, name) < |s| {
        var i := FirstMatch(s, name);
        ToFrontAt(s, i);
        next := if p < i then p + 1 else if p == i then 0 else p;
      } else {
        NotMoved(s, FirstMatch(s, name));
      }
      q := MovedBack(Granted(s, wish), wishes[..|wishes| - 1], next);
    }
  }

  lemma NotMoved<T>(s: seq<T>, i: nat)
    ensures i >= |s| ==> ToFront(s, i) == s
  {
  }

  /**
    Every wish is met: if any place meets the j-th of them, one of the first j places planned with does, so
    that the first wish decides the first place, and all of them the first few.
   */
  lemma {:induction false} WishesComeFirst(pois: seq<Poi>, wishes: seq<string>, j: nat) returns (i: nat)
    requires j < |wishes| && TrimSpace(wishes[j]) != ""
    requires exists poi | poi in pois :: Meets(poi, wishes[j])
    ensures i <= j && i < |AllGranted(pois, wishes)| && Meets(AllGranted(pois, wishes)[i], wishes[j])
  {
    hide Meets, TrimSpace, Granted;
    var before := UpTo(pois, wishes, j + 1);
    assert wishes[..j + 1][..j] == wishes[..j];
    var granted := Granted(before, wishes[j]);
    FirstIsMet(pois, before, wishes[j]);
    i := MovedBack(granted, wishes[..j], 0);
  }

  lemma FirstIsMet(pois: seq<Poi>, before: seq<Poi>, wish: string)
    requires (forall poi :: poi in before <==> poi in pois) && TrimSpace(wish) != ""
    requires exists poi | poi in pois :: Meets(poi, wish)
    ensures Granted(before, wish) != [] && Meets(Granted(before, wish)[0], wish)
  {
    hide Meets, Matches, TrimSpace;
    forall poi
      ensures Meets(poi, wish) <==> Matches(poi, TrimSpace(wish))
    {
      MeetsIsMatch(poi, wish);
    }
    var poi :| poi in pois && Meets(poi, wish);
    assert poi in before;
    var i :| 0 <= i < |before| && before[i] == poi;
    assert FirstMatch(before, TrimSpace(wish)) < |before|;
  }

  /** The wishes from the n-th on have been granted. */
  lemma {:induction false} UpTo(pois: seq<Poi>, wishes: seq<string>, n: nat) returns (before: seq<Poi>)
    requires n <= |wishes|
    ensures AllGranted(pois, wishes) == AllGranted(before, wishes[..n])
    ensures forall poi :: poi in before <==> poi in pois
    decreases |wishes| - n
  {
    hide Granted;
    if n == |wishes| {
      before := pois;
      assert wishes[..n] == wishes;
    } else {
      var later := UpTo(pois, wishes, n + 1);
      assert wishes[..n + 1][..n] == wishes[..n];
      before := Granted(later, wishes[n]);
      GrantedKeeps(later, wishes[n]);
    }
  }

  lemma {:induction false} LastGrant(pois: seq<Poi>, wishes: seq<string>) returns (before: seq<Poi>)
    requires wishes != []
    ensures AllGranted(pois, wishes) == Granted(before, wishes[0])
    ensures forall poi :: poi in before <==> poi in pois
    decreases |wishes|
  {
    hide Granted;
    if |wishes| == 1 {
      before := pois;
      assert AllGranted(Granted(pois, wishes[0]), []) == Granted(pois, wishes[0]);
      assert wishes[..0] == [];
    } else {
      var last := wishes[|wishes| - 1];
      before := LastGrant(Granted(pois, last), wishes[..|wishes| - 1]);
      GrantedKeeps(pois, last);
    }
  }

  lemma GrantedKeeps(pois: seq<Poi>, wish: string)
    ensures forall poi :: poi in Granted(pois, wish) <==> poi in pois
  {
  }

  // ---------------------------------------------------------------- which day

  function ItemsPerDay(pace: string, walkingTolerance: string): (k: nat)
    ensures k == 2 || k == 3
  {
    if IsIntensivePace(pace) && !IsLowWalkingTolerance(walkingTolerance) then 3 else 2
  }

  /** paceItemRange: how many items a day should have. */
  function PaceItemRange(pace: string): (nat, nat) {
    if IsRelaxedPace(pace) then (1, 2) else if IsIntensivePace(pace) then (3, 4) else (2, 3)
  }

  function ItemTime(slot: nat): string {
    if slot == 0 then "09:30" else if slot == 1 then "14:30" else "18:30"
  }

  function ItemFor(slot: nat, poi: Poi, reason: string): Item {
    Item(ItemTime(slot), poi.category, poi.name, poi.address, reason, poi.estimatedCost, poi.cost, poi.duration)
  }

  /** The place visited at a slot (from 0) of a day (from 1), when n places are taken in turn, k a day. */
  function Turn(day: nat, slot: nat, k: nat, n: nat): (i: nat)
    requires n > 0 && day > 0
    ensures i < n
  {
    ((day - 1) * k + slot) % n
  }

  ghost predicate IsDay(day: Day, number: nat, k: nat, places: seq<Poi>, reason: Poi -> string)
    requires places != [] && number > 0
  {
    && day.number == number && |day.items| == k
    && forall slot | 0 <= slot < k ::
         var poi := places[Turn(number, slot, k, |places|)];
         day.items[slot] == ItemFor(slot, poi, reason(poi))
  }

  method BuildDay(places: array<Poi>, day: nat, itemsPerDay: nat, reason: Poi -> string) returns (built: Day)
    requires day > 0 && places.Length > 0
    ensures IsDay(built, day, itemsPerDay, places[..], reason)
  {
    var items := [];
    for slot := 0 to itemsPerDay
      invariant |items| == slot
      invariant forall i | 0 <= i < slot ::
                  var poi := places[Turn(day, i, itemsPerDay, places.Length)]; items[i] == ItemFor(i, poi, reason(poi))
    {
      var poi := places[((day - 1) * itemsPerDay + slot) % places.Length];
      assert poi == places[Turn(day, slot, itemsPerDay, places.Length)];
      hide Turn;
      items := items + [ItemFor(slot, poi, reason(poi))];
    }
    hide Turn;
    return Day(day, items);
  }

  /**
    optimizeItineraryNode; `reason` stands for itineraryReason. Not `ok` when there is no place at all.
   */
  method OptimizeItinerary(pois: array<Poi>, req: TravelRequest, reason: Poi -> string)
    returns (places: array<Poi>, days: seq<Day>, ok: bool)
    ensures ok <==> pois.Length > 0
    ensures ok ==> places[..] == Preferred(pois[..], req) && places.Length > 0
    ensures ok ==> |days| == if req.days < 0 then 0 else req.days
    ensures ok ==> AreDays(days, ItemsPerDay(req.pace, req.walkingTolerance), places[..], reason)
    ensures ok ==> AsAsked(days, places[..], req, reason)
    ensures ok ==> forall name ::
              NamedOn(days, name) ==
              NamedShare(places[..], |days| * ItemsPerDay(req.pace, req.walkingTolerance), name, places.Length)
  {
    hide IsDay, Preferred, IsRelaxedPace, NamedOn, NamedShare, ShowInTurn;
    if pois.Length == 0 {
      return pois, [], false;
    }
    places := ApplyPoiPreferences(pois, req);
    AvoidedOnlyIfAllAre(pois[..], req);
    RelaxedIsNotIntensive(req.pace);
    ghost var kept := places[..];
    var itemsPerDay := 2;
    if IsRelaxedPace(req.pace) || IsLowWalkingTolerance(req.walkingTolerance) {
      itemsPerDay := 2;
    } else if IsIntensivePace(req.pace) && !IsLowWalkingTolerance(req.walkingTolerance) {
      itemsPerDay := 3;
    }
    assert itemsPerDay == ItemsPerDay(req.pace, req.walkingTolerance);
    hide IsIntensivePace, IsLowWalkingTolerance, ItemsPerDay;
    days := [];
    var day := 1;
    while day <= req.days
      invariant 1 <= day && (req.days < 0 ==> day == 1) && (req.days >= 0 ==> day <= req.days + 1)
      invariant |days| == day - 1 && places[..] == kept
      invariant forall d | 0 <= d < |days| :: IsDay(days[d], d + 1, itemsPerDay, places[..], reason)
    {
      var built := BuildDay(places, day, itemsPerDay, reason);
      days := days + [built];
      day := day + 1;
    }
    forall name
      ensures NamedOn(days, name) == NamedShare(kept, |days| * itemsPerDay, name, |kept|)
    {
      ItemsAreEven(days, itemsPerDay, kept, reason, name);
    }
    DaysShowPlaces(days, itemsPerDay, kept, reason);
    return places, days, true;
  }

  /** The items show the places in turn, at three times of the day. */
  ghost predicate ShowInTurn(days: seq<Day>, places: seq<Poi>, k: nat, reason: Poi -> string)
    requires places != []
  {
    forall d, slot | 0 <= d < |days| && 0 <= slot < |days[d].items| ::
      Shown(days[d].items[slot], slot, places[(d * k + slot) % |places|], reason)
  }

  ghost predicate Shown(item: Item, slot: int, poi: Poi, reason: Poi -> string) {
    && item.name == poi.name && item.kind == poi.category && item.address == poi.address
    && item.estimatedCost == poi.estimatedCost && item.cost == poi.cost && item.duration == poi.duration
    && item.reason == reason(poi)
    && item.time == (match slot case 0 => "09:30" case 1 => "14:30" case _ => "18:30")
  }

  /** Three places a day for an intensive pace without low walking, two otherwise. */
  ghost predicate AsAsked(days: seq<Day>, places: seq<Poi>, req: TravelRequest, reason: Poi -> string) {
    var k := if IsIntensivePace(req.pace) && !IsLowWalkingTolerance(req.walkingTolerance) then 3 else 2;
    && places != []
    && (forall d | 0 <= d < |days| :: days[d].number == d + 1 && |days[d].items| == k)
    && ShowInTurn(days, places, k, reason)
  }

  /** Days are numbered from 1 and have k items each, which show the places in turn. */
  lemma DaysShowPlaces(days: seq<Day>, k: nat, places: seq<Poi>, reason: Poi -> string)
    requires places != [] && AreDays(days, k, places, reason)
    ensures forall d | 0 <= d < |days| :: days[d].number == d + 1 && |days[d].items| == k
    ensures ShowInTurn(days, places, k, reason)
  {
    forall d, slot | 0 <= d < |days| && 0 <= slot < |days[d].items|
      ensures Shown(days[d].items[slot], slot, places[(d * k + slot) % |places|], reason)
    {
      DayShowsPlaces(days[d], d, k, places, reason, slot);
    }
  }

  lemma DayShowsPlaces(day: Day, d: nat, k: nat, places: seq<Poi>, reason: Poi -> string, slot: nat)
    requires places != [] && IsDay(day, d + 1, k, places, reason) && slot < |day.items|
    ensures Shown(day.items[slot], slot, places[(d * k + slot) % |places|], reason)
  {
    assert Turn(d + 1, slot, k, |places|) == (d * k + slot) % |places|;
    hide Turn;
  }

  lemma RelaxedIsNotIntensive(pace: string)
    ensures !(IsRelaxedPace(pace) && IsIntensivePace(pace))
  {
  }

  // ---------------------------------------------------------------- how often

  /** Every day is the day of its number. */
  ghost predicate AreDays(days: seq<Day>, k: nat, places: seq<Poi>, reason: Poi -> string)
    requires places != []
  {
    forall d | 0 <= d < |days| :: IsDay(days[d], d + 1, k, places, reason)
  }

  /** In how many of the first slots of a day it is the turn of place p. */
  function TurnsIn(day: nat, slots: nat, k: nat, n: nat, p: nat): nat
    requires n > 0 && day > 0
  {
    if slots == 0 then 0 else TurnsIn(day, slots - 1, k, n, p) + if Turn(day, slots - 1, k, n) == p then 1 else 0
  }

  /** In how many slots of the first days. */
  function TurnsOn(days: nat, k: nat, n: nat, p: nat): nat
    requires n > 0
  {
    if days == 0 then 0 else TurnsOn(days - 1, k, n, p) + TurnsIn(days, k, k, n, p)
  }

  /** How often place p comes up among the first `total` visits, when n places are taken in turn. */
  function Visits(total: nat, n: nat, p: nat): nat
    requires n > 0
  {
    if total == 0 then 0 else Visits(total - 1, n, p) + if (total - 1) % n == p then 1 else 0
  }

  lemma {:induction false} DayAddsVisits(day: nat, slots: nat, k: nat, n: nat, p: nat)
    requires n > 0 && day > 0
    ensures Visits((day - 1) * k + slots, n, p) == Visits((day - 1) * k, n, p) + TurnsIn(day, slots, k, n, p)
  {
    if slots > 0 {
      DayAddsVisits(day, slots - 1, k, n, p);
    }
  }

  lemma {:induction false} TurnsAreVisits(days: nat, k: nat, n: nat, p: nat)
    requires n > 0
    ensures TurnsOn(days, k, n, p) == Visits(days * k, n, p)
  {
    if days > 0 {
      TurnsAreVisits(days - 1, k, n, p);
      DayAddsVisits(days, k, k, n, p);
      assert (days - 1) * k + k == days * k;
    }
  }

  /** The share of place p in `total` visits to n places: rounded down, and one more for the first ones. */
  function Share(total: nat, n: nat, p: nat): (share: nat)
    requires n > 0
    ensures share == total / n || share == total / n + 1
    ensures total % n == 0 && p < n ==> share == total / n
  {
    total / n + if p < total % n then 1 else 0
  }

  /** Over all slots of all days, place p has its turn total / n times, rounded down or up. */
  lemma TurnsAreEven(days: nat, k: nat, n: nat, p: nat)
    requires p < n
    ensures TurnsOn(days, k, n, p) == Share(days * k, n, p)
  {
    TurnsAreVisits(days, k, n, p);
    VisitsAreEven(days * k, n, p);
  }

  /** How many items of an itinerary bear a name. */
  function NamedIn(items: seq<Item>, name: string): nat {
    if items == [] then 0
    else NamedIn(items[..|items| - 1], name) + if items[|items| - 1].name == name then 1 else 0
  }

  function NamedOn(days: seq<Day>, name: string): nat {
    if days == [] then 0 else NamedOn(days[..|days| - 1], name) + NamedIn(days[|days| - 1].items, name)
  }

  /** The turns in one day of the first m places, as far as they bear the name. */
  function NamedTurns(places: seq<Poi>, day: nat, slots: nat, k: nat, name: string, m: nat): nat
    requires places != [] && day > 0 && m <= |places|
  {
    if m == 0 then 0
    else
      NamedTurns(places, day, slots, k, name, m - 1)
      + if places[m - 1].name == name then TurnsIn(day, slots, k, |places|, m - 1) else 0
  }

  /** The shares of the first m places, as far as they bear the name. */
  function NamedShare(places: seq<Poi>, total: nat, name: string, m: nat): nat
    requires places != [] && m <= |places|
  {
    if m == 0 then 0
    else
      NamedShare(places, total, name, m - 1)
      + if places[m - 1].name == name then Share(total, |places|, m - 1) else 0
  }

  /** The turn of one slot counts for one place. */
  lemma {:induction false} OneTurn(places: seq<Poi>, day: nat, slots: nat, k: nat, name: string, m: nat)
    requires places != [] && day > 0 && slots > 0 && m <= |places|
    ensures var turn := Turn(day, slots - 1, k, |places|);
            NamedTurns(places, day, slots, k, name, m) ==
            NamedTurns(places, day, slots - 1, k, name, m) + if turn < m && places[turn].name == name then 1 else 0
  {
    hide Turn;
    if m > 0 {
      OneTurn(places, day, slots, k, name, m - 1);
    }
  }

  lemma {:induction false} NoTurns(places: seq<Poi>, day: nat, k: nat, name: string, m: nat)
    requires places != [] && day > 0 && m <= |places|
    ensures NamedTurns(places, day, 0, k, name, m) == 0
  {
    if m > 0 {
      NoTurns(places, day, k, name, m - 1);
    }
  }

  /** The items of a day that bear a name are the turns of the places that do. */
  lemma {:induction false} NamedInDay(places: seq<Poi>, day: Day, number: nat, k: nat, reason: Poi -> string,
      name: string, slots: nat)
    requires places != [] && number > 0 && IsDay(day, number, k, places, reason) && slots <= k
    ensures NamedIn(day.items[..slots], name) == NamedTurns(places, number, slots, k, name, |places|)
  {
    hide Turn;
    if slots == 0 {
      NoTurns(places, number, k, name, |places|);
    } else {
      NamedInDay(places, day, number, k, reason, name, slots - 1);
      OneTurn(places, number, slots, k, name, |places|);
      assert day.items[..slots][..slots - 1] == day.items[..slots - 1];
      assert day.items[slots - 1].name == places[Turn(number, slots - 1, k, |places|)].name;
    }
  }

  /** One day more adds its turns to the shares. */
  lemma {:induction false} DayAddsShares(places: seq<Poi>, days: nat, k: nat, name: string, m: nat)
    requires places != [] && days > 0 && m <= |places|
    ensures NamedShare(places, days * k, name, m) ==
            NamedShare(places, (days - 1) * k, name, m) + NamedTurns(places, days, k, k, name, m)
  {
    hide Share, TurnsIn;
    if m > 0 {
      DayAddsShares(places, days, k, name, m - 1);
      TurnsAreEven(days, k, |places|, m - 1);
      TurnsAreEven(days - 1, k, |places|, m - 1);
    }
  }

  lemma {:induction false} NothingShared(places: seq<Poi>, name: string, m: nat)
    requires places != [] && m <= |places|
    ensures NamedShare(places, 0, name, m) == 0
  {
    if m > 0 {
      NothingShared(places, name, m - 1);
      Divided(0, |places|, 0, 0);
    }
  }

  /**
    In every itinerary, the items of a name are as many as the places of that name have turns to share:
    each place its even share of all slots.
   */
  lemma {:induction false} ItemsAreEven(days: seq<Day>, k: nat, places: seq<Poi>, reason: Poi -> string, name: string)
    requires places != [] && AreDays(days, k, places, reason)
    ensures NamedOn(days, name) == NamedShare(places, |days| * k, name, |places|)
  {
    hide IsDay, NamedShare, NamedTurns;
    if days == [] {
      NothingShared(places, name, |places|);
    } else {
      var d := |days| - 1;
      ItemsAreEven(days[..d], k, places, reason, name);
      NamedInDay(places, days[d], d + 1, k, reason, name, k);
      assert days[d].items[..k] == days[d].items by { DayLength(days[d], d + 1, k, places, reason); }
      DayAddsShares(places, d + 1, k, name, |places|);
    }
  }

  lemma DayLength(day: Day, number: nat, k: nat, places: seq<Poi>, reason: Poi -> string)
    requires places != [] && number > 0 && IsDay(day, number, k, places, reason)
    ensures |day.items| == k
  {
  }

  /** The name of one place only is given to the share of that place. */
  lemma {:induction false} OwnShare(places: seq<Poi>, total: nat, p: nat, m: nat)
    requires p < |places| && m <= |places|
    requires forall q | 0 <= q < |places| && q != p :: places[q].name != places[p].name
    ensures NamedShare(places, total, places[p].name, m) == if p < m then Share(total, |places|, p) else 0
  {
    hide Share;
    if m > 0 {
      OwnShare(places, total, p, m - 1);
    }
  }

  /** In every itinerary a place whose name no other place bears has its even share of the items. */
  lemma EachPlaceHasItsShare(days: seq<Day>, k: nat, places: seq<Poi>, reason: Poi -> string, p: nat)
    requires p < |places| && AreDays(days, k, places, reason)
    requires forall q | 0 <= q < |places| && q != p :: places[q].name != places[p].name
    ensures NamedOn(days, places[p].name) == Share(|days| * k, |places|, p)
  {
    hide AreDays, IsDay, Share, NamedOn, NamedShare;
    ItemsAreEven(days, k, places, reason, places[p].name);
    OwnShare(places, |days| * k, p, |places|);
  }

  /** Every one of the n places is visited total / n times, rounded down or up: the first ones once more. */
  lemma {:induction false} VisitsAreEven(total: nat, n: nat, p: nat)
    requires p < n
    ensures Visits(total, n, p) == Share(total, n, p)
  {
    if total > 0 {
      VisitsAreEven(total - 1, n, p);
      NextDivided(total - 1, n);
    }
  }

  /** Counting up: the remainder grows until it is n. */
  lemma {:induction false} NextDivided(x: nat, n: nat)
    requires n > 0
    ensures x % n < n - 1 ==> (x + 1) / n == x / n && (x + 1) % n == x % n + 1
    ensures x % n == n - 1 ==> (x + 1) / n == x / n + 1 && (x + 1) % n == 0
  {
    var q, r := x / n, x % n;
    if r < n - 1 {
      Divided(x + 1, n, q, r + 1);
    } else {
      assert (q + 1) * n == q * n + n;
      Divided(x + 1, n, q + 1, 0);
    }
  }

  lemma {:induction false} Divided(x: nat, n: nat, q: nat, r: nat)
    requires r < n && x == q * n + r
    ensures x / n == q && x % n == r
  {
    var d: int := x / n - q;
    assert d * n == r - x % n;
    Times(d, n);
  }

  lemma Times(d: int, n: int)
    requires n > 0
    ensures d >= 1 ==> d * n >= n
    ensures d <= -1 ==> d * n <= -n
  {
  }

  /** The check "daily_pace" of validateRouteFeasibility. */
  predicate PaceOk(days: seq<Day>, pace: string) {
    forall day | day in days :: PaceItemRange(pace).0 <= |day.items| <= PaceItemRange(pace).1
  }

  /**
    It holds of an itinerary of this file exactly when the request does not ask for an intensive pace and
    for little walking at once.
   */
  lemma DailyPaceIff(days: seq<Day>, places: seq<Poi>, reason: Poi -> string, pace: string, walkingTolerance: string)
    requires places != [] && days != []
    requires AreDays(days, ItemsPerDay(pace, walkingTolerance), places, reason)
    ensures PaceOk(days, pace) <==> !(IsIntensivePace(pace) && IsLowWalkingTolerance(walkingTolerance))
  {
    hide IsRelaxedPace, IsIntensivePace, IsLowWalkingTolerance;
    RelaxedIsNotIntensive(pace);
    forall d | 0 <= d < |days|
      ensures |days[d].items| == ItemsPerDay(pace, walkingTolerance)
    {
      DayLength(days[d], d + 1, ItemsPerDay(pace, walkingTolerance), places, reason);
    }
    assert days[0] in days;
  }

  /** No day visits a place twice if and only if there are as many places as a day has slots. */
  lemma NoRepeatWithinADayIff(days: nat, k: nat, n: nat)
    requires n > 0 && days > 0
    ensures (forall day, s, t | 1 <= day <= days && 0 <= s < t < k ::
               Turn(day, s, k, n) != Turn(day, t, k, n))
            <==> n >= k
  {
    hide Turn;
    if n >= k {
      forall day: nat, s: nat, t: nat | 1 <= day <= days && s < t < k
        ensures Turn(day, s, k, n) != Turn(day, t, k, n)
      {
        TurnsDiffer(day, s, t, k, n);
      }
    } else {
      TurnComesAgain(k, n);
    }
  }

  lemma TurnsDiffer(day: nat, s: nat, t: nat, k: nat, n: nat)
    requires day > 0 && s < t < k <= n
    ensures Turn(day, s, k, n) != Turn(day, t, k, n)
  {
    DifferByLess((day - 1) * k + s, (day - 1) * k + t, n);
  }

  lemma TurnComesAgain(k: nat, n: nat)
    requires n > 0
    ensures Turn(1, 0, k, n) == Turn(1, n, k, n)
  {
    Divided(0, n, 0, 0);
    Divided(n, n, 1, 0);
  }

  lemma {:induction false} DifferByLess(a: nat, b: nat, n: nat)
    requires n > 0 && a < b < a + n
    ensures a % n != b % n
  {
    var d: int := b / n - a / n;
    assert b - a == d * n + (b % n - a % n);
    if d >= 1 {
      assert d * n >= n;
    } else {
      assert d * n <= 0;
    }
  }
}
