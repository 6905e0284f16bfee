/** The events screen: the week toggle, the free-text search, the "nearby"
    selection and its distance map, which sections are drawn and with which
    events, and how an event card is labelled. */
module EventsScreen {
  import opened Wrappers
  import opened Text
  import opened Seqs

  /** The fields of an event record that the screen reads. `district` is the
      district's abbreviation, absent when the event has no district; `week`
      is absent for events outside the competition weeks. A `null` location
      name, city or country is passed as the text "null", which is what it
      concatenates as in the search text. */
  datatype Event = Event(
    key: string,
    eventCode: string,
    name: string,
    locationName: string,
    city: string,
    country: string,
    district: Option<string>,
    week: Option<int>,
    eventType: string,
    endDate: string)

  // ---------------------------------------------------------------------------
  // Week toggle

  /** No week selected (-1), or one of the six weeks 0..5. */
  predicate ValidWeekQuery(w: int)
  {
    w == -1 || 0 <= w < 6
  }

  /** Clicking the button of week `x`: it selects `x` unless `x` is already
      selected, in which case it clears the selection. */
  function ToggleWeek(weekQuery: int, x: nat): (r: int)
    requires x < 6
    ensures ValidWeekQuery(r)
    ensures r == -1 <==> weekQuery == x
    ensures r != -1 ==> r == x
  {
    if weekQuery == -1 || x != weekQuery then x else -1
  }

  /** Clicking the same week twice clears the selection, unless that week
      was the one selected to begin with. */
  lemma ToggleTwice(weekQuery: int, x: nat)
    requires x < 6
    ensures ToggleWeek(ToggleWeek(weekQuery, x), x) == if weekQuery == x then x else -1
  {
  }

  // ---------------------------------------------------------------------------
  // Free-text search

  /** `event.district?.abbreviation` as it reads when concatenated. */
  function DistrictText(district: Option<string>): string
  {
    match district
    case Some(abbreviation) => abbreviation
    case None => "undefined"
  }

  /** name + location name + city + country + district abbreviation. */
  function SearchText(e: Event): string
  {
    e.name + e.locationName + e.city + e.country + DistrictText(e.district)
  }

  predicate SearchMatch(e: Event, query: string)
  {
    Includes(Lower(SearchText(e)), Lower(query))
  }

  /** An event without a district matches the query "undefined" (and
      "UNDEFINED"): the missing abbreviation reads as that word. */
  lemma MissingDistrictReadsUndefined(e: Event, query: string)
    requires e.district == None && Lower(query) == "undefined"
    ensures SearchMatch(e, query)
  {
    var front := e.name + e.locationName + e.city + e.country;
    assert SearchText(e) == front + "undefined";
    LowerConcat(front, "undefined");
    LowerKeepsNonUpper("undefined");
    IncludesSuffix(Lower(front), "undefined");
  }

  // ---------------------------------------------------------------------------
  // Nearby selection

  /** The radius field holds the number 350 at first and the typed text after
      any edit. */
  datatype RangeInput = RangeNumber(n: real) | RangeText(text: string)

  const DefaultRange: RangeInput := RangeNumber(350.0)

  /** `Number(nearbyRange)`: the empty text reads as 0; other text reads as
      `parse` says, `None` standing for `NaN`. */
  function RangeLimit(r: RangeInput, parse: string -> Option<real>): (limit: Option<real>)
    ensures r == DefaultRange ==> limit == Some(350.0)
    ensures r == RangeText("") ==> limit == Some(0.0)
  {
    match r
    case RangeNumber(n) => Some(n)
    case RangeText(t) => if t == "" then Some(0.0) else parse(t)
  }

  /** A blank radius goes back to 350; anything else stays. */
  function ResetRange(r: RangeInput): (r': RangeInput)
    ensures r' != RangeText("")
    ensures r' == r || (r == RangeText("") && r' == DefaultRange)
  {
    if r == RangeText("") then DefaultRange else r
  }

  lemma ResetRangeIdempotent(r: RangeInput)
    ensures ResetRange(ResetRange(r)) == ResetRange(r)
  {
  }

  /** `distance <= Number(nearbyRange)`, where a `NaN` on either side fails. */
  predicate WithinRange(d: Option<real>, limit: Option<real>)
  {
    d.Some? && limit.Some? && d.value <= limit.value
  }

  /** The events within range, in list order. `distance` stands for the
      haversine distance in kilometres from the reference point, `None` when
      it is `NaN`. */
  function NearbyEvents(events: seq<Event>, distance: Event -> Option<real>, limit: Option<real>): (r: seq<Event>)
    ensures IsSubsequence(r, events)
    ensures forall e :: e in r <==> e in events && WithinRange(distance(e), limit)
    ensures forall e {:trigger multiset(r)[e]} :: multiset(r)[e] == if WithinRange(distance(e), limit) then multiset(events)[e] else 0
  {
    FilterIsSubsequence(events, e => WithinRange(distance(e), limit));
    FilterCounts(events, e => WithinRange(distance(e), limit));
    Filter(events, e => WithinRange(distance(e), limit))
  }

  /** Enlarging the range never drops an event, nor reorders the survivors. */
  lemma NearbyMonotone(events: seq<Event>, distance: Event -> Option<real>, r1: real, r2: real)
    requires r1 <= r2
    ensures IsSubsequence(NearbyEvents(events, distance, Some(r1)), NearbyEvents(events, distance, Some(r2)))
  {
    FilterMonotone(events, e => WithinRange(distance(e), Some(r1)), e => WithinRange(distance(e), Some(r2)));
  }

  /** A radius that reads as `NaN` selects nothing. */
  lemma NaNRangeSelectsNothing(events: seq<Event>, distance: Event -> Option<real>)
    ensures NearbyEvents(events, distance, None) == []
  {
    FilterNone(events, e => WithinRange(distance(e), None));
  }

  lemma NearbyAppend(a: seq<Event>, b: seq<Event>, distance: Event -> Option<real>, limit: Option<real>)
    ensures NearbyEvents(a + b, distance, limit) == NearbyEvents(a, distance, limit) + NearbyEvents(b, distance, limit)
  {
    FilterAppend(a, b, e => WithinRange(distance(e), limit));
  }

  /** `eventDistances` after the filter pass: event code to distance, a later
      event overwriting an earlier one with the same code. */
  function DistanceMap(events: seq<Event>, distance: Event -> Option<real>): (m: map<string, Option<real>>)
    ensures m.Keys == set e | e in events :: e.eventCode
    decreases |events|
  {
    if events == [] then map[]
    else
      var last := events[|events| - 1];
      DistanceMap(events[..|events| - 1], distance)[last.eventCode := distance(last)]
  }

  /** An event's entry holds its own distance unless a later event shares its
      code. */
  lemma {:induction false} DistanceMapAt(events: seq<Event>, distance: Event -> Option<real>, i: nat)
    requires i < |events|
    requires forall j :: i < j < |events| ==> events[j].eventCode != events[i].eventCode
    ensures DistanceMap(events, distance)[events[i].eventCode] == distance(events[i])
    decreases |events|
  {
    if i < |events| - 1 {
      DistanceMapAt(events[..|events| - 1], distance, i);
    }
  }

  /** The filter pass over a single event. */
  lemma NearbySingle(e: Event, distance: Event -> Option<real>, limit: Option<real>)
    ensures NearbyEvents([e], distance, limit) == if WithinRange(distance(e), limit) then [e] else []
  {
    assert [e][1..] == [];
  }

  /** One more event in the filter pass: the nearby list grows by that event
      when it is within range. */
  lemma NearbyStep(events: seq<Event>, i: nat, distance: Event -> Option<real>, limit: Option<real>)
    requires i < |events|
    ensures NearbyEvents(events[..i + 1], distance, limit) ==
      NearbyEvents(events[..i], distance, limit) +
      (if WithinRange(distance(events[i]), limit) then [events[i]] else [])
  {
    assert events[..i + 1] == events[..i] + [events[i]];
    NearbyAppend(events[..i], [events[i]], distance, limit);
    NearbySingle(events[i], distance, limit);
  }

  /** One more event in the filter pass: its distance overwrites its code's
      entry. */
  lemma DistanceStep(events: seq<Event>, i: nat, distance: Event -> Option<real>)
    requires i < |events|
    ensures DistanceMap(events[..i + 1], distance) ==
      DistanceMap(events[..i], distance)[events[i].eventCode := distance(events[i])]
  {
    assert events[..i + 1][..i] == events[..i];
  }

  /** The filter pass of the location effect: one walk over the events that
      records every distance and keeps the events within range. */
  method ComputeNearby(events: seq<Event>, distance: Event -> Option<real>, limit: Option<real>)
    returns (nearby: seq<Event>, distances: map<string, Option<real>>)
    ensures nearby == NearbyEvents(events, distance, limit)
    ensures distances == DistanceMap(events, distance)
  {
    nearby, distances := [], map[];
    var i := 0;
    while i < |events|
      invariant 0 <= i <= |events|
      invariant nearby == NearbyEvents(events[..i], distance, limit)
      invariant distances == DistanceMap(events[..i], distance)
    {
      var e := events[i];
      var d := distance(e);
      NearbyStep(events, i, distance, limit);
      DistanceStep(events, i, distance);
      distances := distances[e.eventCode := d];
      if WithinRange(d, limit) {
        nearby := nearby + [e];
      }
      i := i + 1;
    }
    assert events[..i] == events;
  }

  /** Shown in the Nearby section: some nearby event has the same name. */
  predicate SharesName(nearby: seq<Event>, e: Event)
  {
    exists n :: n in nearby && n.name == e.name
  }

  // ---------------------------------------------------------------------------
  // Sections

  /** The sections the screen can draw. */
  datatype Section =
    | WeekResults(week: int)
    | SearchResults(query: string)
    | NearbyResults
    | Upcoming
    | Preseason
    | WeekBucket(k: nat)
    | Championship
    | Offseason

  /** Where a section sits on the screen, top to bottom: the three filtered
      sections, then the default view's buckets. */
  function DrawingRank(s: Section): nat
  {
    match s
    case WeekResults(_) => 0
    case SearchResults(_) => 1
    case NearbyResults => 2
    case Upcoming => 3
    case Preseason => 4
    case WeekBucket(k) => 5 + k
    case Championship => 11
    case Offseason => 12
  }

  /** Sections listed top to bottom, none twice. */
  predicate InDrawingOrder(r: seq<Section>)
  {
    forall i, j :: 0 <= i < j < |r| ==> DrawingRank(r[i]) < DrawingRank(r[j])
  }

  /** The grouped default view, in drawing order. */
  function DefaultView(): (r: seq<Section>)
    ensures |r| == 10 && InDrawingOrder(r)
  {
    [Upcoming, Preseason, WeekBucket(0), WeekBucket(1), WeekBucket(2), WeekBucket(3),
     WeekBucket(4), WeekBucket(5), Championship, Offseason]
  }

  /** The filtered sections, each drawn on its own condition: week results,
      search results, then nearby results. */
  function FilteredSections(weekQuery: int, searchQuery: string, showNearby: bool): (r: seq<Section>)
    ensures WeekResults(weekQuery) in r <==> weekQuery != -1
    ensures SearchResults(searchQuery) in r <==> searchQuery != ""
    ensures NearbyResults in r <==> showNearby
    ensures r == [] <==> weekQuery == -1 && searchQuery == "" && !showNearby
    ensures forall s :: s in r ==> s == WeekResults(weekQuery) || s == SearchResults(searchQuery) || s == NearbyResults
    ensures InDrawingOrder(r)
  {
    var week := if weekQuery != -1 then [WeekResults(weekQuery)] else [];
    var search := if searchQuery != "" then [SearchResults(searchQuery)] else [];
    var nearby := if showNearby then [NearbyResults] else [];
    week + search + nearby
  }

  /** The sections drawn, in order: the filtered sections, or the default
      view when none of the three filters is on. */
  function RenderedSections(weekQuery: int, searchQuery: string, showNearby: bool): (r: seq<Section>)
    ensures WeekResults(weekQuery) in r <==> weekQuery != -1
    ensures SearchResults(searchQuery) in r <==> searchQuery != ""
    ensures NearbyResults in r <==> showNearby
    ensures forall s :: s in DefaultView() ==> (s in r <==> weekQuery == -1 && searchQuery == "" && !showNearby)
    ensures forall s :: s in r ==>
      s == WeekResults(weekQuery) || s == SearchResults(searchQuery) || s == NearbyResults || s in DefaultView()
    ensures InDrawingOrder(r)
  {
    if weekQuery == -1 && searchQuery == "" && !showNearby then DefaultView()
    else FilteredSections(weekQuery, searchQuery, showNearby)
  }

  /** The three filtered sections can be drawn together. */
  lemma SectionsCanStack(weekQuery: nat, searchQuery: string)
    requires weekQuery < 6 && searchQuery != ""
    ensures RenderedSections(weekQuery, searchQuery, true) ==
      [WeekResults(weekQuery), SearchResults(searchQuery), NearbyResults]
  {
  }

  /** Whether section `s` lists event `e`; `today` is the date as
      "YYYY-MM-DD". */
  predicate Shows(s: Section, e: Event, nearby: seq<Event>, today: string)
  {
    match s
    case WeekResults(w) => e.week == Some(w)
    case SearchResults(q) => SearchMatch(e, q)
    case NearbyResults => SharesName(nearby, e)
    case Upcoming => LexLeq(today, e.endDate)
    case Preseason => e.eventType == "Preseason"
    case WeekBucket(k) => e.week == Some(k)
    case Championship => e.eventType == "Championship Division"
    case Offseason => e.eventType == "Offseason"
  }

  /** The events section `s` lists, in list order. */
  function SectionEvents(s: Section, events: seq<Event>, nearby: seq<Event>, today: string): (r: seq<Event>)
    ensures IsSubsequence(r, events)
    ensures forall e :: e in r <==> e in events && Shows(s, e, nearby, today)
    ensures forall e {:trigger multiset(r)[e]} :: multiset(r)[e] == if Shows(s, e, nearby, today) then multiset(events)[e] else 0
  {
    FilterIsSubsequence(events, e => Shows(s, e, nearby, today));
    FilterCounts(events, e => Shows(s, e, nearby, today));
    Filter(events, e => Shows(s, e, nearby, today))
  }

  /** The search section depends on the query only through its lower-case
      form: "HOUSTON" and "houston" list the same events. */
  lemma SearchIgnoresCase(events: seq<Event>, nearby: seq<Event>, today: string, a: string, b: string)
    requires Lower(a) == Lower(b)
    ensures SectionEvents(SearchResults(a), events, nearby, today) ==
            SectionEvents(SearchResults(b), events, nearby, today)
  {
    FilterExt(events, e => Shows(SearchResults(a), e, nearby, today), e => Shows(SearchResults(b), e, nearby, today));
  }

  /** The Nearby section lists every event that shares a name with a nearby
      event, nearby itself or not. */
  lemma NearbySectionByName(events: seq<Event>, distance: Event -> Option<real>, limit: Option<real>,
                            today: string, e: Event, n: Event)
    requires e in events && n in events && n.name == e.name
    requires WithinRange(distance(n), limit)
    ensures e in SectionEvents(NearbyResults, events, NearbyEvents(events, distance, limit), today)
  {
    assert n in NearbyEvents(events, distance, limit);
  }

  /** A Preseason event is in the Preseason bucket whatever its week and end
      date; it is in a week bucket only when its week is that bucket's. */
  lemma PreseasonIgnoresWeek(events: seq<Event>, nearby: seq<Event>, today: string, e: Event)
    requires e in events && e.eventType == "Preseason"
    ensures e in SectionEvents(Preseason, events, nearby, today)
    ensures forall k: nat :: e in SectionEvents(WeekBucket(k), events, nearby, today) <==> e.week == Some(k)
  {
    assert Shows(Preseason, e, nearby, today);
  }

  /** The default buckets overlap: a Preseason event with a week that has not
      ended yet sits in the Preseason bucket, its week bucket and Upcoming. */
  lemma PreseasonBucketsOverlap(events: seq<Event>, nearby: seq<Event>, today: string, e: Event, k: nat)
    requires e in events && e.eventType == "Preseason" && e.week == Some(k) && LexLeq(today, e.endDate)
    ensures e in SectionEvents(Preseason, events, nearby, today)
    ensures e in SectionEvents(WeekBucket(k), events, nearby, today)
    ensures e in SectionEvents(Upcoming, events, nearby, today)
  {
    assert Shows(Preseason, e, nearby, today);
    assert Shows(WeekBucket(k), e, nearby, today);
    assert Shows(Upcoming, e, nearby, today);
  }

  // ---------------------------------------------------------------------------
  // Event card and section header

  /** Names longer than 49 characters are cut to 49 and end in "...". */
  function DisplayName(name: string): (r: string)
    ensures |r| <= 52
    ensures |name| <= 49 ==> r == name
    ensures |name| > 49 ==> r == name[..49] + "..."
  {
    if |name| > 49 then name[..49] + "..." else name
  }

  /** `n` events, "event" only when `n` is 1. */
  function CountLabel(n: nat): (r: string)
    ensures StartsWith(r, Decimal(n))
    ensures r[|Decimal(n)|..] == if n == 1 then " event" else " events"
  {
    Decimal(n) + (if n == 1 then " event" else " events")
  }

  /** `Math.trunc`: drops the fraction, towards zero. */
  function Trunc(d: real): (n: int)
    ensures d >= 0.0 ==> 0 <= n && n as real <= d < n as real + 1.0
    ensures d < 0.0 ==> n <= 0 && n as real - 1.0 < d <= n as real
  {
    if d >= 0.0 then d.Floor else -((-d).Floor)
  }

  /** The kilometre figure: `String(Math.trunc(d))` with a comma before every
      full group of three digits counted from the right, except before the
      first digit. */
  function KmText(d: real): string
  {
    var n := Trunc(d);
    if n < 0 then "-" + ThousandsSeparated(Decimal(-n)) else ThousandsSeparated(Decimal(n))
  }

  /** Deleting the commas from the figure gives the truncated distance's
      digits, which read back as that distance. */
  lemma KmTextReadsBack(d: real)
    requires d >= 0.0
    ensures RemoveCommas(KmText(d)) == Decimal(Trunc(d))
    ensures DecimalValue(RemoveCommas(KmText(d))) == d.Floor
  {
    DigitsHaveNoComma(Decimal(Trunc(d)));
    SeparatorsRoundTrip(Decimal(Trunc(d)));
    DecimalRoundTrip(Trunc(d));
  }

  /** The distance line of a card: present only when navigation is available
      and the event's code has a distance that is a number. */
  function DistanceLabel(invalidNavigation: bool, distances: map<string, Option<real>>, e: Event): (r: Option<string>)
    ensures r.Some? <==> !invalidNavigation && e.eventCode in distances && distances[e.eventCode].Some?
    ensures r.Some? ==> r.value == KmText(distances[e.eventCode].value) + "km away"
  {
    if !invalidNavigation && e.eventCode in distances && distances[e.eventCode].Some? then
      Some(KmText(distances[e.eventCode].value) + "km away")
    else None
  }

  /** After a filter pass, every event of the list has a label unless
      navigation is unavailable or its distance is `NaN`. */
  lemma LabelAfterPass(events: seq<Event>, distance: Event -> Option<real>, i: nat)
    requires i < |events|
    requires forall j :: i < j < |events| ==> events[j].eventCode != events[i].eventCode
    ensures DistanceLabel(false, DistanceMap(events, distance), events[i]).Some? <==> distance(events[i]).Some?
  {
    DistanceMapAt(events, distance, i);
  }

  /** What a card shows of an event: its (shortened) name and its distance line. */
  datatype Card = Card(title: string, distance: Option<string>)

  /** A drawn section: which one, its count header and its cards. */
  datatype RenderedSection = RenderedSection(section: Section, header: string, cards: seq<Card>)

  // ---------------------------------------------------------------------------
  // The screen's state

  /** The screen's hook state, updated by its event handlers and effect. */
  class EventsScreenState {
    var searchQuery: string
    var nearbyEvents: seq<Event>
    var showNearbyEvents: bool
    var nearbyRange: RangeInput
    var invalidNavigation: bool
    var eventDistances: map<string, Option<real>>
    var weekQuery: int

    ghost predicate Valid()
      reads this
    {
      ValidWeekQuery(weekQuery)
    }

    /** The initial state of every hook. */
    constructor ()
      ensures Valid()
      ensures searchQuery == "" && nearbyEvents == [] && !showNearbyEvents
      ensures nearbyRange == DefaultRange && !invalidNavigation
      ensures eventDistances == map[] && weekQuery == -1
    {
      searchQuery := "";
      nearbyEvents := [];
      showNearbyEvents := false;
      nearbyRange := DefaultRange;
      invalidNavigation := false;
      eventDistances := map[];
      weekQuery := -1;
    }

    /** The week button `x` of the drop-down. */
    method SelectWeek(x: nat)
      requires x < 6
      modifies this`weekQuery
      ensures Valid()
      ensures weekQuery == ToggleWeek(old(weekQuery), x)
    {
      if weekQuery == -1 || x != weekQuery {
        weekQuery := x;
      } else if weekQuery == x {
        weekQuery := -1;
      }
    }

    /** Typing in the event search box. */
    method SetSearchQuery(query: string)
      modifies this`searchQuery
      ensures searchQuery == query
    {
      searchQuery := query;
    }

    /** The "Search Nearby" / "Show All Events" button. */
    method ToggleNearby()
      modifies this`showNearbyEvents
      ensures showNearbyEvents == !old(showNearbyEvents)
    {
      showNearbyEvents := !showNearbyEvents;
    }

    /** Typing in the radius box stores the text as typed. */
    method SetNearbyRange(text: string)
      modifies this`nearbyRange
      ensures nearbyRange == RangeText(text)
    {
      nearbyRange := RangeText(text);
    }

    /** The start of the location effect: a blank radius becomes 350. */
    method ResetBlankRange()
      modifies this`nearbyRange
      ensures nearbyRange == ResetRange(old(nearbyRange))
      ensures nearbyRange != RangeText("")
    {
      if nearbyRange == RangeText("") {
        nearbyRange := DefaultRange;
      }
    }

    /** The answer to the geolocation permission query: anything but
        "granted" marks navigation invalid, and nothing clears the mark. */
    method PermissionAnswered(granted: bool)
      modifies this`invalidNavigation
      ensures invalidNavigation == (old(invalidNavigation) || !granted)
    {
      if !granted {
        invalidNavigation := true;
      }
    }

    /** A position arrived (from the device or from the typed address): the
        filter pass runs with the radius as it stood, `distance` giving each
        event's distance from that position. */
    method RecomputeNearby(events: seq<Event>, distance: Event -> Option<real>, parse: string -> Option<real>)
      modifies this`nearbyEvents, this`eventDistances
      ensures nearbyEvents == NearbyEvents(events, distance, RangeLimit(nearbyRange, parse))
      ensures eventDistances == DistanceMap(events, distance)
    {
      var limit := RangeLimit(nearbyRange, parse);
      nearbyEvents, eventDistances := ComputeNearby(events, distance, limit);
    }

    /** The cards of one section. */
    function Cards(s: seq<Event>): (r: seq<Card>)
      reads this
      ensures |r| == |s|
      ensures forall i :: 0 <= i < |s| ==>
        r[i] == Card(DisplayName(s[i].name), DistanceLabel(invalidNavigation, eventDistances, s[i]))
    {
      seq(|s|, i requires 0 <= i < |s| reads this =>
        Card(DisplayName(s[i].name), DistanceLabel(invalidNavigation, eventDistances, s[i])))
    }

    /** What the screen draws for the event list `events` on day `today`. */
    function Render(events: seq<Event>, today: string): (r: seq<RenderedSection>)
      reads this
      ensures |r| == |RenderedSections(weekQuery, searchQuery, showNearbyEvents)|
      ensures forall i :: 0 <= i < |r| ==>
        var s := RenderedSections(weekQuery, searchQuery, showNearbyEvents)[i];
        var listed := SectionEvents(s, events, nearbyEvents, today);
        r[i].section == s && r[i].header == CountLabel(|listed|) && r[i].cards == Cards(listed)
    {
      var sections := RenderedSections(weekQuery, searchQuery, showNearbyEvents);
      seq(|sections|, i requires 0 <= i < |sections| reads this =>
        var listed := SectionEvents(sections[i], events, nearbyEvents, today);
        RenderedSection(sections[i], CountLabel(|listed|), Cards(listed)))
    }
  }
}
