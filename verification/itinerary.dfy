/** The logic of the itinerary view (src/components/ItineraryDisplay.tsx):
    which activities go on the map, which ones a day's animation receives,
    and the icon and colour shown for each activity type. */
module ItineraryDisplay {
  import opened Wrappers
  import opened Text
  import opened Types

  predicate HasCoordinates(a: Activity) {
    a.coordinates.Some?
  }

  /** Every activity of the plan, day by day, each day in its own order. */
  function Flatten(days: seq<ItineraryDay>): (r: seq<Activity>)
    ensures forall a :: a in r <==> exists i :: 0 <= i < |days| && a in days[i].activities
  {
    if days == [] then []
    else
      var rest := Flatten(days[1..]);
      assert forall i :: 1 <= i < |days| ==> days[i] == days[1..][i - 1];
      days[0].activities + rest
  }

  /** `allActivities`: the `flatMap` of each day's activities that have
      coordinates. */
  function AllActivities(days: seq<ItineraryDay>): (r: seq<Activity>)
    ensures forall a :: a in r ==> HasCoordinates(a)
  {
    if days == [] then []
    else Filter(HasCoordinates, days[0].activities) + AllActivities(days[1..])
  }

  /** The map receives exactly the activities that have coordinates, in
      day-then-activity order. */
  lemma {:induction false} AllActivitiesAreLocatedOnes(days: seq<ItineraryDay>)
    ensures AllActivities(days) == Filter(HasCoordinates, Flatten(days))
  {
    if days != [] {
      AllActivitiesAreLocatedOnes(days[1..]);
      FilterAppend(HasCoordinates, days[0].activities, Flatten(days[1..]));
    }
  }

  /** Position of the first day numbered `n`, or `|days|` when there is none. */
  function FirstDayIndex(days: seq<ItineraryDay>, n: int): (i: nat)
    ensures i <= |days|
    ensures i < |days| ==> days[i].day == n
    ensures forall j :: 0 <= j < i ==> days[j].day != n
  {
    if days == [] then 0
    else if days[0].day == n then 0
    else 1 + FirstDayIndex(days[1..], n)
  }

  /** `itinerary.find(day => day.day === n)`. */
  function FindDay(days: seq<ItineraryDay>, n: int): (r: Option<ItineraryDay>)
    ensures r.Some? <==> exists i :: 0 <= i < |days| && days[i].day == n
    ensures r.Some? ==> r.value in days && r.value.day == n
    ensures r.Some? ==> exists i :: 0 <= i < |days| && days[i] == r.value &&
                                    forall j :: 0 <= j < i ==> days[j].day != n
  {
    var i := FirstDayIndex(days, n);
    if i < |days| then Some(days[i]) else None
  }

  /** The activities a day's animation gets: those with coordinates of the
      first day numbered `n`, or none when no day has that number. */
  function DayActivities(days: seq<ItineraryDay>, n: int): (r: seq<Activity>)
    ensures (forall d :: d in days ==> d.day != n) ==> r == []
    ensures forall i ::
              (0 <= i < |days| && days[i].day == n && forall j :: 0 <= j < i ==> days[j].day != n)
              ==> r == Filter(HasCoordinates, days[i].activities)
    ensures forall a :: a in r ==> HasCoordinates(a)
  {
    match FindDay(days, n)
    case None => []
    case Some(d) => Filter(HasCoordinates, d.activities)
  }

  /** `handleDayVisualization(n)`: the list the registered animation callback
      is called with, or `None` when it is not called. */
  function DayVisualization(registered: bool, days: seq<ItineraryDay>, n: int): (r: Option<seq<Activity>>)
    ensures r.Some? <==> registered && DayActivities(days, n) != []
    ensures r.Some? ==> r.value == DayActivities(days, n) && forall a :: a in r.value ==> HasCoordinates(a)
  {
    var acts := DayActivities(days, n);
    if registered && |acts| > 0 then Some(acts) else None
  }

  const KnownKinds: set<string> := {"attraction", "restaurant", "transport", "accommodation"}

  /** The emoji shown for an activity type: a target, a plate with cutlery,
      a car, a hotel, and the pin for anything else. */
  datatype Icon = Target | Plate | Car | Hotel | Pin

  function ActivityIcon(kind: string): (icon: Icon)
    ensures icon == Pin <==> kind !in KnownKinds
  {
    match kind
    case "attraction" => Target
    case "restaurant" => Plate
    case "transport" => Car
    case "accommodation" => Hotel
    case _ => Pin
  }

  const DefaultColor := "bg-gray-100 text-gray-800 border-gray-200"

  /** The badge classes for an activity type; unknown types are grey. */
  function ActivityColor(kind: string): (c: string)
    ensures c == DefaultColor <==> kind !in KnownKinds
  {
    match kind
    case "attraction" => "bg-blue-100 text-blue-800 border-blue-200"
    case "restaurant" => "bg-orange-100 text-orange-800 border-orange-200"
    case "transport" => "bg-green-100 text-green-800 border-green-200"
    case "accommodation" => "bg-purple-100 text-purple-800 border-purple-200"
    case _ => DefaultColor
  }

  /** The four known types get four different icons. */
  lemma KnownKindsHaveDistinctIcons(k1: string, k2: string)
    requires k1 in KnownKinds && k2 in KnownKinds && k1 != k2
    ensures ActivityIcon(k1) != ActivityIcon(k2)
  {
  }
}
