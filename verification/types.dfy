/** The records of the travel planner (src/types/index.ts). Coordinates are
    opaque pairs of reals; identifiers, times and dates are plain strings;
    money and scores are integers. */
module Types {
  import opened Wrappers

  datatype Coords = Coords(lat: real, lng: real)

  /** An itinerary entry. `kind` is the `type` field; it is a string because
      the plan comes from parsed model output and may hold any value. */
  datatype Activity = Activity(
    id: string,
    time: string,
    title: string,
    description: string,
    location: string,
    coordinates: Option<Coords>,
    cost: int,
    kind: string,
    rating: Option<int>)

  datatype ItineraryDay = ItineraryDay(
    day: int,
    date: string,
    activities: seq<Activity>,
    totalCost: int)

  datatype CostBreakdown = CostBreakdown(
    accommodation: int,
    food: int,
    transport: int,
    activities: int,
    total: int)

  datatype TravelPlan = TravelPlan(
    id: string,
    destination: string,
    duration: int,
    itinerary: seq<ItineraryDay>,
    costBreakdown: CostBreakdown,
    mapCenter: Coords,
    preferences: seq<string>)

  datatype Destination = Destination(
    id: string,
    name: string,
    country: string,
    description: string,
    image: string,
    highlights: seq<string>,
    estimatedCost: int,
    duration: string,
    coordinates: Coords,
    matchScore: int)

  /** The conversation steps. `Generating` is declared by the record type but
      never entered; `Destinations` is missing from the declared type but is
      the step the application enters after a budget. */
  datatype Step = Initial | Budget | Generating | Destinations | Itinerary

  /** `selectedDestination` is not part of the declared record, but the
      application stores it when a destination is chosen. */
  datatype ConversationState = ConversationState(
    step: Step,
    travelWish: Option<string>,
    budget: Option<int>,
    userLocation: Option<Coords>,
    selectedDestination: Option<Destination>)

  /** The preference lists inside the interest record. The record is parsed
      from model output, so any list may be missing. */
  datatype Preferences = Preferences(
    cultural: Option<seq<string>>,
    food: Option<seq<string>>,
    activities: Option<seq<string>>,
    atmosphere: Option<seq<string>>)

  /** The interest record the back end extracts from a travel wish and hands
      to the recommendation service (backend/utils/geminiApi.js,
      backend/utils/qlooApi.js); every field may be missing. */
  datatype UserInterests = UserInterests(
    interests: Option<seq<string>>,
    preferences: Option<Preferences>,
    keywords: Option<seq<string>>,
    travelStyle: Option<string>,
    duration: Option<string>)
}
