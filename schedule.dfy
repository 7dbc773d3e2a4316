/**
  The schedule the ballpark model receives, and its first step: counting the
  games at each venue in a dictionary. A Python dictionary remembers the order
  in which its keys were first inserted, and the model later walks it in that
  order, so the count is kept as the list of venues in first-seen order
  together with the map from venue to number of games.
*/
module Schedule {
  import opened Options

  /** One upcoming game, as the data source supplies it. */
  datatype ScheduleEntry = ScheduleEntry(
    date: string,
    venueName: Option<string>,
    venueId: int,
    isHome: bool,
    opponent: string)

  /** `game.get('venue_name', 'Unknown')`. */
  function VenueOf(game: ScheduleEntry): (venue: string)
    ensures game.venueName.Some? ==> venue == game.venueName.value
    ensures game.venueName.None? ==> venue == "Unknown"
  {
    game.venueName.GetOr("Unknown")
  }

  /** The dictionary `ballpark_games`: keys in insertion order, and their counts. */
  datatype VenueTally = VenueTally(venues: seq<string>, games: map<string, int>)

  /** `ballpark_games[venue] = ballpark_games.get(venue, 0) + 1`. */
  function Record(t: VenueTally, venue: string): (r: VenueTally)
    ensures venue in r.games
    ensures venue in t.games ==> r.games[venue] == t.games[venue] + 1 && r.venues == t.venues
    ensures venue !in t.games ==> r.games[venue] == 1 && r.venues == t.venues + [venue]
    ensures forall v :: v != venue ==> (v in r.games <==> v in t.games)
    ensures forall v :: v != venue && v in t.games ==> r.games[v] == t.games[v]
  {
    var count := if venue in t.games then t.games[venue] else 0;
    VenueTally(
      if venue in t.games then t.venues else t.venues + [venue],
      t.games[venue := count + 1])
  }

  /** The dictionary after counting every game of the schedule, in order. */
  function Tally(schedule: seq<ScheduleEntry>): (t: VenueTally)
    ensures |t.venues| <= |schedule|
    ensures forall v :: v in t.games ==> 1 <= t.games[v] <= |schedule|
  {
    if schedule == [] then VenueTally([], map[])
    else Record(Tally(schedule[..|schedule| - 1]), VenueOf(schedule[|schedule| - 1]))
  }

  /** The number of games of the schedule played at a venue. */
  function Occurrences(schedule: seq<ScheduleEntry>, venue: string): nat {
    if schedule == [] then 0
    else Occurrences(schedule[..|schedule| - 1], venue) + if VenueOf(schedule[|schedule| - 1]) == venue then 1 else 0
  }

  /** The sum of the dictionary's values, taken over the venue list. */
  function GamesCounted(venues: seq<string>, games: map<string, int>): int {
    if venues == [] then 0
    else GamesCounted(venues[..|venues| - 1], games) + if venues[|venues| - 1] in games then games[venues[|venues| - 1]] else 0
  }

  /** The venue list has no repeats, names exactly the keys, and no count is below 1. */
  ghost predicate WellFormed(t: VenueTally) {
    && (forall i, j :: 0 <= i < j < |t.venues| ==> t.venues[i] != t.venues[j])
    && (forall v :: v in t.games <==> v in t.venues)
    && (forall v :: v in t.games ==> t.games[v] >= 1)
  }

  lemma {:induction false} TallyWellFormed(schedule: seq<ScheduleEntry>)
    ensures WellFormed(Tally(schedule))
  {
    if schedule != [] {
      TallyWellFormed(schedule[..|schedule| - 1]);
    }
  }

  /** Each key counts exactly the games at that venue, and only scheduled venues are keys. */
  lemma {:induction false} TallyCounts(schedule: seq<ScheduleEntry>, venue: string)
    ensures venue in Tally(schedule).games <==> Occurrences(schedule, venue) > 0
    ensures venue in Tally(schedule).games ==> Tally(schedule).games[venue] == Occurrences(schedule, venue)
  {
    if schedule != [] {
      TallyCounts(schedule[..|schedule| - 1], venue);
    }
  }

  /** A venue not in the list adds nothing to the sum, whatever its count. */
  lemma {:induction false} GamesCountedOutside(venues: seq<string>, games: map<string, int>, v: string, x: int)
    requires v !in venues
    ensures GamesCounted(venues, games[v := x]) == GamesCounted(venues, games)
  {
    if venues != [] {
      GamesCountedOutside(venues[..|venues| - 1], games, v, x);
    }
  }

  /** Changing the count of a listed venue (listed once) changes the sum by the difference. */
  lemma {:induction false} GamesCountedInside(venues: seq<string>, games: map<string, int>, v: string, x: int)
    requires v in venues && v in games
    requires forall i, j :: 0 <= i < j < |venues| ==> venues[i] != venues[j]
    ensures GamesCounted(venues, games[v := x]) == GamesCounted(venues, games) + x - games[v]
  {
    var prefix := venues[..|venues| - 1];
    if venues[|venues| - 1] == v {
      assert v !in prefix;
      GamesCountedOutside(prefix, games, v, x);
    } else {
      assert v in prefix;
      GamesCountedInside(prefix, games, v, x);
    }
  }

  /** Recording one more game raises the sum of the counts by one. */
  lemma RecordTotal(t: VenueTally, venue: string)
    requires WellFormed(t)
    ensures GamesCounted(Record(t, venue).venues, Record(t, venue).games) == GamesCounted(t.venues, t.games) + 1
  {
    if venue in t.games {
      GamesCountedInside(t.venues, t.games, venue, t.games[venue] + 1);
    } else {
      GamesCountedOutside(t.venues, t.games, venue, 1);
      assert (t.venues + [venue])[..|t.venues|] == t.venues;
    }
  }

  /** The counts add up to the length of the schedule. */
  lemma {:induction false} TallyTotal(schedule: seq<ScheduleEntry>)
    ensures GamesCounted(Tally(schedule).venues, Tally(schedule).games) == |schedule|
  {
    if schedule != [] {
      var prefix := schedule[..|schedule| - 1];
      TallyTotal(prefix);
      TallyWellFormed(prefix);
      RecordTotal(Tally(prefix), VenueOf(schedule[|schedule| - 1]));
    }
  }

  /** Every listed venue is the venue of some scheduled game. */
  lemma {:induction false} TallyVenueScheduled(schedule: seq<ScheduleEntry>, j: nat)
    requires j < |Tally(schedule).venues|
    ensures exists i :: 0 <= i < |schedule| && VenueOf(schedule[i]) == Tally(schedule).venues[j]
  {
    var prefix := schedule[..|schedule| - 1];
    if j < |Tally(prefix).venues| {
      TallyVenueScheduled(prefix, j);
      var i :| 0 <= i < |prefix| && VenueOf(prefix[i]) == Tally(prefix).venues[j];
      assert schedule[i] == prefix[i];
    } else {
      assert VenueOf(schedule[|schedule| - 1]) == Tally(schedule).venues[j];
    }
  }

  /** Every game is counted under its venue. */
  lemma {:induction false} EveryGameCounted(schedule: seq<ScheduleEntry>, i: nat)
    requires i < |schedule|
    ensures VenueOf(schedule[i]) in Tally(schedule).games
  {
    var prefix := schedule[..|schedule| - 1];
    if i < |prefix| {
      EveryGameCounted(prefix, i);
      assert schedule[i] == prefix[i];
      TallyWellFormed(prefix);
    }
  }

  /** A non-empty schedule played entirely at one venue is counted as one key with every game. */
  lemma {:induction false} OneVenueTally(schedule: seq<ScheduleEntry>, venue: string)
    requires schedule != []
    requires forall i :: 0 <= i < |schedule| ==> VenueOf(schedule[i]) == venue
    ensures Tally(schedule) == VenueTally([venue], map[venue := |schedule|])
  {
    var prefix := schedule[..|schedule| - 1];
    if prefix != [] {
      assert forall i :: 0 <= i < |prefix| ==> prefix[i] == schedule[i];
      OneVenueTally(prefix, venue);
    }
  }

  /** A game without a venue name is counted under "Unknown". */
  lemma UnnamedVenueCountedAsUnknown(schedule: seq<ScheduleEntry>, i: nat)
    requires i < |schedule| && schedule[i].venueName.None?
    ensures "Unknown" in Tally(schedule).games
  {
    EveryGameCounted(schedule, i);
  }

  /** The counting loop of the ballpark model (its first step). */
  method CountGamesByVenue(schedule: seq<ScheduleEntry>) returns (venues: seq<string>, games: map<string, int>)
    ensures VenueTally(venues, games) == Tally(schedule)
    ensures WellFormed(VenueTally(venues, games))
    ensures GamesCounted(venues, games) == |schedule|
  {
    venues, games := [], map[];
    for i := 0 to |schedule|
      invariant VenueTally(venues, games) == Tally(schedule[..i])
    {
      var venue := VenueOf(schedule[i]);
      var count := if venue in games then games[venue] else 0;
      if venue !in games {
        venues := venues + [venue];
      }
      games := games[venue := count + 1];
      assert schedule[..i + 1][..i] == schedule[..i];
    }
    assert schedule[..|schedule|] == schedule;
    TallyWellFormed(schedule);
    TallyTotal(schedule);
  }
}
