/** The route the application ships: three checkpoints in Nice, and
    scenarios replayed on it. */
module Nice {

  import opened Geo
  import opened Hunt
  import opened Runs

  const Cathedral: Checkpoint :=
    Checkpoint("Départ - Cathédrale - Vielle Ville", 43.70313, 7.26608, 50.0, "On commence le test ?")
  const Homebox: Checkpoint :=
    Checkpoint("Homebox", 43.706803, 7.2844832, 50.0, "T'as bien arrivé !")
  const Rossetti: Checkpoint :=
    Checkpoint("Place Rossetti", 43.6971832, 7.2762796, 100.0, "Bienvenue à la casa !")

  /** The shipped route, in visiting order. */
  function Route(): (r: seq<Checkpoint>)
    ensures |r| == 3
    ensures r[0].radius == 50.0 && r[1].radius == 50.0 && r[2].radius == 100.0
    ensures forall distance: Distance :: Inv(r, distance, Initial)
  {
    [Cathedral, Homebox, Rossetti]
  }

  /** On the shipped route, a session run from launch without restarts is
      finished exactly when three arrivals were accepted, at the Cathedral,
      Homebox and Place Rossetti in that order. */
  lemma ShippedRouteTakesThreeArrivals(distance: Distance, events: seq<Event>)
    requires NoRestart(events)
    ensures Run(Route(), distance, Initial, events).finished <==>
      |Arrivals(Route(), distance, Initial, events)| == 3
    ensures Run(Route(), distance, Initial, events).finished ==>
      && Arrivals(Route(), distance, Initial, events)[0].index == 0
      && Arrivals(Route(), distance, Initial, events)[1].index == 1
      && Arrivals(Route(), distance, Initial, events)[2].index == 2
  {
    assert Inv(Route(), distance, Initial);
    FinishVisitsEveryCheckpoint(Route(), distance, Initial, events);
  }

  /** The zone boundary is inclusive: a fix exactly 50 m from the first
      checkpoint puts the user in its zone. */
  lemma BoundaryIsInside(distance: Distance, p: Position)
    requires distance(p.lat, p.lng, Cathedral.lat, Cathedral.lng) == 50.0
    ensures OnPosition(Route(), distance, Start(Initial), p).inZone
  {
  }

  /** A walk-through: start; a fix at the Cathedral's own
      coordinates (at distance zero) opens its zone; the arrived press moves
      on to Homebox and closes the zone; a fix far from Homebox keeps it
      closed; a further press is then ignored. */
  lemma Walkthrough(distance: Distance, far: Position)
    requires distance(Cathedral.lat, Cathedral.lng, Cathedral.lat, Cathedral.lng) == 0.0
    requires distance(far.lat, far.lng, Homebox.lat, Homebox.lng) > Homebox.radius
    ensures var s1 := Step(Route(), distance, Step(Route(), distance, Initial, Click(Begin)), Fix(Position(Cathedral.lat, Cathedral.lng)));
      && s1.inZone && s1.currentCheckpoint == 0
      && var s2 := Step(Route(), distance, s1, Click(Arrived));
      && s2.currentCheckpoint == 1 && !s2.inZone
      && var s3 := Step(Route(), distance, s2, Fix(far));
      && !s3.inZone
      && Step(Route(), distance, s3, Click(Arrived)) == s3
  {
  }
}
