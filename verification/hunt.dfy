/** The progress state machine of the treasure hunt: the component's six
    pieces of state, the handlers that change them, the screen chosen from
    them, and one `Step` that feeds a user or geolocation event through the
    handler the running application would call. */
module Hunt {

  import opened Optional
  import opened Geo

  /** The component's state. `position` and `error` are `None` where the
      component holds `null`. */
  datatype State = State(
    position: Option<Position>,
    currentCheckpoint: nat,
    inZone: bool,
    error: Option<string>,
    started: bool,
    finished: bool)

  /** The state every session begins in. */
  const Initial: State := State(None, 0, false, None, false, false)

  /** Prefix of every geolocation error shown to the user. */
  const ErrorPrefix: string := "Erreur de géolocalisation : "

  /** Text shown after the prefix when the platform error carries no message. */
  const ErrorFallback: string :=
    "Permission refusée ou position inaccessible. Veuillez vérifier vos paramètres de localisation et réessayer."

  /** The geolocation subscription exists, so position and error callbacks
      are delivered, exactly while the hunt is started and not finished. */
  predicate Watching(s: State)
  {
    s.started && !s.finished
  }

  /** The "arrived" button is on screen: the hunt is in progress and the
      last fix put the user inside the current checkpoint's zone. */
  predicate AdvanceEnabled(s: State)
  {
    s.started && !s.finished && s.inZone
  }

  /** What every state the application can reach satisfies, for a fixed
      route and distance function:
      - the current index is a valid position in the route;
      - before the hunt is started nothing has happened yet;
      - being in the zone means the last fix lies within the current checkpoint's radius;
      - a finished hunt stopped at the last checkpoint, inside its zone. */
  ghost predicate Inv(route: seq<Checkpoint>, distance: Distance, s: State)
  {
    && s.currentCheckpoint < |route|
    && (!s.started ==> s == Initial)
    && (s.inZone ==> s.position.Some? && Within(distance, s.position.value, route[s.currentCheckpoint]))
    && (s.finished ==> s.currentCheckpoint == |route| - 1 && s.inZone)
  }

  /** How far the hunt has come: checkpoints passed, counting the last one
      once the hunt is finished. */
  function Progress(s: State): nat
  {
    s.currentCheckpoint + if s.finished then 1 else 0
  }

  /** The welcome screen's button: it only marks the hunt as started. */
  function Start(s: State): (r: State)
    ensures r.started
    ensures r.currentCheckpoint == s.currentCheckpoint && r.inZone == s.inZone && r.finished == s.finished
    ensures r.position == s.position && r.error == s.error
  {
    s.(started := true)
  }

  /** `handleNext`: move to the next checkpoint, forgetting the zone, or
      finish the hunt when the current checkpoint is the last one. */
  function Next(route: seq<Checkpoint>, s: State): (r: State)
    ensures s.currentCheckpoint < |route| - 1 ==>
      r.currentCheckpoint == s.currentCheckpoint + 1 && !r.inZone && r.finished == s.finished
    ensures s.currentCheckpoint >= |route| - 1 ==>
      r.finished && r.currentCheckpoint == s.currentCheckpoint && r.inZone == s.inZone
    ensures r.started == s.started && r.position == s.position && r.error == s.error
    ensures !s.finished ==> Progress(r) == Progress(s) + 1
  {
    if s.currentCheckpoint < |route| - 1 then
      s.(currentCheckpoint := s.currentCheckpoint + 1, inZone := false)
    else
      s.(finished := true)
  }

  /** `handleRestart`: back to the first checkpoint of a running hunt, from
      any state, keeping the last fix and the last error. */
  function Restart(s: State): (r: State)
    ensures r.currentCheckpoint == 0 && !r.inZone && !r.finished && r.started
    ensures r.position == s.position && r.error == s.error
    ensures Watching(r) && !AdvanceEnabled(r)
  {
    s.(currentCheckpoint := 0, inZone := false, finished := false, started := true)
  }

  /** The position callback: record the fix, decide the zone against the
      current checkpoint with an inclusive comparison, clear the error. The
      route lookup needs the current index to be inside the route. */
  function OnPosition(route: seq<Checkpoint>, distance: Distance, s: State, p: Position): (r: State)
    requires s.currentCheckpoint < |route|
    ensures r.position == Some(p)
    ensures r.inZone <==> Within(distance, p, route[s.currentCheckpoint])
    ensures r.error == None
    ensures r.currentCheckpoint == s.currentCheckpoint && r.started == s.started && r.finished == s.finished
  {
    var checkpoint := route[s.currentCheckpoint];
    var d := distance(p.lat, p.lng, checkpoint.lat, checkpoint.lng);
    s.(position := Some(p), inZone := d <= checkpoint.radius, error := None)
  }

  /** The user-facing text for a geolocation error: the fixed prefix, then
      the platform's message, or the fallback advice when that message is
      empty (or absent). */
  function ErrorText(message: string): (r: string)
    ensures |r| > |ErrorPrefix| && r[..|ErrorPrefix|] == ErrorPrefix
    ensures message != "" ==> r[|ErrorPrefix|..] == message
    ensures message == "" ==> r[|ErrorPrefix|..] == ErrorFallback
  {
    ErrorPrefix + if message != "" then message else ErrorFallback
  }

  /** Distinct platform messages give distinct texts on screen, so the
      user always sees the message that was reported. */
  lemma ErrorTextInjective(m1: string, m2: string)
    requires m1 != "" && m2 != ""
    ensures ErrorText(m1) == ErrorText(m2) ==> m1 == m2
  {
  }

  /** The error callback: only the error text changes. */
  function OnError(s: State, message: string): (r: State)
    ensures r.error == Some(ErrorText(message))
    ensures r.position == s.position && r.inZone == s.inZone && r.currentCheckpoint == s.currentCheckpoint
    ensures r.started == s.started && r.finished == s.finished
  {
    s.(error := Some(ErrorText(message)))
  }

  /** The buttons the screens can show. */
  datatype Button = Begin | Arrived | Replay

  /** The three screens of the application, with what the in-progress screen displays. */
  datatype Screen =
    | Welcome
    | Finish
    | InProgress(step: nat, target: Checkpoint, arrivedButton: bool, position: Option<Position>, error: Option<string>)
  {
    /** The buttons this screen renders. */
    function Buttons(): set<Button>
    {
      match this
      case Welcome => {Begin}
      case Finish => {Replay}
      case InProgress(_, _, arrived, _, _) => if arrived then {Arrived} else {}
    }
  }

  /** Screen selection: the welcome screen until the hunt is started, then
      the finish screen once it is finished, otherwise the current
      checkpoint's screen, which reads the route at the current index. */
  function View(route: seq<Checkpoint>, s: State): (r: Screen)
    requires Watching(s) ==> s.currentCheckpoint < |route|
    ensures r.Welcome? <==> !s.started
    ensures r.Finish? <==> s.started && s.finished
    ensures r.InProgress? <==> Watching(s)
    ensures r.InProgress? ==> r.step == s.currentCheckpoint + 1 && r.target == route[s.currentCheckpoint]
    ensures r.InProgress? ==> r.position == s.position && r.error == s.error
    ensures Begin in r.Buttons() <==> !s.started
    ensures Replay in r.Buttons() <==> s.started && s.finished
    ensures Arrived in r.Buttons() <==> AdvanceEnabled(s)
  {
    if !s.started then
      Welcome
    else if s.finished then
      Finish
    else
      InProgress(s.currentCheckpoint + 1, route[s.currentCheckpoint], s.inZone, s.position, s.error)
  }

  /** What can happen to the application: a click on a button, or one of
      the two geolocation callbacks. */
  datatype Event =
    | Click(button: Button)
    | Fix(position: Position)
    | Failure(message: string)

  /** The event is a press of the arrived button that its handler receives. */
  predicate Accepted(s: State, e: Event)
  {
    e == Click(Arrived) && AdvanceEnabled(s)
  }

  /** One event handled by the running application. A click reaches its
      handler only when the current screen renders that button; a callback
      arrives only while the subscription is live. Every event keeps the
      invariant, so the route reads in `OnPosition` and `View` never fall
      outside the route. */
  function Step(route: seq<Checkpoint>, distance: Distance, s: State, e: Event): (r: State)
    requires Inv(route, distance, s)
    ensures Inv(route, distance, r)
    ensures s.started ==> r.started
    ensures e == Click(Arrived) && !AdvanceEnabled(s) ==> r == s
    ensures e == Click(Replay) && !(s.started && s.finished) ==> r == s
    ensures e == Click(Begin) && s.started ==> r == s
    ensures !e.Click? && !Watching(s) ==> r == s
    ensures e != Click(Replay) ==> s.currentCheckpoint <= r.currentCheckpoint
    ensures e != Click(Replay) ==> Progress(r) == Progress(s) + if Accepted(s, e) then 1 else 0
  {
    match e
    case Click(b) =>
      if b !in View(route, s).Buttons() then s
      else if b == Begin then Start(s)
      else if b == Arrived then Next(route, s)
      else Restart(s)
    case Fix(p) =>
      if Watching(s) then OnPosition(route, distance, s, p) else s
    case Failure(m) =>
      if Watching(s) then OnError(s, m) else s
  }
}
