# Treasure hunt progress, modelled in Dafny

The application is a single-screen treasure hunt. It follows the user's
live position and compares it with an ordered list of checkpoints. The
user may advance once they stand inside the current checkpoint's zone.
All the logic lives in the `GeocachingApp` component:

- six pieces of state: `position`, `currentCheckpoint`, `inZone`, `error`, `started` and `finished`;
- a geolocation subscription that is live only while the hunt is started and not finished;
- the `handleNext` and `handleRestart` handlers;
- a choice between a welcome screen, a finish screen and an in-progress screen.

This project models that component as an immutable `Hunt.State` record with
pure transition functions. The route of checkpoints is a parameter. The
distance helper is a function-typed parameter `Geo.Distance`. It takes the
helper's arguments in the helper's order and is left uninterpreted.

- `geo.dfy`: the `Option` wrapper; positions, checkpoints, and `Geo.Within`, the inclusive zone test.
- `hunt.dfy`: the state, the handlers, the error text, screen selection (`View`) and `Step`. `Step` routes one event to the handler the application would call. A click reaches its handler only if the current screen renders that button. A geolocation callback arrives only while the subscription is live.
- `runs.dfy`: runs of events. It holds the invariant over reachable states and the progress lemmas: between restarts the index never goes back, and finishing takes one accepted arrival per checkpoint, in route order, each made from inside that checkpoint's zone.
- `nice.dfy`: the three checkpoints the application ships, and scenarios replayed on them.

`Hunt.Inv` is the invariant every reachable state keeps:

- the current index lies inside the route, so the route reads in the position callback and on the in-progress screen are in bounds;
- before the start, the state is still the initial one;
- `inZone` implies that the last fix lies within the current checkpoint's radius;
- a finished hunt sits at the last checkpoint, with `inZone` set.

Both geolocation callbacks sit inside the same guarded subscription. So the
error callback is ignored outside a running hunt, just like the position
callback.

## Model

| member | source | states |
|---|---|---|
| Hunt.Start | GeocachingApp.jsx:95 | the welcome button sets `started`; index, zone, finished flag, position and error are unchanged |
| Hunt.Next | GeocachingApp.jsx:73-80 | below the last index: index + 1, zone cleared, finished unchanged; at or past the last index: finished set, index and zone unchanged; started, position and error never change; on an unfinished hunt progress rises by exactly one |
| Hunt.Restart | GeocachingApp.jsx:82-87 | from any state: index 0, zone cleared, not finished, started, so the hunt is watched again with no arrived button; position and error kept |
| Hunt.OnPosition | GeocachingApp.jsx:38-47 | records the fix; `inZone` holds exactly when the distance to the current checkpoint is at most its radius, boundary included; error cleared; index, started and finished unchanged |
| Hunt.ErrorText | GeocachingApp.jsx:50 | the text starts with the fixed prefix; the rest is the platform message, or the fallback advice when the message is empty |
| Hunt.ErrorTextInjective | GeocachingApp.jsx:50 | two different non-empty platform messages give two different texts, so the reported message can always be read back |
| Hunt.OnError | GeocachingApp.jsx:48-51 | sets the error to the composed text; position, zone, index, started and finished unchanged |
| Hunt.View | GeocachingApp.jsx:89-131 | welcome screen exactly when not started (this takes priority); finish screen exactly when started and finished; otherwise the in-progress screen for step index + 1 at the current checkpoint. The arrived button shows exactly when started, not finished and in the zone; the replay button only on the finish screen |
| Hunt.Step | GeocachingApp.jsx:35-56 | every event keeps the invariant, and once started the hunt stays started. An arrived press is a no-op unless started, unfinished and in the zone; replay is a no-op before finishing; start is a no-op once started; callbacks are no-ops outside a running hunt. Any event but replay never lowers the index and raises progress by one exactly on an accepted arrival |
| Runs.Run | GeocachingApp.jsx:28-33 | the invariant holds after any sequence of events from a state that satisfies it, in particular from the initial state |
| Runs.ReachableIsSafe | GeocachingApp.jsx:42 | in every reachable state the index is inside the route, the in-progress screen shows the checkpoint at that index, and an enabled arrived button means the last fix was within that checkpoint's radius |
| Runs.ArrivalsWereInZone | GeocachingApp.jsx:118-119 | every accepted arrival happened at a checkpoint of the route, after a fix within its radius |
| Runs.RunMonotone | GeocachingApp.jsx:73-80 | between restarts the index never decreases, and a finished hunt stays finished |
| Runs.RunProgress | GeocachingApp.jsx:74-78 | between restarts, progress (index, plus one once finished) grows by the number of accepted arrivals, and the arrivals are at consecutive indices, starting from the initial progress |
| Runs.FinishVisitsEveryCheckpoint | GeocachingApp.jsx:73-119 | from any state at the first checkpoint that is not finished, the initial state included, a run without restarts ends finished if and only if it accepted as many arrivals as there are checkpoints; the k-th arrival is at checkpoint k, after a fix inside its zone |
| Runs.RunAppend | GeocachingApp.jsx:35-119 | handling two event lists one after the other is handling their concatenation, and the accepted arrivals of the two parts concatenate |
| Runs.ReplayAfterFinish | GeocachingApp.jsx:82-87 | a replay pressed on the finish screen, after any earlier events, leads to the restarted state |
| Runs.FinishAfterReplay | GeocachingApp.jsx:82-119 | from any finished hunt, a replay followed by events without restarts ends finished if and only if those events accepted exactly one arrival per checkpoint; together with `Runs.RunAppend` and `Runs.ReplayAfterFinish` this covers a run split at its last accepted replay |
| Nice.Route | GeocachingApp.jsx:3-25 | the shipped route has three checkpoints with radii 50, 50 and 100 metres, and its initial state satisfies the invariant for every distance function |
| Nice.ShippedRouteTakesThreeArrivals | GeocachingApp.jsx:3-25 | on the shipped route, a session run from launch without restarts, welcome click included, ends finished exactly when three arrivals were accepted, at indices 0, 1 and 2 |
| Nice.BoundaryIsInside | GeocachingApp.jsx:45 | a fix at exactly 50 m from the first checkpoint counts as inside its zone |
| Nice.Walkthrough | GeocachingApp.jsx:38-119 | start, a fix on the first checkpoint, arrived, then a fix far from the second: index 1, zone closed, and a further arrived press changes nothing |

## Left out

- The haversine body of the distance helper (GeocachingApp.jsx:58-71) is floating-point trigonometry. Distance is a supplied function. Its value at a point and itself is not assumed, except as an explicit hypothesis of `Nice.Walkthrough`.
- Subscribing with `watchPosition`, unsubscribing with `clearWatch`, and the effect's re-subscription when its dependencies change are browser and React plumbing. Their only effect in the model is that callbacks are delivered just while `started && !finished`. Each callback sees the current state, because the effect is rebuilt whenever the index or the flags change.
- The high-accuracy option passed to the location service has no effect on the state.
- The `console.error` log in the error callback is a side effect only.
- Every event is handled after the screen for the previous state has been drawn. With the concurrent root that main.jsx creates, a zone change from the position callback is drawn in a later task. Until then, the arrived button from the previous draw stays on screen. A press in that gap runs `handleNext` although the latest fix lies outside the zone. The model does not cover that press. So `Hunt.Step`'s "an arrived press is a no-op unless in the zone" and `Runs.ArrivalsWereInZone`'s "after a fix within its radius" speak of the last fix the screen had drawn. For the program they guarantee only that some earlier fix at that index was within the radius.
- A platform error whose message is missing is modelled as an empty message. Both select the fallback text.
- Markup, styles, copy, the five-decimal coordinate formatting and the external link on the finish screen are presentation. The in-progress screen carries only its data: step number, checkpoint, button, position and error.
- The JavaScript number type of the index is a `nat`. The index only counts up to the route length, so width does not matter.
- main.jsx only mounts the component and has no logic.
