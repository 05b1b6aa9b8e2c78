# Glass Weather App — a Dafny model of its decision logic

The application is a desktop weather client. A search starts one background
worker, which asks OpenWeatherMap for the city's current weather and puts one
result on a queue. A timer polls that queue, and the window then shows either
a message label or a glass panel holding the weather. This project models the
logic behind that flow and proves its properties:

- `Weather` (weather.dfy): the worker `get_weather_data`. It classifies the
  API key and the outcome of the HTTP request into a queue item, either a
  success with the payload's fields or an error message. `ParseMessage` reads
  a message back into its cause. It is the inverse used to show that the
  messages are unambiguous.
- `Text` (text.dfy): Python's decimal rendering of the status code in
  `"API Error (Code: n)."`, and the parser that inverts it.
- `Backgrounds` (backgrounds.dfy): the fourteen-entry background table and the
  lookup `update_ui` performs. The lookup is checked against a reference
  description by condition: an art family per condition, and night art for
  only some of them.
- `Animation` (animation.dfy): `Animation.slide_in`, run to completion as a
  loop over its steps. Positions are exact reals.
- `WeatherApp` (app.dfy): the handlers `set_default_appearance`,
  `search_event`, `check_data_queue` and `update_ui`. Each is a pure function
  from the window state to the next state plus the effects it requests:
  starting a fetch, or scheduling a callback with `after`. Also in this module:
  the visibility invariant (the message label or the panel trio, never both),
  the four phases idle / loading / failed / showing, and one full search
  round trip.

Inputs that the code gets from outside are parameters here:
- the `OPENWEATHER_API_KEY` value (`Option<string>`);
- the outcome of the GET request (`FetchOutcome`);
- the decoded JSON fields (`Body`);
- the text of the city entry;
- `str.title()`, as a function parameter `title`.

One would expect the window to move idle → loading → success|error. The code
also lets an empty entry go from any phase straight to an error prompt,
without a fetch (p4.py:148-150). The model follows the code.

Two details follow the code where a casual reading would not:
- A 200 response whose body is not JSON makes `response.json()` raise
  requests' `JSONDecodeError`. From requests 2.27 on, that class is a
  `RequestException`, so the worker reports `"Connection error."`.
- A 200 JSON body the field lookups cannot use raises `KeyError`,
  `IndexError`, `TypeError` or `AttributeError`. Examples are a missing field,
  a body that is not an object, or a description that is not a string. The
  `except` clause catches none of these, so the worker ends with nothing on the
  queue and the window keeps polling in the loading phase.

## Model

| member | source | states |
|---|---|---|
| Weather.GetWeatherData | p4.py:14-41 | A missing or empty key queues exactly the key error and makes no request. Otherwise the worker requests once and queues at most one item. It queues nothing only for a 200 body lacking a field. The item is a success exactly for a 200 with a decoded body, and then carries the payload's fields (the description passed through `title`). 404 reports the city as not found. Any other status reports that status code. A request exception, or a 200 body that is not JSON, reports a connection error. |
| Weather.Message | p4.py:18-41 | Each of the four error texts is a sentence ending in a full stop. The key and status-code errors open with "A", the city and connection errors with "C". Its inverse is `ParseMessage`, checked by `ParseMessageRoundTrip`. |
| Weather.ParseMessageRoundTrip | p4.py:18-41 | Each error message the worker can queue reads back to exactly the cause it reports: key missing, the city not found, the status code, or a connection failure. |
| Weather.MessageInjective | p4.py:18-41 | Two different causes never produce the same message text. |
| Text.NatToString | p4.py:39 | The status code renders as a non-empty string of decimal digits with no leading zero. |
| Text.ParseNatToString | p4.py:39 | Reading the rendered status code back as decimal gives the code. |
| Text.NatToStringInjective | p4.py:39 | Different status codes render as different digit strings. |
| Backgrounds.BackgroundFor | p4.py:208-210 | The image asked for is "default.png" or one of the table's images. It is "default.png" exactly when the key `main_tod` is missing from the table. |
| Backgrounds.TimeOfDay | p4.py:208 | The time of day is "day" exactly when the icon code ends in 'd', and "night" otherwise, including for an empty code. |
| Backgrounds.KnownConditionImage | p4.py:72-80 | For each of the seven known conditions, the lookup returns the condition's art family. By day it is the `_day` image. By night it is the `_night` image if the family has one, and the day image otherwise. |
| Backgrounds.DefaultIffUnknown | p4.py:209-210 | The lookup yields "default.png" if and only if the main condition is none of Clear, Clouds, Rain, Drizzle, Thunderstorm, Snow, Mist. |
| Backgrounds.NightFallsBackToDay | p4.py:75-77 | Rain and drizzle at night show `rainy_day.png`, and thunderstorms at night show `stormy_day.png`. |
| Backgrounds.KeySplits | p4.py:209 | A key `main_tod` determines both its condition and its time of day, so no condition name can reach another condition's entry. |
| Animation.SlideIn | p4.py:47-60 | `steps == 0` fails before anything is placed. For positive `steps`: `steps` stepped placements, each at the interpolated position for its step and, in exact arithmetic, between the two ends, then one more at exactly `end_y`. `steps - 1` follow-ups are scheduled, each `duration_ms // steps` ms later. The last stepped position is already `end_y` in exact arithmetic. Negative `steps` gives one step, then `end_y`. |
| Animation.InterpolateBetween | p4.py:54 | In exact arithmetic, every intermediate position lies between the start and end heights, whichever way the widget slides. |
| Animation.LastStepReachesEnd | p4.py:54-59 | In exact arithmetic, after all `steps` increments the computed height equals `end_y`. |
| WeatherApp.RunSlide | p4.py:248-249 | A slide scheduled by `update_ui` runs `slide_in` with the default 20 steps over 300 ms: 21 placements, 19 follow-ups of 15 ms each, and the closing placement at the callback's end height. In exact arithmetic the last stepped placement is at the end height too. |
| WeatherApp.SetDefaultAppearance | p4.py:133-143 | The trio is hidden, the message label is placed with the given text, and the default background is requested. The weather labels are untouched. |
| WeatherApp.Initial | p4.py:84-85 | After construction the window shows only the message label, in the idle phase, and no weather. |
| WeatherApp.UpdateUi | p4.py:199-249 | An error item shows its message with the trio hidden over the default background, keeps the weather labels, and schedules nothing. A success item hides the message and places the trio. It shows the item's weather over the background chosen from its condition and icon, and schedules the temperature slide (100 ms, 1.2 to 0.45) and the conditions slide (200 ms, 1.3 to 0.55). It never schedules a poll. |
| WeatherApp.SearchEvent | p4.py:145-157 | An empty entry shows "Please enter a city name." and starts neither a fetch nor a poll. A non-empty entry starts exactly one fetch, for that entry, shows "Loading..." and schedules exactly one poll. Both paths request the default background. The queue and the weather labels are unchanged. |
| WeatherApp.CheckDataQueue | p4.py:159-165 | A tick consumes at most one item, from the front. It reschedules itself if and only if the queue was empty, and then changes nothing. Otherwise it renders the taken item with `update_ui`. It never starts a fetch. |
| WeatherApp.Deliver | p4.py:19-41 | Every `data_queue.put` of the worker appends its item behind whatever is already queued, and the window is untouched. |
| WeatherApp.ApplyKeepsExclusive | p4.py:133-217 | Each search, poll or delivery keeps exactly one of the message label and the panel trio on screen. |
| WeatherApp.ExclusiveAfterAnyEvents | p4.py:133-217 | After any sequence of searches, polls and deliveries, exactly one of the message label and the complete trio is placed. |
| WeatherApp.ExclusiveFromStart | p4.py:84-85 | From the freshly constructed window, the visibility invariant holds after every sequence of events. |
| WeatherApp.FailureTextIsNotUiText | p4.py:37-41 | No worker error message equals the idle or the loading text, so an error is never mistaken for either phase. |
| WeatherApp.SearchPhase | p4.py:145-157 | A search moves the window to loading, or to an error prompt when the entry is empty. |
| WeatherApp.SearchRoundTrip | p4.py:145-165 | From an empty queue: search, deliver the worker's run, poll once, and the queue is empty again. The window shows weather exactly when the key is configured and the server answered 200 with a usable body. If the worker queued an item, the window shows weather or an error and nothing else. If it queued nothing, the window is still loading and polls again. |

## Left out

- The environment lookup, URL building, the HTTP GET and JSON decoding (p4.py:16-27) are foreign I/O. The key, the request outcome and the decoded fields are inputs.
- Status codes are `nat`. http.client only yields three-digit codes, so the sign never matters.
- Threads, the thread-safe queue and the interleaving of overlapping searches (p4.py:152-154) are left out. The queue is a sequence, and the worker's run reaches it through `Deliver` as one event.
- The toolkit's timer loop is left out. Handlers return the `after` callbacks they schedule as effects rather than running them later.
- Image work is left out: `update_background`'s file loading and resizing, the early return for an unrendered window, `create_glass_effect` with its retry timer, and the icon-file fallback (p4.py:167-197, p4.py:218-225). `View.background` records the image name requested.
- Widget construction, layout coordinates and stacking order (`lift`) are left out (p4.py:87-131, p4.py:236-245).
- Float formatting of temperature, feels-like and wind (p4.py:228-233) is left out. `View.weather` records the item the labels were configured from.
- Weather.GetWeatherData: `str.title()` is a parameter, not Python's Unicode casing rules.
- Animation.SlideIn: positions are exact reals, not floats. In floating point the last stepped position may differ from `end_y` slightly, which is why the code places `end_y` again.
- Animation.LastStepReachesEnd: holds in exact arithmetic only. In IEEE doubles the temperature slide of p4.py:248 (1.2 to 0.45 in 20 steps) reaches `1.2 + ((0.45 - 1.2) / 20) * 20 = 0.44999999999999996` at its 20th step, not 0.45. The conditions slide (1.3 to 0.55) lands exactly on 0.55.
- Animation.InterpolateBetween: holds in exact arithmetic only. The temperature slide's 20th position in doubles, 0.44999999999999996, lies just outside [0.45, 1.2].
- WeatherApp.RunSlide: the last stepped placement equals the end height only in exact arithmetic. For the temperature slide it is 0.44999999999999996 in doubles. The closing placement is exactly `end_y` either way (p4.py:59).
- Animation.SlideIn: the follow-up calls are a loop, not timer callbacks. The widget is abstract, and `relx` and `anchor` are not recorded.
- WeatherApp.ExclusiveAfterAnyEvents: assumes `update_ui` and `set_default_appearance` run to completion. Two exceptions can break that. First, an icon that is not a string, such as a JSON null, makes `endswith` raise at p4.py:208. The model types `Fields.icon` as a string, so this cannot happen. Second, `update_background` can raise something other than FileNotFoundError or AttributeError (p4.py:186-197), such as PIL's UnidentifiedImageError or a PermissionError. That happens at p4.py:212, or at p4.py:135 inside `set_default_appearance`, before the trio is hidden and the message placed. What such a failure leaves depends on the caller. Inside `update_ui` the message label is already hidden (p4.py:201), so a failure at p4.py:208, at p4.py:212 or at p4.py:135 through p4.py:205 leaves nothing on screen. Inside `search_event` (p4.py:149, p4.py:156) nothing is hidden yet, so the previous screen stays and the invariant still holds, though the label text is stale. At p4.py:156 the worker has already started, but no poll is ever scheduled (p4.py:157). The model treats image loading as infallible.
- WeatherApp.ApplyKeepsExclusive: rests on the same run-to-completion assumption as `WeatherApp.ExclusiveAfterAnyEvents`. A failure in `update_ui` after p4.py:201 leaves neither the message nor the trio placed.
- WeatherApp.ExclusiveFromStart: rests on the same run-to-completion assumption as `WeatherApp.ExclusiveAfterAnyEvents`.
