# Smart-Pot controller screen, modelled in Dafny

Smart-Pot ("Plant Buddy") is a phone screen that controls a plant pot over a
shared remote table: it shows the water level, light intensity and soil
moisture the pot reports, lets the user cycle the light mode
(Auto → On → Off), request the water pump ("Water Now"), and drag a light
slider. This project models the state logic of that screen,
`Smart-Pot/app/index.tsx`:

- `normalize.dfy`, module `Normalize`: `Math.round` as round-half-up integer
  division; the water-level normalisation (raw 0–1023 reading to a
  percentage); the slider's clamp, rounding and snap-to-5 computation.
- `light_modes.dfy`, module `LightModes`: the light-mode cycle exactly as the
  screen computes it (string lookup with `indexOf`, so an unknown string has
  index −1 and is followed by "Auto"), and an explicit transition table it is
  proved to agree with.
- `remote.dfy`, module `Remote`: the outcomes of the remote queries as values
  (the await threw; or it resolved with an optional error and an optional
  row).
- `plant_screen.dfy`, module `PlantScreen`: class `Controller` with the
  screen's five state cells (`waterLevel`, `isSoilMoist`, `lightIntensity`,
  `lightMode`, `isWatering`) and its handlers as methods, and class `Slider`
  with the slider's own `sliderValue` cell and its touch handler, which
  forwards each accepted value to `Controller.AdjustLightIntensity`.

Rounding. `Math.round(q)` is `floor(q + 1/2)`. Every rounding here is of an
integer over a positive constant (`100*raw/1023`, `100*x/300`, `v/5`), so
`RoundHalfUp(n, d) = (2n + d) / (2d)` with floor division is exact; no input
falls on a half (1023 is odd; `x/3` and `v/5` with integer `x`, `v` never end
in .5), so the tie rule never matters.

The handlers are modelled as written: `activateWaterPump` sets `isWatering`
only after the write succeeded (nothing is set before the write and nothing is
undone after a failure), and `normalizeWaterLevel` does not clamp readings
outside 0–1023. In `fetchSensorData` the reported error guards only the water
level; light and moisture are taken whenever the row carries them, so `Reply`
keeps the error and the row as two independent parts.

`Controller.Valid()` (the light mode is one of the three the button cycles
through) is established by the constructor and kept by every handler.
`PlantScreen.Scenario` is a client of the contracts: it walks through the
screen's main flow (a reading of 767 shows 75 %, a failed pump request changes
nothing, a successful one sets watering and a second tap requests nothing, a
poll of `false` clears it, and in "On" a touch at pixel 131 gives 45) and shows
that the contracts alone decide each step.

## Model

| member | source | states |
|---|---|---|
| Normalize.RoundHalfUp | Smart-Pot/app/index.tsx:19 | the result r is the integer nearest to n/d with halves rounded up: d(2r−1) ≤ 2n < d(2r+1) |
| Normalize.RoundHalfUpUnique | Smart-Pot/app/index.tsx:19 | any integer meeting that characterisation is RoundHalfUp's result, so the contract specifies Math.round completely |
| Normalize.RoundHalfUpMonotone | Smart-Pot/app/index.tsx:19 | rounding is monotone in the numerator |
| Normalize.NormalizeWaterLevel | Smart-Pot/app/index.tsx:18-19 | the percentage is raw·100/1023 rounded to nearest; for raw in 0..1023 it lies in 0..100 |
| Normalize.NormalizeWaterLevelExamples | Smart-Pot/app/index.tsx:18-19 | raw 0, 512, 767, 1023 give 0, 50, 75, 100 |
| Normalize.NormalizeWaterLevelMonotone | Smart-Pot/app/index.tsx:18-19 | a higher raw reading never gives a lower percentage |
| Normalize.NormalizeWaterLevelNotClamped | Smart-Pot/app/index.tsx:18-19 | out-of-range readings are not clamped: 2046 gives 200 and −1023 gives −100 |
| Normalize.ClampPercent | Smart-Pot/app/index.tsx:127-130 | the result is in 0..100, equals v inside that range, 0 below it and 100 above it |
| Normalize.SliderPercent | Smart-Pot/app/index.tsx:124-130 | for any pixel offset the value is in 0..100; on the 300-px track it is x/3 rounded to nearest; left of the track 0, right of it 100 |
| Normalize.SnapToFive | Smart-Pot/app/index.tsx:133-135 | the result is a multiple of 5 within 2 of v, and stays in 0..100 when v does |
| Normalize.SnapToFiveIdempotent | Smart-Pot/app/index.tsx:134 | snapping an already snapped value changes nothing |
| Normalize.Quantize | Smart-Pot/app/index.tsx:126-135 | the handled value is in 0..100; in "On" it is a multiple of 5 within 2 of the unsnapped value; in any other mode it is the unsnapped value |
| LightModes.IndexOf | Smart-Pot/app/index.tsx:86 | −1 exactly when the mode is not in the list, otherwise the first position holding it |
| LightModes.NextMode | Smart-Pot/app/index.tsx:84-89 | the next mode is always one of Auto, On, Off, and an unrecognised mode is followed by "Auto" |
| LightModes.NextModeAt | Smart-Pot/app/index.tsx:85-88 | for one mode of the table, the index lookup gives the table's successor |
| LightModes.NextModeFollowsTable | Smart-Pot/app/index.tsx:85-88 | the index lookup gives the same successor as the table Auto→On→Off→Auto for every mode, and every string of the list names a table mode, so the table decides the successor of each |
| LightModes.NextModeSteps | Smart-Pot/app/index.tsx:85-88 | Auto→On, On→Off, Off→Auto |
| LightModes.NextModeCycle | Smart-Pot/app/index.tsx:84-89 | three toggles return any of the three modes to itself |
| LightModes.NextModeUnknown | Smart-Pot/app/index.tsx:86-88 | an unknown mode string goes to "Auto", and three toggles from it end in "Off" |
| PlantScreen.Controller.constructor | Smart-Pot/app/index.tsx:12-16 | the initial state is water 78, soil moist, light 65, mode "Auto", not watering |
| PlantScreen.Controller.FetchSensorData | Smart-Pot/app/index.tsx:23-51 | the water level is replaced by the normalised reading only without an error and with water_level present; light and moisture are replaced only when present; with no row (error, exception) nothing changes; an in-range reading gives a level in 0..100; the mode invariant is kept |
| PlantScreen.Controller.CheckPumpStatus | Smart-Pot/app/index.tsx:60-76 | on error or exception isWatering is kept; otherwise it becomes the remote is_button_pump, false when absent; the mode invariant is kept |
| PlantScreen.Controller.ToggleLightMode | Smart-Pot/app/index.tsx:84-89 | the mode becomes NextMode of the old mode and stays one of the three |
| PlantScreen.Controller.ActivateWaterPump | Smart-Pot/app/index.tsx:91-109 | a write is requested exactly when not already watering; isWatering becomes true only after a successful write; an error or exception changes nothing; the mode invariant is kept |
| PlantScreen.Controller.AdjustLightIntensity | Smart-Pot/app/index.tsx:112-115 | the intensity becomes the given value and nothing else changes; the mode invariant is kept |
| PlantScreen.Controller.MountSlider | Smart-Pot/app/index.tsx:253-261 | no slider in "Auto"; otherwise a slider showing the current intensity, disabled exactly in "Off", forwarding to this controller |
| PlantScreen.Slider.constructor | Smart-Pot/app/index.tsx:118-119 | the slider starts from the value it is given, with the given props |
| PlantScreen.Slider.HandlePress | Smart-Pot/app/index.tsx:121-139 | a disabled slider changes neither its value nor the intensity; otherwise the quantised value is stored and the forwarded intensity equals it; a rendered slider only ever stores multiples of 5 |
| PlantScreen.AcceptedGestureSnaps | Smart-Pot/app/index.tsx:253-261 | with the props the screen renders (hidden in Auto, disabled in Off) every accepted touch yields a multiple of 5 |

## Left out

- The remote store calls (select, update on `sensor_data`, id 1) and the
  console logging: each handler receives the outcome of its call as a `Reply`
  or `WriteReply` value. What the remote flag does afterwards (the pot
  clearing `is_button_pump`) is outside the screen.
- The `useEffect` timers (`setInterval` every 10 s and 3 s, `clearInterval` on
  unmount): each handler is modelled as one sequential step. Interleaving is
  not modelled; in particular the guard in `activateWaterPump` reads
  `isWatering` before its await, so two taps during one in-flight write both
  write, and no "at most one write" property is claimed.
- A SQL `null` in a column: the model's `None` stands for an absent field.
  `fetchSensorData` would pass a `null` water level to the normaliser or a
  `null` light level to the state; this is not modelled.
- Fractional touch positions and JavaScript floating point: `locationX` is an
  integer number of pixels, and readings are integers.
- React's re-rendering: the slider is re-created from the screen's state on
  every render; `MountSlider` models one render of it.
- All JSX layout and the style sheet (presentation only).
