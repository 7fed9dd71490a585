# Lucky-numbers widget: generator, reveal sequence and theme resolution

This project models the three pieces of logic in a single-page "lucky lottery
numbers" widget. The user enters a name and a birthday, and the widget derives
six numbers from them. It animates a shuffle, reveals the numbers and then runs
a fireworks celebration. The repository also holds a five-entry theme table
with three resolution functions (src/themes/themes.ts). The App component
modelled here does not use them: it builds its own palette from the dark-mode
media query and hard-codes its ball and fireworks colours.

- `Lottery` (`lottery.dfy`) models the deterministic generator. The UTF-16 code
  units of the name and then of the birthday are summed into a seed. A linear
  congruential step `seed := (seed * 9301 + 49297) % 233280` then runs six
  times, and each step emits `seed % 49 + 1`. The inputs are sequences of code
  units (integers in [0, 65536)), as `charCodeAt` returns them.
  `GenerateLotteryNumbers` keeps the source's three loops. It is proved equal
  to the specification function `Generate`, and the properties are proved
  about `Generate`.
- `Reveal` (`reveal.dfy`) models the form's submit handler as a class,
  `LotteryApp`. It holds the page's state: `numbers`, `loading`, `submitted`
  and `showFireworks`. It also holds the shuffle interval (`ticking`,
  `shuffleCount`) and the inputs that interval captured. The timers become
  discrete events: `Tick` is one firing of the 120 ms interval, `FireworksOn`
  is the 800 ms timeout and `FireworksOff` is the 6000 ms timeout. The
  decorative frames come from six integers in [0,49) that the caller supplies
  in place of `Math.random`. Nothing in the source ever clears a celebration
  timeout, so the model counts the scheduled timeouts that have not fired yet.
  The only guard against a second submit is the button, which is disabled
  while `loading`. `Submit` therefore requires `!loading`.
- `Themes` (`themes.dfy`) models the five-entry theme table and the three
  functions that resolve a theme name and a dark-mode flag to one entry. In
  dark mode `normal` is looked up as `normalDark`. A name that is not in the
  table falls back to the light `normal` entry.
- `Wrappers` (`wrappers.dfy`) holds an `Option` type. It stands for the
  nullable `numbers` state and the optional `gradientColors` field.

The source has no cancel operation, and a new submit does not clear the
800 ms and 6000 ms timeouts of an earlier run. A leftover timeout can
therefore turn the fireworks on while a later run is shuffling
(`Reveal.ResubmitBeforeCelebration`). The generator accepts empty inputs.
Only the submit handler (src/App.tsx:161) rejects them, so
`GenerateLotteryNumbers` has no precondition.

## Model

| member | source | states |
|---|---|---|
| `Lottery.GenerateLotteryNumbers` | src/App.tsx:7-18 | The three loops compute exactly `Generate(name, birthday)`, the draw of the code-unit total, and the result is six numbers in [1,49]. |
| `Lottery.Step` | src/App.tsx:14 | One generator step always yields a seed in [0, 233280). |
| `Lottery.SeedBound` | src/App.tsx:13-14 | Every seed after the first step lies in [0, 233280). |
| `Lottery.DrawRecurrence` | src/App.tsx:9-17 | For every name and birthday, seed 0 is the code-unit sum of name followed by birthday, and seed k+1 is `(seed k * 9301 + 49297) % 233280`. The draw has six numbers, and number k of `Generate(name, birthday)` is `seed k+1 % 49 + 1`. |
| `Lottery.DrawIsDraw` | src/App.tsx:12-17 | For every seed the draw has exactly six elements, each in [1,49]. |
| `Lottery.SumConcat` | src/App.tsx:9-11 | Summing the name and then the birthday gives the code-unit sum of their concatenation. |
| `Lottery.SumPermutation` | src/App.tsx:9-11 | The code-unit sum is invariant under any reordering of the code units. |
| `Lottery.GenerateDependsOnlyOnCodeUnits` | src/App.tsx:9-11 | Two input pairs with the same multiset of code units give the same draw. So reordering characters, or moving them between the name and the birthday, changes nothing. |
| `Lottery.GenerateSymmetric` | src/App.tsx:9-11 | Swapping name and birthday gives the same draw. |
| `Lottery.RegressionVector` | src/App.tsx:7-18 | Name "A" with birthday "1" (seed 114) draws [43, 43, 34, 1, 43, 15]. |
| `Reveal.RandomBalls` | src/App.tsx:146-148 | A decorative frame has six numbers in [1,49], and each is one more than its sample. |
| `Reveal.LotteryApp.constructor` | src/App.tsx:74-77 | The initial page has no numbers and all three flags false, with no interval or timeout pending. |
| `Reveal.LotteryApp.Submit` | src/App.tsx:159-169 | An empty name or birthday changes no state. Otherwise `loading` is set and `submitted` and `showFireworks` are cleared. The interval starts with shuffle count 0 on the captured inputs, and the numbers and pending timeouts are unchanged. |
| `Reveal.LotteryApp.Tick` | src/App.tsx:169-191 | While fewer than 10 frames have been shown, a tick installs a decorative frame and counts it. The next tick installs the deterministic draw of the captured inputs, stops the interval, clears `loading`, sets `submitted` and schedules one celebration. |
| `Reveal.LotteryApp.FireworksOn` | src/App.tsx:177-186 | The 800 ms timeout sets `showFireworks` and schedules the 6000 ms timeout. Numbers, `loading` and `submitted` are unchanged. |
| `Reveal.LotteryApp.FireworksOff` | src/App.tsx:183-185 | The 6000 ms timeout clears `showFireworks`. Numbers, `loading` and `submitted` are unchanged. |
| `Reveal.FullRun` | src/App.tsx:159-193 | A full run shows, in order: the submit, exactly 10 decorative frames while loading, the reveal of `Generate(name, birthday)` with `submitted`, then fireworks on and fireworks off with the numbers kept. Empty input starts nothing. |
| `Reveal.ResubmitBeforeCelebration` | src/App.tsx:177-186 | A second submit made after a reveal but before its 800 ms timeout fires is still shuffling when that timeout turns the fireworks on. |
| `Themes.TableWellFormed` | src/themes/themes.ts:131-137 | The table has exactly the five theme keys. Each entry carries its own key as its name, six ball colours and at least one fireworks colour. |
| `Themes.Resolve` | src/themes/themes.ts:140 | The resolved entry is the table's `normalDark` for dark-mode `normal`, the named entry for any other known name, and `normal` for an unknown name. |
| `Themes.GetThemeOptions` | src/themes/themes.ts:139-153 | Palette mode is dark exactly when dark mode is on or the name is `synthwave` or `cyberpunk`. The primary, secondary, background and text colours are those of the entry `Resolve` picks for the same name and flag. |
| `Themes.GetBallColors` | src/themes/themes.ts:185-187 | Always exactly six colours: the ball colours of the entry `Resolve` picks for the same name and flag. |
| `Themes.GetFireworksColors` | src/themes/themes.ts:189-191 | Always a non-empty list: the fireworks colours of the entry `Resolve` picks for the same name and flag. |
| `Themes.DarkNormalIsNormalDark` | src/themes/themes.ts:139-191 | In dark mode `normal` gives the `normalDark` palette, ball colours and fireworks colours. |
| `Themes.DarkModeOnlyAffectsNormal` | src/themes/themes.ts:139-191 | For every name other than `normal`, the dark-mode flag does not change the entry chosen, the ball colours, the fireworks colours, or the palette's primary, secondary, background and text colours. |
| `Themes.UnknownNameFallsBackToNormal` | src/themes/themes.ts:139-191 | A name not in the table gives the light `normal` entry, even in dark mode. |
| `Themes.SameEntryForAllThree` | src/themes/themes.ts:139-191 | For the same name and flag, the palette colours, ball colours and fireworks colours all come from the same table entry. |

## Left out

- Sound and logging: the three sound functions (src/App.tsx:80-140) are browser audio calls with floating-point frequencies and ramps, and the console message logged when the fireworks start (src/App.tsx:178) is diagnostic output. `FireworksOn` records neither.
- Rendering of fireworks, particles, sparkles and confetti (src/App.tsx:198-392) is presentation driven by random floats.
- The page's own theme construction, the media query for dark mode and all styling (src/App.tsx:22-70, 394-590) are presentation. The App component's own colour lists (src/App.tsx:143, 152-157) are not modelled either. They are not taken from the theme table, and its 24-entry fireworks list differs from the table's 18-entry `normal` list.
- `Themes.GetThemeOptions`: only the palette is modelled. The typography and component style overrides (src/themes/themes.ts:154-181) are constant presentation settings.
- The theme switcher menu (src/themes/ThemeSwitcher.tsx) is UI. Its only logic is hiding `normalDark` from the menu and marking the current theme.
- The onChange handlers of the two input fields are not modelled. `Submit` takes the current field values as arguments, and the interval keeps the values it captured at submit time.
- Wall-clock timing: the 120, 800 and 6000 ms delays are not modelled. Each timer firing is a separate event, and any interleaving of the pending events is allowed.
- `Reveal.RandomBalls`: `Math.random` is replaced by caller-supplied integers in [0,49). So the model says nothing about how those frames are distributed.
- `Lottery.GenerateLotteryNumbers` uses unbounded integers. JavaScript numbers are exact only below 2^53. The first product `seed * 9301` stays below that only while the code-unit sum is below about 9.6 * 10^11, which is more than 14 million code units of input. Later steps start from seeds below 233280, so they are always exact.
- The table lookup is a finite map. Prototype keys such as `"toString"`, which make the JavaScript lookup find something, are not modelled. The `|| themes.normal...` fallback is modelled as "key not in table", because every entry and every colour array is truthy.
