# CoPhotographer core, modelled in Dafny

CoPhotographer is a small web application for learning exposure. The user
uploads a photo and turns three dials: aperture, shutter speed and ISO. The
browser re-renders the photo as that exposure would have produced it. It
scales every colour channel by an exposure factor, adds ISO noise and blurs
for a wide aperture. It then measures the brightness histogram and classifies
the exposure. When the photo is over- or under-exposed, a small server asks a
language model for advice and the browser shows that advice in an alert. A
theme picker (classic, cute, minimal) remembers the last choice.

The model is split by the program's own structure:

- `text.dfy` (`Text`): the JavaScript `split` on one character and its
  inverse, Python's `join`, `parseFloat` of unsigned whole numbers, and
  JavaScript's `trim` white space.
- `option.dfy` (`Optional`): the option type.
- `camera.dfy` (`Camera`): the parameter lists and the current parameters.
  It holds the `Session` class with the three `select…ByIndex` methods and
  `updateParameter`, the shutter-fraction parser, the exposure factor and the
  blur radius.
- `pixels.dfy` (`Pixels`): RGBA buffers as `array<Byte>`, `clamp`, the
  in-place exposure loop and `applyNoise`, each proved against a function on
  the buffer's contents.
- `histogram.dfy` (`Histogram`): `checkExposure`. This is the 256-bin
  luminance histogram, the dark and bright counts, and the first-match
  classification into five statuses.
- `pipeline.dfy` (`Pipeline`): `processImage`. This covers fitting into the
  800 × 500 box, then exposure, noise, blur radius and exposure check, in
  that order.
- `server.dfy` (`Server`): the `/api/check-exposure` decision, the wording of
  the issue and its severity, the options hint, `/api/config` and the
  rate-limit reply.
- `suggestion.dfy` (`Suggestion`): the browser's reaction to the server's
  reply in `fetchExposureSuggestion`, and the end-to-end outcome from a
  measured status to what the user sees.
- `theme.dfy` (`Themes`): the theme list and the `ThemeState` class. It
  covers restoring from storage, cycling, selecting by id and persisting.

## Model

| member | source | states |
|---|---|---|
| Text.Count | static/app.js:424-425 | the number of separators is at most the text's length |
| Text.CountAbsent | static/app.js:424-425 | no separator is counted exactly when the text has none, which is when `split` gives one part |
| Text.ParseFloat | static/app.js:426 | `parseFloat` gives NaN exactly when no digit follows the leading white space |
| Text.Split | static/app.js:423-429 | `split('/')` yields one more part than there are separators, no part contains the separator, and joining the parts gives the text back |
| Text.SplitAfterPart | static/app.js:423-429 | a separator-free first part is peeled off as the first piece of the split |
| Text.SplitWithoutSeparator | static/app.js:423-429 | a text without the separator splits into itself alone |
| Text.LeadingDigits | static/app.js:426 | the numeric prefix `parseFloat` reads is all digits, a prefix of the text, and maximal |
| Text.SkipWhitespace | static/app.js:426 | what `parseFloat` skips is exactly a blank prefix, and what remains does not start with white space |
| Text.ParseFloatOfDigits | static/app.js:426 | `parseFloat` of a run of digits is that number |
| Text.LeadingDigitsOfDigits | static/app.js:426 | a text made only of digits is its own numeric prefix |
| Text.DigitChar | static/app.js:8 | the character for a digit reads back as that digit |
| Text.DecimalText | static/app.js:8 | the decimal text of a number is non-empty and made of digits |
| Text.DecimalTextValue | static/app.js:8 | reading the decimal text of a number gives the number back |
| Text.JoinWith | app.py:116-120 | `', '.join` of one value is that value, and a character absent from the values and the separator is absent from the result |
| Text.Lines | app.py:114-120 | text made of lines, each followed by a line break, is empty exactly when there are no lines and otherwise ends in a line break |
| Text.SplitLines | app.py:114-120 | lines free of line breaks, each ended by one, split back into the lines plus one final empty text |
| Camera.ParseShutterFraction | static/app.js:423-429 | a shutter text without exactly one '/' yields 1 |
| Camera.ShutterFractionOf | static/app.js:423-429 | "x/d" with digits d yields the number d |
| Camera.ShutterTextParses | static/app.js:423-429 | "1/n" yields n |
| Camera.ShutterValuesAreTexts | static/app.js:8 | every shutter option is the text "1/n" of its denominator |
| Camera.DecimalTextAppend | static/app.js:8 | appending a digit to a decimal text gives the text of ten times the number plus that digit |
| Camera.ShutterValuesParse | static/app.js:8 | every listed shutter option parses to its denominator (4 … 8000) |
| Camera.Denominator | static/app.js:410-411 | for a listed shutter text the parsed denominator is the listed one (4 … 8000); proved from Camera.ShutterValuesParse |
| Camera.FactorOf | static/app.js:398-417 | the exposure ratio is positive exactly when the ISO is positive |
| Camera.ExposureFactor | static/app.js:398-417 | the factor for the current parameters is positive exactly when the ISO is positive |
| Camera.ValidParamsFactor | static/app.js:398-417 | every choice from the three option lists gives a defined, positive factor |
| Camera.BaselineFactor | static/app.js:398-417 | the initial parameters f/5.6, 1/125, ISO 400 are the baseline, so their factor is exactly 1 |
| Camera.HalvedApertureQuadruples | static/app.js:398-417 | halving the f-number multiplies the factor by four (two stops) |
| Camera.FactorOfHalved | static/app.js:406-416 | the ratio at half the f-number is four times the ratio |
| Camera.WiderApertureBrightens | static/app.js:398-417 | a smaller f-number gives a strictly larger factor |
| Camera.FasterShutterDarkens | static/app.js:398-417 | a larger shutter denominator (faster shutter) gives a strictly smaller factor |
| Camera.HigherIsoBrightens | static/app.js:398-417 | a higher ISO gives a strictly larger factor |
| Camera.FactorApertureAntitone | static/app.js:406-416 | the ratio falls as the f-number grows |
| Camera.FactorShutterAntitone | static/app.js:406-416 | the ratio falls as the shutter denominator grows |
| Camera.FactorIsoMonotone | static/app.js:406-416 | the ratio rises with the ISO |
| Camera.BlurRadius | static/app.js:434-442 | within f/1.8 … f/22 the blur radius is between 0 and 3 px |
| Camera.BlurAtLimits | static/app.js:434-442 | f/1.8 gives the full 3 px and f/22 gives none |
| Camera.BlurNonIncreasing | static/app.js:434-442 | stopping down never increases the blur |
| Camera.Session.constructor | static/app.js:12-16 | the session starts at f/5.6, 1/125, ISO 400 |
| Camera.Session.SelectApertureByIndex | static/app.js:196-200 | the aperture becomes the picked option and the other two parameters are unchanged |
| Camera.Session.SelectShutterByIndex | static/app.js:202-206 | the shutter becomes the picked option and the other two parameters are unchanged |
| Camera.Session.SelectIsoByIndex | static/app.js:208-212 | the ISO becomes the picked option and the other two parameters are unchanged |
| Camera.Session.UpdateParameter | static/app.js:214-230 | dispatches on the parameter name to update only that parameter; an unknown name changes nothing; parameters drawn from the lists stay in the lists |
| Pixels.Round | static/app.js:466 | `Math.round` gives the integer within half a unit, halves going up |
| Pixels.Clamp | static/app.js:465-467 | `clamp` gives 0 below 0.5, 255 from 254.5 on, and the nearest integer (halves up) in between |
| Pixels.ClampOfByte | static/app.js:465-467 | a value already in 0…255 is unchanged by clamping |
| Pixels.ClampMonotone | static/app.js:465-467 | clamping preserves order |
| Pixels.Exposed | static/app.js:363-368 | the exposed buffer has the old length and keeps every alpha byte |
| Pixels.ExposedSample | static/app.js:364-367 | an alpha byte, or any byte under the baseline factor 1, is unchanged |
| Pixels.ApplyExposure | static/app.js:363-368 | after the loop the buffer equals the exposed image: each colour scaled by the factor and clamped, alpha untouched |
| Pixels.ExposePixel | static/app.js:364-367 | one pixel's three colours are scaled and clamped and every other byte is unchanged |
| Pixels.UnitExposureIsIdentity | static/app.js:363-368 | the baseline factor 1 leaves the image unchanged |
| Pixels.ExposureMonotone | static/app.js:363-368 | a larger factor never darkens any byte |
| Pixels.NoiseLevel | static/app.js:449 | there is noise exactly above ISO 200, none at ISO 200 |
| Pixels.Delta | static/app.js:453 | the random shift lies in [-level/2, level/2) |
| Pixels.Shifted | static/app.js:454-456 | shifting one pixel keeps the buffer length |
| Pixels.NoisedFrom | static/app.js:451-458 | the noise pass keeps the buffer length |
| Pixels.Noised | static/app.js:447-459 | the whole noise pass keeps the buffer length |
| Pixels.ApplyNoise | static/app.js:447-459 | after the loop the buffer equals the noise function of its old contents and the random draws |
| Pixels.NoisedFromEnd | static/app.js:451 | a pass starting at the end changes nothing |
| Pixels.NoisePixel | static/app.js:452-457 | one loop step advances the noise pass by one pixel; it consumes two random draws when the first picks the pixel and one otherwise |
| Pixels.ShiftPixel | static/app.js:454-456 | the three colour bytes of one pixel are shifted and clamped and nothing else changes |
| Pixels.NoisedFromDraw | static/app.js:452-457 | a pixel chosen by the draw is shifted by the next draw before the pass continues |
| Pixels.NoisedFromSkip | static/app.js:452 | a pixel not chosen is left as is and the pass continues with the next draw |
| Pixels.NoisedFromKeeps | static/app.js:447-459 | bytes before the start and every alpha byte survive the noise pass |
| Pixels.ClampShiftBound | static/app.js:454-456 | a shift of at most h moves a byte by at most h + 0.5 after clamping |
| Pixels.NoisyPixelIsNear | static/app.js:452-457 | a noised pixel is unchanged or has every colour within level/2 + 0.5 of the original |
| Pixels.ShiftColour | static/app.js:454-456 | a zero shift leaves the colour unchanged (its bound is Pixels.ShiftColourNear) |
| Pixels.ShiftColourNear | static/app.js:454-456 | shifting a colour by at most h keeps each channel within h + 0.5 |
| Pixels.NoNoiseWithoutLevel | static/app.js:449-452 | with a non-positive noise level no pixel is chosen and the image is unchanged |
| Pixels.NoNoiseAtIso200 | static/app.js:449 | at ISO 200 the noise pass leaves the image unchanged |
| Pixels.NoiseLevelMonotone | static/app.js:449 | the noise level never falls as the ISO rises |
| Pixels.NoiseEffect | static/app.js:447-459 | after noise, alpha is unchanged and every pixel is either unchanged or within level/2 + 0.5 of its old colour in each channel |
| Pixels.ShiftedPixelNoisy | static/app.js:452-457 | a shift within the noise range followed by a noisy remainder is noisy from that pixel on |
| Pixels.NoisedFromPixels | static/app.js:451-458 | the noise pass only ever produces per-pixel noisy changes |
| Histogram.Luminance1000 | static/app.js:482 | luminance (0.299, 0.587, 0.114 weights, times 1000) is at most 255 000 |
| Histogram.LevelOf | static/app.js:483 | the histogram bin is the floor of the luminance, from 0 to 255 |
| Histogram.EmptyHistogram | static/app.js:475 | the fresh histogram has 256 empty bins |
| Histogram.ZeroSum | static/app.js:475 | all-zero bins sum to zero |
| Histogram.SumIncrement | static/app.js:484 | counting a pixel in one bin raises the histogram's total by one |
| Histogram.CountPixel | static/app.js:482-488 | one visited pixel adds one to the pixel count and one to the histogram's total, and no pixel is both dark and bright |
| Histogram.StatsOf | static/app.js:473-489 | the statistics have 256 bins summing to the pixel count, at most that many dark or bright pixels, and a bounded total |
| Histogram.Analyze | static/app.js:480-489 | the histogram loop computes exactly the statistics of the buffer |
| Histogram.CountInto | static/app.js:482-488 | one iteration adds the pixel's level to the total, its bin, and to the dark (≤ 50) or bright (≥ 205) count |
| Histogram.StatsOfNextPixel | static/app.js:480-489 | the statistics of one more pixel are the old ones with that pixel counted |
| Histogram.Average | static/app.js:491 | the average level lies in 0…255 |
| Histogram.AverageBound | static/app.js:491 | the average of bounded levels is in range |
| Histogram.StatusName | static/app.js:501-519 | only the normal status is reported as "ok" |
| Histogram.Classify | static/app.js:501-519 | an ok status means the average is within 80…200, the dark ratio at most 0.3, the bright ratio at most 0.2, and neither "slightly" rule holds (ClassifyIsFirstMatch states every branch) |
| Histogram.StatusOf | static/app.js:491-519 | an empty buffer (average and ratios NaN, every comparison false) is never reported; an ok status of a non-empty buffer has an average within 80…200 |
| Histogram.StatusAgreesWithCounts | static/app.js:491-519 | the classification on average and ratios equals the same thresholds stated on the integer counts |
| Histogram.AverageComparisons | static/app.js:491-519 | each average threshold (200, 80, 180, 100) is the same test on the level total |
| Histogram.RatioComparisons | static/app.js:492-519 | each ratio threshold (0.3, 0.2, 0.1) is the same test on the counts |
| Histogram.ClassifyIsFirstMatch | static/app.js:501-519 | the first matching rule wins: over, then under, then slightly over, then slightly under, otherwise ok |
| Histogram.OverexposedBeforeSlightly | static/app.js:501-511 | an image that meets both the over and the slightly-over test is classed as overexposed |
| Histogram.UniformGreyStats | static/app.js:480-489 | a uniform grey image of level v has total v per pixel and is all dark or all bright according to v |
| Histogram.GreyTotalsStep | static/app.js:482-488 | counting one more grey pixel keeps the uniform-grey totals |
| Histogram.UniformGreyPrefix | static/app.js:480 | a prefix of a uniform grey image is uniform grey |
| Histogram.GreyPixel | static/app.js:482-483 | a grey pixel of value v has luminance v and lands in bin v |
| Histogram.UniformGreyStatus | static/app.js:473-519 | a uniform grey image above 200 is overexposed, below 80 underexposed, and ok from 80 to 200 |
| Histogram.GreyStatusByCounts | static/app.js:491-519 | the same classification stated on the counts |
| Histogram.CheckExposure | static/app.js:473-528 | the status is the classification of the buffer's statistics, and a report with the average goes to the server exactly when the status is not ok |
| Pipeline.FitScale | static/app.js:330-336 | the scale is in (0, 1], fits both bounds, and is one of 1, 800/width or 500/height |
| Pipeline.ScaledSide | static/app.js:338-339 | a scaled side is never longer than the original |
| Pipeline.FitToBox | static/app.js:329-339 | the canvas size is within 800 × 500 and never larger than the photo |
| Pipeline.SideWithinBound | static/app.js:334-339 | a side scaled by at most bound/side fits the bound |
| Pipeline.FitToBoxKeepsFitting | static/app.js:329-339 | a photo that already fits is shown at its own size |
| Pipeline.FitToBoxFills | static/app.js:329-339 | a photo too large is shrunk until it touches the width or the height bound (in exact arithmetic; see Left out) |
| Pipeline.ProcessImage | static/app.js:321-392 | without a photo nothing happens; a fitted canvas with an empty side makes `getImageData` throw, leaving the buffer untouched; otherwise the pixels become the exposed then noised original, the size is the fitted one, the blur is the radius for the aperture, and the status is classified from the final pixels and reported exactly when not ok |
| Pipeline.ThinPhotoFails | static/app.js:334-352 | a 1 × 10000 photo fits to a canvas of width 0, which `getImageData` refuses |
| Pipeline.UpdateParameterAndRender | static/app.js:214-230 | the named parameter takes the picked list entry (an unknown name changes nothing), then the photo is processed again with the new settings |
| Pipeline.SelectApertureAndRender | static/app.js:196-200 | the aperture takes the picked entry, then the photo is processed again with the new settings |
| Pipeline.SelectShutterAndRender | static/app.js:202-206 | the shutter takes the picked entry, then the photo is processed again with the new settings |
| Pipeline.SelectIsoAndRender | static/app.js:208-212 | the ISO takes the picked entry, then the photo is processed again with the new settings |
| Server.IsOverexposed | app.py:75 | the over group is overexposed and slightly_overexposed; Suggestion.StatusGroups ties it to the client's statuses and Server.ExposureIssue names it 过曝 |
| Server.IsUnderexposed | app.py:75-76 | the over and under groups are disjoint (the group members are fixed by Suggestion.StatusGroups) |
| Server.HasKey | app.py:59-64 | the configuration reports a key exactly when the key is non-empty |
| Server.CheckExposure | app.py:67-104 | always HTTP 200; status "ok" exactly when the exposure is normal or no key is configured; a normal exposure gets the fixed "曝光正常" reply |
| Server.ModelNotConsulted | app.py:78-90 | for a normal exposure or a missing key the reply does not depend on the model's outcome |
| Server.NoKeyReply | app.py:85-90 | an abnormal exposure without a key is "ok" with a null suggestion |
| Server.AnswerReply | app.py:92-98 | a model answer is returned as a warning naming the issue, with the answer as suggestion |
| Server.FailureReply | app.py:99-104 | a model failure yields "error" with the suggestion to retry later |
| Server.ExposureIssue | app.py:110 | the issue is "过曝" exactly for the two overexposed statuses and "欠曝" otherwise |
| Server.Severity | app.py:111 | severity is "严重" exactly for the two strong statuses and "轻微" otherwise |
| Server.Prefixed | app.py:116 | each aperture option is written with the "f/" prefix, in order |
| Server.OptionLine | app.py:115-120 | one value is written as caption, prefix and value; a character absent from the caption, prefix, separator and values is absent from the line |
| Server.HintPiece | app.py:115-120 | a list contributes text exactly when it is given and non-empty |
| Server.OptionsHint | app.py:114-120 | the hint is empty exactly when no list is given (its lines are fixed by Server.OptionsHintLines) |
| Server.LineOf | app.py:115-120 | a hint line appears exactly when its option list is given and non-empty |
| Server.HintLines | app.py:114-120 | the hint has one line per given option list |
| Server.OptionsHintLines | app.py:114-120 | the hint text splits into exactly its lines followed by an empty text |
| Server.LineOfSingle | app.py:115-120 | hint lines of options free of line breaks contain no line break |
| Server.PieceAsLines | app.py:115-120 | each conditional piece of the hint is its line followed by a break |
| Server.HintAsLines | app.py:114-120 | the hint is its lines, each followed by a break |
| Server.LinesAppend | app.py:114-120 | line texts concatenate |
| Server.RateLimitReply | app.py:24-29 | too many requests give HTTP 429 with status "rate_limit" |
| Suggestion.HasSuggestion | static/app.js:569 | a suggestion worth showing is a non-empty string (null, missing and blank are not) |
| Suggestion.SuggestionAction | static/app.js:534-578 | no key means no request; only a non-blank suggestion or a rate-limit reply raises an alert; a logged status is never "ok"; a failed fetch is logged as an error |
| Suggestion.StatusGroups | static/app.js:501-519 | the browser's status names fall into the server's over and under groups as intended, and exactly the two strong statuses are severe |
| Suggestion.ClientOutcome | static/app.js:534-578 | for an abnormal exposure: no key gives nothing, a model failure shows "请稍后重试", a non-blank answer is shown, and a blank one is only logged |
| Suggestion.RateLimitShown | static/app.js:563-566 | a rate-limit reply is shown as "请求频率过高" |
| Suggestion.NormalStatusQuiet | static/app.js:534-578 | a normal exposure never raises an alert |
| Themes.FindThemeIndex | static/app.js:612-613 | the lookup gives the first theme with that id, or -1 exactly when none has it |
| Themes.FindFrom | static/app.js:612-613 | the same lookup starting from a position |
| Themes.FindOwnId | static/app.js:32-37 | theme ids are distinct, so each theme is found at its own place |
| Themes.Next | static/app.js:624 | switching moves to the next theme and wraps from the last to the first |
| Themes.SwitchCycle | static/app.js:623-636 | switching three times returns to the starting theme |
| Themes.RestoredIndex | static/app.js:609-617 | a saved known id selects its theme; no saved id or an unknown one keeps the current theme |
| Themes.RestoreAfterSave | static/app.js:609-636 | restoring after a theme was saved selects that theme |
| Themes.ThemeState.constructor | static/app.js:32-37 | the page starts on the first theme with storage as found |
| Themes.ThemeState.Current | static/app.js:660-662 | the current theme is one of the themes |
| Themes.ThemeState.InitTheme | static/app.js:609-617 | the index becomes the restored one and storage is untouched |
| Themes.ThemeState.SwitchTheme | static/app.js:623-636 | the next theme becomes current and its id is saved |
| Themes.ThemeState.SetThemeById | static/app.js:668-677 | succeeds exactly when the id exists, then selects and saves it; otherwise nothing changes |

Arithmetic proof helpers that restate no source behaviour have no row: Camera.PositiveQuotient, QuotientAntitone, HalvedDivisor, DoubledSquare, SquareMonotone, ScaleMonotone and ProductSign; Histogram.QuotientBelow, CompareQuotient, ScaleStrict, CompareScaled and GreyTotalStep; Pipeline.ScaleAtMostOne, RatioAtLeastOne and FourPerPixel; Pixels.ScaleByByte and SampleMonotone; and the offset helpers Pixels.ColoursOfPixel, NextPixel and LastPixel, which say that in an RGBA buffer a pixel start is a multiple of four, its first three bytes are colours and its fourth alpha.

## Left out

- The DOM, the canvas and the display are not modelled. This covers `drawImage`, `getImageData`/`putImageData`, the CSS blur filter, the scroll pickers' geometry, upload, download and the `applyTheme` attribute and label changes. The model keeps the values these steps compute: the fitted size, the blur radius and the pixel buffer.
- `localStorage` is the `stored` field of `ThemeState`; persistence across page loads is not modelled.
- The network and asynchrony are not modelled. The DeepSeek prompt and HTTP call (app.py:122-157) become an abstract `AiOutcome`, whose successful text is assumed already stripped. `fetch` becomes a `FetchOutcome`. The slowapi limiter's counting is left out; only its 429 reply is modelled.
- Number formatting is not modelled. The option values sent to the server arrive as already formatted texts, so `f/{v}` and `str(v)` are a prefix and plain text. The brightness shown with `toFixed`/`.1f` is carried as a real.
- Console logging is not modelled; logging actions are named by what they log.
- Floating point is not modelled. Exposure factors, apertures, the average and the fit scale are exact reals, and luminance is an exact integer scaled by 1000.
- Pipeline.FitToBox: uses the exact scale, while the source's `Math.floor(side * scale)` in doubles can come out one pixel short. A 1078 × 100 photo fits to 799 × 74 in the source and 800 × 74 in the model (about 5% of widths from 801 to 20000 lose a pixel this way), so Pipeline.FitToBoxFills holds of the exact model only. A 49 × 24500 photo fits to 0 × 499 in the source (the width is `floor(0.9999999999999999)`), so `getImageData` throws; the model fits it to 1 × 500 and Pipeline.ProcessImage renders it. A photo the model renders can therefore fail in the source when a fitted side is 1 in the model.
- Histogram.LevelOf: is the floor of the exact luminance; the source's double arithmetic can land one bin lower. For 65 of the 256 grey levels `0.299*v + 0.587*v + 0.114*v` falls just below `v` (grey 51 gives 50.99999999999999, so level 50; grey 128 gives level 127), while pure white gives exactly 255. A level pushed to 50 counts as dark (or one pushed below 205 stops counting as bright), so the dark and bright counts, and with them the status, can differ: the buffer of one grey-51 pixel and two grey-150 pixels is underexposed in the source (dark ratio 1/3 > 0.3) and ok in the model.
- Histogram.GreyPixel: states the exact luminance of a grey pixel, which the source's doubles miss for the grey levels above.
- Text.ParseFloat: covers unsigned whole numbers only (digits after optional leading white space); fractions, signs, exponents and `Infinity` (which `parseFloat` reads as infinity and the model as NaN) are not modelled, since every shutter text the program builds has a whole denominator.
- Camera.Session.SelectApertureByIndex, SelectShutterByIndex, SelectIsoByIndex and UpdateParameter: model only the parameter update. The display refresh is left out. The `processImage` call that each ends with (static/app.js:199, 205, 211, 229) is composed in Pipeline.SelectApertureAndRender, SelectShutterAndRender, SelectIsoAndRender and UpdateParameterAndRender.
- Camera.Session.UpdateParameter: takes the picked index rather than the value, because every caller passes an element of the list that matches the parameter name.
- `Math.random` is a parameter `rand: nat -> real`, consumed one draw at a time in the source's order; its distribution is not modelled.
- Pipeline.ProcessImage: the buffer is an input standing for what `drawImage` and `getImageData` produce; its length is tied to the fitted size, and its contents are not derived from the photo.
- Pixels.ApplyNoise: gives no bound on how many pixels change, only which changes are possible, because that count depends on the random draws.
