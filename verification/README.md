# vlogdev home page and housing-regression demo — Dafny model

This project models the small pieces of pure logic in a personal video-log
website and its browser-based Boston Housing regression demo:

- **Time-of-day banner** (`containers/Home.tsx`): the current hour is
  classified as morning, afternoon, evening or night (or nothing when no hour
  is known yet), and the classification picks a landscape picture.
- **Latest-video loading** (`containers/Home.tsx`): the component state
  (request modal flag, request type, loading flag, current hour, the store's
  video list), the re-entrancy guard and loading flag of `fetchLatestVideo`,
  the newest-first ordering of the received videos, the mount effect that
  requests the list only when the store is empty, and the request-button
  handler. The network call is an abstract outcome: the received items, or a
  failure.
- **Regression demo bookkeeping**
  (`components/playground/deep-learning/boston-housing/index.js`): the four
  model factories as layer-stack descriptions, `describeKernelElements`, and
  the ranking of `updateWeightDescription` (sort by magnitude, keep the top
  five, mark each by sign). Weights are JavaScript numbers, modelled as
  `real`; only their order and sign matter.

Modules: `Wrappers` (Option/Result), `Sorting` (the stable descending sort
both sorts go through), `DayTimes`, `Home`, `RegressionModels`,
`WeightReport`.

Where a doc comment and the code disagree, the model follows the code:
`describeKernelElements` is documented as taking a kernel of length 13 but
asserts length 12, and the no-sigmoid factory is documented as having two
hidden layers but builds one.

## Model

| member | source | states |
|---|---|---|
| DayTimes.GetDayTime | containers/Home.tsx:165-171 | No part of the day exactly when there is no hour; a present hour gets a part of the day whose hour window contains it |
| DayTimes.WindowsPartition | containers/Home.tsx:167-170 | The four windows (morning [6,12), afternoon [12,18), evening [18,22), night everything else, including out-of-range integers) cover every integer and never overlap |
| DayTimes.GetDayTimeIsWindow | containers/Home.tsx:166-170 | A present hour is classified as a part of the day if and only if the hour lies in that part's window |
| DayTimes.LandscapeFile | containers/Home.tsx:173-186 | Each part of the day shows `pungmu_<label>_s.jpg`; no part of the day falls back to the morning picture |
| DayTimes.LandscapeFileInjective | containers/Home.tsx:174-182 | Distinct parts of the day show distinct pictures |
| Home.InitialState | containers/Home.tsx:128-132 | The first render has the modal closed, nothing loading, an empty request type, no hour, and the store's list |
| Home.BeginFetch | containers/Home.tsx:134-137 | A request is issued exactly when nothing is loading; if something is loading the state is unchanged; otherwise only the loading flag is raised |
| Home.SettleFetch | containers/Home.tsx:138-150 | After the request settles the loading flag is clear; on success the stored list is a permutation of the received items ordered by publish time, newest first; on failure the list is unchanged; modal, request type and hour are untouched |
| Home.FetchLatestVideo | containers/Home.tsx:134-150 | With the corrected guard (see Findings): a call while loading changes nothing; otherwise it ends with the flag clear, and the stored list changes only on success, to a newest-first permutation of the items |
| Home.SettleKeepsTiesInServerOrder | containers/Home.tsx:143-145 | Videos with the same publish time stay in the order the server sent them |
| Home.SettleStoresReceivedVideos | containers/Home.tsx:143-145 | A video is stored after a successful fetch if and only if it was received |
| Home.MountEffect | containers/Home.tsx:159-163 | With the corrected guard (see Findings): a request is issued exactly when the store's list is empty and nothing is loading; the hour is recorded either way; the list itself is untouched |
| Home.FirstVisitScenario | containers/Home.tsx:159-186 | From an empty store: mount then success leaves the page not loading, the received videos newest first, and the landscape picture for the hour |
| Home.HandleClickButton | containers/Home.tsx:154-157 | The modal is opened with the clicked request type; loading flag, hour and video list are untouched |
| Home.HandleClickButtonLastWins | containers/Home.tsx:154-157 | Two clicks leave the same state as the second click alone |
| Home.BeginFetchAsWritten | containers/Home.tsx:134-152 | The guard as written tests the flag captured at the first render: a request is issued exactly when that captured flag is clear; a refused call leaves the state unchanged and an issued one raises only the loading flag |
| Home.FetchLatestVideoAsWritten | containers/Home.tsx:134-152 | The whole call as written: refused only when the captured flag is set; otherwise it ends with the flag clear and the list replaced only on success, by a newest-first permutation of the items |
| Home.MountEffectAsWritten | containers/Home.tsx:152-163 | The mount effect as written: a request is issued exactly when the store's list is empty and the captured flag is clear; the hour is recorded either way |
| Home.MountTwiceIssuesTwoRequests | containers/Home.tsx:134-163 | Running the mount effect twice on an empty store before a response issues two requests as written and one with the corrected guard |
| Home.StaleGuardAdmitsSecondRequest | containers/Home.tsx:134-152 | With the captured flag, a second call while the first request is pending issues a second request; the guard on the current flag refuses it |
| Sorting.SortDesc | containers/Home.tsx:143-145 | The result is a permutation of the input ordered by the key, largest first |
| Sorting.SortDescStable | components/playground/deep-learning/boston-housing/index.js:234 | For every key value, the elements carrying it keep their input order |
| RegressionModels.LinearRegressionModel | components/playground/deep-learning/boston-housing/index.js:50-56 | One layer, declaring `numFeatures` inputs, a single plain output unit |
| RegressionModels.Perceptron1Hidden | components/playground/deep-learning/boston-housing/index.js:63-77 | Two layers: a 50-unit sigmoid LeCun-normal hidden layer declaring `numFeatures` inputs, then a single plain output unit |
| RegressionModels.Perceptron2Hidden | components/playground/deep-learning/boston-housing/index.js:84-101 | Three layers: two 50-unit sigmoid LeCun-normal hidden layers, the first declaring `numFeatures` inputs, then a single plain output unit |
| RegressionModels.Perceptron1HiddenNoSigmoid | components/playground/deep-learning/boston-housing/index.js:109-123 | Two layers: a 50-unit LeCun-normal hidden layer without activation declaring `numFeatures` inputs, then a single plain output unit |
| RegressionModels.NoSigmoidDiffersOnlyInActivation | components/playground/deep-learning/boston-housing/index.js:63-123 | The no-sigmoid model is the one-hidden-layer model with the hidden activation switched off and nothing else changed |
| RegressionModels.TwoHiddenExtendsOneHidden | components/playground/deep-learning/boston-housing/index.js:63-101 | The two-hidden-layer model is the one-hidden-layer model with one more identical hidden layer before the output |
| RegressionModels.ParamCounts | components/playground/deep-learning/boston-housing/index.js:50-123 | The trainable parameter counts of the four models for `n` features: n+1, 50n+101, 50n+2651, 50n+101 |
| WeightReport.DescribeKernelElements | components/playground/deep-learning/boston-housing/index.js:131-141 | Fails, reporting the length, exactly when the kernel does not have 12 elements; otherwise entry `i` pairs label `i` with kernel element `i`, and the values and labels read back are the kernel and the labels |
| WeightReport.RankByMagnitude | components/playground/deep-learning/boston-housing/index.js:233-234 | The ranking is a permutation of the weights ordered by absolute value, largest first |
| WeightReport.TopWeights | components/playground/deep-learning/boston-housing/index.js:229-241 | Exactly min(5, n) weights are kept, taken from the weights, ordered by magnitude, and none left out is larger in magnitude than one kept |
| WeightReport.TopWeightsKeepTiesInKernelOrder | components/playground/deep-learning/boston-housing/index.js:234-241 | Among weights of equal magnitude, those kept are the first ones in kernel order, kept in that order |
| WeightReport.AddTopRows | components/playground/deep-learning/boston-housing/index.js:237-252 | Starting from an empty table, exactly min(5, n) rows are added, row `i` showing the `i`-th weight of the ranking with its sign class |
| WeightReport.ClassOf | components/playground/deep-learning/boston-housing/index.js:244-248 | A cell is marked negative exactly when its value is below zero; zero is positive |
| WeightReport.UpdateWeightDescription | components/playground/deep-learning/boston-housing/index.js:228-253 | The table is rebuilt from empty: min(5, n) rows, row `i` showing the `i`-th weight of the magnitude ranking, marked negative iff its value is negative, magnitudes non-increasing down the table |
| WeightReport.LargestMagnitudeRanksFirst | components/playground/deep-learning/boston-housing/index.js:234 | A weight strictly larger in magnitude than all others heads the ranking, whatever its sign |
| WeightReport.TiesKeepKernelOrder | components/playground/deep-learning/boston-housing/index.js:234 | Weights of equal magnitude are ranked in kernel order |

## Left out

- Rendering: the style blocks, the `news` array, the JSX markup and the request modal component are presentation only.
- `apiCall`, the mobx `inject`/`observer` store plumbing and `new Date().getHours()`: the hour and the request outcome are parameters; the video thumbnails are not modelled.
- Home.FetchLatestVideo: models the corrected guard on the current loading flag; the code as written is Home.FetchLatestVideoAsWritten.
- Home.MountEffect: models the corrected guard on the current loading flag; the code as written is Home.MountEffectAsWritten.
- Home.FetchLatestVideo: runs the whole call with nothing in between; interleavings are expressed by applying Home.BeginFetch and Home.SettleFetch separately.
- Home.SettleFetch: publish times are modelled as integers; a comparator returning NaN for non-numeric times is not modelled.
- The page shells `pages/index.tsx` and `pages/playground/index.tsx` carry no logic.
- All tensor work: `arraysToTensors`, the normalization module (normalization.js is not part of this model), `computeBaseline`, `model.compile`/`fit`/`evaluate` and `model.summary()` are calls into a floating-point library.
- `run`'s epoch callbacks, the `tfvis` charts, the `document.*` writes, the headline text and `toFixed` formatting are UI plumbing.
- WeightReport.UpdateWeightDescription: returns the rows instead of writing them into the page, and does not model that the caller's array is sorted in place.
- WeightReport.DescribeKernelElements: the feature labels come from data.js, which is not part of this model; they are a parameter required to hold the 12 labels that file defines.
- RegressionModels: the library's default initializer and activation are named, not resolved to the library's concrete choices.

## Findings

| source | as written | input that shows it | evidently intended | confidence | as-written member | corrected member |
|---|---|---|---|---|---|---|
| containers/Home.tsx:134-152 | `fetchLatestVideo` is memoised with an empty dependency list, so its guard reads the `isLoading` of the first render, which is always false | a second call of `fetchLatestVideo` while the first request is still pending (for example the mount effect running twice) | the second call returns without issuing a request | not executed; medium | Home.BeginFetchAsWritten, Home.FetchLatestVideoAsWritten, Home.MountEffectAsWritten (shown by Home.StaleGuardAdmitsSecondRequest and Home.MountTwiceIssuesTwoRequests) | Home.BeginFetch, Home.FetchLatestVideo, Home.MountEffect |
