# Synapse front end: a Dafny model

Synapse turns a YouTube lecture into a summary and a transcript. The front end
has five pieces of logic, and this project models each of them in Dafny and
proves what the code promises:

- **ToolInterface** (`tool_interface.dfy`): the model catalogue, the YouTube
  URL validator, the submit gate and the inline URL error. The form's state
  (`videoUrl`, `selectedModel`) is the class `Form`. The validator's regular
  expression is modelled twice. `RegexMatches` says what the start-anchored,
  unterminated pattern accepts: some choice of scheme, subdomain and route,
  then a run of `[\w-]`. `IsValidYouTubeUrl` removes the prefixes left to
  right. `ValidIffRegex` proves that the two agree.
- **IndexPage** (`index_page.dfy`): the processing run of the home page. The
  class `Page` holds the four state fields `isLoading`, `loadingStep`,
  `results` and `error`. A ghost field `rendered` records the state on
  screen during each awaited delay and after the `finally` block.
  `HandleGenerate` performs the setters in the source's order; its `try`
  block is the method `RunSteps`, and each `setLoadingStep` with the delay
  after it is one `Step` that resolves or rejects. A rejected delay skips the
  remaining steps, as the thrown exception would. The method is proved equal
  to the trace `RunTrace`, and the lemmas state the run's properties about
  that trace.
- **ResultsDisplay** (`results_display.dfy`): the results panel, as a view
  function `Render` from its four props to `Hidden`, `Loading`, `Failed` or
  `Success`. It keeps the source's order of early returns and its `||`
  fallbacks.
- **Dashboard** (`dashboard.dfy`): the history list. It covers deletion by id,
  which is a `filter`, the three statistics and the history table. Timestamps
  are integers in milliseconds. The calendar month is an abstract function
  `monthOf: int -> int`, so "this month" compares month numbers only, as
  `getMonth()` does.
- **Profile** (`profile.dfy`): the six-field profile record. `Partial<ProfileData>`
  is a `map<Field, string>`, so the spread merge `{ ...prev, ...data }` is
  field-wise override. The class `ProfileProvider` holds the record. The hook
  guard `UseProfile` returns the thrown error as a `Result`.

The code has no per-stage failure classification, no cancellation, no rule of
one active run at a time, no persisted job records, no check of the selected
model's kind, no ordering of the history and no owner check on deletion. The
run always succeeds after three fixed delays. The submit gate only needs a
non-empty model selection. Deletion is a local filter. The model adds none of
these.

## Model

| member | source | states |
|---|---|---|
| ToolInterface.Options | src/components/ToolInterface.tsx:89-93 | one drop-down option per catalogue entry, in order, with that entry's id as value and its display name as text |
| ToolInterface.OfferedAreLanguageModels | src/components/ToolInterface.tsx:9-17 | the offered values are exactly the two language-model ids in catalogue order; the transcription model id is never offered |
| ToolInterface.RegexMatches | src/components/ToolInterface.tsx:28-31 | the pattern's language: an optional scheme, an optional `www.`, one of the three routes and a non-empty `[\w-]` run at the start of the URL; every match has at least 10 characters |
| ToolInterface.IsValidYouTubeUrl | src/components/ToolInterface.tsx:28-31 | the validator as a function: strips scheme, subdomain and route left to right and needs an id character next; nothing shorter than `youtu.be/x` (10 characters) is accepted |
| ToolInterface.ValidIffRegex | src/components/ToolInterface.tsx:28-31 | the prefix-stripping validator accepts a URL if and only if it starts with an optional `http://`/`https://`, an optional `www.`, one of the three routes and at least one `[\w-]` character |
| ToolInterface.RegexImpliesValid | src/components/ToolInterface.tsx:29 | every choice of scheme, subdomain and route followed by a non-empty run of `[\w-]`, at the start of the URL, is accepted |
| ToolInterface.ValidImpliesRegex | src/components/ToolInterface.tsx:29 | every accepted URL begins with such a match |
| ToolInterface.RejectsWithoutId | src/components/ToolInterface.tsx:29 | a scheme, subdomain and route followed by nothing, or by a character outside `[\w-]`, is rejected |
| ToolInterface.RejectsEmpty | src/components/ToolInterface.tsx:29 | the empty string is rejected |
| ToolInterface.RejectsBarePrefix | src/components/ToolInterface.tsx:29 | every bare prefix with no video id, such as `https://youtube.com/watch?v=` or `youtu.be/`, is rejected |
| ToolInterface.ValidExtends | src/components/ToolInterface.tsx:29 | there is no end anchor: if `u` is valid then `u + t` is valid for every `t` |
| ToolInterface.AcceptsWithoutSchemeOrSubdomain | src/components/ToolInterface.tsx:29 | `youtube.com/watch?v=` followed by any id is accepted: scheme and `www.` may both be absent |
| ToolInterface.AcceptsSubdomainWithoutScheme | src/components/ToolInterface.tsx:29 | `www.youtu.be/` followed by any id is accepted: `www.` does not need a scheme |
| ToolInterface.AcceptsSchemeAndSubdomain | src/components/ToolInterface.tsx:29 | `http://www.youtube.com/embed/` followed by any id is accepted: both optional parts together, with the embed route |
| ToolInterface.ValidHostStart | src/components/ToolInterface.tsx:29 | every accepted URL starts with `h`, `w` or `y`, and after the scheme continues with `www.youtu` or `youtu` |
| ToolInterface.RejectsUpperCase | src/components/ToolInterface.tsx:29 | the match is case-sensitive: `HTTPS://YOUTUBE.COM/watch?v=x` is rejected |
| ToolInterface.RejectsOtherSubdomain | src/components/ToolInterface.tsx:29 | no subdomain other than `www.` is allowed: `https://m.youtube.com/watch?v=x` is rejected |
| ToolInterface.CanGenerate | src/components/ToolInterface.tsx:33 | the gate `canGenerate` is open exactly when the URL matches the pattern, a model is selected and nothing is loading |
| ToolInterface.ShowsUrlError | src/components/ToolInterface.tsx:67-77 | the red border and the error line show exactly for a non-empty URL that does not match the pattern |
| ToolInterface.CanGenerateExactly | src/components/ToolInterface.tsx:33 | the gate is open exactly when the URL is valid, a model is selected and nothing is loading; the separate URL truthiness test adds nothing |
| ToolInterface.UrlErrorExcludesSubmit | src/components/ToolInterface.tsx:66-77 | the inline URL error (non-empty and invalid URL) never shows while the gate is open, and an empty field shows neither |
| ToolInterface.Form.constructor | src/components/ToolInterface.tsx:25-26 | both form fields start empty |
| ToolInterface.Form.SetVideoUrl | src/components/ToolInterface.tsx:65 | the URL input overwrites `videoUrl` and leaves the model selection alone |
| ToolInterface.Form.SetSelectedModel | src/components/ToolInterface.tsx:84 | the drop-down overwrites `selectedModel` and leaves the URL alone |
| ToolInterface.Form.HandleGenerate | src/components/ToolInterface.tsx:35-39 | `onGenerate(videoUrl, selectedModel)` is called if and only if the URL is valid, a model is selected and nothing is loading; otherwise nothing is called |
| ResultsDisplay.Render | src/components/ResultsDisplay.tsx:14-149 | the component as a view function: a loading view always has a non-empty message and the fixed three-step indicator, an error view a non-empty message, and a success view exactly the texts of the given results |
| ResultsDisplay.HiddenIff | src/components/ResultsDisplay.tsx:17-19 | nothing is rendered exactly when nothing is loading, there are no results and no error; the final `return null` is unreachable |
| ResultsDisplay.LoadingFirst | src/components/ResultsDisplay.tsx:22 | loading takes priority over both the error and the results |
| ResultsDisplay.ErrorBeforeResults | src/components/ResultsDisplay.tsx:73 | when not loading, an error takes priority over the results |
| ResultsDisplay.LoadingMessage | src/components/ResultsDisplay.tsx:32 | the loading message is the step text when non-empty, else "Analyzing video content with AI..." |
| ResultsDisplay.ErrorMessageIsError | src/components/ResultsDisplay.tsx:73-82 | the error view always shows the non-empty error itself; its fallback text cannot appear |
| ResultsDisplay.SuccessShowsResults | src/components/ResultsDisplay.tsx:90-138 | the success view appears exactly with results, no error and nothing loading, and shows both texts unchanged |
| ResultsDisplay.IndicatorIgnoresStep | src/components/ResultsDisplay.tsx:36-65 | the three-step indicator is the same for every step text: step 1 done, step 2 running, step 3 pending |
| IndexPage.DelaysReached | src/pages/Index.tsx:20-28 | a run awaits a prefix of the three delays: all of them when none rejects, or up to and including the one that rejects |
| IndexPage.PanelMounted | src/pages/Index.tsx:107 | the mount condition (`isLoading`, `results` or `error` truthy) holds exactly when the panel would render something |
| IndexPage.Settled | src/pages/Index.tsx:64-80 | after `finally` nothing is loading and the step text is empty; the panel then shows the results on success and the fixed message on failure |
| IndexPage.Awaited | src/pages/Index.tsx:19-28 | one state per delay reached, each loading with no results and no error |
| IndexPage.RunTrace | src/pages/Index.tsx:14-80 | a run shows one state per delay reached and then the settled one; every state but the last is loading |
| IndexPage.RunStartsClean | src/pages/Index.tsx:15-21 | the first state on screen is loading, with results and error cleared and step 1's text |
| IndexPage.StepsInOrder | src/pages/Index.tsx:21-28 | while the run awaits, the step texts are the three labels in order; a run with no rejection shows exactly those three |
| IndexPage.RunSettles | src/pages/Index.tsx:64-80 | every run ends with `isLoading` false and an empty step; success holds the results and no error, failure the fixed message and no results |
| IndexPage.NoSubmitWhileRunning | src/pages/Index.tsx:102 | the form's gate is closed in every state of a run before it settles |
| IndexPage.PanelDuringRun | src/pages/Index.tsx:107-114 | through the whole run the panel is mounted; it shows each step text while loading, then the results or the fixed error |
| IndexPage.AwaitedFollowsDelays | src/pages/Index.tsx:19-28 | the loading states of a run are the states of the delays it reaches, in the same order; each shows that delay's step text |
| IndexPage.Page.constructor | src/pages/Index.tsx:8-11 | the page starts idle: not loading, no step, no results, no error |
| IndexPage.Page.Step | src/pages/Index.tsx:21-22 | a step puts its label on screen, that state stays shown while its delay is awaited, and it rejects exactly when the outcome names it |
| IndexPage.Page.RunSteps | src/pages/Index.tsx:19-64 | the `try` block shows the states of the delays the run reaches, and stores the results exactly when no delay rejects |
| IndexPage.Page.HandleGenerate | src/pages/Index.tsx:14-80 | the setters in order yield exactly the trace `RunTrace` on screen and end in the settled state |
| Dashboard.FilterMembership | src/pages/Dashboard.tsx:95 | `filter` keeps an element exactly when it occurs in the list and satisfies the condition |
| Dashboard.FilterLength | src/pages/Dashboard.tsx:185-201 | `filter` never lengthens a list, and keeps its length exactly when every element satisfies the condition |
| Dashboard.FilterAppend | src/pages/Dashboard.tsx:95 | `filter` distributes over concatenation, so kept elements keep their relative order |
| Dashboard.Deleted | src/pages/Dashboard.tsx:95 | `prev.filter(item => item.id !== id)`: never longer than the history, and the same length exactly when no entry has the id |
| Dashboard.DeleteRemovesExactly | src/pages/Dashboard.tsx:95 | after deleting `id` an entry remains exactly when it was there and has a different id |
| Dashboard.DeleteKeepsOrder | src/pages/Dashboard.tsx:95 | deletion acts on each part of the history separately and on one entry by keeping or dropping it, so survivors keep their order |
| Dashboard.DeleteAbsent | src/pages/Dashboard.tsx:95 | deleting an id no entry has leaves the history unchanged |
| Dashboard.DeleteIdempotent | src/pages/Dashboard.tsx:95 | deleting the same id twice is deleting it once |
| Dashboard.DeleteCommutes | src/pages/Dashboard.tsx:95 | two deletions give the same history in either order |
| Dashboard.DeleteLength | src/pages/Dashboard.tsx:95 | deletion never lengthens the history, and shortens it exactly when some entry has the id |
| Dashboard.InCurrentMonth | src/pages/Dashboard.tsx:185-187 | an entry counts for "This Month" by its month number alone; an entry created now always counts |
| Dashboard.IsRecent | src/pages/Dashboard.tsx:199-201 | an entry counts as recent only if created less than 7 days (604800000 ms) ago, and every entry dated now or later counts |
| Dashboard.ComputeStats | src/pages/Dashboard.tsx:174-201 | "Total Videos" is the history length, and "This Month" and "Recent Activity" never exceed it |
| Dashboard.StatsAdd | src/pages/Dashboard.tsx:174-201 | each figure of a concatenated history is the sum of the parts' figures |
| Dashboard.StatsOfOne | src/pages/Dashboard.tsx:185-201 | one entry counts 1 in "This Month" exactly when its month equals the current one, and 1 in "Recent Activity" exactly when `now - created_at < 604800000` |
| Dashboard.DeleteLowersStats | src/pages/Dashboard.tsx:95-201 | deleting never raises any of the three figures |
| Dashboard.Rows | src/pages/Dashboard.tsx:242-253 | one row per entry, in order, each with its title and date and the badge "Completed" |
| Dashboard.HistoryCard | src/pages/Dashboard.tsx:220 | the empty-history message shows exactly when the history is empty; otherwise there is a row per entry, each badged "Completed" |
| Dashboard.Page.constructor | src/pages/Dashboard.tsx:21-23 | the dashboard starts with no user, an empty history and loading |
| Dashboard.Page.Initialize | src/pages/Dashboard.tsx:29-40 | without a session it redirects and changes nothing; with one it sets the user, then the history, then stops loading |
| Dashboard.Page.HandleDelete | src/pages/Dashboard.tsx:92-95 | the history becomes the old history without the entries of that id |
| Dashboard.Page.View | src/pages/Dashboard.tsx:119-289 | the loading screen shows exactly while loading; otherwise the page shows the user's email, the statistics of the current history and its history card |
| Profile.Merge | src/hooks/useProfile.tsx:43-45 | every key present in the partial is overwritten with its value and every other key keeps its old value |
| Profile.WithAvatar | src/hooks/useProfile.tsx:47-49 | the avatar URL is replaced and no other field changes |
| Profile.InitialIsEmpty | src/hooks/useProfile.tsx:21-28 | all six fields of the initial profile are the empty string |
| Profile.MergeEmpty | src/hooks/useProfile.tsx:44 | merging an empty partial is the identity |
| Profile.MergeIdempotent | src/hooks/useProfile.tsx:44 | merging the same partial twice equals merging it once |
| Profile.MergeCompose | src/hooks/useProfile.tsx:44 | two merges in a row equal one merge of the combined partial, the later one winning on shared keys |
| Profile.AvatarIsMerge | src/hooks/useProfile.tsx:47-49 | the avatar update equals the merge of a partial holding only the avatar |
| Profile.ProfileProvider.constructor | src/hooks/useProfile.tsx:21-28 | the provider starts with the all-empty profile |
| Profile.ProfileProvider.UpdateProfile | src/hooks/useProfile.tsx:43-45 | the stored profile becomes the merge of the old one with the partial |
| Profile.ProfileProvider.UpdateAvatar | src/hooks/useProfile.tsx:47-49 | the stored profile becomes the old one with only the avatar replaced |
| Profile.UseProfile | src/hooks/useProfile.tsx:58-63 | the hook returns the enclosing provider when there is one and otherwise fails with "useProfile must be used within a ProfileProvider" |

## Left out

- Supabase authentication: the session lookup, the auth-state subscription and
  sign-out are external-service I/O. The session is a parameter of
  `Dashboard.Page.Initialize`.
- Routing, toasts and rendering: `navigate` becomes the `redirectToAuth`
  result, toasts are no-ops that never fail, and JSX and CSS are not
  modelled.
- Timers: each `setTimeout` delay is one `Step` with no duration. The
  source's promises always resolve. `Outcome.RejectsAt` stands for the only
  way the catch block could be reached, a rejected await.
- Rendering granularity: one on-screen state is assumed per awaited delay. This
  matches React batching the setters that run before each `await`.
- Mock data: the canned summary and transcript are the `canned` parameter, and
  the mock history is the `fetched` parameter. Their texts are not modelled.
  `fetchHistory`'s catch path is not modelled, because the mock cannot throw.
- Browser storage: loading the profile from `localStorage` with `JSON.parse`
  and writing it back after every change are not modelled.
- Dates: `formatDate`, the real calendar behind `getMonth()` and time zones
  are not modelled. Timestamps are integers in milliseconds. `Date.now()` is
  one `now` value, not one reading per entry.
- Profile.Merge: a partial whose key is present with the value `undefined`
  would write `undefined`; the model's partial values are always strings.
- React's `key` warnings for duplicate history ids, and the Eye button, which
  only shows a toast.
- AccountSettings.tsx and Header.tsx are not part of this model: they bind
  form fields and navigation buttons.
