# InsightGemSuite: a Dafny model of the analysis front end and its backend

InsightGemSuite is a web tool for marketing teams. A user uploads an advertisement video
or pastes a YouTube link. The backend asks a generative model to analyse the video, the
advert's marketing effect, or the video's comments. The front end shows each answer as a
collapsible result card.

This project models the parts of that system that hold logic:

- `ResultCard` (`result_card.dfy`): the markdown-subset renderer. It classifies each
  trimmed line, collapses runs of table lines into tables, and rewrites inline bold spans.
  It is specified by a pure pass function and implemented by a loop method. A second,
  independent definition groups the lines into maximal table runs, and a lemma proves the
  two agree.
- `YouTube` (`youtube.dfy`): the start-anchored URL validator, the unanchored video-id
  search and the thumbnail address.
- `FormState`, `IndexPage`, `Tabs`, `MainContent` and `Cards` (`form_state.dfy`,
  `index_page.dfy`, `tabs.dfy`, `main_content.dfy`, `cards.dfy`):
  - the form state of the page and of the three stand-alone tabs, as classes with their
    handlers;
  - the sidebar's checkbox handlers and button rules;
  - the `canAnalyze` rules, the request each analysis sends, and the expanded-card state;
  - the titles each tab prints on a card.
- `VideoUpload` (`video_upload.dfy`): the upload box as a class, with its MP4 and 100 MB
  checks.
- `Server` and `Prompts` (`server.dfy`, `prompts.dfy`): the string logic of the Python
  backend:
  - parsing of the comma-separated form fields;
  - the loops that build the results dictionary;
  - the marketing prompt with its two placeholders filled;
  - the comment fetch limit and the comment prompt.
  - `Prompts` holds the backend's prompt texts verbatim.
- `Text` and `Wrappers` (`text.dfy`, `wrappers.dfy`) hold the JavaScript and Python string
  primitives the model needs and an `Option` type:
  - `trim` and `strip` with their different whitespace sets;
  - `split`, `join` and `substring`, including its bound swapping;
  - replace-all.

Dictionaries (a JavaScript `Record<string, string>`, a Python `dict`) are modelled as
association lists in insertion order, `seq<(string, string)>`. The generative model is a
parameter `reply: string -> string` from a prompt to its answer. The comment downloader is
the sequence of comment texts it would yield.

Where the code and its documentation differ, the model follows the code:

- The video-id search goes on past a marker that is followed by an empty id run
  (`YouTube.EmptyRunSkipped`).
- Rendering an empty or blank text gives one spacer, not nothing (`ResultCard.BlankText`).
- A lone table line renders as `null` (`ResultCard.LoneTableLine`).
- A first result key `""` does not expand any card (`Cards.OpenFirstCard`).
- The comment endpoint always fetches fifty comments, whatever `max_comments` the request
  holds (`Server.CommentAnalysis`).
- The page offers the video option "Consumer Review", which has no backend prompt
  (`Server.ConsumerReviewSkipped`).
- The page sends its campaign platform as `video_type`, and only `"YouTube"` has a video
  description (`Server.VideoDescription`).

## Model

| member | source | states |
|---|---|---|
| ResultCard.TableLineAsWritten | src/components/ResultCard.tsx:33 | a line goes to the table buffer exactly when it holds a pipe and splitting on pipes gives more than two pieces, that is, when it holds at least two pipes |
| ResultCard.DigitRun | src/components/ResultCard.tsx:88-90 | the leading digit run: all digits, and the next character (if any) is not a digit |
| ResultCard.CloseFrom | src/components/ResultCard.tsx:112 | the lazy `(.*?)\*\*` closes at the first `**` reached without crossing a line terminator, and `None` means no such `**` exists |
| ResultCard.Cells | src/components/ResultCard.tsx:135-137 | every cell of a table line is non-empty, trimmed and free of pipes, and there are at most one more cells than pipes |
| ResultCard.RenderTable | src/components/ResultCard.tsx:132-168 | fewer than two buffered lines give `null`; otherwise the headers are the first line's cells and the rows are the cells of lines 3 onwards, in order |
| ResultCard.SeparatorIgnored | src/components/ResultCard.tsx:139-140 | the second buffered line is discarded whatever it contains |
| ResultCard.RenderContent | src/components/ResultCard.tsx:23-130 | `renderContent` returns exactly the element list of the pass over the trimmed lines (`Render`) |
| ResultCard.RenderLines | src/components/ResultCard.tsx:29-127 | the loop with its table buffer and in-table flag yields the pass's segments rendered in order, with a table still pending at the end closed |
| ResultCard.ProcessLine | src/components/ResultCard.tsx:30-121 | one line: a table line extends the buffer; any other line first closes a pending table and then adds its own block |
| ResultCard.GroupSound | src/components/ResultCard.tsx:29-127 | the reference grouping keeps every line in order and is well formed: runs are non-empty table lines, single lines are not table lines, and no run follows a run |
| ResultCard.RenderGrouped | src/components/ResultCard.tsx:23-130 | the rendered list is one element per maximal run of table lines and one per other line, in order |
| ResultCard.HeadingLines | src/components/ResultCard.tsx:51-69 | `# `, `## ` and `### ` give headings of levels 1 to 3 holding the rest of the line |
| ResultCard.BoldLines | src/components/ResultCard.tsx:71-77 | a line wrapped in `**` is a bold line holding what lies between the markers |
| ResultCard.ShortBoldLines | src/components/ResultCard.tsx:71-77 | `**` and `***` are bold lines whose text comes from `substring` with swapped bounds |
| ResultCard.BulletLines | src/components/ResultCard.tsx:79-86 | `- ` opens a bullet item holding the rest of the line |
| ResultCard.NumberedLines | src/components/ResultCard.tsx:88-97 | digits, a dot and one whitespace character give a numbered item with those digits and the text after the whitespace |
| ResultCard.PlainLines | src/components/ResultCard.tsx:99-121 | a line with no special start is a status line when it holds a check or cross mark, and a paragraph with its bold spans rewritten otherwise |
| ResultCard.BoldRewriteNoStars | src/components/ResultCard.tsx:112 | text without `*` is left unchanged |
| ResultCard.BoldRewriteSpan | src/components/ResultCard.tsx:112 | a closed `**x**` span on one line becomes `<strong …>x</strong>`, and the rest is rewritten after it |
| ResultCard.BlankText | src/components/ResultCard.tsx:24-48 | a blank text renders as one spacer |
| ResultCard.LoneTableLine | src/components/ResultCard.tsx:125-133 | a text of a single table line renders as one `null` element |
| YouTube.SidebarIsValid | src/components/Sidebar.tsx:103-107 | the sidebar's extra empty-string test gives the same answer as the pattern test |
| YouTube.ValidIffPattern | src/components/tabs/CommentAnalysisTab.tsx:18-21 | the validator accepts exactly the URLs that start with some scheme, some host and some marker followed by eleven characters from `[a-zA-Z0-9_-]` |
| YouTube.ValidExtends | src/components/MainContent.tsx:39-42 | the pattern is anchored at the start only: anything may follow an accepted URL |
| YouTube.ValidLength | src/components/MainContent.tsx:39-42 | an accepted URL has at least 20 characters, so the empty string is rejected |
| YouTube.FindId | src/components/MainContent.tsx:28-32 | the search returns the leftmost position where a marker is followed by a non-empty id run, and no position before it matches |
| YouTube.ExtractVideoId | src/components/MainContent.tsx:28-32 | there is an id exactly when the search finds a match, and the id is never empty |
| YouTube.NoIdIffNoMatch | src/components/tabs/CommentAnalysisTab.tsx:67-71 | there is no id exactly when no position of the URL matches |
| YouTube.ExtractVideoIdSpec | src/components/tabs/CommentAnalysisTab.tsx:67-71 | the id is the run after the leftmost matching marker, ended by `&`, a newline, `?`, `#` or the end of the URL |
| YouTube.NoMarkerNoId | src/components/MainContent.tsx:28-32 | a URL without any of the three markers has no id |
| YouTube.MarkersExclusive | src/components/MainContent.tsx:29 | no two of the three markers of the pattern occur at the same position |
| YouTube.EmptyRunSkipped | src/components/MainContent.tsx:29 | wherever any marker occurs and is followed directly by the end of the URL or by an excluded character, nothing matches there and the search goes on at the next position |
| YouTube.ValidHasId | src/components/MainContent.tsx:124-139 | every accepted URL has an id, and the id begins with the eleven characters the validator checked |
| YouTube.GetThumbnailUrl | src/components/MainContent.tsx:34-37 | a thumbnail exists exactly when an id does; it is the fixed prefix, the id and the fixed suffix, and the id can be read back from it |
| YouTube.ValidHasThumbnail | src/components/MainContent.tsx:124-135 | every accepted URL has a thumbnail |
| FormState.RemoveAll | src/components/Sidebar.tsx:81 | `filter(x => x !== item)` removes every occurrence of the item and keeps the count of every other value |
| FormState.RemoveAllAppend | src/components/Sidebar.tsx:81 | filtering distributes over concatenation, so the survivors keep their order |
| FormState.ChangeListed | src/components/Sidebar.tsx:76-101 | with no setter nothing changes; checking appends the item at the end; unchecking removes every occurrence |
| FormState.CheckUncheck | src/components/Sidebar.tsx:76-83 | checking an unlisted item and then unchecking it gives the list back |
| FormState.CheckTwice | src/components/Sidebar.tsx:78-79 | checking twice lists the item twice: there is no de-duplication |
| FormState.UncheckAfterChecks | src/components/Sidebar.tsx:80-81 | one uncheck removes an item however many times it was checked |
| FormState.GetCanAnalyze | src/pages/Index.tsx:34-45 | each known tab's rule holds exactly when its fields are filled; an unknown tab is never ready |
| FormState.CommentReadyIsValid | src/pages/Index.tsx:41 | the comment rule's empty-string test is implied by the validator |
| FormState.CommentReadyHasId | src/components/MainContent.tsx:124-139 | a ready comment form always yields a video id for the preview |
| FormState.RequestFor | src/pages/Index.tsx:55-80 | the request for the active tab carries that form's own fields, and the comment request asks for 25 comments |
| FormState.RequestFilled | src/pages/Index.tsx:47-80 | every request the page sends has its campaign, locality, options, demographics, descriptors or accepted URL filled |
| FormState.Buttons | src/components/Sidebar.tsx:309-330 | while an analysis runs neither button can be pressed; otherwise Reset can, and Analyze can exactly when the form is ready |
| Cards.Keys | src/pages/Index.tsx:85 | the keys of a results object, in enumeration order |
| Cards.ToggleCard | src/pages/Index.tsx:108-113 | the toggled card flips, and a card never toggled opens; every other entry is kept |
| Cards.ToggleTwice | src/pages/Index.tsx:108-113 | toggling twice restores the state, except that a never-toggled card is now recorded as closed |
| Cards.ToggleCommutes | src/pages/Index.tsx:108-113 | toggling two different cards gives the same state in either order |
| Cards.OpenFirstCard | src/pages/Index.tsx:84-88 | a non-empty first key becomes the only expanded card; no results or a `""` first key leave the expanded cards as they were |
| Cards.OpenFirstCardFromResults | src/pages/Index.tsx:84-88 | an expanded card is one the results hold or one that was expanded before |
| Cards.CapitalizeFirst | src/components/tabs/CommentAnalysisTab.tsx:206 | the comment card title upper-cases the first character and keeps the rest |
| Cards.CapitalizeFirstIdempotent | src/components/tabs/CommentAnalysisTab.tsx:206 | capitalising a title twice changes nothing more |
| Cards.SpaceBeforeCapitals | src/components/tabs/MarketingAnalysisTab.tsx:233 | one space goes in front of every capital, so the title grows by the number of capitals |
| Cards.UnspaceSpaceBeforeCapitals | src/components/tabs/MarketingAnalysisTab.tsx:233 | the inserted spaces can be removed again to give the key back |
| Cards.MarketingTitle | src/components/tabs/MarketingAnalysisTab.tsx:233 | the marketing card title has the key's length plus one per capital |
| Cards.MarketingTitleCamel | src/components/tabs/MarketingAnalysisTab.tsx:233 | a lower-case word followed by one capitalised word is shown with its first letter upper-cased and one space before the capital |
| Cards.MarketingTitleSpacedKey | src/components/tabs/MarketingAnalysisTab.tsx:233 | a key already holding words gets two spaces before every inner capital |
| Cards.MarketingTitleLeadingCapital | src/components/tabs/MarketingAnalysisTab.tsx:233 | a key starting with a capital is shown with a leading space |
| Cards.MarketingTitleNoCapitals | src/components/tabs/MarketingAnalysisTab.tsx:233 | for a key without capitals the marketing title equals the comment title |
| Cards.ReadableTitleKeepsWords | src/components/tabs/MarketingAnalysisTab.tsx:233 | the corrected title shows a key already written as words as it is, first character upper-cased |
| Cards.ReadableTitleCamel | src/components/tabs/MarketingAnalysisTab.tsx:233 | the corrected title still splits a camel-case key at its capital with one space |
| MainContent.GetTabTitle | src/components/MainContent.tsx:44-55 | every tab has a non-empty header title |
| MainContent.DefaultTitleIffUnknown | src/components/MainContent.tsx:44-55 | exactly the unknown tabs get the default title |
| MainContent.TitlesDistinct | src/components/MainContent.tsx:44-55 | the three known tabs have three different titles |
| MainContent.GetEmptyStateMessage | src/components/MainContent.tsx:70-81 | every tab has a non-empty empty-state message |
| MainContent.DefaultMessageIffUnknown | src/components/MainContent.tsx:70-81 | exactly the unknown tabs get the default message |
| MainContent.PreviewsExclusive | src/components/MainContent.tsx:96-124 | the file preview and the YouTube preview never show together; the target line shows only inside a file preview on the video tab; a ready video or marketing form shows the file preview |
| MainContent.PreviewHasThumbnail | src/components/MainContent.tsx:124-139 | whenever the YouTube preview shows, the thumbnail and id it reads with a non-null assertion exist, and the id begins with the validated eleven characters |
| MainContent.PreviewIffReady | src/components/MainContent.tsx:124 | on the comment tab the YouTube preview shows exactly when the tab is ready to analyse |
| VideoUpload.Validate | src/components/VideoUpload.tsx:47-59 | a file passes exactly when its type starts with `video/mp4` and it is at most 100 MB; the type error comes before the size error |
| VideoUpload.ValidateBoundaries | src/components/VideoUpload.tsx:53 | exactly 100 MB passes, one byte more fails, and a WebM file gets the type error |
| VideoUpload.Uploader.ValidateAndSetFile | src/components/VideoUpload.tsx:47-59 | a rejected file sets its error and leaves the selection alone; an accepted file is handed to the parent once and leaves the error alone |
| VideoUpload.Uploader.HandleDrag | src/components/VideoUpload.tsx:16-24 | entering or moving over the box lights it, leaving turns it off, any other event changes nothing |
| VideoUpload.Uploader.HandleDrop | src/components/VideoUpload.tsx:26-36 | the light goes off, the error is cleared, and only the first dropped file is checked; a rejected file leaves the selected video and the selections as they were |
| VideoUpload.Uploader.HandleChange | src/components/VideoUpload.tsx:38-45 | the error is cleared and only the first picked file is checked; a rejected file leaves the selected video and the selections as they were; the light is kept |
| VideoUpload.Uploader.RemoveVideo | src/components/VideoUpload.tsx:61-64 | the selection becomes null and the error is cleared |
| IndexPage.Page.constructor | src/pages/Index.tsx:9-27 | the page starts on the video tab with every field empty and nothing shown |
| IndexPage.Page.HandleAnalyze | src/pages/Index.tsx:47-94 | an unready form changes nothing; otherwise the active tab's request is sent, a success shows the results and expands the first card, a failure keeps both, and the form is kept |
| IndexPage.Page.HandleReset | src/pages/Index.tsx:96-106 | every form field, the results and the expanded cards are cleared, and the tab stays |
| IndexPage.Page.ToggleCard | src/pages/Index.tsx:108-113 | the expanded cards become the toggled state |
| IndexPage.Page.HandleTabChange | src/pages/Index.tsx:115-119 | the new tab is shown with no results and no expanded card, and every form field is kept |
| IndexPage.Page.ChangeListField | src/components/Sidebar.tsx:76-101 | a sidebar checkbox changes its own list as the handler does and nothing else |
| IndexPage.ResetNotReady | src/pages/Index.tsx:96-106 | after a reset no tab is ready to analyse |
| Tabs.VideoAnalysisTab.CanAnalyze | src/components/tabs/VideoAnalysisTab.tsx:98 | the tab's rule is the page's rule for the video tab |
| Tabs.VideoAnalysisTab.HandleAnalysisOptionChange | src/components/tabs/VideoAnalysisTab.tsx:44-50 | checking appends the option; unchecking removes every occurrence |
| Tabs.VideoAnalysisTab.HandleAnalyze | src/components/tabs/VideoAnalysisTab.tsx:52-80 | an unready form changes nothing; otherwise the form's request is sent, a success shows the results and expands the first card, a failure keeps both |
| Tabs.VideoAnalysisTab.HandleReset | src/components/tabs/VideoAnalysisTab.tsx:82-89 | the six fields return to their initial values |
| Tabs.VideoAnalysisTab.ToggleCard | src/components/tabs/VideoAnalysisTab.tsx:91-96 | the expanded cards become the toggled state |
| Tabs.MarketingAnalysisTab.CanAnalyze | src/components/tabs/MarketingAnalysisTab.tsx:104 | the tab's rule is the page's rule for the marketing tab |
| Tabs.MarketingAnalysisTab.HandleDemographicChange | src/components/tabs/MarketingAnalysisTab.tsx:42-48 | checking appends the demographic; unchecking removes every occurrence |
| Tabs.MarketingAnalysisTab.HandleDescriptorChange | src/components/tabs/MarketingAnalysisTab.tsx:50-56 | checking appends the descriptor; unchecking removes every occurrence |
| Tabs.MarketingAnalysisTab.HandleAnalyze | src/components/tabs/MarketingAnalysisTab.tsx:58-86 | an unready form changes nothing; otherwise the form's request is sent, a success shows the results and expands the first card, a failure keeps both |
| Tabs.MarketingAnalysisTab.HandleReset | src/components/tabs/MarketingAnalysisTab.tsx:88-95 | the fields return to their initial values |
| Tabs.MarketingAnalysisTab.ToggleCard | src/components/tabs/MarketingAnalysisTab.tsx:97-102 | the expanded cards become the toggled state |
| Tabs.CommentAnalysisTab.CanAnalyze | src/components/tabs/CommentAnalysisTab.tsx:65 | the tab's rule is the page's rule for the comment tab |
| Tabs.CommentAnalysisTab.SetMaxComments | src/components/tabs/CommentAnalysisTab.tsx:116 | the select sets the comment count to one of 10, 25 or 50 |
| Tabs.CommentAnalysisTab.HandleAnalyze | src/components/tabs/CommentAnalysisTab.tsx:23-49 | an empty or rejected URL changes nothing; otherwise the URL and the chosen count are sent, and the results are handled as on the other tabs |
| Tabs.CommentAnalysisTab.HandleReset | src/components/tabs/CommentAnalysisTab.tsx:51-56 | the URL, the count (back to 25), the results and the expanded cards return to their initial values |
| Tabs.CommentAnalysisTab.ToggleCard | src/components/tabs/CommentAnalysisTab.tsx:58-63 | the expanded cards become the toggled state |
| Server.ParseList | backend/server.py:235 | a field gives one item per comma plus one, each free of commas and already stripped |
| Server.ParseEmpty | backend/server.py:249-250 | an empty field parses to one empty item, not to an empty list |
| Server.ParseJoin | backend/server.py:235 | a non-empty list of comma-free, stripped items survives the comma-joined field unchanged |
| Server.Get | backend/server.py:150 | `get` finds nothing exactly when the key is absent |
| Server.Put | backend/server.py:154 | assignment keeps an existing key in its place and appends a new key at the end |
| Server.PutGet | backend/server.py:154 | after assignment the key reads the new value and every other key reads what it read before |
| Server.PutDistinct | backend/server.py:154 | assignment never lists a key twice |
| Server.AnswersSpec | backend/server.py:148-155 | the results name each name that has a prompt once, and nothing else, and each holds the model's answer to that name's prompt |
| Server.FirstIndex | backend/server.py:149 | the index found holds the name, and no earlier index does |
| Server.FirstIndexUnique | backend/server.py:149 | an index holding the name with none before it is the first index |
| Server.AnswersOrder | backend/server.py:148-155 | the results list their names in the order in which each is first prompted |
| Server.CallsEvery | backend/server.py:181-185 | when every name has a prompt, one prompt is sent per name, in order |
| Server.VideoPrompt | backend/server.py:150-151 | an option has a prompt exactly when it is a key of the video prompt table |
| Server.AnalyzeVideo | backend/server.py:145-155 | the loop's results and the prompts it sends are the fold over the selected options |
| Server.VideoResultsSpec | backend/server.py:145-155 | the results name each selected option with a video prompt once, and nothing else; each holds the model's answer to that option's prompt |
| Server.ConsumerReviewSkipped | backend/server.py:48-83 | "Consumer Review" never appears in the results |
| Server.RepeatedOption | backend/server.py:149-154 | an option listed twice is sent twice but answered once |
| Server.VideoAnalysis | backend/server.py:232-238 | the endpoint's results are the analysis of the parsed options field |
| Server.VideoDescription | backend/server.py:162 | any key but `"YouTube"` gets "Advertisement video", and no description holds a `[` |
| Server.PersonaLine | backend/server.py:164 | a persona line starts with the demographic and `: `, an unknown demographic has an empty persona, and the line holds a `[` only if the demographic does |
| Prompts.PersonaPlain | backend/server.py:164 | no persona of the persona table holds a `[` |
| Server.PersonaTextPlain | backend/server.py:163-165 | the persona text holds no `[` when no selected demographic does |
| Server.DemographicsSuffixPlain | backend/server.py:171 | the demographics line holds no `[` when no selected demographic does |
| Server.PersonaLines | backend/server.py:163-165 | one persona line per selected demographic, in order |
| Server.GenerateMarketingPrompt | backend/server.py:158-172 | the prompt ends with the demographics line, and an unknown descriptor's prompt is that line alone |
| Server.FillTemplate | backend/server.py:168-170 | a template whose fixed parts hold no `[` has each placeholder replaced exactly once |
| Server.KnownDescriptorPrompt | backend/server.py:85-172 | for each of the three descriptors the prompt is the shared context with the video description and persona text filled in, the descriptor's instructions and the demographics line |
| Server.FilledPromptNoBracket | backend/server.py:158-172 | the prompt of a known descriptor holds no `[` when no selected demographic does |
| Server.NoPlaceholder | backend/server.py:168-170 | a text without `[` contains neither placeholder |
| Server.FilledPromptPlain | backend/server.py:158-172 | the prompt of a known descriptor holds neither placeholder when no selected demographic holds a `[` |
| Server.AnalyzeMarketing | backend/server.py:175-186 | the loop's results and prompts are the fold over the descriptors with the generated prompts |
| Server.MarketingResultsSpec | backend/server.py:175-186 | the results name each selected descriptor once, including one without a template; each holds the answer to its prompt, and one prompt is sent per descriptor, in order |
| Server.MarketingAnalysis | backend/server.py:241-255 | the endpoint's results are the analysis of the parsed descriptors and demographics with the video type as the description key |
| Server.DescriptorsRoundTrip | backend/server.py:249 | the descriptors the page offers survive the comma-joined field unchanged |
| Server.FetchCount | backend/server.py:189-200 | the number kept is at most the stream's length, at least one for a non-empty stream, and stops at the first count reaching the limit |
| Server.FetchYoutubeComments | backend/server.py:189-200 | the fetch keeps the stream's first comments, as many as the count says, in order |
| Server.CommentLines | backend/server.py:209 | each comment becomes one line after a dash, in order |
| Server.CommentSection | backend/server.py:209-216 | when no comment spans lines, the comment section splits back into the comment lines |
| Server.CommentInsights | backend/server.py:203-226 | an empty stream gives the warning; otherwise the answer is to the prompt listing the first fifty comments |
| Server.AnalyzeYoutubeComments | backend/server.py:203-226 | the method returns the comment insights |
| Server.CommentAnalysis | backend/server.py:258-267 | the endpoint's insights do not depend on the requested `max_comments` |
| Server.CommentLimitIgnored | backend/server.py:266 | a request for ten comments on a video with more than ten still lists more than ten |
| Server.LimitedInsightsRespectLimit | backend/server.py:189-200 | with the limit passed on, a positive limit caps the prompt at exactly that many comments, or all when fewer |
| Server.LimitedCommentAnalysis | backend/server.py:263-267 | the corrected endpoint returns the limited insights |
| Text.TrimCut | src/components/ResultCard.tsx:24 | trimming keeps a contiguous piece that neither starts nor ends with whitespace, and everything cut off either end is whitespace |
| Text.TrimIdempotent | src/components/ResultCard.tsx:30 | trimming a trimmed line changes nothing |
| Text.SplitPieces | src/components/ResultCard.tsx:24 | `split` gives one piece per separator plus one, none holding the separator |
| Text.JoinSplit | src/components/ResultCard.tsx:24 | joining the pieces of a split with the separator gives the text back |
| Text.SplitJoin | backend/server.py:235 | splitting a join of a non-empty list on its separator gives the parts back when no part holds the separator |
| Text.ReplaceAllNoStart | backend/server.py:168-170 | replacing in a text where the pattern's first character never occurs changes nothing |

## Left out

- I/O is left out: the network, the file upload's bytes, reading the service-account file,
  the model client, logging, CORS and the root endpoint's status message.
- Concurrency is left out. The `await` between setting `isAnalyzing` and clearing it is one
  atomic step. React's batching and stale closures (`useCallback` with no dependencies)
  are not modelled.
- JSX, styling, toasts, icons, the navigation bar and the separate page components are
  not part of this model.
- `formatFileSize`, `formatDuration` and the preview's megabyte figure are left out
  because they use floating point.
- The `api.ts` layer is not part of this model:
  - the comma-joining of the lists is stated as `Server.ParseJoin`;
  - `maxComments || 50` is not modelled;
  - the comment endpoint returns a string, which the page then reads with `Object.keys`.
- The generative model is the function `reply` of the prompt alone. Its dependence on the
  uploaded video and its nondeterminism are not modelled.
- The comment downloader is the list of comment texts it yields. An exception ends that
  list early, which the model covers by taking a shorter list.
- `ResultCard.RenderLines` takes the lines already trimmed; `RenderContent` trims them
  first, which gives the same result because trimming is pure.
- React keys of the rendered elements are left out.
- `Cards.CapitalizeFirst` upper-cases ASCII letters only, not the full Unicode case mapping.
- `Cards.UpperFirstChar` upper-cases ASCII letters only, not the full Unicode case mapping.
- `Cards.MarketingTitle` upper-cases its first character for ASCII letters only, not with the
  full Unicode case mapping; the capitals it spaces are `A` to `Z`, as in the source.
- Results objects keep insertion order. JavaScript's ordering of integer-like keys first is
  not modelled.
- `Server.FilledPromptPlain` says nothing of demographics whose names hold a `[`: such a
  name is copied into the prompt, where it may spell a placeholder.

## Findings

| source | as written | input that shows it | evidently intended | confidence | as-written member | corrected member |
|---|---|---|---|---|---|---|
| src/components/tabs/MarketingAnalysisTab.tsx:233 | a space is put before every capital letter of the key, then the first character is upper-cased | the key `Brand & Creative Quality` gives ` Brand &  Creative  Quality`: a leading space and two spaces before each inner word | split camel-case keys into words and leave keys already written as words alone | medium, not executed | Cards.MarketingTitleSpacedKey | Cards.ReadableTitleKeepsWords |
| backend/server.py:266 | `analyze_youtube_comments` is called with the URL only and always fetches fifty comments | a request with `max_comments` 10 for a video with 60 comments lists 50 comments in the prompt | hand the request's `max_comments` to the comment fetch | medium, not executed | Server.CommentLimitIgnored | Server.LimitedInsightsRespectLimit |
