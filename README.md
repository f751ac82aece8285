# FlowGen, modelled in Dafny

FlowGen turns a plain-text description into Mermaid diagram code. Its parts:

- A FastAPI backend (`backend/main.py`) validates the requested diagram type against a fixed table. It asks a language model for code, then cleans the reply: strip, remove Markdown fences, strip again, and put the type's Mermaid header in front if it is missing.
- Two browser clients send descriptions to it:
  - the React component `DiagramGenerator.tsx`;
  - the plain script `dashboard.js`.
- A demo session layer keeps a login flag in browser storage. It is written by the login and signup pages, read by the dashboard guard, and deleted by the header's logout.

This project models those parts in Dafny and proves what each promises.

| file | module | models |
|---|---|---|
| `wrappers.dfy` | `Wrappers` | `Option` and `Result` |
| `text.dfy` | `Text` | Python's `str.strip`, JavaScript's `String.prototype.trim`, and `str.replace(p, "")`; the two whitespace sets differ, and `Runtime` selects which one applies |
| `backend.dfy` | `Backend` | the type table, `/types`, and `/generate` as a pure function of the request and the model's reply |
| `api.dfy` | `Api` | what a client receives: the outcome of `POST /generate` and `GET /health` |
| `zoom.dfy` | `Zoom` | the clamped zoom percentage both clients use |
| `session.dfy` | `Session` | a storage area (`localStorage`) as a class over a `map`, and the sign-in and sign-out transitions |
| `generator.dfy` | `Generator` | the React generator as a class of state cells, including the React commit that draws the preview |
| `dashboard_script.dfy` | `DashboardScript` | `dashboard.js` as a class whose methods are its event handlers |
| `login.dfy`, `signup.dfy`, `dashboard_page.dfy`, `header.dfy`, `sidebar.dfy` | `Login`, `Signup`, `DashboardPage`, `Header`, `Sidebar` | the Next.js pages and components |
| `flow.dfy` | `Flow` | how the parts agree: type lists, end-to-end generation, and the session's path through login, dashboard and logout |

Modelling choices:

- The language model is not called. Its reply is an input: `Reply(text)` or `Raised(message)`.
- Network answers are inputs of type `Api.GenerateOutcome`: `Ok(code)`, `HttpErr(detail)` or `NetErr(message)`.
- Mermaid's verdict is a boolean input.
- Navigation is recorded as the target URL in a `navigatedTo` or `location` field.
- Every event handler is one atomic step, except the React generate handler. That one is split at its `await` into `Submit` and `Receive`, so the spinner state can be observed.

## Model

| member | source | states |
|---|---|---|
| Backend.TypeNames | backend/main.py:31-40 | the table's keys, in table order |
| Backend.PrefixFor | backend/main.py:86-93 | a type has a header iff it is a key of the table, and that header is the table's entry for it |
| Backend.RequestFromBody | backend/main.py:43-45 | a body without `type` is a `flowchart` request; otherwise the type is taken as sent |
| Backend.CleanReply | backend/main.py:124-131 | the code always starts with the header; an unfenced reply that already starts with it is returned unchanged, otherwise exactly header + "\n" is put in front |
| Backend.GenerateDiagram | backend/main.py:84-141 | 400 iff the type is not in the table; success iff the type is known and the model replied; the response echoes the requested type; the code starts with the type's header; every failure is 400 or 500 |
| Backend.GetDiagramTypes | backend/main.py:64-70 | the table's eight keys in table order, all distinct, exactly those with a header; the default is `flowchart`, the first |
| Backend.InvalidTypeDetail | backend/main.py:89 | the 400 detail starts with the fixed lead "Invalid diagram type. Supported types: " |
| Backend.Unfenced | backend/main.py:124-127 | strip, both replaces and strip again never lengthen the reply |
| Backend.UnknownTypeRejected | backend/main.py:86-90 | an unknown type gets 400 with the fixed detail, whatever the model would have answered (the model is not consulted) |
| Backend.InvalidTypeDetailListsEveryType | backend/main.py:89 | the 400 detail mentions every supported type |
| Backend.AcceptedCodeIsHeadedAndUnfenced | backend/main.py:124-133 | for a known type the answer succeeds, echoes the type, starts with the header and contains no triple backtick |
| Backend.ModelFailureIs500 | backend/main.py:135-141 | a failure of the model call becomes 500 with "Error generating diagram: " + message |
| Backend.MissingTypeIsFlowchart | backend/main.py:45 | a body without `type` is answered as a flowchart, with `graph TD` code |
| Backend.EmptyReplyYieldsHeader | backend/main.py:127-131 | a reply with nothing left after unfencing gives header + "\n" |
| Backend.CleanReplyKeepsCleanCode | backend/main.py:124-131 | stripped, fence-free code that starts with the header passes through unchanged |
| Backend.CleanReplyIdempotent | backend/main.py:124-131 | cleaning the backend's own output again changes nothing, provided the unfenced reply was not empty |
| Backend.RecleanedEmptyReplyDropsNewline | backend/main.py:124-131 | where idempotence stops: header + "\n" is cleaned down to the bare header |
| Backend.UnfencedIsClean | backend/main.py:124-127 | the unfenced reply is already stripped and contains no triple backtick |
| Backend.UnfencedHasNoFence | backend/main.py:127 | after both replaces, no triple backtick remains |
| Backend.CleanReplyHasNoFence | backend/main.py:127-131 | putting a backtick-free header in front keeps the code free of triple backticks |
| Backend.RemoveFencesNoFence | backend/main.py:127 | left-to-right, non-overlapping removal of triple backticks leaves none, even from runs of four or more |
| Backend.RemoveFencesLeadingTicks | backend/main.py:127 | removing triple backticks leaves (leading backticks mod 3) backticks at the front |
| Backend.NoFenceNoMermaidFence | backend/main.py:127 | text without a triple backtick has no mermaid fence either, so the order of the two replaces does not matter afterwards |
| Backend.HeadersAreSafe | backend/main.py:31-40 | every header is non-empty, has no backtick and does not start with whitespace |
| Text.TrimStart | backend/main.py:124 | only whitespace is removed, and the result does not start with whitespace |
| Text.TrimEnd | backend/main.py:124 | only whitespace is removed, and the result does not end with whitespace |
| Text.TrimStartIsSuffix | backend/main.py:124 | what remains after trimming the front is a suffix of the input |
| Text.TrimEndIsPrefix | backend/main.py:124 | what remains after trimming the end is a prefix of the input |
| Text.StripIdempotent | backend/main.py:127 | stripping twice is stripping once |
| Text.StripEmptyIff | frontend/components/DiagramGenerator.tsx:64 | trimming yields "" iff every character is whitespace |
| Text.RemoveAll | backend/main.py:127 | `replace(p, "")` never lengthens the text |
| Text.RemoveAllAbsent | backend/main.py:127 | removing a block that does not occur changes nothing |
| Text.JoinContainsEach | backend/main.py:89 | `", ".join(xs)` mentions every item |
| Text.StripEnds | backend/main.py:124 | a stripped string is no longer than the input and neither begins nor ends with whitespace |
| Text.StrippedAlready | backend/main.py:124 | a string with no whitespace at either end is left unchanged by stripping |
| Text.StripContains | backend/main.py:124 | anything the stripped text contains, the original text contains |
| Text.Lookup | backend/main.py:86-93 | the dictionary lookup finds a value iff the key is in the table, and the value found is that key's entry |
| Text.IsSpace | backend/main.py:124 | U+FEFF is whitespace only to JavaScript; U+001C..U+001F and U+0085 are whitespace only to Python |
| Text.Strip | backend/main.py:124 | stripping never lengthens the text and leaves no whitespace at its end |
| Text.Join | backend/main.py:89 | `sep.join(xs)` starts with the first item |
| Text.Utf16Length | frontend/app/signup/page.tsx:23-25 | JavaScript's `.length` is at least the number of characters and at most twice it |
| Text.Utf16LengthOfBmp | frontend/app/signup/page.tsx:48 | on text inside the Basic Multilingual Plane, `.length` is the number of characters |
| Text.Utf16LengthOfAstral | frontend/app/signup/page.tsx:48 | each character above U+FFFF counts twice in `.length` |
| Api.Delivered | backend/main.py:133-141 | a client sees `Ok(code)` iff the backend succeeded, with the response's code; otherwise it sees the exception's detail |
| Api.Served | backend/main.py:86-133 | a client gets code iff the type is in the table and the model replied, and that code starts with the type's header |
| Zoom.In | frontend/components/DiagramGenerator.tsx:191 | `min(200, z + 10)` stays within bounds on the step grid and never decreases |
| Zoom.Out | frontend/components/DiagramGenerator.tsx:183 | `max(50, z - 10)` stays within bounds on the step grid and never increases |
| Zoom.ClicksKeepValid | dashboard.js:127-135 | any run of clicks from a valid level stays within [50, 200] on multiples of 10 |
| Zoom.RepeatedZoomIn | dashboard.js:127-130 | n zoom-in clicks reach min(200, z + 10n) |
| Zoom.RepeatedZoomOut | dashboard.js:132-135 | n zoom-out clicks reach max(50, z - 10n) |
| Zoom.InOutInverse | dashboard.js:127-135 | away from the bounds, in and out undo each other; at a bound the button does nothing |
| Zoom.TwoClicksFrom190 | dashboard.js:128 | two zoom-in clicks from 190 end at 200 |
| Generator.FailureMessage | frontend/components/DiagramGenerator.tsx:79-80 | the backend's non-empty detail, otherwise the fixed fallback; never empty |
| Generator.PreviewOf | frontend/components/DiagramGenerator.tsx:224-244 | exactly one panel is shown, in the order spinner, then error, then diagram, then empty |
| Generator.StatusAfter | frontend/components/DiagramGenerator.tsx:36-43 | online iff the health GET succeeded, else offline |
| Generator.DiagramGenerator.constructor | frontend/components/DiagramGenerator.tsx:11-17 | the initial state: empty text and code, `flowchart`, not loading, no error, status checking, zoom 100, nothing drawn and the ref detached |
| Generator.DiagramGenerator.SetText | frontend/components/DiagramGenerator.tsx:171 | the textarea sets the text |
| Generator.DiagramGenerator.SetDiagramType | frontend/components/DiagramGenerator.tsx:149 | the select sets the type |
| Generator.DiagramGenerator.CheckApiStatus | frontend/components/DiagramGenerator.tsx:36-43 | the status becomes `StatusAfter` of the probe |
| Generator.DiagramGenerator.Submit | frontend/components/DiagramGenerator.tsx:63-76 | nothing is sent iff the trimmed text is empty, and then only the error is set; otherwise the error is cleared, loading starts and the untrimmed text and current type are sent; nothing is drawn or removed |
| Generator.DiagramGenerator.Receive | frontend/components/DiagramGenerator.tsx:77-83 | new non-empty code is stored and drawn at the current zoom, or shows the render error with the `<div>` emptied; code equal to the old code, or empty code, is not drawn again and the `<div>` keeps what it held; a failure keeps the old code and shows `FailureMessage`; loading ends either way |
| Generator.DiagramGenerator.Commit | frontend/components/DiagramGenerator.tsx:30-61 | after a commit the ref is attached exactly while the diagram panel is shown and the dependencies are recorded; the `<div>` is as `CommitEffect` leaves it; a Mermaid failure becomes the error |
| Generator.DiagramGenerator.ZoomIn | frontend/components/DiagramGenerator.tsx:191 | zoom becomes `Zoom.In` of the old zoom; a shown diagram is redrawn at the new zoom (or the render error is shown and the `<div>` emptied); a hidden one is left at the old zoom |
| Generator.DiagramGenerator.ZoomOut | frontend/components/DiagramGenerator.tsx:183 | zoom becomes `Zoom.Out` of the old zoom, with the same redraw rule as ZoomIn |
| Generator.DiagramGenerator.Clear | frontend/components/DiagramGenerator.tsx:215 | text and code become empty and the diagram panel is gone; zoom and error are unchanged; the last drawing stays in the reused `<div>` |
| Generator.DiagramGenerator.CopyCode | frontend/components/DiagramGenerator.tsx:121-124 | the code is copied iff there is code (the button is disabled otherwise) |
| Generator.DiagramGenerator.DownloadPng | frontend/components/DiagramGenerator.tsx:86-88 | a download starts iff there is code, the ref is attached and its `<div>` holds an svg |
| Generator.Generate | frontend/components/DiagramGenerator.tsx:63-84 | a whole click: a blank text shows the blank-input error; new code shows the diagram panel with that code drawn, or the render error with the `<div>` emptied; an answer equal to the current code is not redrawn and shows as drawn only if it was; a failed request shows `FailureMessage` and keeps the old code |
| Generator.BlankMeansWhitespace | frontend/components/DiagramGenerator.tsx:64 | the text that is not sent is exactly the all-whitespace text |
| Generator.BackendDetailShownVerbatim | frontend/components/DiagramGenerator.tsx:80 | a non-empty backend detail is shown as is in the error panel |
| Generator.CommitEffect | frontend/components/DiagramGenerator.tsx:30-61 | the ref follows the panel and the dependencies are recorded; Mermaid is called iff code or zoom changed, there is code and the ref is attached; a successful render leaves the current code drawn at the current zoom, a failed one empties the `<div>` (Mermaid removes the earlier `#mermaid-diagram` element before parsing), and the `<div>` changes only when Mermaid is called |
| Generator.HiddenPanelKeepsDrawing | frontend/components/DiagramGenerator.tsx:224-244 | while the spinner, error or empty panel is shown nothing is drawn, nothing fails, and the last svg stays in the `<div>` |
| Generator.UnchangedDependenciesKeepDrawing | frontend/components/DiagramGenerator.tsx:34 | with `[mermaidCode, zoom]` unchanged the effect does not run, whatever panel is shown |
| Generator.SameCodeRegeneratedStaysDrawn | frontend/components/DiagramGenerator.tsx:30-34 | a drawn diagram regenerated to the same code stays drawn through the spinner and back |
| Generator.FailedCodeRegeneratedIsNotDrawn | frontend/components/DiagramGenerator.tsx:30-61 | after a render failure, regenerating to the same code shows the diagram panel with an empty `<div>` and no error, so nothing can be downloaded |
| Generator.ZoomWhileHiddenNotApplied | frontend/components/DiagramGenerator.tsx:30-34 | a zoom click while the diagram is hidden is not drawn; when the same code comes back it shows at the old zoom |
| DashboardScript.ExampleFor | dashboard.js:307-317 | the six known types get their example from the table; any other type gets "Describe your diagram here" |
| DashboardScript.Placeholder | dashboard.js:307-318 | the placeholder starts "Describe your <type>" and ends with the type's example |
| DashboardScript.ErrorMessage | dashboard.js:68-81 | a non-ok answer shows its non-empty detail, otherwise "Failed to generate diagram"; a thrown error shows its message, otherwise the long fallback |
| DashboardScript.CanvasAfter | dashboard.js:73-101 | the diagram is drawn iff the answer was ok and Mermaid succeeded; a render failure shows the render message |
| DashboardScript.StatusAfter | dashboard.js:38-53 | the three status lines correspond one-to-one to ok, non-ok and no response |
| DashboardScript.Dashboard.constructor | dashboard.js:4-22 | zoom 100, no code; a visitor without the session flag is sent to login.html |
| DashboardScript.Dashboard.SetInput | dashboard.js:5 | the input box holds the typed text |
| DashboardScript.Dashboard.CheckApiStatus | dashboard.js:38-53 | the status line becomes `StatusAfter` of the probe |
| DashboardScript.Dashboard.ClickGenerate | dashboard.js:25-35 | a blank trimmed input shows the error and sends nothing; otherwise the trimmed text and the selected type are sent |
| DashboardScript.Dashboard.GenerateDiagram | dashboard.js:56-83 | the code is stored on any ok answer, before rendering; the canvas ends as `CanvasAfter` |
| DashboardScript.Dashboard.ZoomIn | dashboard.js:127-130 | zoom becomes `Zoom.In` of the old level |
| DashboardScript.Dashboard.ZoomOut | dashboard.js:132-135 | zoom becomes `Zoom.Out` of the old level |
| DashboardScript.Dashboard.ClickClear | dashboard.js:189-203 | when confirmed: input and code are emptied, the canvas is reset and the status is re-checked, and zoom is kept; when not confirmed: nothing changes |
| DashboardScript.Dashboard.ClickDownload | dashboard.js:146-151 | a PNG download iff a diagram is drawn, else the alert |
| DashboardScript.Dashboard.ClickExport | dashboard.js:206-241 | without code: alert and no menu; otherwise exactly one menu is open |
| DashboardScript.Dashboard.ChooseExport | dashboard.js:243-290 | PNG behaves like the download button; SVG downloads only a drawn diagram; Mermaid copies the code, or prompts with it if the clipboard fails; the menu closes |
| DashboardScript.Dashboard.ClickOutsideMenu | dashboard.js:260-267 | a click outside closes the menu |
| DashboardScript.Dashboard.ClickSidebarItem | dashboard.js:293-305 | the select takes the item's type; exactly the clicked item is active; the placeholder is updated |
| DashboardScript.Dashboard.ClickAvatar | dashboard.js:325-328 | the user menu toggles |
| DashboardScript.Dashboard.ClickDocument | dashboard.js:330-332 | the user menu closes |
| DashboardScript.Dashboard.ClickLogout | dashboard.js:336-340 | only the login flag is removed, and the page goes to index.html |
| DashboardScript.PlaceholderExamplesUsed | dashboard.js:307-317 | known types use their examples; unknown ones get the fallback text |
| DashboardScript.RenderFailureKeepsCode | dashboard.js:73-77 | after a render failure the code stays stored and the canvas shows the render error; the export menu still opens and copies the code, while the download button alerts |
| DashboardScript.LogoutThenGuardRedirects | dashboard.js:16-19 | after the script's logout its own guard refuses |
| Session.Storage.constructor | frontend/app/dashboard/page.tsx:14 | a storage area holding the given items |
| Session.Storage.GetItem | frontend/app/dashboard/page.tsx:14 | the stored value, or nothing when the key is absent |
| Session.Storage.SetItem | frontend/app/login/page.tsx:26-27 | the key now maps to the value and other keys are untouched |
| Session.Storage.RemoveItem | frontend/components/Header.tsx:13-14 | the key is gone and other keys are untouched |
| Session.SignedIn | frontend/app/login/page.tsx:26-27 | adds exactly the two keys, with "true" and the e-mail, and keeps every other key |
| Session.SignedOut | frontend/components/Header.tsx:13-14 | removes exactly the two keys and keeps every other key |
| Session.SignInAdmits | frontend/app/dashboard/page.tsx:14-19 | the guard admits right after a login or signup |
| Session.SignOutRefuses | frontend/app/dashboard/page.tsx:14-17 | the guard refuses after logout |
| Session.SignOutUndoesSignIn | frontend/components/Header.tsx:13-14 | logging out after logging in leaves storage as logging out alone would |
| Session.AnyNonEmptyFlagAdmits | frontend/app/dashboard/page.tsx:15 | any non-empty flag admits, not only "true"; an empty one does not |
| Session.Admits | frontend/app/dashboard/page.tsx:14-15 | a storage area without the login flag is refused |
| Login.LoginPage.constructor | frontend/app/login/page.tsx:10-14 | empty fields, no error, not loading |
| Login.LoginPage.HandleSubmit | frontend/app/login/page.tsx:16-33 | exact demo credentials: the session is written, the page goes to /dashboard and stays loading; otherwise the fixed message is shown, loading stops and storage is untouched |
| Login.CredentialsAreExact | frontend/app/login/page.tsx:25 | no trimming and no case folding: a leading space, a capital letter or a trailing space is refused |
| Login.CredentialsMatch | frontend/app/login/page.tsx:25 | an empty e-mail or password never matches |
| Signup.PasswordStrength | frontend/app/signup/page.tsx:22-27 | level 0/1/2/3 by the `.length` bands 0, below 6, below 10 and the rest, counted in UTF-16 units, with the matching label |
| Signup.StrengthMonotone | frontend/app/signup/page.tsx:22-27 | a password longer in UTF-16 units is never weaker |
| Signup.ValidateSignup | frontend/app/signup/page.tsx:36-52 | terms first, then match, then length; accepted iff terms are accepted and the passwords are equal and at least 6 UTF-16 units long |
| Signup.AcceptedPasswordIsMedium | frontend/app/signup/page.tsx:24-48 | every accepted password is at least Medium |
| Signup.EmojiCountTwice | frontend/app/signup/page.tsx:48 | three emoji are six units: accepted, and rated Medium |
| Signup.SignupPage.constructor | frontend/app/signup/page.tsx:10-20 | empty form, terms unaccepted, no error, not loading |
| Signup.SignupPage.HandleSubmit | frontend/app/signup/page.tsx:31-61 | a rejection shows the first failing message, stops loading and writes nothing; an accepted form writes the session and goes to /dashboard |
| DashboardPage.ViewFor | frontend/app/dashboard/page.tsx:22-43 | the dashboard is rendered iff not loading |
| DashboardPage.DashboardPage.constructor | frontend/app/dashboard/page.tsx:11 | the page starts loading |
| DashboardPage.DashboardPage.CheckSession | frontend/app/dashboard/page.tsx:13-20 | an admitted session ends loading; otherwise the page goes to /login and keeps loading |
| Header.Header.constructor | frontend/components/Header.tsx:10 | the menu starts closed |
| Header.Header.ClickAvatar | frontend/components/Header.tsx:41 | each click toggles the menu |
| Header.Header.Logout | frontend/components/Header.tsx:12-16 | exactly the two session keys are removed, and the page goes to / |
| Sidebar.Ids | frontend/components/Sidebar.tsx:12-19 | the six ids, in table order |
| Sidebar.AtMostOneHighlighted | frontend/components/Sidebar.tsx:46 | the ids are distinct, so at most one button is highlighted |
| Sidebar.Highlighted | frontend/components/Sidebar.tsx:46 | only a table id can be highlighted |
| Sidebar.Sidebar.constructor | frontend/components/Sidebar.tsx:27 | the active type is `selectedType` when non-empty, else `flowchart` |
| Sidebar.Sidebar.HandleTypeClick | frontend/components/Sidebar.tsx:29-32 | the clicked id becomes active and is passed to `onTypeChange` when there is one |
| Sidebar.Sidebar.ClickButton | frontend/components/Sidebar.tsx:41-54 | after a click, the active type is a table id and exactly the clicked button is highlighted |
| Flow.SidebarMatchesSelect | frontend/components/Sidebar.tsx:12-19 | the sidebar ids equal the generator's select options, in order |
| Flow.PlaceholderKeysMatchSidebar | dashboard.js:308-315 | the placeholder table is keyed by the same six ids |
| Flow.OfferedTypesAccepted | backend/main.py:31-40 | every offered type is accepted by the backend, which also accepts exactly `gantt` and `pie` |
| Flow.ServedOutcome | backend/main.py:86-133 | an offered type answered by the model reaches the client as headed, fence-free code; an unknown type reaches it as the 400 detail |
| Flow.OfferedTypeAnswered | backend/main.py:124-133 | an offered type answered by the model gives non-empty code under a non-empty header |
| Flow.GenerateThroughBackend | frontend/components/DiagramGenerator.tsx:63-84 | a non-blank description of an offered type ends with the diagram panel showing headed, fence-free code, drawn unless it equals code that was not drawn before |
| Flow.ClickGenerateThroughBackend | dashboard.js:25-83 | a non-blank description of an offered type ends with headed code drawn on the canvas |
| Flow.LoginVisitLogout | frontend/app/login/page.tsx:25-28 | a demo login admits the dashboard; after the header's logout the dashboard redirects to /login |
| Flow.SignupVisit | frontend/app/signup/page.tsx:57-60 | a valid signup (at least 6 UTF-16 units) admits the dashboard with the entered e-mail stored |

## Behaviour worth noting

- **One reused preview `<div>`.** In DiagramGenerator.tsx, all four preview panels (lines 224-244) are the same unkeyed `<div>`, which React reuses. The svg that line 50 writes with `innerHTML` is not a React child, so it stays in the `<div>` under the spinner, the error and the empty prompt (`Generator.HiddenPanelKeepsDrawing`). Clear empties the code, but the last drawing stays in the `<div>` (`Generator.DiagramGenerator.Clear`).
- **The effect runs only on `[mermaidCode, zoom]`.** The effect at lines 30-34 does not run again when the same code comes back:
  - A drawn diagram regenerated to the same code stays drawn (`Generator.SameCodeRegeneratedStaysDrawn`).
  - Code whose render failed, regenerated to the same code, leaves the diagram panel blank without an error: the failed render emptied the `<div>` and the effect does not run again (`Generator.FailedCodeRegeneratedIsNotDrawn`).
  - A zoom click while the diagram is hidden is not applied to it (`Generator.ZoomWhileHiddenNotApplied`).
- **Clear and zoom.** The clear button does not reset zoom in either client (DiagramGenerator.tsx:215, dashboard.js:189-203).
- **dashboard.js export guard.** It tests the stored code, not whether a diagram is drawn (dashboard.js:207). After a render failure the code is still stored, so the menu still opens (`DashboardScript.RenderFailureKeepsCode`).
- **Clipboard fallback.** Only dashboard.js prompts with the code when the clipboard fails. The React component copies without a fallback.
- **Storage.** dashboard.js reads and clears `sessionStorage` (dashboard.js:16, 338). The Next.js pages use `localStorage`. They are separate areas, so the two front ends do not share a session.
- **dashboard.js logout.** It removes only `isLoggedIn` (dashboard.js:338). The header's logout also removes `userEmail`.
- **Sidebar wiring.** The Next.js dashboard renders `<Sidebar />` without props (dashboard/page.tsx:37). A sidebar click there does not change the generator's type. `Sidebar.Sidebar.hasCallback` models both cases.
- **Password length.** signup/page.tsx counts `.length` in UTF-16 code units. Three emoji are six units, so they pass the six-character rule (`Signup.EmojiCountTwice`).

## Left out

- The Gemini call and its configuration (backend/main.py:24-28, 96-121). The reply is an input, so prompt wording, temperature and token limits are not modelled.
- FastAPI plumbing, CORS, dotenv and uvicorn start-up (backend/main.py:1-21, 148-150), and the static `/` and `/health` bodies (backend/main.py:52-62, 143-146). Clients see `/health` only as an `Api.HealthOutcome`.
- Request bodies that fail pydantic validation, such as a missing `text` or a non-string `type`. FastAPI answers those with a 422 whose `detail` is a list; the model's `detail` is always a string.
- Non-JSON error bodies in dashboard.js. There `response.json()` would throw; they are covered only as a `NetErr` with that error's message.
- `backend/test_api.py` is a network script that only prints. `frontend/app/page.tsx` is static markup. Neither is part of this model.
- What Mermaid itself does beyond two effects: a successful render yields an svg, recorded as the code and zoom it was drawn for, and any render first removes the earlier `#mermaid-diagram` element, so a failed one leaves the `<div>` empty. Parsing, layout and the svg's content are not modelled.
- The API status line is modelled as a field that is always present. On the page the `#apiStatus` span (dashboard.js:198) is part of the canvas's empty-state markup, so it is visible only while the canvas is `EmptyState`; loading, a rendered diagram and an error replace it, and a probe that settles afterwards writes into a detached span.
- The time `renderDiagram` spends awaiting Mermaid (DiagramGenerator.tsx:49). The render effect finishes within the commit that starts it.
- Mermaid rendering, and PNG/SVG serialisation: XMLSerializer, canvas, `parseFloat` of the viewBox, `btoa`, Blob URLs (DiagramGenerator.tsx:45-61, 86-119; dashboard.js:86-102, 146-186, 270-282). Rendering is a boolean oracle; a download is an effect value.
- Alerts, `confirm`, `prompt`, the clipboard and navigation. These are inputs (`confirmed`, `clipboardOk`) or recorded effects (`navigatedTo`, `location`, `ExportEffect`).
- Async interleavings: two overlapping requests, a render finishing after a later click, the 800 ms and 1000 ms demo delays (login/page.tsx:22, signup/page.tsx:55), the 100 ms delay before the outside-click listener (dashboard.js:260), and the 500 ms start-up fill-in of the example text (dashboard.js:350-354). Each handler is one atomic step.
- The browser's own form checks (`required`, `type="email"`) before `onSubmit` runs. The handlers are modelled for any field values.
- DashboardScript.ExampleFor: looks the type up only among the six table keys. In JavaScript, `placeholders[type]` would also find inherited object keys such as "constructor".
- Text.TrimStart and Text.TrimEnd: count lengths and positions in characters. JavaScript counts UTF-16 code units, which differs only outside the Basic Multilingual Plane and not for the whitespace sets used here.
- Styling, icons, the strength meter's colour and width, the static project cards, and the password-visibility toggles.
