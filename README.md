# TikTok upload automator: a verified model of its decision logic

The system is a browser extension that drives a third-party video upload page. It has four parts:

- **Page agent** (`content.js`), which runs inside the upload page. It:
  - classifies the page;
  - decides whether the user is signed in;
  - chooses a caption editor and plans the keystrokes and events that fill it;
  - walks the product-attachment wizard;
  - switches on the AI-generated-content label;
  - presses the post button;
  - keeps the task marker that lets it report a finished post to the web app's webhook.
- **Panel** (`popup.js`). It:
  - lists the ready videos of the signed-in user through status, account and type filters;
  - derives the product table from the videos;
  - classifies status badges and picks thumbnails;
  - keeps a credits sync that stops after three failures in a row.
- **Coordinator** (`background.js`). It:
  - dispatches messages;
  - validates post requests;
  - sets cookies with defaults and counts the results;
  - maps fetch failures to status codes;
  - selects stale temporary storage entries;
  - keeps at most one persistent window.
- **Identity bridge** (`webapp-content.js`), which answers the signed-in user's id from the first of three sources that has one.

The page, the browser storage and the browser APIs are inputs to the model:

- The page is a tree of elements. Each element has a tag, attributes, a visibility flag, its `textContent` and its rendered `innerText`, and is matched by CSS-like selectors. The two texts are independent inputs.
- `localStorage` and extension storage are maps.
- What the page agent does to the page is a trace of requested actions: clicks, focus, key and input events, and value assignments.
- A page that changes while a procedure runs is given as one snapshot per step or per poll tick.
- The browser's answers are explicit parameters: a window lookup, a cookie that failed, a fetch that threw.

State that the source updates in place is modelled as classes whose methods are proved against specification functions:

- the page agent's `window.currentTaskId`, `localStorage` and sent webhooks;
- the panel's module variables;
- the credits sync counter;
- the coordinator's tracked window id.

Loops are methods with invariants: the caption clearing and typing loops, the text-node walk, the wizard's circle clicks, the success poller, the product map fill, the cookie loop and the cleanup loop.

Modules, one file each:

- `Js` and `Text`, in `text.dfy`: JavaScript truthiness, `||` defaults, and the string operations the code uses (`includes`, `startsWith`, `trim` over the ECMAScript white-space and line-terminator characters, `toLowerCase`, `split(" ")[0]`, `classList` words split on ASCII white space, number to string, template-literal rendering of `undefined`, `null` and strings).
- `Dom`, in `dom.dfy`: elements, selectors, `querySelector`, `querySelectorAll` and `closest`.
- Page agent:
  - `PageUrl`, in `page_url.dfy`;
  - `LoginCheck`, in `login.dfy`;
  - `Caption`, in `caption.dfy`;
  - `ProductWizard`, in `wizard.dfy`;
  - `AiToggle`, in `ai_toggle.dfy`;
  - `PostSubmit`, in `post_button.dfy`;
  - `PageAgentTasks`, in `agent.dfy`.
- Panel: `Panel` in `panel.dfy`, `PanelProducts` in `products.dfy`, `CreditsSync` in `credits.dfy`.
- Coordinator: `Coordinator`, in `coordinator.dfy`.
- Identity bridge: `IdentityBridge`, in `bridge.dfy`.

## Model

| member | source | states |
|---|---|---|
| Js.Opt | popup.js:687-688 | `undefined` and `null` alike are falsy and read as absent; a string is present as itself |
| Js.Render | popup.js:375 | a template literal renders a missing property as "undefined", `null` as "null" and a string as itself |
| Text.TrimEmpty | popup.js:382 | `trim()` gives the empty string iff every character is ECMAScript white space or a line terminator |
| Text.Words | content.js:1374 | every word of the class list is non-empty and holds no tab, line feed, form feed, carriage return or space |
| Text.WordsComplete | content.js:1374 | every maximal run of non-space characters of the class attribute is in the class list |
| Text.NatToString | background.js:214 | a count is rendered as a non-empty string of decimal digits with no leading zero |
| Text.NatToStringValue | background.js:214 | the rendered digits denote the count itself |
| PageUrl.PathnameOfHref | content.js:111-120 | the pathname the classifier reads back from a well-formed location's href is that location's own pathname |
| PageUrl.Classify | content.js:111-120 | a page is an upload page iff its pathname is one of the four upload paths, and a studio upload page iff it is one of the two studio paths |
| PageUrl.UploadPageExact | content.js:343-352 | a location is an upload page iff its pathname is exactly `/upload`, `/upload/`, `/tiktokstudio/upload` or `/tiktokstudio/upload/`; the studio kind iff it is one of the two studio paths |
| PageUrl.ClassifyIgnoresQuery | content.js:111-120 | changing the query string or the fragment never changes the page classification |
| PageUrl.StudioUploadWithQuery | content.js:111-120 | the studio upload page with a query string is still classified as the studio upload page |
| PageUrl.StudioTestSeesQuery | content.js:275-277 | the login check's "tiktokstudio" test reads the whole href: a regular upload page whose query mentions tiktokstudio is treated as a studio page although the classifier calls it a regular upload page |
| PageUrl.GetPageInfo | content.js:342-364 | the page info reports the href and title, upload page iff the pathname is one of the four upload paths, and video or caption input present iff some element matches the file input or caption selectors |
| LoginCheck.SearchText | content.js:196-215 | the selector-by-selector text search finds something iff some element matched by one of the selectors has lower-cased text containing one of the phrases |
| LoginCheck.StatusOf | content.js:181-340 | a page that reports signed in never shows a login button; it is a studio page iff its href contains "tiktokstudio"; the url reported is the href |
| LoginCheck.VerdictFromSignals | content.js:286-327 | the login-button flag is the login text search and the logged-in-UI flag is the storage and page-source hint; off studio the verdict is signed in iff there is no login button and one of upload button, avatar, menu, profile, dropdown or logged-in UI is reported; on studio iff there is no login button and a studio signal (user info, enabled file input, post button text), an avatar, a menu or a profile is present, so neither `hasStudioElements` nor the hint counts there |
| LoginCheck.CheckLoginStatus | content.js:181-340 | the check with its search loops returns exactly the status the combining formula gives for that page and storage |
| LoginCheck.LoginTextBlocks | content.js:186-215 | any element one of the login selectors matches whose text says "log in", "sign in" or "login" makes the page report a login button and not signed in |
| LoginCheck.ButtonIsLoginControl | content.js:186-194 | every `button` element is matched by the login selectors, whatever its attributes |
| LoginCheck.StudioFileInputSuffices | content.js:275-313 | on a studio page without login text an enabled file input alone makes the verdict signed in |
| LoginCheck.StorageHintSuffices | content.js:266-330 | on a regular page without login text a non-empty `tt-target-id` or a non-empty `sid_tt` in local storage makes the verdict signed in and sets the logged-in hint |
| LoginCheck.StudioVerdictIgnoresHints | content.js:275-313 | on a studio page the verdict does not depend on the page source or on local storage |
| LoginCheck.HintCountsOnlyOffStudio | content.js:266-330 | when the storage hint is the only sign of a session, the verdict is signed in iff the page is not a studio page |
| LoginCheck.QueryPresent | content.js:216-265 | the presence tests are `querySelector` returning an element |
| PageAgentTasks.RoutesAreExact | content.js:49-103 | every action name reaches its own handler, the post button under both of its names, and nothing else reaches a handler |
| PageAgentTasks.UploadChecksInOrder | content.js:108-150 | the wrong-page refusal comes first and the not-signed-in refusal second; either one returns failure before the page wait and the upload start |
| PageAgentTasks.HandleVideoUpload | content.js:104-178 | the upload starts only on an upload page with the user signed in; the reply is success only when the upload started and the video injection succeeded, and an injection failure is passed on as the reply |
| PageAgentTasks.AfterLoad | content.js:7-15 | a freshly loaded page has no in-memory task id, whatever the marker |
| PageAgentTasks.LoadConsumesMarker | content.js:7-15 | the marker is consumed exactly when the page is the post-listing page and a marker is present, and the webhook carries the marker's task id and the href |
| PageAgentTasks.ReceiveRecordsTask | content.js:54-60 | `UPLOAD_VIDEO` with a task id writes it both as the in-memory id and as the marker; every other message leaves the state alone |
| PageAgentTasks.DetectionMethod | content.js:1465-1474 | the detection method is "redirect" on the post-listing page, else "modal" for the success modal, else "text" |
| PageAgentTasks.MaxTicksIsTimeout | content.js:1437-1491 | with a 2-second period the first tick past 60 seconds is tick 31 |
| PageAgentTasks.StopFrom | content.js:1437-1491 | the tick the poller stops at lies between the start tick and the timeout tick, no earlier tick is positive, and it is positive unless it is the timeout tick |
| PageAgentTasks.TimeoutSendsNothing | content.js:1486-1491 | a poller that sees no success signal in 31 ticks stops at the timeout and sends nothing and keeps the marker |
| PageAgentTasks.PollSendsAtMostOnce | content.js:1465-1489 | the poller stops at the first positive tick; it sends at most one webhook, and only when a task id is known, with the method of that tick; it then removes the marker |
| PageAgentTasks.InMemoryIdFirst | content.js:1475-1477 | when both the in-memory id and the marker exist, the webhook carries the in-memory id |
| PageAgentTasks.RepeatPollResends | content.js:1475-1477 | the in-memory id is never cleared, so a second poll that sees success again sends a second webhook for the same task |
| PageAgentTasks.PageAgent.Load | content.js:7-15 | the agent's state after the script loads is `AfterLoad` of the href and the initial storage |
| PageAgentTasks.PageAgent.Receive | content.js:49-60 | the message goes to `RouteOf(action)` and the state becomes `AfterReceive` of the old state |
| PageAgentTasks.PageAgent.Poll | content.js:1432-1491 | the interval loop stops at `StopTick` and leaves the state `AfterPoll` of the old state |
| Caption.FirstMatching | content.js:470-477 | the chosen selector index is the first from the start that matches some node, or the list's length when none does |
| Caption.FindEditor | content.js:460-480 | a found editor is a node of the page matched by an editor selector; no editor is found only when no node matches any of them |
| Caption.EditorPriority | content.js:470-480 | a node matched by the k-th editor selector guarantees an editor from a selector of rank at most k |
| Caption.DraftEditorPreferred | content.js:460-498 | an element matched by the top-priority Draft.js selector wins, and the Draft.js branch is taken for it |
| Caption.ClearPasses | content.js:519-552 | the clearing loop performs three select-all-and-delete passes, one after the other |
| Caption.TypeChars | content.js:645-678 | the typing loop emits key down, key press and input for each character in order |
| Caption.TypedShape | content.js:645-678 | typing a text gives three events per character, the k-th triple for the k-th character |
| Caption.BlankSpans | content.js:554-564 | every data-text span of the editor is emptied, in document order |
| Caption.ClearTextNodes | content.js:566-576 | the tree walk leaves every text node of the editor empty |
| Caption.DraftPlan | content.js:506-779 | the Draft.js plan built with its loops is the plan of focus, clearing passes, span clearing, paste, partial typing and closing events |
| Caption.DraftRun | content.js:506-779 | a Draft.js run reports the Draft.js success exactly when its plan does not throw; any other success is the fallback's, and a failure carries the "Failed to set caption: " prefix |
| Caption.GenericRun | content.js:866-964 | the generic handler reports its success exactly when it does not throw, a failure carries the "Failed to set caption: " prefix, and it never touches text nodes |
| Caption.CaptionOf | content.js:454-503 | no matching editor iff the run fails with "Could not find caption input field" and no action; otherwise a success comes from the Draft.js branch (or its fallback) iff the editor's class contains the Draft.js content class, and any failure carries the "Failed to set caption: " prefix |
| Caption.SetCaption | content.js:454-503 | the caption with its loops gives the reply and trace of `CaptionOf`; a run that reached the walk leaves the editor's text nodes empty, any other run leaves them untouched |
| Caption.DraftTypesFirstTen | content.js:642-678 | the Draft.js plan presses exactly the first `min(10, length)` characters of the trimmed caption, in order |
| Caption.FallbackTypesAll | content.js:811-847 | the fallback presses every character of the text, in order |
| Caption.DraftClearsThrice | content.js:519-552 | the Draft.js plan performs the select-all-and-delete exactly three times |
| Caption.DraftDeliversTrimmed | content.js:600-640 | without a fault a Draft.js editor is handed the caption trimmed of all ECMAScript white space and line terminators at both ends, by paste or by `insertText`, and the reply is the Draft.js success |
| Caption.DraftFaultFallsBack | content.js:770-777 | a throw in the Draft.js plan runs the fallback after the actions already performed, and the reply is the fallback's |
| Caption.GenericReportsSuccessUnset | content.js:917-957 | a generic editor that is neither a field nor editable, and whose `insertText` is refused, still reports success and receives no text |
| Caption.GenericFieldAssigned | content.js:917-935 | a text field whose `insertText` is refused gets the caption assigned to its value |
| ProductWizard.ShowcaseClicks | content.js:1002-1036 | the showcase step only clicks |
| ProductWizard.FillActions | content.js:1050-1062 | the id is assigned to the input's value directly iff `insertText` did not leave the input holding the id |
| ProductWizard.SearchTrigger | content.js:1065-1085 | starting the search only clicks or presses Enter on the input |
| ProductWizard.CircleClicks | content.js:1115-1124 | the circle step only clicks |
| ProductWizard.ClickCircles | content.js:1115-1124 | the circle loop's clicks are `CircleClicks` of the circles |
| ProductWizard.RowClicks | content.js:1104-1133 | selecting the row only clicks |
| ProductWizard.AddProduct | content.js:966-1231 | the step-by-step method returns exactly the run of the step function `Wizard` |
| ProductWizard.Wizard | content.js:966-1231 | the wizard does nothing iff the `+ Add` link is missing, and succeeds only when the Next button, the search input and the product row were all found |
| ProductWizard.FromSearch | content.js:1038-1135 | the search steps only append to the actions done before them, and succeed only when the search input and the product row were found |
| ProductWizard.FromFooter | content.js:1136-1231 | the footer steps only append to the actions done before them; they report "Product added successfully" exactly when they add six actions, and then those are the focus and click on the footer Next followed by the final button's click sequence |
| ProductWizard.ShowcaseStep | content.js:1002-1036 | the optional step clicks exactly `ShowcaseClicks` of the tab found |
| ProductWizard.SearchSteps | content.js:1038-1135 | steps 4 and 5 with their early returns equal `FromSearch` |
| ProductWizard.SelectRow | content.js:1100-1133 | the row selection emits `RowClicks` of the row |
| ProductWizard.FooterSteps | content.js:1136-1231 | steps 6 and 7 with their early returns equal `FromFooter` |
| ProductWizard.EnterSearch | content.js:982-1000 | past the `+ Add` link and the modal's Next button the wizard goes on to the search |
| ProductWizard.CommitOnlyOnSuccess | content.js:1173-1226 | the mouse is pressed only by the final click sequence, and only a run that reports success pressed it |
| ProductWizard.FinalButtonRule | content.js:1173-1204 | the final button is a visible footer button whose trimmed `textContent` or `innerText` is exactly "Add" whenever the confirmation screen has one, and the footer's primary button only when it has none; a preferred button whose trimmed `textContent` is "Add" passes the `textContent` check before the click, one chosen for its `innerText` whose `textContent` lacks "Add" ends the run with the final-button message after the footer Next, and a committed button, preferred or not, contains "Add" |
| ProductWizard.PreferredFound | content.js:1181-1190 | the search for a visible footer button reading "Add" by `textContent` or `innerText` finds one exactly when the screen has one, and what it finds is such a button |
| ProductWizard.ShowcaseOnlyWarns | content.js:1002-1036 | whether a showcase tab exists changes only the clicks of step 3, never whether or how the wizard ends |
| ProductWizard.SearchIgnoresShowcase | content.js:1038-1231 | the steps after the showcase tab do not read the showcase tab's page |
| ProductWizard.TypedOnlyWithInput | content.js:1038-1060 | the product id is typed only after the link button, the Next button and the search input were all found |
| ProductWizard.SearchTypesOnlyWithInput | content.js:1038-1060 | when the earlier steps only clicked, the id is typed from the search step on exactly when the search input is found |
| ProductWizard.EarlyStopClicksOnly | content.js:982-1000 | a wizard stopped at step 1 has done nothing, and one stopped at step 2 has clicked only the link button |
| ProductWizard.WizardStopsEarly | content.js:966-1000 | no `+ Add` link ends the run with its message and no action; no Next button ends it after the link click alone; with both the run is the search steps after the link clicks and the optional showcase clicks |
| ProductWizard.WizardStopsAtFirstMissing | content.js:982-1204 | the wizard succeeds iff every step finds its target; for each missing target (link button, Next, search input, the input's parent, product row, footer Next, final "Add" button) the whole run is that step's own message with exactly the actions of the earlier steps |
| ProductWizard.SearchStops | content.js:1038-1204 | the steps from the search on succeed iff all their targets are found; a missing input, a parentless input and a missing row each end them with their own message and exactly the actions up to that point; with all three found they continue into the footer steps after the row clicks |
| ProductWizard.FooterStops | content.js:1136-1204 | the footer steps succeed iff the footer Next and a final button mentioning "Add" are found; a missing footer Next ends them with no new action, a missing final button after the footer Next clicks |
| ProductWizard.MissingRow | content.js:1087-1103 | a missing product row ends the wizard in failure with the id in the message; the actions are exactly those up to the search trigger, the id was typed, and no footer action happens |
| ProductWizard.CircleParentsNeverClicked | content.js:1115-1124 | circles matched by `svg circle` lie in svg, so none of their parents is ever clicked |
| ProductWizard.ButtonTabClickedTwice | content.js:1002-1036 | a tab found among the buttons is its own closest button and is clicked twice |
| ProductWizard.FooterCommit | content.js:1136-1231 | the footer steps press the mouse only in the final click sequence of a successful run |
| ProductWizard.SearchCommit | content.js:1038-1231 | from the search step on, the mouse is pressed only in the final click sequence of a successful run |
| ProductWizard.FooterOutcome | content.js:1136-1231 | the footer steps' reply does not depend on the actions done before them |
| ProductWizard.SearchOutcome | content.js:1038-1231 | the reply of the steps from the search on does not depend on the actions done before them |
| AiToggle.FromContainer | content.js:1278-1313 | the run fails with "Could not find AI menu even after expansion" iff there is no container, and it only appends to the actions already done |
| AiToggle.Toggle | content.js:1233-1320 | a failed run has clicked at most "Show more", and no run takes more than that click and the four switch actions |
| AiToggle.ClickedOnlyWhenOff | content.js:1286-1313 | the run reports "enabled" iff the switch was found and was off, and then ends with the focus, click and mouse events on it; it reports "already enabled" iff the switch was on; a run that does not enable it only clicks |
| AiToggle.VisibleNeedsNoExpansion | content.js:1238-1246 | a visible, unhidden container needs no "Show more" click |
| AiToggle.HiddenNeedsExpansion | content.js:1246-1276 | a hidden container makes the run click "Show more" first, and without that control the run fails with no action |
| AiToggle.ExpansionRereads | content.js:1276-1285 | after expansion the container is looked up again on the new page, so the page before the click does not decide the result |
| PostSubmit.PostButton | content.js:1355-1367 | the chosen button is a rendered post-button candidate, and none is chosen only when every candidate is hidden |
| PostSubmit.Press | content.js:1385-1396 | the press is five or six actions, starting with a scroll to the button |
| PostSubmit.RefusedBeforeAnyAction | content.js:1360-1384 | a run fails iff it performed no action, a failure never starts the poller, and every success pressed an unlocked visible post button, starting with the scroll to it |
| PostSubmit.RefusalReasons | content.js:1360-1384 | the no-button failure happens iff no post button is rendered, and the disabled-button failure iff the button found is locked |
| PostSubmit.ClickPost | content.js:1352-1431 | a run fails iff it performed no action, and the success poller starts only after a plain "Posted" success |
| PostSubmit.ConfirmSkipsPoller | content.js:1398-1425 | the success poller starts iff an unlocked post button was pressed and no "Continue to post?" dialog offered "Post now"; confirming the dialog never starts it |
| Panel.Keep | popup.js:296-343 | a filter keeps exactly the elements satisfying the test, as a subsequence in order |
| Panel.Listed | popup.js:286-345 | every listed video is one of the videos and is "Ready to Post"; with both filters at "all" every ready video is listed |
| Panel.SubseqTrans | popup.js:296-343 | filters applied one after the other still give a subsequence of the videos |
| Panel.ListedIsFiltered | popup.js:293-345 | the listed videos keep the order of the videos, and a video is listed iff it is "Ready to Post", its account matches (or the filter is "all"), and its type passes the type filter |
| Panel.ViralFilterIsContains | popup.js:315-329 | the "video viral" filter keeps exactly the types whose lower case contains "viral" |
| Panel.ShowcaseFilterIsContains | popup.js:332-339 | the "Showcase" filter keeps exactly the types whose lower case contains "showcase" |
| Panel.MissingTypeIsShowcase | popup.js:310-312 | a video without a type is listed under the "Showcase" filter |
| Panel.StatusClass | popup.js:629-639 | the badge class is one of completed, posted, ready, other |
| Panel.StatusClassIgnoresCase | popup.js:629-639 | the badge ignores letter case; a completed or ready keyword gives "completed" whatever else the status says, "posted" is given exactly when "posted" appears without those, and "ready" exactly when "scheduled" appears without any of the three |
| Panel.ListedBadgeIsCompleted | popup.js:629-639 | every listed video carries the "completed" badge |
| Panel.StatusText | popup.js:640-648 | a falsy status reads "Unknown"; a status of at most 15 characters is shown whole; a longer one is a space-free prefix of it that stops just before a space or at the end |
| Panel.StatusTextShortens | popup.js:640-648 | a long status whose first space is at position i is shown as its first i characters |
| Panel.StatusTextNoSpace | popup.js:640-648 | a long status without a space is shown whole |
| Panel.ThumbnailIsAbsolute | popup.js:650-668 | every thumbnail URL contains "http" |
| Panel.ThumbnailPriority | popup.js:650-668 | the first usable field of image, showcase and selected image wins, whatever the later ones hold; with none the placeholder is used |
| Panel.Thumbnail | popup.js:650-668 | a usable image URL ends the thumbnail URL; with no usable field the placeholder is used |
| Panel.Absolute | popup.js:655-664 | a URL containing "http" is kept, any other gets the API base in front, and either way it ends with the original text |
| Panel.CardOf | popup.js:364-382 | the card plays the complete video when it is truthy, is playable only with a truthy URL, and offers a product id only for an eligible id |
| Panel.ProductButtonNeedsProduct | popup.js:377-382 | a card offers its product id iff the id is truthy, not "manual" or "none", and holds a character that is not white space; an id of white space only is listed as a product but gets no button |
| Panel.CaptionDefault | popup.js:375 | a truthy tone is the caption; without one the caption is "title - price", where a missing part reads "undefined" and a null part "null" |
| Panel.DisplayNickname | popup.js:557-562 | a displayed nickname is at most 18 characters |
| Panel.NicknameTruncation | popup.js:557-562 | names longer than 15 characters that share their first 15 display the same, as those 15 characters followed by "..." |
| Panel.ShortNicknameKept | popup.js:557-562 | a nickname of at most 15 characters is shown unchanged |
| Panel.OptionOf | popup.js:550-566 | an account with a TikTok id is selected by that id, one with no id of any kind by its own id, and every option text ends with the closing parenthesis |
| Panel.AccountOptionSelects | popup.js:550-566 | choosing the option of an account with a TikTok id lists exactly that account's ready videos |
| Panel.UploadTabIgnoresCase | popup.js:869-881 | the upload-tab test gives the same answer for a URL and its lower-case form |
| Panel.UploadTabExamples | popup.js:869-881 | a tab without a URL never counts, and the regular upload URL does |
| Panel.UploadTabLongEnough | popup.js:869-881 | a tab counts only with a truthy URL of at least 17 characters, the length of "tiktok.com/upload" |
| PanelProducts.ProductsOf | popup.js:675-700 | one product per listed id, in the given order, each built from the videos carrying it |
| PanelProducts.Products | popup.js:675-700 | the products are one per listed id, in the order the ids first appear |
| PanelProducts.IdsDistinct | popup.js:684-696 | no product id is listed twice |
| PanelProducts.IdsExact | popup.js:677-696 | an id is listed iff some video carries it and it is not falsy, "manual" or "none"; then its count is the number of videos carrying it |
| PanelProducts.ProductDefaults | popup.js:686-688 | a product keeps its first video's title and price when they are non-empty strings, and a missing, `null` or empty one falls back to "Product <id>" or "N/A" |
| PanelProducts.FirstIsFirst | popup.js:684-692 | title and price come from the first video that carries the id |
| PanelProducts.IdsKeepOrder | popup.js:684-696 | ids keep the order in which they first appear: more videos only append ids |
| PanelProducts.ExtractProducts | popup.js:675-700 | the map fill and read-out return exactly `Products(videos)` |
| PanelProducts.FillProducts | popup.js:677-696 | the fill loop's id list is the listed ids in first-seen order, and its map holds exactly those ids, each with the product `ProductFor` gives |
| PanelProducts.MapStep | popup.js:684-696 | one more video keeps the map equal to the products of the videos seen so far |
| PanelProducts.CountsCoverEligible | popup.js:675-700 | the products' counts add up to the number of videos with a listed product id |
| PanelProducts.PanelState.Open | popup.js:13-37 | the panel opens with no videos, no products and the "all" type filter |
| PanelProducts.PanelState.LoadVideos | popup.js:226-246 | without a user nothing changes; a loaded reply replaces the videos, an absent task list gives none; nothing else changes |
| PanelProducts.PanelState.LoadProducts | popup.js:247-262 | without a user nothing changes; else the products become `Products` of the current videos |
| PanelProducts.PanelState.LoadAllData | popup.js:222-224 | the products are extracted from the videos held before the reply arrives |
| PanelProducts.PanelState.LoadAllDataInOrder | popup.js:222-224 | the products are `Products` of the videos just loaded |
| PanelProducts.PanelState.SwitchVideoType | popup.js:119-131 | only the type filter changes |
| PanelProducts.FirstLoadListsNoProducts | popup.js:222-224 | on the first load the as-written order lists no product although the reply carries product "p1" |
| CreditsSync.SuccessResets | popup.js:1393-1418 | a reply with user data resets the counter and the user then holds the reported credits; it is saved iff the user changed |
| CreditsSync.FailuresCount | popup.js:1419-1438 | every failure kind adds one to the counter and keeps the user; only 401 and 403 ask for a new sign-in check |
| CreditsSync.Sync | popup.js:1376-1440 | a request is made iff there is a user and fewer than three failures; the counter never passes three; a save or a new sign-in check only follows a request; the user is never dropped or invented |
| CreditsSync.StopsAtMax | popup.js:1383-1387 | with three failures behind it a sync requests nothing and stops its interval |
| CreditsSync.AttemptsBounded | popup.js:1364-1440 | the counter never passes three |
| CreditsSync.StoppedForGood | popup.js:1383-1387 | once the counter is at three no later call requests anything and the counter and user stay |
| CreditsSync.StaysInactive | popup.js:1385 | a stopped interval is never restarted |
| CreditsSync.ThreeFailuresStop | popup.js:1364-1440 | three failed calls in a row from a fresh start switch the sync off for good |
| CreditsSync.CreditsSyncer.Start | popup.js:1363-1375 | the counter starts at zero and the interval runs |
| CreditsSync.CreditsSyncer.SyncCredits | popup.js:1376-1440 | one call leaves the state, the request, the save and the sign-in check exactly as `Sync` says |
| Coordinator.DispatchExact | background.js:11-83 | each known action reaches its own handler and nothing else does |
| Coordinator.Dispatch | background.js:11-83 | the reply is "Unknown action" iff no handler takes the action, answered later iff the post, cookie or fetch handler takes it, and a ping carries the current time |
| Coordinator.UnknownActionEchoed | background.js:78-82 | an unknown or missing action is refused with "Unknown action" and echoed back; every known one is answered by its handler |
| Coordinator.PostValidation | background.js:91-97 | a request without a video URL, a caption or truthy cookies fails with the missing-data message and opens no tab |
| Coordinator.HandlePostVideo | background.js:86-162 | a tab is opened only for a request with a video URL, a caption and truthy cookies whose tab creation did not fail; without a tab the reply is a failure |
| Coordinator.PostResponseMapping | background.js:120-160 | once the tab is open the page's object answer is passed on unchanged, a non-object answer becomes "Invalid response from content script", and a messaging error becomes a failure with its message |
| Coordinator.OpensRegularUploadPage | background.js:101-103 | the tab opened is one the page agent classifies as the regular upload page |
| Coordinator.CookieDefaults | background.js:180-190 | domain ".tiktok.com" and path "/" by default, secure unless explicitly false, httpOnly false and sameSite "lax" by default; given values are kept |
| Coordinator.Succeeded | background.js:195-215 | the success count is at most the number of results, and equal to it iff every result succeeded |
| Coordinator.HandleSetCookies | background.js:165-223 | a non-array field is refused with no request; otherwise one request per cookie in order and one result per cookie, success iff all succeeded, the message counting successes, and the session flag set iff a name mentions session or login |
| Coordinator.SucceededCounts | background.js:210-215 | the count in the message is the number of true outcomes |
| Coordinator.CredentialsDefault | background.js:233-236 | credentials become "omit" only when absent or empty; every other option is passed on |
| Coordinator.FetchErrorMapping | background.js:277-294 | an abort is 408 with the timeout message, "Failed to fetch" is status 0 with the network message, any other error is status 0 with its own message, all with `ok` false and no data |
| Coordinator.SelectStale | background.js:361-376 | the keys removed are exactly the "temp_" keys with a truthy timestamp older than a week; a "temp_" key holding null aborts the cleanup with nothing removed |
| Coordinator.TabLoginFormula | background.js:314-328 | a login button rules login out; without one, an upload button or an avatar is enough |
| Coordinator.OnTabUpdated | background.js:298-346 | a completed tiktok tab checked as logged in records the check time, and any other event leaves the stored login as it was, in particular a failed injection or a login button; a stored login is never cleared |
| Coordinator.TabReplayKeepsLast | background.js:298-346 | over a series of tab events the stored check time is that of the last event that found the user logged in, and without one the stored login is unchanged |
| Coordinator.OpenCreatesAtMostOne | background.js:462-492 | a live tracked window is only focused; a failed lookup forgets it and the new window's id is tracked |
| Coordinator.Next | background.js:462-515 | a window is created only by an open, and its id is then tracked; a close or a removal either keeps the tracked id or forgets it |
| Coordinator.CloseForgets | background.js:493-515 | a successful close and the removal of the tracked window both forget it; removing another window does not |
| Coordinator.TrackedWasCreated | background.js:462-515 | any tracked id was handed over by a window creation or was already tracked at the start |
| Coordinator.PersistentWindow.constructor | background.js:8 | no window is tracked at start |
| Coordinator.PersistentWindow.OpenWindow | background.js:462-503 | the new tracked id and whether a window was created are as `Next` says for an open |
| Coordinator.PersistentWindow.CloseWindow | background.js:505-515 | the tracked id after closing is as `Next` says |
| Coordinator.PersistentWindow.OnRemoved | background.js:493-498 | the tracked id after a removal event is as `Next` says |
| IdentityBridge.SourcePriority | webapp-content.js:29-73 | a stored user object wins; otherwise the auth helper's user; otherwise the window's user |
| IdentityBridge.GetUserId | webapp-content.js:24-88 | a refusal carries either the not-logged-in message or the throwing helper's message; a stored primitive is answered as a user with no fields |
| IdentityBridge.GetUserIdObjectsOnly | webapp-content.js:24-88 | a refusal carries either the not-logged-in message or the throwing helper's message; a success comes from a stored object, the helper's user or the window's user |
| IdentityBridge.FallThrough | webapp-content.js:32-61 | an unparsable item, a parsed null and an absent item answer alike, and a helper returning no user is the same as no helper |
| IdentityBridge.NoSourceFails | webapp-content.js:47-80 | with no source the answer is "User not logged in or user data not accessible"; a throwing helper fails with its message |
| IdentityBridge.AnswerFromOneUser | webapp-content.js:36-71 | every success carries id, email and name of one user object from a source that had it |
| IdentityBridge.PrimitiveAnsweredAsUser | webapp-content.js:29-46 | a stored primitive is answered as a user with no fields, although the helper has a user |
| IdentityBridge.ObjectsOnlyFindsObjects | webapp-content.js:29-73 | with only objects accepted every success comes from a user object, a non-object item is the same as none, and the two chains agree when the item is not a primitive |
| IdentityBridge.MessageDispatch | webapp-content.js:7-22 | `GET_USER_ID` is answered by the chain, `PING` as alive, anything else with "Unknown action" |
| IdentityBridge.InjectionGuard | webapp-content.js:93-98 | the helper is injected on every URL mentioning "localhost:3000" or "tiktok-automator", and on no other |

## Left out

- Real DOM effects are left out; actions are recorded as a trace. This covers event synthesis, `execCommand`, selections, `innerHTML` re-seeding and `scrollIntoView`. Whether the editor ends up holding the text is outside the model.
- Text-node contents of the editor are an abstract array. The Draft.js block markup written after the walk is not modelled.
- Timing is left out: `setTimeout` delays, the random 20-50 ms typing delay, `waitForElement`, `waitForProcessing` and `waitForPageLoad`. The poller is modelled as ticks every 2 seconds against a 60-second timeout.
- Video injection is not modelled, because it needs network and file I/O: `uploadVideo` fetches the file and builds `Blob`/`File`/`DataTransfer`. It appears only as an outcome parameter of `HandleVideoUpload`.
- The webhook HTTP call is left out; only its payload is modelled, without the timestamp.
- `getPageInfo`'s timestamp is left out.
- Browser API answers are parameters, not modelled calls:
  - tab creation, `tabs.sendMessage` and `lastError`;
  - `windows.get`, `windows.create` and `windows.remove`;
  - `cookies.set`;
  - `storage.local`;
  - `scripting.executeScript`;
  - alarms.
- The installation handler, context menus, the `webRequest` monitor and the action-button handler of `background.js` are not part of this model.
- The `USER_LOGGED_IN` broadcast and the `OPEN/CLOSE_PERSISTENT_WINDOW` replies are routed by `Coordinator.Dispatch`, but their messaging is left out.
- `Caption.SetCaption` takes the caption as a string. A missing caption, which makes `caption.trim()` throw a `TypeError`, is not modelled.
- Characters are Dafny `char`s. JavaScript's UTF-16 code units, surrogate pairs and Unicode lower-casing beyond ASCII are not modelled.
- Values are typed, not loose JavaScript values:
  - task ids, product ids and prices are strings;
  - credits are integers;
  - window ids are integers;
  - timestamps are integers.
- Responses are already parsed: `response.json()`/`text()` and JSON parsing of HTTP bodies are out of scope. A parse failure is the `Unparsable` stored value of the bridge, or a `Thrown` reply of the credits sync.
- Coordinator.HandleSetCookies: a cookie without a `name` makes `hasSessionCookie` throw in the source. The model's names are always strings.
- Coordinator.HandlePostVideo: a message without a `data` object makes the source throw a `TypeError`. The model always has a request record.
- Coordinator.FetchErrorMapping: an error without a `message` is not distinguished from one whose message is empty.
- CreditsSync.SyncCredits: the new sign-in check it triggers on 401/403 appears only as the `reauth` flag. Its effects on `currentUser` are not modelled.
- Request headers and the bearer token of `fetchWithAuth` are not modelled.
- Panel rendering is left out: templates, tooltips, the video player, the upload status window, clipboard, `alert`, and the locale-dependent `formatDate`.
- The identity bridge's injected page script and React devtools probing run in the page's own world and are not modelled. Neither is the `MutationObserver` that re-injects on SPA navigation.
- LoginCheck.StatusOf: `isLoggedIn` and `hasLoggedInUI` are booleans. When the page source has no logged-in marker, the source reports `hasLoggedInUI` as the stored `tt-target-id` or `sid_tt` string (content.js:267-272), and off the studio page `isLoggedIn` is then that string when it decides the verdict (content.js:317-325); only their truthiness is modelled.
- PageAgentTasks.StopFrom: the poll ticks run on an ideal clock, tick `k` at exactly `2000 * k` ms, so the poller always polls 31 times; with `setInterval` drift the source's elapsed-time test can stop it at tick 30.
- Concurrency is not modelled: overlapping handlers, pollers and syncs on one page or panel. The model runs one operation at a time.

## Findings

| source | as written | input that shows it | evidently intended | confidence | as-written member | corrected member |
|---|---|---|---|---|---|---|
| popup.js:222-224 | `loadAllData` starts `loadVideos()` and `loadProducts()` together, and `loadProducts` extracts products from the videos held before the new list arrives | first opening of the panel (no videos held), reply with one video of product "p1": the products table stays empty | extract products after the videos have loaded | not executed; high (the two calls are not awaited in order) | PanelProducts.PanelState.LoadAllData, PanelProducts.FirstLoadListsNoProducts | PanelProducts.PanelState.LoadAllDataInOrder |
| webapp-content.js:29-46 | a stored "user" item that parses to a number, string or boolean is answered as a successful user with undefined id, email and name | `localStorage.user = "42"` while the auth helper has a signed-in user: the answer is success with no user id | accept only a parsed object and fall through otherwise, as a parsed null already does | not executed; medium | IdentityBridge.GetUserId, IdentityBridge.PrimitiveAnsweredAsUser | IdentityBridge.GetUserIdObjectsOnly, IdentityBridge.ObjectsOnlyFindsObjects |
