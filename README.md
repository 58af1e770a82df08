# Resume wizard and resume/personal-link routers, modelled in Dafny

This project models the core of a portfolio web application.

- A user builds a resume in a three-page **Wizard**:
  - page 0 is the personal information (first name, last name, email);
  - page 1 is a list of drafted personal links (label, URL, type);
  - page 2 has no content.
- The server offers two routers:
  - a **resume router**: `create`, `getMyResumes`, and the admin procedures `getOne`, `update`, `create`, `deleteOne`, `getList`, `getMany`, `createMany`, `deleteMany`;
  - a **personal-link router**: `create`, `getLinksFor`.

Files:

- `common.dfy`: the shared vocabulary:
  - `Option`, and `Result` with validation issues (zod issue paths);
  - the ten link types;
  - the personal-information schema used by both the form and the router.
- `store.dfy`: the store as two sequences of rows, with id lookup and the links of a resume.
- `wizard.dfy`: the `Wizard` component:
  - a class with fields `page` and `isLoading`;
  - pure step functions that each method is proved to take;
  - lemmas over whole sequences of button presses.
- `combobox.dfy`: the `Combobox` input, as a class with fields `open` and `value`, plus the toggle and highlight rules.
- `create_resume.dfy`: the `CreateResume` parent and its `PersonalLinksPage`:
  - classes over their component state;
  - the link schema, stamping drafts with a resume id, and removal by index;
  - `Flow`, a model of the Wizard and its parent acting together, with proofs about what the user sees after any sequence of presses.
- `resume_router.dfy`, `personal_link_router.dfy`: each procedure as a function from the store, the caller's user id and the input to a result and the new store.
- `client_server.dfy`: how the wizard's drafts meet the personal-link router.

Behaviour of the code as written (each bullet names the member that proves it, or the source lines it is read from):

- The type picker never reports a selection. The `Combobox` never calls the `onChange` it receives, so every drafted link keeps type `other` (`CreateResume.PersonalLinksPage.PickType`, `CreateResume.PersonalLinksPage.SubmitLinkForm`).
- "Add link" pushes the link form's values without validating them (`CreateResume.PersonalLinksPage.SubmitLinkForm`, `CreateResume.AddedLinksAreUnchecked`).
- Drafts are removed by their index in the list (`CreateResume.RemoveByIndex`).
- After a resume is created, the personal-information fields are cleared and the drafts stay (`CreateResume.CreateResume.OnResumeCreated`).
- The drafts, once stamped with a resume id, fail on the server (`ClientServer.StampedDraftsRejected`):
  - they carry their text under `label`, which the personal-link router's schema does not read, so its required `name` is missing;
  - they are sent to a `createMany` procedure that the personal-link router does not define.
- The wizard's `onSubmit` starts no mutation (`CreateResume.CreateResume.OnSubmit`). Nothing in the component calls the resume mutation, so the resume-created handler is never reached. This is read from the source (src/app/_components/wizards/create-resume.tsx:157-205), not proved.
- The personal-information form starts with the email `""`, not with no email. An email check that rejects `""` therefore keeps the form invalid until an email is typed (`CreateResume.EmptyEmailBlocksForm`).
- No page receives the Wizard's `next()`. The parent passes the Wizard a Fragment, and `cloneElement` sets `page` and `next` on that Fragment, not on the pages inside it. So the personal-information form's `onSubmit={props.next}` is undefined. This is read from the source (src/app/_components/wizards/create-resume.tsx:207, 239), not proved.

## Model

| member | source | states |
|---|---|---|
| Common.ParseLinkTypeName | src/app/_components/wizards/create-resume.tsx:84-98 | each of the ten type names parses back to its own type, so the names are distinct |
| Common.PersonalInfoSchema | src/app/_components/wizards/create-resume.tsx:40-44 | the personal-information schema accepts exactly non-empty first and last names with an absent or well-formed email; a missing name is reported at its own path |
| Common.Filter | src/server/api/routers/resume.ts:128-129 | a `where` filter keeps exactly the rows satisfying the condition and never adds rows |
| Common.FilterSplit | src/server/api/routers/resume.ts:125-212 | filtering by a condition and by its negation partitions the rows (as a multiset, with counts adding up) |
| Store.FindResume | src/server/api/routers/resume.ts:47-48 | a lookup by id finds a row exactly when a stored resume has that id, and the row found has it |
| Store.LinksOf | src/server/api/routers/personalLink.ts:44-45 | the links selected for a resume are exactly the stored links with that resume id |
| Wizard.Initial | src/app/_components/wizard.tsx:30-31 | on mount the Wizard is not loading and is on the caller's page, or page 0 without one |
| Wizard.AfterCancel | src/app/_components/wizard.tsx:33-37 | cancel goes to page 0 exactly when the handler resolves true; the flag is whatever the handler last set |
| Wizard.AfterBack | src/app/_components/wizard.tsx:39-43 | back moves one page back if and only if the handler resolves true |
| Wizard.AfterNext | src/app/_components/wizard.tsx:45-54 | next moves one page forward if and only if the handler resolves true |
| Wizard.AfterSubmit | src/app/_components/wizard.tsx:56-61 | submit awaits the handler, ignores its result and never moves the page |
| Wizard.SecondaryPressHandler | src/app/_components/wizard.tsx:100-113 | a press of the back/cancel button reaches nothing exactly on page 0, back exactly off page 0, and never cancel, because the button is disabled where its click handler would cancel |
| Wizard.PrimaryPressHandler | src/app/_components/wizard.tsx:114-125 | the primary button reaches submit exactly on the last page and next everywhere else |
| Wizard.ButtonLabels | src/app/_components/wizard.tsx:100-125 | the primary button reads "Submit" exactly where it reaches submit and "Next" exactly where it reaches next; the other reads "Cancel" exactly where it is disabled and "Back" exactly where it reaches back |
| Wizard.AfterSecondaryPress | src/app/_components/wizard.tsx:100-111 | when enabled, a back press turns loading on, which only the handler can undo, and moves back if and only if the handler agrees; when disabled, it changes nothing |
| Wizard.AfterSecondaryPressReleasing | src/app/_components/wizard.tsx:100-111 | corrected back press: same page move, and the flag is cleared after the handler, so the content shows again |
| Wizard.AfterPrimaryPress | src/app/_components/wizard.tsx:114-122 | a primary press moves one page forward if and only if it is not on the last page and the handler agrees; the flag changes only through the handler |
| Wizard.ButtonsKeepRange | src/app/_components/wizard.tsx:100-125 | any sequence of button presses keeps the page within 0 .. numPages-1 |
| Wizard.LoadingSticks | src/app/_components/wizard.tsx:92-109 | when handlers never call setIsLoading, once loading the Wizard stays loading (spinner shown) whatever is pressed |
| Wizard.ChildNextUnbounded | src/app/_components/wizard.tsx:63-70 | the child's next() has no bound: k calls, each seen by a fresh render, move k pages forward and can leave the page range |
| Wizard.ProgressDots | src/app/_components/wizard.tsx:82-88 | one dot per page, and dot i is marked passed exactly when i < page |
| Wizard.PassedDotsCount | src/app/_components/wizard.tsx:82-88 | the number of passed dots is the page clamped to 0 .. numPages |
| Wizard.Wizard.constructor | src/app/_components/wizard.tsx:29-31 | the component's state on mount is the initial state |
| Wizard.Wizard.ApplyLoading | src/app/_components/wizard.tsx:14 | the loading flag ends as the handler last set it, or unchanged |
| Wizard.Wizard.OnCancel | src/app/_components/wizard.tsx:33-37 | the new state is the cancel step applied to the old one |
| Wizard.Wizard.OnBack | src/app/_components/wizard.tsx:39-43 | the new state is the back step applied to the old one |
| Wizard.Wizard.OnNext | src/app/_components/wizard.tsx:45-54 | the new state is the next step applied to the old one |
| Wizard.Wizard.OnSubmit | src/app/_components/wizard.tsx:56-61 | the new state is the submit step applied to the old one |
| Wizard.Wizard.ClickSecondary | src/app/_components/wizard.tsx:102-109 | the click handler sets loading, then cancels on page 0 and goes back elsewhere |
| Wizard.Wizard.PressSecondary | src/app/_components/wizard.tsx:100-111 | pressing the back/cancel button changes the state exactly as AfterSecondaryPress says |
| Wizard.Wizard.PressPrimary | src/app/_components/wizard.tsx:114-122 | pressing the primary button changes the state exactly as AfterPrimaryPress says |
| Wizard.Wizard.Next | src/app/_components/wizard.tsx:66-68 | the child's next() adds one to the page and leaves the flag alone |
| Combobox.ToggleTwice | src/app/_inputs/combobox.tsx:69-76 | choosing an option twice returns the value it had after one choice from the other state; from empty it returns to empty |
| Combobox.SelectionLabel | src/app/_inputs/combobox.tsx:47 | after a choice the trigger shows the chosen option, or the placeholder (default "Select a value") when the choice cleared the value |
| Combobox.OneHighlight | src/app/_inputs/combobox.tsx:56-85 | with distinct options, exactly one option is highlighted and checked when the value is an option, and none otherwise |
| Combobox.Combobox.constructor | src/app/_inputs/combobox.tsx:32-36 | on mount the value is the caller's value as a string, or empty, and the popover is closed |
| Combobox.Combobox.OnOpenChange | src/app/_inputs/combobox.tsx:39 | the popover's open flag follows the request |
| Combobox.Combobox.OnSelect | src/app/_inputs/combobox.tsx:69-76 | selecting toggles the value (same option clears it) and closes the popover |
| CreateResume.LinkTypeOptionsAreTheTypes | src/app/_components/wizards/create-resume.tsx:116-140 | the type options are ten distinct names, one for each link type |
| CreateResume.LinkSchema | src/app/_components/wizards/create-resume.tsx:67-82 | a link passes the link schema exactly when its label is non-empty and its URL well formed |
| CreateResume.AddedLinksAreUnchecked | src/app/_components/wizards/create-resume.tsx:362-369 | the link form's reset values, which "add" may push as they are, fail the link schema |
| CreateResume.EmptyEmailBlocksForm | src/app/_components/wizards/create-resume.tsx:148-155 | with the initial empty email the personal-information form is invalid whatever names are typed |
| CreateResume.Stamp | src/app/_components/wizards/create-resume.tsx:162-168 | stamping keeps every draft, in order, and adds the new resume's id to each |
| CreateResume.FilterOutIndexSlices | src/app/_components/wizards/create-resume.tsx:321 | the index filter equals cutting out the one entry at that index, or nothing when the index is outside the list |
| CreateResume.RemoveByIndex | src/app/_components/wizards/create-resume.tsx:320-324 | removing drops exactly the entry at the index and keeps the rest in order; a stale index changes nothing |
| CreateResume.PushThenRemove | src/app/_components/wizards/create-resume.tsx:320-354 | removing the entry just pushed gives back the previous list |
| CreateResume.PageContent | src/app/_components/wizards/create-resume.tsx:207-224 | the parent shows personal information exactly on its page 0 and links exactly on its page 1 |
| CreateResume.OnNextAsWritten | src/app/_components/wizards/create-resume.tsx:190-201 | onNext agrees on the Wizard's page 0 exactly when the form is valid, and everywhere else; only page 0 moves the parent page |
| CreateResume.OnNextSynced | src/app/_components/wizards/create-resume.tsx:190-201 | corrected onNext: the same guard, and the parent page follows the Wizard forward on every page |
| CreateResume.LeavesFirstPageOnlyWhenValid | src/app/_components/wizards/create-resume.tsx:190-201 | the form leaves its first page only through Next pressed while the personal information is valid |
| CreateResume.ParentNeverAhead | src/app/_components/wizards/create-resume.tsx:177-205 | as written, the Wizard stays on its three pages, and the parent's page is never ahead of the Wizard's |
| CreateResume.FlowLoadingSticks | src/app/_components/wizards/create-resume.tsx:181-205 | with the parent's handlers, once loading the form stays loading for any later presses |
| CreateResume.BackLeavesSpinner | src/app/_components/wizards/create-resume.tsx:181-205 | as written, Next (valid) then Back leaves the spinner on screen forever |
| CreateResume.ParentPageDrifts | src/app/_components/wizards/create-resume.tsx:185-201 | as written, Next, Next, Back, Back ends with the Wizard on page 0 and the parent on page -1, a page with no content; the spinner left by the first Back hides it |
| CreateResume.ParentPageLagsVisibly | src/app/_components/wizards/create-resume.tsx:190-201 | as written, Next (valid), Next shows the links while the Wizard is on its last ("Submit") page; with only the loading fix, Next (valid), Next, Back shows the personal information while the Wizard is on page 1 |
| CreateResume.CorrectedShowsWizardPage | src/app/_components/wizards/create-resume.tsx:177-224 | with both corrections, any press sequence shows the content of the Wizard's own page and never the spinner |
| CreateResume.CreateResume.constructor | src/app/_components/wizards/create-resume.tsx:145-155 | the parent mounts on page 0 with no drafts and an empty personal-information form |
| CreateResume.CreateResume.EditResumeForm | src/app/_components/wizards/create-resume.tsx:243-292 | typing replaces the personal-information form's values |
| CreateResume.CreateResume.SetPersonalLinks | src/app/_components/wizards/create-resume.tsx:146 | the list setter replaces the drafts |
| CreateResume.CreateResume.OnCancel | src/app/_components/wizards/create-resume.tsx:181-184 | onCancel always agrees |
| CreateResume.CreateResume.OnBack | src/app/_components/wizards/create-resume.tsx:185-189 | onBack always agrees and steps the parent page back |
| CreateResume.CreateResume.OnNext | src/app/_components/wizards/create-resume.tsx:190-201 | onNext's result and new parent page are those of OnNextAsWritten for the form's current validity |
| CreateResume.CreateResume.OnSubmit | src/app/_components/wizards/create-resume.tsx:202-205 | onSubmit always agrees and changes nothing |
| CreateResume.CreateResume.OnResumeCreated | src/app/_components/wizards/create-resume.tsx:157-172 | after a resume is created the form is emptied; a batch of stamped drafts is sent exactly when there are drafts |
| CreateResume.PersonalLinksPage.constructor | src/app/_components/wizards/create-resume.tsx:304-318 | the links page starts from the parent's list, an empty link form of type other, and a closed picker on "other" over the ten types |
| CreateResume.PersonalLinksPage.PushPersonalLink | src/app/_components/wizards/create-resume.tsx:350-354 | pushing appends the link and writes the same list to the parent |
| CreateResume.PersonalLinksPage.RemovePersonalLink | src/app/_components/wizards/create-resume.tsx:320-324 | removing writes the list without that index to the page and to the parent |
| CreateResume.PersonalLinksPage.EditLabel | src/app/_components/wizards/create-resume.tsx:374-389 | typing a label changes only the form's label |
| CreateResume.PersonalLinksPage.EditUrl | src/app/_components/wizards/create-resume.tsx:390-405 | typing a URL changes only the form's URL |
| CreateResume.PersonalLinksPage.PickType | src/app/_components/wizards/create-resume.tsx:408-420 | choosing a type changes only the picker; the form's type is untouched |
| CreateResume.PersonalLinksPage.SubmitLinkForm | src/app/_components/wizards/create-resume.tsx:362-369 | "add" appends the form's values unvalidated, mirrors the list to the parent, resets the form, and keeps every draft of type other |
| CreateResume.PressPrimary | src/app/_components/wizards/create-resume.tsx:177-205 | the Wizard's primary press with this parent's handlers changes both components as FlowPrimary says |
| CreateResume.PressSecondary | src/app/_components/wizards/create-resume.tsx:177-189 | the Wizard's back press with this parent's handlers changes both components as FlowSecondary says |
| ResumeRouter.ViewOf | src/server/api/routers/resume.ts:32-38 | a selected resume carries its id, first name, last name and email, and exactly its own links |
| ResumeRouter.CreateData | src/server/api/routers/resume.ts:6-27 | create accepts exactly schema-valid input, otherwise reports the schema's issues; the row copies the three fields and is owned by the caller |
| ResumeRouter.Create | src/server/api/routers/resume.ts:14-26 | a created resume is appended with the new id, the input's fields and the caller as owner |
| ResumeRouter.CreateKeepsIdsUnique | src/server/api/routers/resume.ts:15-23 | creating under an unused id keeps resume ids unique |
| ResumeRouter.OwnedBy | src/server/api/routers/resume.ts:30-31 | the user filter keeps exactly that user's resumes |
| ResumeRouter.GetMyResumes | src/server/api/routers/resume.ts:29-40 | getMyResumes returns a view of every resume the caller owns and of no other resume |
| ResumeRouter.GetOne | src/server/api/routers/resume.ts:44-57 | getOne finds a resume exactly when one has the id, and returns the view of a stored resume with that id |
| ResumeRouter.Update | src/server/api/routers/resume.ts:58-80 | update rejects invalid input and unknown ids; otherwise it rewrites the names (and email when given) of the row with that id, leaves ids, owners and other rows unchanged, and returns the patched row as stored |
| ResumeRouter.DeleteOne | src/server/api/routers/resume.ts:103-113 | deleteOne refuses an unknown id; otherwise it removes exactly the rows with that id, keeps every other row as often as it was stored and the links as they were, and returns the deleted row |
| ResumeRouter.GetList | src/server/api/routers/resume.ts:114-124 | getList returns a view of every stored resume, in store order, whoever owns it |
| ResumeRouter.GetListCoversEveryOwner | src/server/api/routers/resume.ts:29-124 | every resume in a user's getMyResumes is also in getList |
| ResumeRouter.WithIds | src/server/api/routers/resume.ts:128-129 | the id filter keeps exactly the resumes whose id is listed |
| ResumeRouter.GetMany | src/server/api/routers/resume.ts:125-138 | getMany returns the view of every stored resume whose id is listed, and of no other, one per selected row in store order |
| ResumeRouter.DeleteMany | src/server/api/routers/resume.ts:202-212 | deleteMany removes exactly the listed resumes, keeps the links, and returns the number removed |
| ResumeRouter.GetManyDeleteManySplit | src/server/api/routers/resume.ts:125-212 | what getMany selects and what deleteMany keeps split the store in two, and the count deleted is the number getMany selects |
| ResumeRouter.CreateManyIssuesEmpty | src/server/api/routers/resume.ts:139-150 | the batch schema reports no issue exactly when every entry is valid |
| ResumeRouter.CreateManyData | src/server/api/routers/resume.ts:139-162 | createMany accepts the batch exactly when every entry is valid and writes one row per entry, in order, owned by the caller |
| ResumeRouter.CreateMany | src/server/api/routers/resume.ts:151-166 | createMany appends all rows in order under the new ids, or none, keeps the stored rows and links as they were, and returns the count |
| PersonalLinkRouter.ParseLinkRequest | src/server/api/routers/personalLink.ts:7-25 | create accepts exactly a non-empty resume id and name, a non-empty well-formed URL and one of the ten types; a missing name is reported |
| PersonalLinkRouter.Create | src/server/api/routers/personalLink.ts:26-35 | a created link copies the four accepted fields under the new id and is appended |
| PersonalLinkRouter.GetLinksFor | src/server/api/routers/personalLink.ts:37-54 | getLinksFor refuses an empty resume id, otherwise returns exactly that resume's links |
| PersonalLinkRouter.CreatedLinkIsListed | src/server/api/routers/personalLink.ts:26-54 | a link that create stores is returned by getLinksFor for its resume |
| ClientServer.TypeListsAgree | src/server/api/routers/personalLink.ts:12-23 | the router's type enum and the wizard's type list hold the same ten names in different orders |
| ClientServer.DraftTypesAccepted | src/server/api/routers/personalLink.ts:12-23 | every type a draft can carry is accepted by the router |
| ClientServer.AsLinkRequest | src/app/_components/wizards/create-resume.tsx:164-167 | a stamped draft, read by the router's keys, has no `name` |
| ClientServer.StampedDraftsRejected | src/server/api/routers/personalLink.ts:5-55 | every stamped draft fails the router's create schema, and the router defines no createMany |

## Left out

- Persistence, the ORM and the RPC layer are not modelled:
  - The store is a pair of row sequences.
  - New row ids are parameters. `ResumeRouter.CreateMany` therefore requires one id per entry.
  - The signed-in user's id is a parameter.
  - `select` projections are the `ResumeView` fields.
- The order of rows returned by queries without `orderBy` is taken to be store order. `ResumeRouter.GetMyResumes` states which resumes are returned, not their order.
- The database schema (foreign keys, cascades on delete, id formats) is not part of this model. Deleting resumes leaves their links in place.
- `updateMany` in the admin resume router is not modelled. It needs the ORM's semantics for an array of data on a many-row update.
- The zod `email()` and `url()` checks are abstract predicates (`Formats`); their regular expressions are not modelled.
- react-hook-form's `isValid` is modelled as "the schema accepts the current values". Validation modes and touched-state are left out.
- Asynchrony is not modelled: a handler's await is one atomic step whose outcome (resolved value, last `setIsLoading` call) is an input. Interleavings of two presses while one handler is pending are not modelled.
- Each state-setter call is modelled as seen by the next event, as if the component re-rendered in between. The code's setters compute from the `page` captured at render time. Two calls within one render (for example `next()` twice) would both start from the same page, and the model does not capture this.
- Rendering is not modelled. Left out: JSX layout, icons and styling, `router.refresh()`, `console.log`, and the Wizard's `title` and `className`.
- The browser's native submission of the personal-information form is not modelled. Its `onSubmit` is undefined, because no page receives `next`. The Wizard's `next()` is modelled as the Wizard offers it (`Wizard.Wizard.Next`), even though no page in this app can call it.
- The command list's own value handling (search filtering, normalising the value passed to `onSelect`) is not modelled. The chosen option's text arrives as given.
- `personalLinksFormSchema` in the wizard is declared but never used, so it is not modelled.
- `getLinksFor` is modelled for an input object whose `resumeId` key is present.
- JavaScript numbers are unbounded integers here. Page arithmetic never comes near 2^53.
- The corrected behaviour of the two findings is modelled in the pure `Flow` model only. The classes keep the code as written.

## Findings

| source | as written | input that shows it | evidently intended | confidence | as-written member | corrected member |
|---|---|---|---|---|---|---|
| src/app/_components/wizard.tsx:102-109 | the back button sets `isLoading` to true before awaiting `onBack`; neither the Wizard nor `CreateResume`'s handlers ever set it back to false | press Next with a valid form, then Back | the spinner is shown only while the handler is pending, then the page content returns | not executed; high | CreateResume.BackLeavesSpinner | Wizard.AfterSecondaryPressReleasing |
| src/app/_components/wizards/create-resume.tsx:190-201 | `onNext` advances the parent's page only when the Wizard is on page 0, while `onBack` always steps it back | Next (valid), Next: the links page stays on screen while the Wizard shows "Submit" on its last page | the parent's page follows the Wizard's, so each page shows its own content | not executed; medium | CreateResume.ParentPageLagsVisibly | CreateResume.OnNextSynced |
