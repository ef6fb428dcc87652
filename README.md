# Admin console state model

A Dafny model of the interactive core of the eazetrades admin console, a Next.js/React front end. Every backend call in that console is a placeholder. Each one reads and writes a JSON list under one localStorage key. The model covers:

- **Storage and the placeholder APIs.** One `Store` per localStorage key. The fetch, save and delete placeholders transform the stored list: default lists, `map` by id, `filter` by id, and append.
- **The four advertisement list cards** (Ad Type, Promotion Power, Duration, Ad Show). Each one has a load state machine: `isLoading`, `error`, the list on screen, and the load effect. The effect reruns whenever the card's `refreshKey` prop changes.
- **The advertisement page.** It keeps one active panel and four refresh keys, and derives each edit panel's `isOpen`, `mode` and `initialData` props from them.
- **The four edit panels.** Each has a seeding effect, checks the form, calls its save API, and on success bumps the page key and closes the panel.
- **The collapsible `InfoCard`.** Its open state, its content id (the title with its white-space runs replaced by hyphens) and what it shows.
- **The product categories page.** The fetch/save/delete placeholders, the page handlers, the edit modal, and the view `CategoryList` chooses from its props.
- **The email list page.** The pagination footer, the first-page slice, and the single open action menu shared by two tables.
- **The users and services tables.** Their badges and their single-open-menu toggles.

React state setters become assignments to class fields, and each handler becomes a method whose `ensures` gives the new state of what it changes. The pure parts are functions, and lemmas state their properties: filters, id-matched replacement, form checks, footers, badges and content ids. Time (`Date.now()`) is a parameter. So are the outcomes of `window.confirm` and of a fetch that rejects. JavaScript's `Number(text)` and `String(x)` are abstract parameters. The lemmas that need them assume two laws (`JsNumbers.NumberLaws`): the empty field reads as 0, and a printed number reads back as itself.

## Model

| member | source | states |
|---|---|---|
| Text.Trim | component/adsandpromotion/duration/Editduration.tsx:74 | `trim()` is the part of the input left between a blank prefix and a blank suffix; it is empty exactly for a blank string, otherwise it starts and ends with a non-space character, so neither dropped part could be longer |
| Text.TrimIdempotent | component/categories/EditCategoryModal.tsx:59-60 | trimming a trimmed string changes nothing |
| Text.TrimOfUntrimmed | component/categories/EditCategoryModal.tsx:59-60 | a string with no white space at either end is its own trim |
| Text.BlankCheck | component/categories/EditCategoryModal.tsx:48-51 | the name check of the category modal, the Promotion Power panel and the Ad Show panel: it reports the panel's message exactly when the field is blank |
| Text.Decimal | component/adsandpromotion/adshow/Editadshow.tsx:26 | the template-literal rendering of a timestamp is a non-empty string of decimal digits that denotes exactly that number |
| Text.DecimalInjective | component/adsandpromotion/adshow/Editadshow.tsx:26 | two timestamps render the same exactly when they are equal |
| Text.MessageOr | component/adsandpromotion/duration/Editduration.tsx:93 | `err.message \|\| fallback` is the message when it is non-empty and the fallback when it is empty; it is non-empty when either one is |
| Storage.Store.Write | component/adsandpromotion/duration/Duration.tsx:36-40 | writing a key leaves it holding exactly the given list |
| Storage.ReplaceWhere | component/adsandpromotion/duration/Editduration.tsx:34 | the id-matched `map` keeps the length; position i holds the replacement exactly when item i's id strictly equals the given id, and the old item otherwise |
| Storage.RemoveWhereLength | app/admin/product-categories/page.tsx:104-107 | the `filter` never lengthens the list, and keeps its length exactly when no item has the id (the "nothing deleted" test) |
| Storage.RemoveWhereSound | app/admin/product-categories/page.tsx:104 | every item kept by the filter comes from the list and has a different id |
| Storage.RemoveWhereComplete | app/admin/product-categories/page.tsx:104 | every item with a different id is kept |
| Storage.RemoveWhereAppend | app/admin/product-categories/page.tsx:104 | the filter keeps relative order: it distributes over concatenation |
| Storage.ReplaceWhereKeepsIds | app/admin/product-categories/page.tsx:56-62 | replacing with a record that carries the matched id never changes any item's id |
| Storage.ReplaceWhereNoMatch | app/admin/product-categories/page.tsx:56-64 | when no item has the id, the `map` returns the list unchanged |
| Storage.UpsertShape | component/adsandpromotion/duration/Editduration.tsx:32-34 | an add appends the item after an unchanged prefix; an edit keeps the length and replaces exactly the id-matched items |
| Cards.ListCard.constructor | component/adsandpromotion/duration/Duration.tsx:50-52 | a mounted card starts with an empty list, loading and no error |
| Cards.ListCard.BeginLoad | component/adsandpromotion/duration/Duration.tsx:58-59 | the load starts by setting loading and clearing the error, leaving the list |
| Cards.ListCard.CompleteLoad | component/adsandpromotion/duration/Duration.tsx:60-69 | on success the list shown is the stored list or the defaults, and it is written back; on failure the card's load message is shown, and neither the list nor the key changes; loading ends either way |
| Cards.ListCard.Load | component/adsandpromotion/duration/Duration.tsx:57-70 | the whole `loadData`: the error is cleared on success and set on failure, and the list and storage are as above |
| Cards.ListCard.Commit | component/adsandpromotion/duration/Duration.tsx:55-72 | the effect reloads exactly when the `refreshKey` differs from the one it last ran for (or on mount), and otherwise changes nothing |
| Cards.EmptyMessageOnlyForStoredEmptyList | component/adsandpromotion/duration/Duration.tsx:78-80 | after a successful load, the empty list (and with it "No ... defined yet.") appears exactly when the key held an empty list |
| AdTypes.FetchAdTypes | component/adsandpromotion/adtypes/Adtype.tsx:17-34 | the stored list when the key is present, otherwise three ad types with ids 1-3, each priced 10000 NGN |
| AdTypes.NewCard | component/adsandpromotion/adtypes/Adtype.tsx:57-59 | the Ad Type card starts empty and loading, with its defaults and its load message |
| PromotionPowers.FetchPromotionPowers | component/adsandpromotion/promotionpower/Promotionpower.tsx:17-32 | the stored list, otherwise the two defaults with ids 1 and 2 |
| PromotionPowers.NewCard | component/adsandpromotion/promotionpower/Promotionpower.tsx:48-50 | the Promotion Power card starts empty and loading, with its defaults and message |
| Durations.FetchDurations | component/adsandpromotion/duration/Duration.tsx:16-33 | the stored list, otherwise 7, 14 and 30 days with ids 1-3 |
| Durations.NewCard | component/adsandpromotion/duration/Duration.tsx:50-52 | the Duration card starts empty and loading, with its defaults and message |
| AdShows.FetchAdShowOptions | component/adsandpromotion/adshow/Adshow.tsx:17-33 | the stored list, otherwise `as1`, `as2`, `as3` in order |
| AdShows.NewCard | component/adsandpromotion/adshow/Adshow.tsx:49-51 | the Ad Show card starts empty and loading, with its defaults and message |
| Advertisement.AddRequest | app/admin/advertisement/page.tsx:86-111 | a card's Add New opens a panel of that card's type in add mode with no item |
| Advertisement.AdvertisementPage.constructor | app/admin/advertisement/page.tsx:38-44 | no panel is open and every refresh key is 0 |
| Advertisement.AdvertisementPage.OpenPanel | app/admin/advertisement/page.tsx:47-56 | the requested panel replaces any open one, so exactly its type is open; the keys are unchanged |
| Advertisement.AdvertisementPage.ClosePanel | app/admin/advertisement/page.tsx:58-61 | no panel is open; the keys are unchanged |
| Advertisement.AdvertisementPage.SaveSuccess | app/admin/advertisement/page.tsx:64-75 | the saved type's key goes up by exactly one; the other keys and the active panel are unchanged |
| Advertisement.AtMostOnePanelOpen | app/admin/advertisement/page.tsx:118-146 | no two panel types are open at once |
| Advertisement.InactivePanelProps | app/admin/advertisement/page.tsx:118-146 | a panel that is not active gets mode 'add' and no initial item |
| AdvertisementFlow.SubmitDurationAndRender | app/admin/advertisement/page.tsx:100-104 | if the card was up to date, a successful Duration save makes it reload and show the stored list: the saved item appended when adding, or put in place of every stored item with the edited id when editing; a failed check or a rejected save leaves the card and storage as they were |
| EditDuration.NewItem | component/adsandpromotion/duration/Editduration.tsx:27 | the stored record keeps the label and the day count; its id is the given id, else `Date.now()` |
| EditDuration.SaveDurationApi | component/adsandpromotion/duration/Editduration.tsx:22-40 | a label that lower-cases to "error" throws and writes nothing; otherwise the add/edit upsert is written and the record returned |
| EditDuration.Validate | component/adsandpromotion/duration/Editduration.tsx:73-81 | a blank label is reported first; then a NaN or non-positive day count; the form passes exactly when neither holds |
| EditDuration.EmptyDaysRejected | component/adsandpromotion/duration/Editduration.tsx:73-81 | an empty day field reads as 0 and is always rejected |
| EditDuration.SeededItemResubmits | component/adsandpromotion/duration/Editduration.tsx:56-81 | an item seeded for edit and submitted unchanged passes the checks with its own day count, provided the item itself is valid |
| EditDuration.DurationPanel.constructor | component/adsandpromotion/duration/Editduration.tsx:45-49 | empty fields, not saving, no error |
| EditDuration.DurationPanel.Sync | component/adsandpromotion/duration/Editduration.tsx:54-67 | closed: nothing changes; open in edit mode with an item: the label and the printed day count are seeded; otherwise both fields are cleared; open resets the error and the saving flag |
| EditDuration.DurationPanel.Submit | component/adsandpromotion/duration/Editduration.tsx:69-97 | a failed check only sets its message (saving was never set); otherwise it sends the mode, the untrimmed label, the parsed days and the edited id; success writes the upsert, bumps only the Duration key and closes the panel; failure shows the message and leaves the page |
| EditDuration.DurationPanel.Save | component/adsandpromotion/duration/Editduration.tsx:87-96 | the save call with its success path (key bump, then close) and its failure path (message or fallback); saving ends either way |
| EditPromotionPower.NewItem | component/adsandpromotion/promotionpower/EditPromotionPowerPanel.tsx:26 | the record keeps the name; its id is the given id, else `Date.now()` |
| EditPromotionPower.SavePromotionPowerApi | component/adsandpromotion/promotionpower/EditPromotionPowerPanel.tsx:22-38 | "error" (any case) throws and writes nothing; otherwise the upsert is written |
| EditPromotionPower.PromotionPowerPanel.constructor | component/adsandpromotion/promotionpower/EditPromotionPowerPanel.tsx:43-45 | empty name, not saving, no error |
| EditPromotionPower.PromotionPowerPanel.Sync | component/adsandpromotion/promotionpower/EditPromotionPowerPanel.tsx:50-60 | seeds the name in edit mode with an item and clears it otherwise, only while open |
| EditPromotionPower.PromotionPowerPanel.Submit | component/adsandpromotion/promotionpower/EditPromotionPowerPanel.tsx:62-86 | a blank name sets its message and clears saving; otherwise it saves the untrimmed name with the edited id; success writes the upsert, bumps only the Promotion Power key and closes the panel |
| EditPromotionPower.PromotionPowerPanel.Save | component/adsandpromotion/promotionpower/EditPromotionPowerPanel.tsx:76-85 | the save call with its success and failure paths; saving ends either way |
| EditAdShow.GeneratedIdIsFresh | component/adsandpromotion/adshow/Editadshow.tsx:26 | a generated id is a string starting with "as_", so it never equals a built-in id |
| EditAdShow.GeneratedIdInjective | component/adsandpromotion/adshow/Editadshow.tsx:26 | two new options get the same id exactly when they were created at the same millisecond |
| EditAdShow.NewItem | component/adsandpromotion/adshow/Editadshow.tsx:26 | the record keeps the name; its id is the given id, else `as_` followed by the timestamp |
| EditAdShow.SaveAdShowOptionApi | component/adsandpromotion/adshow/Editadshow.tsx:22-38 | "fail" (any case) throws and writes nothing; otherwise the upsert is written |
| EditAdShow.AdShowPanel.constructor | component/adsandpromotion/adshow/Editadshow.tsx:42-44 | empty name, not saving, no error |
| EditAdShow.AdShowPanel.Sync | component/adsandpromotion/adshow/Editadshow.tsx:49-59 | seeds the name in edit mode with an item and clears it otherwise, only while open |
| EditAdShow.AdShowPanel.Submit | component/adsandpromotion/adshow/Editadshow.tsx:61-85 | a blank name sets its message and clears saving; otherwise it saves with the edited id; success writes the upsert, bumps only the Ad Show key and closes the panel |
| EditAdShow.AdShowPanel.Save | component/adsandpromotion/adshow/Editadshow.tsx:75-84 | the save call with its success and failure paths; saving ends either way |
| EditAdType.Validate | component/adsandpromotion/adtypes/EditAdTypesPanel.tsx:53-58 | the price passes exactly when it is a number and not negative |
| EditAdType.EmptyPriceAccepted | component/adsandpromotion/adtypes/EditAdTypesPanel.tsx:53-58 | an empty price field reads as 0 and is accepted |
| EditAdType.SeededPriceResubmits | component/adsandpromotion/adtypes/EditAdTypesPanel.tsx:36-58 | an ad type seeded for edit and submitted unchanged passes with its own price, provided that price is not negative |
| EditAdType.AdTypePanel.constructor | component/adsandpromotion/adtypes/EditAdTypesPanel.tsx:27-30 | empty fields, not saving, no error |
| EditAdType.AdTypePanel.Sync | component/adsandpromotion/adtypes/EditAdTypesPanel.tsx:34-46 | seeds the name and printed price in edit mode with an item and clears them otherwise, only while open |
| EditAdType.AdTypePanel.Submit | component/adsandpromotion/adtypes/EditAdTypesPanel.tsx:48-73 | a bad price sets its message and leaves the page; otherwise the name, price, "NGN" and the edited id are sent; a resolved save raises the Ad Type key alone by one and closes the panel, a rejected one shows the thrown message or the fallback and leaves the page; saving ends in every case |
| CategoryList.RowFor | component/categories/CategoryList.tsx:50-81 | a row shows the name and the parent, or the "None" marker exactly for a null parent; edit hands over the category and delete its id |
| CategoryList.Render | component/categories/CategoryList.tsx:27-81 | loading wins over an error, a truthy error wins over the list, an empty list gives the empty message, and otherwise there is one row per category in order |
| CategoryList.RowsMatchCategories | component/categories/CategoryList.tsx:73 | a rendered table has a delete button for an id exactly when a listed category has that id |
| Categories.FetchCategories | app/admin/product-categories/page.tsx:11-33 | the stored list, otherwise the seven defaults starting with `cat1`, all under "Parent" |
| Categories.Saved | app/admin/product-categories/page.tsx:59 | the merged record has the id and the draft's name and parent |
| Categories.SaveCategoryApi | app/admin/product-categories/page.tsx:42-85 | "error" throws and writes nothing; a present id is merged and written; an absent id writes nothing but still reports the draft as saved |
| Categories.DeleteCategoryApi | app/admin/product-categories/page.tsx:89-122 | `cat1` is refused; any other id succeeds, and the filtered list is written only when something was removed |
| Categories.CategoryPage.constructor | app/admin/product-categories/page.tsx:128-132 | no categories, loading, no error, modal closed |
| Categories.CategoryPage.LoadData | app/admin/product-categories/page.tsx:135-154 | on success the fetched list is shown and stored (the key is written only when it was absent, and then holds the defaults); on failure the load message is shown |
| Categories.CategoryPage.HandleEdit | app/admin/product-categories/page.tsx:156-160 | remembers the category and opens the modal, nothing else |
| Categories.CategoryPage.HandleCloseModal | app/admin/product-categories/page.tsx:187-190 | closes the modal and forgets the category |
| Categories.CategoryPage.HandleDelete | app/admin/product-categories/page.tsx:162-184 | unconfirmed: nothing; `cat1`: the prevention alert and nothing else; otherwise the listed categories with the id are dropped, and storage follows the delete API |
| Categories.CategoryPage.HandleSave | app/admin/product-categories/page.tsx:192-209 | without an edited category it resolves with no change; a thrown save rejects and changes nothing; otherwise storage holds the saved record in place of every stored category with the id (unchanged when none has it), every listed category with the id becomes the saved record, and a list that agreed with storage still agrees |
| Categories.DeleteIdempotent | app/admin/product-categories/page.tsx:174 | deleting the same id twice leaves the list as deleting it once |
| Categories.DeletedIdHasNoRow | app/admin/product-categories/page.tsx:174 | after a delete no category and no rendered delete button has the id, and every other category is still listed |
| Categories.SaveIdempotent | app/admin/product-categories/page.tsx:202-206 | saving the same draft twice leaves the list as saving it once |
| CategoryModal.MakeDraftFields | component/categories/EditCategoryModal.tsx:58-62 | the draft holds the trimmed name; its parent is null exactly when the parent field is blank, and otherwise the trimmed, non-empty parent |
| CategoryModal.SeededCategoryResubmits | component/categories/EditCategoryModal.tsx:31-62 | a category with trimmed fields, seeded and submitted unchanged, sends back its own name and parent (a null parent stays null) |
| CategoryModal.DraftIsTrimmed | component/categories/EditCategoryModal.tsx:58-62 | the draft's fields are already trimmed |
| CategoryModal.EditCategoryModal.constructor | component/categories/EditCategoryModal.tsx:24-28 | empty fields, not saving, no error |
| CategoryModal.EditCategoryModal.Sync | component/categories/EditCategoryModal.tsx:30-44 | open with a category: seed both fields (a null parent as "") and reset; closed: clear both fields only; open without a category: nothing |
| CategoryModal.EditCategoryModal.Submit | component/categories/EditCategoryModal.tsx:46-73 | a blank name only sets its message; otherwise the trimmed draft goes to the page; resolve closes the modal, updates the list and stores the record in place of the stored category with the edited id; reject shows the message and keeps the modal open |
| CategoryModal.EditCategoryModal.Save | component/categories/EditCategoryModal.tsx:64-72 | awaits the page's save: resolve closes the modal and leaves storage holding the record in place of the stored category with the edited id; reject shows the message or the fallback; saving ends either way |
| EmailList.FooterBounds | app/admin/email-list/page.tsx:57-102 | for a real page the footer names at most one page of items within the total, Previous is disabled exactly on page 1, and Next exactly once the pages cover the total |
| EmailList.Displayed | app/admin/email-list/page.tsx:171-172 | `slice(0, itemsPerPage)` is the prefix of length min(page size, length) |
| EmailList.TableBody | app/admin/email-list/page.tsx:81-89 | the no-data row, spanning every column, appears exactly for empty data; otherwise every item is a row |
| EmailList.FirstPageFooters | app/admin/email-list/page.tsx:163-172 | the footer says 1-9 of 78 while the tables show 5 and 4 rows |
| EmailList.MenuIdInjective | app/admin/email-list/page.tsx:176 | two rows share a menu id exactly when they are the same row of the same table |
| EmailList.MouseDown | app/admin/email-list/page.tsx:125-135 | the listener with the action buttons counted as part of the menu: a rendered menu closes exactly on a mousedown elsewhere, and nothing else changes |
| EmailList.ActionClickNeverClosesAsWritten | app/admin/email-list/page.tsx:125-135 | as written, clicking the action button of the open menu leaves it open, where `handleActionClick` would close it |
| EmailList.ActionClickNeverClosesCounterexample | app/admin/email-list/page.tsx:175-178 | the menu of registered user "001" stays open when its action button is clicked |
| EmailList.ActionClickToggles | app/admin/email-list/page.tsx:175-178 | with the corrected listener a click on an action button toggles that row's menu: it ends closed exactly when it was the open one |
| EmailList.ActionAlert | app/admin/email-list/page.tsx:184-191 | View Details alerts the user id; Delete alerts only after confirmation |
| EmailList.EmailListPage.constructor | app/admin/email-list/page.tsx:165 | no menu open |
| EmailList.EmailListPage.HandleActionClick | app/admin/email-list/page.tsx:175-178 | the row's menu closes if open and opens otherwise, and at most that row's menu is open afterwards |
| EmailList.EmailListPage.CloseMenu | app/admin/email-list/page.tsx:180-182 | no menu open |
| EmailList.EmailListPage.ChooseAction | app/admin/email-list/page.tsx:146 | the action's alert is raised and then the menu closes |
| EmailList.EmailListPage.MouseDown | app/admin/email-list/page.tsx:125-135 | a mousedown outside the open dropdown closes it; inside changes nothing |
| EmailList.EmailListPage.ClickActionButton | app/admin/email-list/page.tsx:125-135 | mousedown on the action button, then its click, as written: the row's menu is open afterwards whatever was open before |
| Menus.Toggle | app/admin/users/page.tsx:66 | the next open id is null exactly when the toggled id was open, and otherwise is the toggled id |
| Menus.ToggleTwice | component/tables/Services.tsx:73-75 | toggling twice restores the state exactly when no other menu was open |
| Users.PermissionBadge | app/admin/users/page.tsx:100-126 | Admin teal, Editor blue, User yellow, each labelled with its name |
| Users.BadgesDistinct | app/admin/users/page.tsx:100-126 | different permissions have different colours and labels |
| Users.ToggleNeverClosesAsWritten | app/admin/users/page.tsx:80-96 | as written, clicking the toggle of a rendered open menu leaves it open, although the toggle alone would close it |
| Users.ToggleNeverClosesCounterexample | app/admin/users/page.tsx:64-67 | for user "001" with its menu open, a click on its toggle leaves the menu open |
| Users.MouseDown | app/admin/users/page.tsx:80-96 | corrected listener: a rendered menu closes only on a mousedown outside both the menu and the toggle buttons |
| Users.ClickToggleToggles | app/admin/users/page.tsx:64-67 | with the corrected listener a toggle click closes that row's open menu and opens it otherwise |
| Users.UsersTable.constructor | app/admin/users/page.tsx:58 | no menu open |
| Users.UsersTable.ToggleMenu | app/admin/users/page.tsx:64-67 | the functional toggle of the open id |
| Users.UsersTable.Edit | app/admin/users/page.tsx:69-72 | closes the menu |
| Users.UsersTable.Delete | app/admin/users/page.tsx:74-77 | closes the menu |
| Users.UsersTable.HandleMouseDown | app/admin/users/page.tsx:80-96 | the listener as registered: a rendered menu closes on any mousedown outside the dropdown, the toggle buttons included, and nothing else changes |
| Users.UsersTable.ClickToggleButton | app/admin/users/page.tsx:64-96 | mousedown then click, as written: a rendered open menu of the row stays open, and any other state ends with the row's menu open |
| Services.Badge | component/tables/Services.tsx:33-64 | Approved green, Denial and Reorder red, each labelled with its name |
| Services.BadgeColours | component/tables/Services.tsx:33-64 | two statuses share colours exactly when both or neither are Approved; labels always differ |
| Services.ServiceTable.constructor | component/tables/Services.tsx:70 | no menu open |
| Services.ServiceTable.ToggleMenu | component/tables/Services.tsx:73-75 | the row's menu closes if open and opens otherwise |
| Services.ServiceTable.HandleEdit | component/tables/Services.tsx:78-81 | closes the menu |
| Services.ServiceTable.HandleDelete | component/tables/Services.tsx:83-86 | closes the menu |
| Services.ServiceTable.MouseLeave | component/tables/Services.tsx:118 | leaving the action cell closes every menu |
| InfoCard.ReplaceSpaceRunsHasNoSpace | component/adsandpromotion/InfoCard.tsx:40 | `replace(/\s+/g, '-')` leaves no white space |
| InfoCard.ReplaceSpaceRunsIdentity | component/adsandpromotion/InfoCard.tsx:40 | a title without white space is unchanged |
| InfoCard.ContentId | component/adsandpromotion/InfoCard.tsx:51 | the id is `infocard-content-` followed by text with no white space |
| InfoCard.ContentIdStable | component/adsandpromotion/InfoCard.tsx:40 | replacing the white-space runs a second time changes nothing |
| InfoCard.ReplaceSpaceRunsPrefix | component/adsandpromotion/InfoCard.tsx:40 | a word without white space passes through the replacement unchanged |
| InfoCard.ReplaceSpaceRunsRun | component/adsandpromotion/InfoCard.tsx:40 | a whole white-space run, however long, becomes one hyphen |
| InfoCard.ContentIdCollapsesRuns | component/adsandpromotion/InfoCard.tsx:51 | titles that differ only in the length of a white-space run (such as "Ad  Types" and "Ad Types") get the same id |
| InfoCard.Card.constructor | component/adsandpromotion/InfoCard.tsx:20-23 | open unless `defaultOpen` is passed as false |
| InfoCard.Card.ToggleOpen | component/adsandpromotion/InfoCard.tsx:26-28 | flips the open state |
| InfoCard.Card.Render | component/adsandpromotion/InfoCard.tsx:36-80 | the button controls the content id, its label says Collapse/Expand by state, the content is visible only while open and shows the loading line while loading, and Add New appears only while open with a handler, disabled while loading |

## Left out

- localStorage failures: `getItem`/`setItem`, `JSON.parse` throwing, and the `catch` branches that only log are not modelled. Storage always works, and the stored JSON always parses to a list of the entity.
- The "Failed to update data storage" errors of the category save and delete APIs are not modelled, because they arise only from the failures above. The same holds for the page's `Error deleting category` alert.
- A fetch that rejects is an input (`fetchFails`). The placeholder fetches never reject.
- Network delays (`setTimeout`) and the interleaving of overlapping async handlers are not modelled. Each handler runs to completion.
- `Date.now()` is the parameter `now`, and `window.confirm` is the parameter `confirmed`. Alerts are returned as values.
- `Number(text)` and `String(x)` are abstract parameters. The lemmas that use them assume `JsNumbers.NumberLaws`, so NaN, infinities and formatting are not modelled.
- `toLowerCase` is modelled for ASCII letters only, so non-ASCII case mappings of "error" and "fail" are not covered.
- The `required` and `min` HTML form attributes, the disabled state of buttons while saving, and the overlay clicks that call `onClose` are not modelled. A close is the same `ClosePanel`/`HandleCloseModal` call.
- `EditAdType.AdTypePanel.Submit`: the body of `saveAdTypeApi` is elided in the program (`/* ... */`), so whether it resolves or rejects is the parameter `outcome`, and what it would store is not modelled. The ad type list only changes through other writers.
- `Categories.CategoryPage.LoadData`: the page's effect runs once on mount, so unlike the cards there is no refresh key. The modelled condition for writing the key is the key's absence, not the falsiness of the stored string.
- Rendering beyond the modelled views (CSS classes other than badge colours, icons, transitions, `aria-*` other than the InfoCard's) is left out. So are currency formatting (`Intl.NumberFormat` in the services table), the email-list header cells, and the non-interactive markup.
- The email-list pagination buttons have no handlers and `currentPage` never changes, so only page 1 occurs. `EmailList.FooterBounds` covers every page anyway.
- `EmailList.EmailListPage.ChooseAction`: the detail alert is modelled for the users table only, because only that table offers View Details.
- Only the Duration flow has an end-to-end method (`AdvertisementFlow.SubmitDurationAndRender`). The other three panels connect to their cards the same way, through their own `Save` and `ListCard.Commit` contracts.
- The dashboards, pie chart, sidebar, layout, home page and change-password page are outside this model.

## Findings

| source | as written | input that shows it | evidently intended | confidence | as-written member | corrected member |
|---|---|---|---|---|---|---|
| app/admin/users/page.tsx:64-96 | the document `mousedown` listener closes the open menu whenever the target is outside the dropdown, including the row's own toggle button; the toggle's `click` then reopens it (`stopPropagation` on the click cannot stop the earlier mousedown) | menu of user "001" open, click on that row's toggle button | the toggle closes its own open menu, as `handleToggleMenu` says | medium, not executed | Users.ToggleNeverClosesCounterexample | Users.ClickToggleToggles |
| app/admin/email-list/page.tsx:125-178 | the dropdown's document `mousedown` listener closes the open menu whenever the target is outside the dropdown, including the row's action button; React applies that update before the click, so `handleActionClick` reads no open menu and reopens it | menu of registered user "001" open, click on that row's action button | the action button closes its own open menu, as `handleActionClick` says | medium, not executed | EmailList.ActionClickNeverClosesCounterexample | EmailList.ActionClickToggles |
