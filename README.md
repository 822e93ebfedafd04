# Personal portfolio editor: a verified model

This project models, in Dafny, the core of a personal-portfolio web
application. The owner edits a profile document that has a "web2" and a
"web3" face. A public page shows the profile, and a one-time e-mail code
unlocks the editor.

The model covers:

- **The profile editor engine** (`ProfileContext.tsx`). It keeps two copies
  of the profile document: the draft being edited and the last saved copy.
  - It adds, updates and deletes social links, sections, content blocks and
    tech-stack items.
  - It merges partial updates into personal info, display settings and the
    background.
  - It saves, discards, exports and imports.
  - "Unsaved changes" compares the JSON of the two copies.
  - Every edit is a pure `prev → next` function in `ProfileOps`. The
    provider class `ProfileContext.ProfileProvider` applies these functions
    to its fields.
  - `ProfileInvariants` proves which edits keep the document's invariants:
    sections are well typed, ids are unique, and `order` fields equal list
    positions.
- **The template document and its helpers** (`defaultProfile.ts`). This
  covers the starting profile, `createEmptyProfile` and the format of
  `generateId`.
- **The social-platform table and the URL normaliser** (`socialPlatforms.ts`).
- **The one-time-code store and its expiry sweep** (`otpStore.tsx`). The
  store is a class over a map, and the sweep deletes entries in place in a
  loop.
- **The verify-otp route** (`verify-otp/route.ts`). This is the cascade of
  early returns that checks a code, with the store updated in place. The
  method is proved against a pure decision function.
- **The preview page's rules** (`app/page.tsx`):
  - which mode it opens in;
  - when it offers the mode toggle;
  - which layout it renders and how it lists sections;
  - how it follows the editor's saves through storage events.

The following are parameters of the model:

- The JSON codec: `serialize`, `serializePretty` and
  `parse: string -> Option<Profile>`.
- The clock reading.
- The random id suffix.
- The JWT signer: `sign: string -> Option<string>`.
- The configured admin address.

Files: `wrappers.dfy`, `types.dfy`, `keyed_lists.dfy`, `profile_ops.dfy`,
`profile_invariants.dfy`, `profile_context.dfy`, `default_profile.dfy`,
`social_platforms.dfy`, `otp_store.dfy`, `verify_otp.dfy`,
`preview_page.dfy`.

## Model

| member | source | states |
|---|---|---|
| ProfileOps.UpdatePersonalInfo | your-personal-portfolio/contexts/ProfileContext.tsx:113-121 | personal info becomes the field-wise merge of the patch into the old one; nothing else in the profile changes |
| ProfileOps.UpdateDisplaySettings | your-personal-portfolio/contexts/ProfileContext.tsx:161-169 | display settings become the field-wise merge; nothing else changes |
| ProfileOps.UpdateBackground | your-personal-portfolio/contexts/ProfileContext.tsx:364-375 | the background becomes the field-wise merge; accent and text colours and everything else are unchanged |
| ProfileOps.AddSocialLink | your-personal-portfolio/contexts/ProfileContext.tsx:127-139 | exactly one link is appended, with order equal to the old length; the old links are an unchanged prefix; only the link list changes |
| ProfileOps.UpdateSocialLink | your-personal-portfolio/contexts/ProfileContext.tsx:141-148 | same length; each link with the id becomes the merge, every other link stays in place unchanged |
| ProfileOps.DeleteSocialLink | your-personal-portfolio/contexts/ProfileContext.tsx:150-155 | a link survives if and only if it was there and its id differs |
| ProfileOps.AddSection | your-personal-portfolio/contexts/ProfileContext.tsx:175-192 | one section is appended at the end of that mode, with order equal to the old length; the other mode and all top-level fields are unchanged |
| ProfileOps.UpdateSection | your-personal-portfolio/contexts/ProfileContext.tsx:194-203 | same length; the matching sections become the merge, the others stay unchanged; only that mode changes |
| ProfileOps.DeleteSection | your-personal-portfolio/contexts/ProfileContext.tsx:205-212 | a section of that mode survives if and only if its id differs; only that mode changes |
| ProfileOps.AddContentBlock | your-personal-portfolio/contexts/ProfileContext.tsx:218-244 | only sections with the id and a `contentBlocks` list get the new block appended with order equal to the list's length; every other section is unchanged |
| ProfileOps.UpdateContentBlock | your-personal-portfolio/contexts/ProfileContext.tsx:246-268 | only the addressed section's block list is updated by id; every other section and the other mode are unchanged |
| ProfileOps.DeleteContentBlock | your-personal-portfolio/contexts/ProfileContext.tsx:270-285 | only the addressed section's block list is filtered by id; everything else is unchanged |
| ProfileOps.AddTechStack | your-personal-portfolio/contexts/ProfileContext.tsx:291-317 | only sections with the id and a `techStack` list get the new item appended with order equal to the list's length |
| ProfileOps.UpdateTechStack | your-personal-portfolio/contexts/ProfileContext.tsx:319-341 | only the addressed section's tech list is updated by id; everything else is unchanged |
| ProfileOps.DeleteTechStack | your-personal-portfolio/contexts/ProfileContext.tsx:343-358 | only the addressed section's tech list is filtered by id; everything else is unchanged |
| ProfileOps.ModeScopedFrame | your-personal-portfolio/contexts/ProfileContext.tsx:175-358 | a mode-scoped edit keeps the other mode, personal info, links, display settings, theme and id |
| KeyedLists.MapWhere | your-personal-portfolio/contexts/ProfileContext.tsx:226-240 | the `map` rewrite keeps length and positions, rewriting exactly the hit elements |
| KeyedLists.UpdateById | your-personal-portfolio/contexts/ProfileContext.tsx:144-146 | same length; the elements with the id are merged with the patch, the rest are unchanged |
| KeyedLists.RemoveById | your-personal-portfolio/contexts/ProfileContext.tsx:153 | survivors are elements of the input with a different id; every element with a different id survives; the multiset only shrinks |
| KeyedLists.RemoveByIdAppend | your-personal-portfolio/contexts/ProfileContext.tsx:153 | filtering distributes over concatenation, so survivors keep their relative order |
| KeyedLists.RemoveIsIdempotent | your-personal-portfolio/contexts/ProfileContext.tsx:153 | deleting the same id twice is the same as once |
| KeyedLists.RemoveKeepsDistinct | your-personal-portfolio/contexts/ProfileContext.tsx:153 | filtering keeps ids distinct |
| KeyedLists.RemoveAbsentId | your-personal-portfolio/contexts/ProfileContext.tsx:153 | filtering out an absent id returns the list unchanged |
| KeyedLists.UpdateAbsentId | your-personal-portfolio/contexts/ProfileContext.tsx:144-146 | updating an absent id returns the list unchanged |
| KeyedLists.UpdateKeepsDistinct | your-personal-portfolio/contexts/ProfileContext.tsx:144-146 | an update whose merge keeps ids keeps ids distinct |
| KeyedLists.UpdateKeepsOrders | your-personal-portfolio/contexts/ProfileContext.tsx:144-146 | an update whose merge keeps orders keeps orders equal to positions |
| KeyedLists.AppendKeepsOrders | your-personal-portfolio/contexts/ProfileContext.tsx:127-139 | appending an element whose order is the old length keeps orders equal to positions |
| KeyedLists.AppendKeepsDistinct | your-personal-portfolio/contexts/ProfileContext.tsx:127-139 | appending an element with a fresh id keeps ids distinct |
| KeyedLists.MapWhereKeepsDistinct | your-personal-portfolio/contexts/ProfileContext.tsx:226-240 | a `map` whose rewrite keeps ids keeps them distinct |
| KeyedLists.MapWhereKeepsOrders | your-personal-portfolio/contexts/ProfileContext.tsx:226-240 | a `map` whose rewrite keeps orders keeps them equal to positions |
| ProfileInvariants.AddSocialLinkKeepsTidy | your-personal-portfolio/contexts/ProfileContext.tsx:127-139 | with a fresh id, adding a link keeps the profile well typed, unique and numbered 0..n |
| ProfileInvariants.UpdateSocialLinkKeepsTidy | your-personal-portfolio/contexts/ProfileContext.tsx:141-148 | a patch that sets neither id nor order keeps every invariant |
| ProfileInvariants.DeleteSocialLinkKeepsIds | your-personal-portfolio/contexts/ProfileContext.tsx:150-155 | deleting keeps types and unique ids, and the id is gone afterwards |
| ProfileInvariants.DeleteSocialLinkKeepsRelativeOrder | your-personal-portfolio/contexts/ProfileContext.tsx:150-155 | deleting from a split list is deleting from each part, in order |
| ProfileInvariants.DeleteAbsentSocialLink | your-personal-portfolio/contexts/ProfileContext.tsx:150-155 | deleting an unknown link id leaves the profile unchanged |
| ProfileInvariants.UpdateAbsentSocialLink | your-personal-portfolio/contexts/ProfileContext.tsx:141-148 | updating an unknown link id leaves the profile unchanged |
| ProfileInvariants.AddSectionKeepsTidy | your-personal-portfolio/contexts/ProfileContext.tsx:175-192 | with a fresh id and a well-formed new section, adding keeps every invariant |
| ProfileInvariants.UpdateSectionKeepsTidy | your-personal-portfolio/contexts/ProfileContext.tsx:194-203 | a patch that rewrites no id, order, type or child list keeps every invariant |
| ProfileInvariants.DeleteSectionKeepsIds | your-personal-portfolio/contexts/ProfileContext.tsx:205-212 | deleting a section keeps types and unique ids |
| ProfileInvariants.DeleteSectionLeavesGap | your-personal-portfolio/contexts/ProfileContext.tsx:205-212 | deleting the first of two numbered sections leaves the survivor with order 1 at position 0: nothing renumbers |
| ProfileInvariants.DeleteAbsentSection | your-personal-portfolio/contexts/ProfileContext.tsx:205-212 | deleting an unknown section id changes nothing |
| ProfileInvariants.UpdateAbsentSection | your-personal-portfolio/contexts/ProfileContext.tsx:194-203 | updating an unknown section id changes nothing |
| ProfileInvariants.AddContentBlockKeepsTidy | your-personal-portfolio/contexts/ProfileContext.tsx:218-244 | with a fresh block id, adding a block keeps every invariant |
| ProfileInvariants.UpdateContentBlockKeepsTidy | your-personal-portfolio/contexts/ProfileContext.tsx:246-268 | a patch that sets neither id nor order keeps every invariant |
| ProfileInvariants.DeleteContentBlockKeepsIds | your-personal-portfolio/contexts/ProfileContext.tsx:270-285 | deleting a block keeps types and unique ids |
| ProfileInvariants.BlockOpsOnMissingSection | your-personal-portfolio/contexts/ProfileContext.tsx:226-240 | when no section has the id and a block list, every block operation leaves the profile unchanged |
| ProfileInvariants.AddTechStackKeepsTidy | your-personal-portfolio/contexts/ProfileContext.tsx:291-317 | with a fresh item id, adding an item keeps every invariant |
| ProfileInvariants.UpdateTechStackKeepsTidy | your-personal-portfolio/contexts/ProfileContext.tsx:319-341 | a patch that sets neither id nor order keeps every invariant |
| ProfileInvariants.DeleteTechStackKeepsIds | your-personal-portfolio/contexts/ProfileContext.tsx:343-358 | deleting an item keeps types and unique ids |
| ProfileInvariants.TechOpsOnMissingSection | your-personal-portfolio/contexts/ProfileContext.tsx:299-313 | when no section has the id and a tech list, every tech operation leaves the profile unchanged |
| ProfileInvariants.PersonalMergeLaws | your-personal-portfolio/contexts/ProfileContext.tsx:113-121 | the personal merge is idempotent, the empty patch is the identity, and two merges are one composed merge |
| ProfileInvariants.DisplayMergeLaws | your-personal-portfolio/contexts/ProfileContext.tsx:161-169 | the same laws for the display-settings merge |
| ProfileInvariants.BackgroundMergeLaws | your-personal-portfolio/contexts/ProfileContext.tsx:364-375 | the same laws for the background merge |
| Wrappers.ThenOverride | your-personal-portfolio/contexts/ProfileContext.tsx:113-121 | spreading two patches one after the other is spreading their composition |
| ProfileContext.ProfileProvider.constructor | your-personal-portfolio/contexts/ProfileContext.tsx:81-87 | both copies start as the template and the mode as web2 |
| ProfileContext.ProfileProvider.HasUnsavedChanges | your-personal-portfolio/contexts/ProfileContext.tsx:90 | equal copies are never dirty; with an injective serialiser, dirty holds exactly when the copies differ |
| ProfileContext.ProfileProvider.LoadOnMount | your-personal-portfolio/contexts/ProfileContext.tsx:96-107 | a present stored value that parses becomes both copies; otherwise neither changes |
| ProfileContext.ProfileProvider.SaveChanges | your-personal-portfolio/contexts/ProfileContext.tsx:381-389 | the draft's JSON is stored, the saved copy becomes the draft, and nothing is unsaved |
| ProfileContext.ProfileProvider.DiscardChanges | your-personal-portfolio/contexts/ProfileContext.tsx:391-396 | the draft becomes the saved copy, so nothing is unsaved |
| ProfileContext.ProfileProvider.ExportProfile | your-personal-portfolio/contexts/ProfileContext.tsx:402-404 | returns the draft's pretty JSON and changes no state |
| ProfileContext.ProfileProvider.ImportProfile | your-personal-portfolio/contexts/ProfileContext.tsx:406-416 | a parsing string becomes both copies and is stored as given; a failing one changes nothing |
| ProfileContext.ProfileProvider.UpdatePersonalInfo | your-personal-portfolio/contexts/ProfileContext.tsx:113-121 | the draft becomes ProfileOps.UpdatePersonalInfo applied to the old draft; the saved copy, mode and storage are untouched |
| ProfileContext.ProfileProvider.AddSection | your-personal-portfolio/contexts/ProfileContext.tsx:175-192 | the draft becomes ProfileOps.AddSection applied to the old draft; the saved copy, mode and storage are untouched |
| ProfileContext.ProfileProvider.SetCurrentMode | your-personal-portfolio/contexts/ProfileContext.tsx:87 | the editing mode becomes the given one; nothing else changes |
| ProfileContext.ProfileProvider.UpdateDisplaySettings | your-personal-portfolio/contexts/ProfileContext.tsx:161-169 | the draft becomes ProfileOps.UpdateDisplaySettings applied to the old draft; the saved copy, mode and storage are untouched |
| ProfileContext.ProfileProvider.UpdateBackground | your-personal-portfolio/contexts/ProfileContext.tsx:364-375 | the draft becomes ProfileOps.UpdateBackground applied to the old draft; the saved copy, mode and storage are untouched |
| ProfileContext.ProfileProvider.AddSocialLink | your-personal-portfolio/contexts/ProfileContext.tsx:127-139 | the draft becomes ProfileOps.AddSocialLink applied to the old draft; the saved copy, mode and storage are untouched |
| ProfileContext.ProfileProvider.UpdateSocialLink | your-personal-portfolio/contexts/ProfileContext.tsx:141-148 | the draft becomes ProfileOps.UpdateSocialLink applied to the old draft; the saved copy, mode and storage are untouched |
| ProfileContext.ProfileProvider.DeleteSocialLink | your-personal-portfolio/contexts/ProfileContext.tsx:150-155 | the draft becomes ProfileOps.DeleteSocialLink applied to the old draft; the saved copy, mode and storage are untouched |
| ProfileContext.ProfileProvider.UpdateSection | your-personal-portfolio/contexts/ProfileContext.tsx:194-203 | the draft becomes ProfileOps.UpdateSection applied to the old draft; the saved copy, mode and storage are untouched |
| ProfileContext.ProfileProvider.DeleteSection | your-personal-portfolio/contexts/ProfileContext.tsx:205-212 | the draft becomes ProfileOps.DeleteSection applied to the old draft; the saved copy, mode and storage are untouched |
| ProfileContext.ProfileProvider.AddContentBlock | your-personal-portfolio/contexts/ProfileContext.tsx:218-244 | the draft becomes ProfileOps.AddContentBlock applied to the old draft; the saved copy, mode and storage are untouched |
| ProfileContext.ProfileProvider.UpdateContentBlock | your-personal-portfolio/contexts/ProfileContext.tsx:246-268 | the draft becomes ProfileOps.UpdateContentBlock applied to the old draft; the saved copy, mode and storage are untouched |
| ProfileContext.ProfileProvider.DeleteContentBlock | your-personal-portfolio/contexts/ProfileContext.tsx:270-285 | the draft becomes ProfileOps.DeleteContentBlock applied to the old draft; the saved copy, mode and storage are untouched |
| ProfileContext.ProfileProvider.AddTechStack | your-personal-portfolio/contexts/ProfileContext.tsx:291-317 | the draft becomes ProfileOps.AddTechStack applied to the old draft; the saved copy, mode and storage are untouched |
| ProfileContext.ProfileProvider.UpdateTechStack | your-personal-portfolio/contexts/ProfileContext.tsx:319-341 | the draft becomes ProfileOps.UpdateTechStack applied to the old draft; the saved copy, mode and storage are untouched |
| ProfileContext.ProfileProvider.DeleteTechStack | your-personal-portfolio/contexts/ProfileContext.tsx:343-358 | the draft becomes ProfileOps.DeleteTechStack applied to the old draft; the saved copy, mode and storage are untouched |
| ProfileContext.SaveThenDiscard | your-personal-portfolio/contexts/ProfileContext.tsx:381-396 | save followed by discard leaves the draft as it was, with nothing unsaved |
| ProfileContext.EditThenDiscard | your-personal-portfolio/contexts/ProfileContext.tsx:90-396 | after a personal-info edit of an unmodified profile, the change shows as unsaved exactly when the merge changed the personal info (injective serialiser); a discard then restores the saved copy, with nothing unsaved |
| ProfileContext.ExportThenImport | your-personal-portfolio/contexts/ProfileContext.tsx:402-416 | with a codec that round-trips, export then import keeps the profile and leaves nothing unsaved |
| ProfileContext.MountWithoutStorage | your-personal-portfolio/contexts/ProfileContext.tsx:81-107 | with nothing stored, the provider holds the tidy template and nothing is unsaved |
| DefaultProfile.TemplateIsWellTyped | your-personal-portfolio/lib/defaultProfile.ts:35-128 | every template section fills only the collection its type names |
| DefaultProfile.TemplateIsNumbered | your-personal-portfolio/lib/defaultProfile.ts:41-127 | template section and block orders equal their list positions |
| DefaultProfile.TemplateHasUniqueIds | your-personal-portfolio/lib/defaultProfile.ts:36-121 | template section and block ids are distinct within each list |
| DefaultProfile.TemplateIdsAreDistinct | your-personal-portfolio/lib/defaultProfile.ts:36-121 | all eleven section and block ids of the template are distinct |
| DefaultProfile.TemplateIdsAreTheTemplatesIds | your-personal-portfolio/lib/defaultProfile.ts:36-121 | the ids the template document carries (links, then each mode's sections each followed by its blocks and tech items) are exactly the eleven listed ids, in that order |
| DefaultProfile.TemplateIdsAreDistinctAcrossCollections | your-personal-portfolio/lib/defaultProfile.ts:36-121 | no id occurs twice anywhere in the template, across lists and modes |
| DefaultProfile.TemplateIsTidy | your-personal-portfolio/lib/defaultProfile.ts:7-143 | the template satisfies all three document invariants |
| DefaultProfile.CreateEmptyProfile | your-personal-portfolio/lib/defaultProfile.ts:149-164 | keeps the template's display settings, theme and personal info, empties links and both modes, id `profile-<time>` |
| DefaultProfile.EmptyProfileIsTidy | your-personal-portfolio/lib/defaultProfile.ts:149-164 | an empty profile satisfies every invariant |
| DefaultProfile.GenerateId | your-personal-portfolio/lib/defaultProfile.ts:170-172 | the id starts with `prefix-`, has a dash after the time digits and ends with the suffix |
| DefaultProfile.GeneratedIdsDiffer | your-personal-portfolio/lib/defaultProfile.ts:170-172 | ids generated with the same prefix and suffix at different clock readings differ |
| DefaultProfile.EmptyProfileIdsDiffer | your-personal-portfolio/lib/defaultProfile.ts:149-152 | empty profiles created at different clock readings get different ids |
| DefaultProfile.Decimal | your-personal-portfolio/lib/defaultProfile.ts:152 | the printed time is a non-empty string of decimal digits without a leading zero, and the digits denote the number printed |
| DefaultProfile.DecimalIsInjective | your-personal-portfolio/lib/defaultProfile.ts:152 | different numbers print differently |
| SocialPlatforms.PlatformsListedOnce | your-personal-portfolio/lib/socialPlatforms.ts:18-113 | each of the twelve platforms has exactly one table entry |
| SocialPlatforms.Find | your-personal-portfolio/lib/socialPlatforms.ts:120 | `find` returns nothing exactly when no entry matches, otherwise the first match |
| SocialPlatforms.FindFirst | your-personal-portfolio/lib/socialPlatforms.ts:120 | `find` returns the first entry whose id matches |
| SocialPlatforms.GetPlatformConfig | your-personal-portfolio/lib/socialPlatforms.ts:119-121 | always found, and it is the platform's unique entry |
| SocialPlatforms.Includes | your-personal-portfolio/lib/socialPlatforms.ts:143 | `includes` holds exactly when the pattern occurs at some position |
| SocialPlatforms.ReplaceFirst | your-personal-portfolio/lib/socialPlatforms.ts:143 | a leading pattern is replaced; a string without the pattern is unchanged |
| SocialPlatforms.FormatSocialUrl | your-personal-portfolio/lib/socialPlatforms.ts:127-149 | the result ends with the input; email without `mailto:` gets it; a non-email URL with a scheme is returned unchanged |
| SocialPlatforms.NonEmailPrefixesAreHttps | your-personal-portfolio/lib/socialPlatforms.ts:18-113 | every non-email platform's prefix starts with `https://` |
| SocialPlatforms.BareInputGetsPrefix | your-personal-portfolio/lib/socialPlatforms.ts:143-148 | a non-email input with no scheme that does not name the host gets the platform prefix |
| SocialPlatforms.HostInputGetsHttps | your-personal-portfolio/lib/socialPlatforms.ts:142-145 | a non-email input with no scheme that names the platform's host gets only `https://` in front |
| SocialPlatforms.GitHubUserName | your-personal-portfolio/lib/socialPlatforms.ts:148-152 | github `username` becomes `https://github.com/username` |
| SocialPlatforms.FormatIsIdempotent | your-personal-portfolio/lib/socialPlatforms.ts:127-149 | for a non-email platform, formatting twice equals formatting once |
| SocialPlatforms.EmailMailtoIsDoubled | your-personal-portfolio/lib/socialPlatforms.ts:133-148 | as written, an email input already starting with `mailto:` gets a second `mailto:` |
| SocialPlatforms.EmailFormatNotIdempotent | your-personal-portfolio/lib/socialPlatforms.ts:133-148 | as written, for every email input without `mailto:`, formatting twice differs from formatting once |
| SocialPlatforms.FormatSocialUrlFixed | your-personal-portfolio/lib/socialPlatforms.ts:127-149 | the corrected normaliser keeps an email with `mailto:` and agrees with the original elsewhere |
| SocialPlatforms.FormatFixedIsIdempotent | your-personal-portfolio/lib/socialPlatforms.ts:127-149 | the corrected normaliser is idempotent on every platform |
| Otp.Live | your-personal-portfolio/lib/otpStore.tsx:13-20 | the kept entries are a subset of the old ones, unchanged and unexpired; every unexpired entry is kept, every expired one dropped |
| Otp.LiveIsIdempotent | your-personal-portfolio/lib/otpStore.tsx:13-20 | sweeping twice at the same instant equals sweeping once |
| Otp.LiveAtLaterInstant | your-personal-portfolio/lib/otpStore.tsx:13-20 | two sweeps equal one sweep at the later instant, in either order |
| Otp.OtpStore.constructor | your-personal-portfolio/lib/otpStore.tsx:10 | the store starts empty |
| Otp.OtpStore.CleanExpiredOtps | your-personal-portfolio/lib/otpStore.tsx:13-20 | the in-place loop leaves exactly the live entries of the old map |
| VerifyOtp.Post | your-personal-portfolio/app/api/auth/verify-otp/route.ts:19-92 | success only for the admin address with a live stored code equal to the one given, and the token is the signer's; no entry is added or altered; only the requester's entry can go |
| VerifyOtp.HandlePost | your-personal-portfolio/app/api/auth/verify-otp/route.ts:19-92 | the route's early-return cascade, mutating the store, answers and leaves the store exactly as the decision function says |
| VerifyOtp.UnauthorizedLeavesStore | your-personal-portfolio/app/api/auth/verify-otp/route.ts:28-34 | a non-admin address gets 403 and the store is untouched |
| VerifyOtp.MissingCodeLeavesStore | your-personal-portfolio/app/api/auth/verify-otp/route.ts:37-45 | no stored code gives 400 `No OTP found` and the store is untouched |
| VerifyOtp.ExpiredIsDeleted | your-personal-portfolio/app/api/auth/verify-otp/route.ts:51-58 | an expired code is deleted and refused with 400, whatever code was given |
| VerifyOtp.WrongCodeKeepsEntry | your-personal-portfolio/app/api/auth/verify-otp/route.ts:61-67 | a wrong code on a live entry gives 400 and keeps the entry |
| VerifyOtp.RightCodeSignsIn | your-personal-portfolio/app/api/auth/verify-otp/route.ts:72-83 | the right code on a live entry signs in and deletes the entry |
| VerifyOtp.CodesAreSingleUse | your-personal-portfolio/app/api/auth/verify-otp/route.ts:37-83 | after a successful sign-in, a second request for the same address gets `No OTP found` |
| PreviewPage.ChooseMode | app/page.tsx:31-38 | the default view (web2 if absent) unless it is hidden and the other mode is shown, in which case the other mode |
| PreviewPage.ChosenModeIsShown | app/page.tsx:31-38 | whenever some mode is shown, the chosen mode is shown |
| PreviewPage.DefaultKeptUnlessHidden | app/page.tsx:31-38 | the default is kept exactly when it is shown or both modes are hidden |
| PreviewPage.ShowToggle | app/page.tsx:81 | the toggle is offered exactly when every mode is shown |
| PreviewPage.ToggleMeansDefaultView | app/page.tsx:31-81 | when the toggle is offered, the page opens on the default view |
| PreviewPage.LayoutFor | app/page.tsx:87-99 | left and right layouts exactly for their names; a missing or empty name gives the default layout |
| PreviewPage.InsertByOrder | app/page.tsx:117 | inserting into an order-sorted list keeps it sorted and adds exactly one element |
| PreviewPage.SortByOrder | app/page.tsx:115-117 | the sort by `order` yields a sorted permutation of the input |
| PreviewPage.SortKeepsSortedList | app/page.tsx:115-117 | the sort leaves an already sorted list as it is, equal orders included |
| PreviewPage.InsertGoesFirstAmongEquals | app/page.tsx:117 | an inserted element goes ahead of every element of equal order |
| PreviewPage.SortIsStable | app/page.tsx:115-117 | the sort is stable: sorted, a permutation, and elements of equal order keep their relative order |
| PreviewPage.PositionsAreRenderedInPlace | app/page.tsx:115-117 | a list whose orders are its positions is shown in stored order |
| PreviewPage.ViewOf | app/page.tsx:120-147 | tech sections with a tech list show that list, content sections with blocks show their blocks sorted, and any other section shows nothing |
| PreviewPage.SectionViews | app/page.tsx:115-149 | the views are those of a stable sort of the mode's sections by order: every section viewed once, sorted, equal orders in stored order |
| PreviewPage.NumberedProfileRendersInPlace | app/page.tsx:115-149 | in a well-typed numbered profile the page shows one view per section, the i-th being the i-th stored section's own view (title, tech items or blocks), none empty, with content blocks in stored order |
| PreviewPage.TypedSectionsAreShown | app/page.tsx:120-147 | a well-typed section always shows something |
| PreviewPage.LoadProfile | app/page.tsx:22-46 | a present stored profile that parses replaces the shown one and the mode is chosen afresh; otherwise nothing changes |
| PreviewPage.LoadedModeIsShown | app/page.tsx:22-46 | after loading a profile that shows some mode, the page is on a shown mode |
| PreviewPage.OnStorage | app/page.tsx:52-61 | a parsing non-empty value under `portfolio-profile` replaces the profile; the mode never changes; any other event changes nothing |
| PreviewPage.StorageEventCanLeaveHiddenMode | app/page.tsx:52-61 | a storage event whose profile hides the current mode leaves the page on that hidden mode |

## Left out

- JSON encoding, decoding and shape checking are parameters. `importProfile` and the loaders accept whatever `JSON.parse` returns, with no shape validation. The model's `parse` yields a `Profile` or fails, so ill-shaped JSON is not modelled.
- `localStorage` is the `stored` field of the provider. The preview page's reads of storage are parameters. Cross-tab delivery of events is not modelled.
- Console logging, React hooks, context wiring and listener registration are left out. Functional `setProfile(prev => …)` updates are modelled as sequential method calls.
- `Date.now()` and `Math.random()` are parameters: the clock reading and the random id suffix. Each add operation takes its new id as a parameter, and the invariant lemmas require it to be fresh.
- Reordering sections, inserting after a given section, and a two-argument `updatePersonalInfo` are called from editor components. They are not defined in the profile context, so they are not part of this model.
- `addSection` appends the new section at the end of the mode's list with `order` equal to the old length (your-personal-portfolio/contexts/ProfileContext.tsx:175-192); there is no insertion at the start or after a given section.
- Deletes never renumber the survivors' `order`, so a delete that is not the last leaves a gap (`ProfileInvariants.DeleteSectionLeavesGap`).
- `saveChanges` and `importProfile` assume the `localStorage` write succeeds. In the code, a throwing write in `saveChanges` leaves `savedProfile` unchanged, while in `importProfile` it happens after both copies are set and the error is only logged; neither failure is modelled.
- ProfileOps.AddContentBlock, ProfileOps.AddTechStack: every section whose id matches gets the same new child id, whereas the code calls `generateId` once per matching section. The two differ only when two sections share an id, which `UniqueIds` excludes.
- Extra record fields not used by the engine are not modelled: `customOptions`, `enableGlassEffect`, `layoutType` and per-mode background and personal info. Numbers are modelled as unbounded integers; fractional `order`, `speed` and `density` values are not modelled.
- PreviewPage.LayoutFor: the page reads `layoutType` from the per-mode record, which the engine's document shape does not carry. The rule is therefore stated on an optional string, and with the engine's shape it always yields the default layout.
- PreviewPage.LoadProfile: a stored `defaultView` of any value other than `web2` or `web3`, and a parsed profile without `displaySettings`, are outside the typed model.
- In the preview page, `contentBlocks.sort` sorts the stored array in place. The model sorts a copy, which is what the page renders.
- Rendering is left out: the layouts, the background and border components, the profile card and the glass effect.
- The verify-otp route's request body fields are `Option<string>`. A field that is present but not a string, such as a numeric code, is not modelled.
- JWT creation is the `sign` parameter, and `None` stands for a signing failure. That failure happens after the entry has been deleted and gives a 500 answer.
- The send-otp route that fills the store, session verification and logout are not part of this model.

## Findings

| source | as written | input that shows it | evidently intended | confidence | as-written member | corrected member |
|---|---|---|---|---|---|---|
| your-personal-portfolio/lib/socialPlatforms.ts:133-148 | an email input that already starts with `mailto:` skips the first branch and falls to the prefix branch, which prepends the email prefix `mailto:` again | `formatSocialUrl('email', 'mailto:a@b.c')` gives `mailto:mailto:a@b.c` | an email already carrying `mailto:` is returned unchanged, so that formatting is idempotent | not executed | SocialPlatforms.EmailMailtoIsDoubled | SocialPlatforms.FormatFixedIsIdempotent |
