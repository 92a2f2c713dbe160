# SkillBridge screens in Dafny

SkillBridge is a React Native marketplace. Service seekers ("employers") find and book local professionals. Providers offer their skills and negotiate prices. This project models the logic inside the app's screens:

- **Price bargaining** (the offer modal and the service detail screen):
  - which role may open or continue a negotiation in which status;
  - how a typed price and message become a pending offer;
  - which response actions an offer shows;
  - which price and labels are displayed.
- **Navigation:** the app's navigation stack and screen dispatch.
- **Lists and records the screens keep in memory and rewrite:**
  - payment methods, with a single default;
  - the provider's services, with status toggling, deletion and totals;
  - added skill services;
  - the profile being edited;
  - the settings record;
  - the two view switches.
- **Validators and small decision functions:**
  - the sign-in and sign-up checks;
  - case-insensitive search filters;
  - the sort of the service listing;
  - the bookings tabs;
  - the FAQ accordion;
  - the onboarding carousel;
  - the home screen's card layout.

There is one Dafny module per screen or component. A few shared modules support them:

- `Wrappers`: `Option`.
- `Text`: JavaScript `trim`, ASCII lower case, `includes`.
- `Seqs`: an order-preserving filter and sums.
- `JsNumbers`: `parseFloat` over exact reals, and `String(n)` for whole numbers.
- `Sorting`: an insertion sort by a key.
- `Types`: the shared records.

The two kinds of source code take different forms:

- **State-changing code:** screen state that handlers rewrite becomes a class with those fields. Each method states the whole new state in terms of the old one.
- **Pure code:** filters, guards and maps become functions. Lemmas relate them: round trips, partitions, invariants a handler keeps, and reference definitions.

## Model

| member | source | states |
|---|---|---|
| Types.Or | src/screens/ServiceDetailScreen.tsx:178 | `x \|\| fallback` on an optional number yields the present value exactly when it is non-zero, else the fallback |
| Types.OrChoices | src/components/BargainModal.tsx:183-186 | a displayed price is either the plain price or a present, non-zero negotiated value; it can be 0 only if the plain price is 0 |
| Types.StatusOrNone | src/screens/ServiceDetailScreen.tsx:129 | an absent bargaining status reads as `none`; a present non-`none` status is kept |
| Types.Truthy | src/screens/ServiceDetailScreen.tsx:87 | JavaScript truthiness of an optional number: present and not zero |
| Types.IsBargaining | src/screens/ServiceDetailScreen.tsx:175 | `bargainingStatus && bargainingStatus !== 'none'`: a present status other than none |
| Text.LeadingSpace | src/components/BargainModal.tsx:54 | the leading run of white space that `trim` drops: all blank, and followed by a non-space |
| Text.TextEnd | src/components/BargainModal.tsx:54 | the end of the text before trailing white space: what follows is blank, and the last kept character is not a space |
| Text.TrimIsSlice | src/components/BargainModal.tsx:54 | `trim` returns a contiguous slice of its input that neither starts nor ends with white space |
| Text.TrimEmptyIffBlank | src/components/BargainModal.tsx:54 | the trimmed text is empty exactly when the input is all white space |
| Text.Trim | src/components/BargainModal.tsx:54 | `trim` is the input from the first to the last non-white-space character (its properties are in `Text.TrimIsSlice` and `Text.TrimEmptyIffBlank`) |
| Text.IsWhiteSpace | src/components/BargainModal.tsx:54 | the characters `trim` removes: the ECMAScript WhiteSpace and LineTerminator code points |
| Text.IsBlank | src/components/BargainModal.tsx:54 | every character is white space, so `trim` gives the empty string |
| Text.ToLower | src/screens/ServiceListingScreen.tsx:97 | lower-casing keeps the length and maps each character on its own |
| Text.LowerChar | src/screens/ServiceListingScreen.tsx:97 | one character of `toLowerCase`: ASCII capitals map to lower case, everything else is kept |
| Text.ContainsAt | src/screens/ServiceListingScreen.tsx:97 | `includes` holds exactly when the query occurs at some position |
| Text.Contains | src/screens/ServiceListingScreen.tsx:97 | `includes`: the query is a prefix of the text or of one of its suffixes |
| Text.OccursAt | src/screens/ServiceListingScreen.tsx:97 | the query is the slice of the text at a given offset |
| Text.Matches | src/screens/ServiceListingScreen.tsx:97 | `text.toLowerCase().includes(query.toLowerCase())` |
| Text.EmptyQueryMatches | src/screens/ServiceListingScreen.tsx:96-99 | the empty query matches every text |
| Text.MatchNeedsLength | src/screens/ServiceListingScreen.tsx:97 | a matching query is no longer than the text it is found in |
| Seqs.Filter | src/screens/ServiceListingScreen.tsx:96 | `filter` returns only passing elements of the list, contains every passing element, and is an order-preserving subsequence |
| Seqs.FilterCounts | src/screens/ServiceListingScreen.tsx:96 | each passing element is kept as often as it occurs in the list, and no other element is kept |
| Seqs.FilterKeepsAll | src/screens/AllCategoriesScreen.tsx:171-174 | when every element passes, the filter returns the whole list |
| Seqs.FilterComplement | src/screens/BookingsScreen.tsx:153-158 | filters by a predicate and by its negation together keep as many elements as the list has |
| Seqs.SumAppend | src/screens/MyServicesScreen.tsx:239 | a `reduce` sum over a concatenation is the sum of the parts |
| Seqs.SumNonNegative | src/screens/MyServicesScreen.tsx:244 | a sum of non-negative terms is non-negative |
| Sorting.Insert | src/screens/ServiceListingScreen.tsx:101-108 | inserting into a sorted list keeps it sorted and adds exactly that element |
| Sorting.SortByKey | src/screens/ServiceListingScreen.tsx:101-108 | the sort returns a permutation of its input, ordered by the key |
| JsNumbers.DigitRun | src/components/BargainModal.tsx:43 | the longest run of leading digits `parseFloat` consumes |
| JsNumbers.ParseFloat | src/components/BargainModal.tsx:43 | `parseFloat`: skips leading white space, reads an optional sign, then the longest decimal literal or `Infinity`, else NaN (checked by the three `ParseFloat…` lemmas) |
| JsNumbers.NumberToString | src/screens/PaymentMethodsScreen.tsx:117 | `String(n)` of a whole number is a non-empty string of digits |
| JsNumbers.NumberToStringRoundTrip | src/screens/PaymentMethodsScreen.tsx:117 | the digits of `String(n)` read back as `n` |
| JsNumbers.NumberToStringInjective | src/screens/PaymentMethodsScreen.tsx:117 | different whole numbers get different strings |
| JsNumbers.ParseFloatOfNumberToString | src/components/BargainModal.tsx:43 | `parseFloat(String(n))` is `n` |
| JsNumbers.ParseFloatInfinity | src/components/BargainModal.tsx:43 | `parseFloat` reads "Infinity" and "-Infinity" as the infinities |
| JsNumbers.ParseFloatEmpty | src/components/BargainModal.tsx:43-44 | an empty price field parses to NaN |
| BargainModal.StatusText | src/components/BargainModal.tsx:64-77 | "No Bargaining" exactly for an absent or `none` status |
| BargainModal.StatusColor | src/components/BargainModal.tsx:79-92 | grey exactly for an absent or `none` status |
| BargainModal.StatusTextInjective | src/components/BargainModal.tsx:64-77 | each status of an open or settled negotiation has its own label |
| BargainModal.CanMakeOfferAsWritten | src/components/BargainModal.tsx:94-97 | the guard as written: status `in_progress`, or status `none` and a seeker |
| BargainModal.CanMakeOffer | src/components/BargainModal.tsx:94-97 | the corrected guard: the written one with an absent status read as `none` |
| BargainModal.CanMakeOfferCases | src/components/BargainModal.tsx:94-97 | the offer form is open exactly while in progress, or to a seeker before bargaining begins; it agrees with the written guard on every present status |
| BargainModal.NoOfferWhenSettledOrPending | src/components/BargainModal.tsx:94-97 | no offer can be made on a pending, accepted or rejected negotiation |
| BargainModal.ProviderCannotOpen | src/components/BargainModal.tsx:94-97 | a provider cannot open a negotiation |
| BargainModal.ValidPriceAsWritten | src/components/BargainModal.tsx:44 | the written check `!(isNaN(price) \|\| price <= 0)`: refuses NaN, zero, negatives and negative infinity, accepts positive infinity |
| BargainModal.ValidOfferPrice | src/components/BargainModal.tsx:44-47 | the corrected check: a finite positive amount |
| BargainModal.AbsentStatusRefusedAsWritten | src/components/BargainModal.tsx:94-97 | as written, a seeker gets no offer form on a service without a status; the corrected guard gives one |
| BargainModal.InfinityPassesAsWritten | src/components/BargainModal.tsx:43-47 | the written check accepts the price "Infinity"; the corrected check refuses it |
| BargainModal.ValidPriceChecksAgree | src/components/BargainModal.tsx:44 | the written and corrected price checks agree on every input except positive infinity |
| BargainModal.OfferMessage | src/components/BargainModal.tsx:54 | the message is absent exactly when the typed text is blank, otherwise it is the trimmed, non-empty text |
| BargainModal.SenderName | src/components/BargainModal.tsx:51 | the offer's `userName`: "Service Provider" for a provider, "You" otherwise |
| BargainModal.BuildOffer | src/components/BargainModal.tsx:42-56 | an offer is produced exactly for a finite positive price; it is pending, from the current user and role, with the parsed price and the trimmed message |
| BargainModal.WholeAmountOffer | src/components/BargainModal.tsx:43-56 | typing a positive whole amount sends an offer of exactly that amount |
| BargainModal.ShowsResponseActions | src/components/BargainModal.tsx:131 | Accept and Reject are shown for a pending offer whose author is not the current user |
| BargainModal.NoSelfAcceptance | src/components/BargainModal.tsx:131 | Accept and Reject are never shown on one's own offer, nor on an offer that is no longer pending |
| BargainModal.OriginalPrice | src/components/BargainModal.tsx:183 | a truthy initial price is shown; otherwise (absent or 0) the plain price is |
| BargainModal.CurrentPrice | src/components/BargainModal.tsx:186 | a truthy negotiated price is shown; otherwise (absent or 0) the plain price is |
| BargainModal.ShowsHistory | src/components/BargainModal.tsx:195 | the history section is shown when the history is present and non-empty |
| BargainModal.OfferSectionTitle | src/components/BargainModal.tsx:206 | "Set Your Price" exactly for status `none` |
| BargainModal.SendButtonText | src/components/BargainModal.tsx:237 | "Set Price & Start Bargaining" exactly for status `none` |
| BargainModal.OfferForm.SetOfferPrice | src/components/BargainModal.tsx:214-215 | typing a price changes only the price field |
| BargainModal.OfferForm.SetOfferMessage | src/components/BargainModal.tsx:226-227 | typing a message changes only the message field |
| BargainModal.OfferForm.SendOffer | src/components/BargainModal.tsx:42-60 | sends the offer built from the fields under the corrected price check of Findings row 2 (the written code also sends an offer for "Infinity"); a refused price leaves both fields, a sent offer clears both |
| ServiceDetail.CanBargainCases | src/screens/ServiceDetailScreen.tsx:144-148 | the button is enabled exactly for a seeker before bargaining begins (absent or `none`), or while pending or in progress; never once accepted or rejected |
| ServiceDetail.CanBargain | src/screens/ServiceDetailScreen.tsx:144-148 | the button guard: an absent or `none` status with a seeker, or a pending or in-progress negotiation |
| ServiceDetail.BargainButtonText | src/screens/ServiceDetailScreen.tsx:128-142 | before bargaining the seeker sees "Set Price & Bargain" and the provider "Bargaining Not Available"; those texts never appear afterwards |
| ServiceDetail.BargainButtonTextInjective | src/screens/ServiceDetailScreen.tsx:132-141 | each status of an open or settled negotiation gives its own button text |
| ServiceDetail.OfferGuardWithinButtonGuard | src/screens/ServiceDetailScreen.tsx:144-148 | whenever the modal accepts an offer the button was enabled; they differ only on a pending negotiation |
| ServiceDetail.ButtonWithoutFormAsWritten | src/screens/ServiceDetailScreen.tsx:144-148 | as written, a seeker on a service without a status gets the bargain button but no offer form |
| ServiceDetail.PriceLabel | src/screens/ServiceDetailScreen.tsx:175 | "Current Price" exactly when bargaining has begun |
| ServiceDetail.ShowsOriginalPrice | src/screens/ServiceDetailScreen.tsx:180 | the original price is shown once bargaining has begun and the initial price is truthy |
| ServiceDetail.DisplayedPrice | src/screens/ServiceDetailScreen.tsx:87 | the price shown and quoted for booking is the modal's current price |
| ServiceDetail.Actions | src/screens/ServiceDetailScreen.tsx:263-296 | one's own service offers Edit and Delete; another's offers Contact first and Book last, with Bargain exactly when bargaining is allowed |
| ServiceDetail.ActionsSeparateRoles | src/screens/ServiceDetailScreen.tsx:263-296 | Edit appears exactly on one's own service, and Contact and Book exactly on another's |
| ServiceDetail.AcceptOffer | src/screens/ServiceDetailScreen.tsx:116-120 | accepting forwards the service id and offer id exactly when a handler is supplied |
| ServiceDetail.RejectOffer | src/screens/ServiceDetailScreen.tsx:122-126 | rejecting forwards the service id and offer id exactly when a handler is supplied |
| ServiceDetail.DetailScreen.HandleBargainPress | src/screens/ServiceDetailScreen.tsx:101-107 | the press goes to the supplied handler, else opens the modal |
| ServiceDetail.DetailScreen.HandleSendOffer | src/screens/ServiceDetailScreen.tsx:109-114 | the offer is forwarded with the service id when a handler exists, and the modal always closes |
| ServiceDetail.DetailScreen.HandleClose | src/screens/ServiceDetailScreen.tsx:317 | closing hides the modal |
| App.Push | App.tsx:31-34 | navigating appends the previous screen to the history and makes the target current |
| App.Back | App.tsx:36-42 | going back pops the last history entry into the current screen, and does nothing on an empty history |
| App.BackAfterPush | App.tsx:31-42 | back after a navigation restores the current screen and the history |
| App.PushAll | App.tsx:31-34 | a run of navigations grows the history by its length and ends on the last target |
| App.BackUndoesPushes | App.tsx:31-42 | as many backs as navigations restore the starting state |
| App.BackTimesShrinks | App.tsx:36-42 | each back shortens the history by one until it is empty |
| App.ViewFor | App.tsx:192-339 | the render switch: each screen name selects its view, and any other name the splash screen |
| App.ScreenName | App.tsx:192-339 | the screen-name string each case of the render switch matches (inverted by `App.ViewFor`, see `App.DispatchRoundTrip`) |
| App.DispatchRoundTrip | App.tsx:192-339 | every view is rendered from its own screen name, and only from that one |
| App.SplashIsDefault | App.tsx:338-339 | exactly the names no case matches render the splash screen |
| App.Target | App.tsx:52-190 | every navigation handler leads to a screen with its own case |
| App.SplashTarget | App.tsx:44-50 | the splash leads to onboarding on first launch and to sign-in otherwise |
| App.AppNavigator.constructor | App.tsx:25-28 | the app starts on the splash screen with an empty history and no selections |
| App.AppNavigator.NavigateToScreen | App.tsx:31-34 | the new state is the push of the old, and the selections are unchanged |
| App.AppNavigator.NavigateBack | App.tsx:36-42 | the new state is the back of the old, and the selections are unchanged |
| App.AppNavigator.HandleSplashFinish | App.tsx:44-50 | the splash target is pushed |
| App.AppNavigator.Handle | App.tsx:52-190 | a navigation handler pushes its target |
| App.AppNavigator.HandleCategoryPress | App.tsx:72-75 | records the category and pushes the listing |
| App.AppNavigator.HandleServicePress | App.tsx:81-85 | records the service and the ownership flag, and pushes the detail screen |
| PaymentMethods.MethodIcon | src/screens/PaymentMethodsScreen.tsx:64-71 | the card icon is for cards and for every unknown type |
| PaymentMethods.TypeName | src/screens/PaymentMethodsScreen.tsx:17 | the three type spellings "card", "bank" and "mobile" |
| PaymentMethods.MethodColor | src/screens/PaymentMethodsScreen.tsx:73-80 | grey exactly for an unknown type |
| PaymentMethods.TypeStylesDistinct | src/screens/PaymentMethodsScreen.tsx:64-80 | the three known types get different icons and different colours, none of them grey |
| PaymentMethods.SummaryBounds | src/screens/PaymentMethodsScreen.tsx:296-309 | the verified and default counts never exceed the number of methods |
| PaymentMethods.DefaultCount | src/screens/PaymentMethodsScreen.tsx:307 | the "Default" figure: the number of default methods |
| PaymentMethods.VerifiedCount | src/screens/PaymentMethodsScreen.tsx:301 | the "Verified" figure: the number of verified methods |
| PaymentMethods.SetDefault | src/screens/PaymentMethodsScreen.tsx:82-88 | a method is default exactly when its id is the chosen one; order, length and all other fields are kept |
| PaymentMethods.SetDefaultLeavesOne | src/screens/PaymentMethodsScreen.tsx:82-88 | with distinct ids, one method is default afterwards if the id is listed, none otherwise |
| PaymentMethods.Delete | src/screens/PaymentMethodsScreen.tsx:102 | every method with the id is removed, and the rest keep their order |
| PaymentMethods.FilterKeepsInvariant | src/screens/PaymentMethodsScreen.tsx:102 | deleting keeps the ids distinct and never adds a default |
| PaymentMethods.NewMethod | src/screens/PaymentMethodsScreen.tsx:116-123 | the added method carries the form's fields; it is unverified, and default exactly when the list was empty |
| PaymentMethods.FormComplete | src/screens/PaymentMethodsScreen.tsx:111-114 | the form is accepted exactly when both name and details are non-empty |
| PaymentMethods.MaxNumericId | src/screens/PaymentMethodsScreen.tsx:117 | bounds every numeric id in the list |
| PaymentMethods.FreshId | src/screens/PaymentMethodsScreen.tsx:117 | the corrected id is not used by any listed method |
| PaymentMethods.FreshIdAgreesWhileNoDelete | src/screens/PaymentMethodsScreen.tsx:117 | while the ids are "1" to "n" in order, the corrected id is the written `String(length + 1)` |
| PaymentMethods.IdAsWritten | src/screens/PaymentMethodsScreen.tsx:117 | the id as written: `String(length + 1)` |
| PaymentMethods.AddWithId | src/screens/PaymentMethodsScreen.tsx:111-125 | an incomplete form changes nothing; a complete one appends exactly one method at the end |
| PaymentMethods.AddAsWritten | src/screens/PaymentMethodsScreen.tsx:110-125 | `addNewMethod` as written, with the id `String(length + 1)` |
| PaymentMethods.Add | src/screens/PaymentMethodsScreen.tsx:110-125 | `addNewMethod` with the corrected id of Findings row 3 |
| PaymentMethods.IdCollisionAsWritten | src/screens/PaymentMethodsScreen.tsx:102-117 | deleting "1" and then adding as written gives two methods with id "3" |
| PaymentMethods.AddKeepsWellFormed | src/screens/PaymentMethodsScreen.tsx:110-125 | the corrected add keeps ids distinct and at most one default |
| PaymentMethods.WellFormed | src/screens/PaymentMethodsScreen.tsx:30-55 | the shape the built-in list has and the corrected operations keep: distinct ids, at most one default |
| PaymentMethods.PaymentMethodsScreen.constructor | src/screens/PaymentMethodsScreen.tsx:30-62 | starts with the three built-in methods, an empty card form and the form hidden |
| PaymentMethods.PaymentMethodsScreen.SetDefaultMethod | src/screens/PaymentMethodsScreen.tsx:82-90 | the list becomes the set-default of the old list, with exactly one default when the id is listed |
| PaymentMethods.PaymentMethodsScreen.DeleteMethod | src/screens/PaymentMethodsScreen.tsx:102 | the list becomes the old list without that id, and the form is unchanged |
| PaymentMethods.PaymentMethodsScreen.SetFormType | src/screens/PaymentMethodsScreen.tsx:211 | changes only the form's type |
| PaymentMethods.PaymentMethodsScreen.SetFormName | src/screens/PaymentMethodsScreen.tsx:234 | changes only the form's name |
| PaymentMethods.PaymentMethodsScreen.SetFormDetails | src/screens/PaymentMethodsScreen.tsx:245 | changes only the form's details |
| PaymentMethods.PaymentMethodsScreen.ToggleAddForm | src/screens/PaymentMethodsScreen.tsx:284 | flips only the form's visibility |
| PaymentMethods.PaymentMethodsScreen.SetShowAddMethod | src/screens/PaymentMethodsScreen.tsx:331 | sets only the form's visibility |
| PaymentMethods.PaymentMethodsScreen.AddNewMethod | src/screens/PaymentMethodsScreen.tsx:110-129 | adds exactly when the form is complete, under the corrected id of Findings row 3 (after a delete the written code can reuse an id); a refused add changes nothing; a successful add resets and hides the form |
| MyServices.Filtered | src/screens/MyServicesScreen.tsx:79-82 | "all" returns every service; a status returns exactly the services with that status, in order |
| MyServices.Passes | src/screens/MyServicesScreen.tsx:79-82 | the filter's test: every service under "all", else exactly the chosen status |
| MyServices.CountStatus | src/screens/MyServicesScreen.tsx:252-255 | the number of services with a status |
| MyServices.CountsCoverAll | src/screens/MyServicesScreen.tsx:252-255 | the active, pending and inactive counts add up to the number of services |
| MyServices.Toggled | src/screens/MyServicesScreen.tsx:93-98 | toggling always changes the status, and gives inactive exactly from active |
| MyServices.ToggleTwice | src/screens/MyServicesScreen.tsx:93-98 | two toggles restore active and inactive, but turn pending into inactive |
| MyServices.ToggleCaption | src/screens/MyServicesScreen.tsx:157 | the button reads "Deactivate" exactly when pressing it makes the service inactive |
| MyServices.ToggleStatus | src/screens/MyServicesScreen.tsx:93-98 | only the services with the id get the toggled status; all else is unchanged |
| MyServices.ToggleTwiceRestores | src/screens/MyServicesScreen.tsx:93-98 | toggling a non-pending service twice restores the list |
| MyServices.Delete | src/screens/MyServicesScreen.tsx:111 | the services with the id are removed, and the rest keep their order |
| MyServices.TotalBookings | src/screens/MyServicesScreen.tsx:239 | the sum of the bookings over all services |
| MyServices.TotalViews | src/screens/MyServicesScreen.tsx:244 | the sum of the views over all services |
| MyServices.ToggleKeepsTotals | src/screens/MyServicesScreen.tsx:239-244 | toggling leaves the booking and view totals unchanged |
| MyServices.DeleteLowersTotals | src/screens/MyServicesScreen.tsx:239-244 | deleting never raises the totals, and they stay non-negative |
| MyServices.StatusColor | src/screens/MyServicesScreen.tsx:84-91 | grey exactly for an unknown status |
| MyServices.BadgeLabel | src/screens/MyServicesScreen.tsx:135-143 | a badge is shown exactly when bargaining has begun; "Bargaining Rejected" exactly for the rejected status |
| MyServices.InitialFigures | src/screens/MyServicesScreen.tsx:35-75 | the built-in services total 13 bookings and 258 views, with 2 active, 1 pending and 0 inactive |
| MyServices.MyServicesScreen.constructor | src/screens/MyServicesScreen.tsx:35-77 | starts with the built-in services and the "all" filter |
| MyServices.MyServicesScreen.SetFilter | src/screens/MyServicesScreen.tsx:202 | changes only the filter |
| MyServices.MyServicesScreen.ToggleServiceStatus | src/screens/MyServicesScreen.tsx:93-98 | the list becomes the toggle of the old one, and the totals are kept |
| MyServices.MyServicesScreen.DeleteService | src/screens/MyServicesScreen.tsx:111 | the list becomes the old list without that id |
| OfferSkills.FilteredCategories | src/screens/OfferSkillsScreen.tsx:68-70 | keeps exactly the categories whose name contains the query, case-insensitively, in order |
| OfferSkills.NameMatches | src/screens/OfferSkillsScreen.tsx:68-70 | the filter's test: the name contains the query, ignoring case |
| OfferSkills.EmptyQueryListsAll | src/screens/OfferSkillsScreen.tsx:33-46 | the empty query lists all twelve categories |
| OfferSkills.NewService | src/screens/OfferSkillsScreen.tsx:78-85 | the new service carries the typed fields and no images |
| OfferSkills.FormComplete | src/screens/OfferSkillsScreen.tsx:73-76 | the form is accepted exactly when title, description, price and category are all non-empty |
| OfferSkills.OfferSkillsScreen.constructor | src/screens/OfferSkillsScreen.tsx:57-66 | starts with no services, an empty form and the form hidden |
| OfferSkills.OfferSkillsScreen.ServicesOffered | src/screens/OfferSkillsScreen.tsx:193 | the "Services Offered" stat: the number of added services |
| OfferSkills.OfferSkillsScreen.SetSearchQuery | src/screens/OfferSkillsScreen.tsx:157 | changes only the query |
| OfferSkills.OfferSkillsScreen.SetShowAddService | src/screens/OfferSkillsScreen.tsx:143 | changes only the form's visibility |
| OfferSkills.OfferSkillsScreen.SetForm | src/screens/OfferSkillsScreen.tsx:225-262 | changes only the form |
| OfferSkills.OfferSkillsScreen.HandleAddService | src/screens/OfferSkillsScreen.tsx:72-91 | adds exactly when all four fields are filled, appending one service and clearing and hiding the form; the stat grows by one exactly then |
| EditProfile.WithField | src/screens/EditProfileScreen.tsx:49-51 | sets the field and leaves every other field unchanged |
| EditProfile.WithFieldLaws | src/screens/EditProfileScreen.tsx:49-51 | writing back a field's own value changes nothing, and a later write to a field overrides an earlier one |
| EditProfile.RemoveAt | src/screens/EditProfileScreen.tsx:178-183 | drops exactly the element at the index and keeps the order of the rest |
| EditProfile.RemoveFirstInitialSpecialty | src/screens/EditProfileScreen.tsx:22-30 | removing the first built-in specialty leaves Plumbing and Electrical |
| EditProfile.EditProfileScreen.constructor | src/screens/EditProfileScreen.tsx:22-32 | starts on the built-in profile, not editing |
| EditProfile.EditProfileScreen.InputsEnabled | src/screens/EditProfileScreen.tsx:97 | the inputs are editable, and the remove buttons rendered (line 178), exactly while editing |
| EditProfile.EditProfileScreen.HandleEdit | src/screens/EditProfileScreen.tsx:40-42 | turns editing on |
| EditProfile.EditProfileScreen.HandleSave | src/screens/EditProfileScreen.tsx:34-38 | turns editing off and hands the current profile to the save callback |
| EditProfile.EditProfileScreen.HandleCancel | src/screens/EditProfileScreen.tsx:44-47 | turns editing off and goes back without saving |
| EditProfile.EditProfileScreen.UpdateField | src/screens/EditProfileScreen.tsx:49-51 | only while editing (the inputs are editable only then, line 97): the profile gets the new field value |
| EditProfile.EditProfileScreen.RemoveSpecialty | src/screens/EditProfileScreen.tsx:178-183 | only while editing, on a rendered specialty: one specialty fewer, exactly the pressed one gone |
| Settings.ResetIsInitial | src/screens/SettingsScreen.tsx:317-330 | the reset values are exactly the initial settings, and they cover every key |
| Settings.Update | src/screens/SettingsScreen.tsx:49-51 | sets the key and leaves all other settings unchanged |
| Settings.Toggled | src/screens/SettingsScreen.tsx:96-227 | a row's switch updates its own setting, and a switch with no setting changes nothing |
| Settings.HasPressHandler | src/screens/SettingsScreen.tsx:264 | a row is pressable exactly when it is a navigation or action row |
| Settings.Shown | src/screens/SettingsScreen.tsx:281 | a switch shows its bound setting, or its fixed value |
| Settings.RowsLayout | src/screens/SettingsScreen.tsx:53-258 | 21 rows; exactly navigation and action rows are pressable, and exactly toggle rows carry a switch value |
| Settings.EachKeyHasSwitch | src/screens/SettingsScreen.tsx:53-258 | every setting has a row whose switch shows it |
| Settings.NoKeyHasTwoSwitches | src/screens/SettingsScreen.tsx:53-258 | no setting is shown by two rows |
| Settings.FixedTogglesAreInert | src/screens/SettingsScreen.tsx:124-141 | Booking Reminders and Payment Alerts always show on, and flipping them changes nothing |
| Settings.SettingsScreen.constructor | src/screens/SettingsScreen.tsx:34-47 | starts with the initial settings |
| Settings.SettingsScreen.UpdateSetting | src/screens/SettingsScreen.tsx:49-51 | the settings become the update of the old ones |
| Settings.SettingsScreen.ToggleRow | src/screens/SettingsScreen.tsx:279-282 | the settings become what the row's switch makes of them |
| Settings.SettingsScreen.ResetSettings | src/screens/SettingsScreen.tsx:307-335 | the settings are the initial ones again |
| ViewToggle.HandleProviderToggle | src/components/ViewToggleSettings.tsx:26-36 | the callback runs exactly when the employer view is on; otherwise the provider view is refused |
| ViewToggle.HandleEmployerToggle | src/components/ViewToggleSettings.tsx:38-48 | the callback runs exactly when the provider view is on; otherwise the employer view is refused |
| ViewToggle.ProviderSwitchDisabled | src/components/ViewToggleSettings.tsx:73 | the provider switch is disabled exactly while the employer view is off |
| ViewToggle.EmployerSwitchDisabled | src/components/ViewToggleSettings.tsx:93 | the employer switch is disabled exactly while the provider view is off |
| ViewToggle.DisabledExactlyWhenRefused | src/components/ViewToggleSettings.tsx:73-93 | each switch is disabled exactly when its press would be refused |
| ViewToggle.PressKeepsAView | src/components/ViewToggleSettings.tsx:26-48 | with some view on, any press leaves some view on, and a refused press changes nothing |
| ViewToggle.SomeViewOn | src/components/ViewToggleSettings.tsx:26-48 | at least one of the provider and employer views is on |
| ViewToggle.PressProvider | src/components/ViewToggleSettings.tsx:26-36 | the provider switch flips the provider view unless the press is refused |
| ViewToggle.PressEmployer | src/components/ViewToggleSettings.tsx:38-48 | the employer switch flips the employer view unless the press is refused |
| ViewToggle.SomeViewAlwaysOn | src/components/ViewToggleSettings.tsx:26-48 | after any run of presses some view is still on |
| ViewToggle.PressAll | src/components/ViewToggleSettings.tsx:26-48 | the view flags after a run of switch presses |
| ViewToggle.ProviderStatus | src/components/ViewToggleSettings.tsx:103 | "Provider Active" exactly when the provider view is on |
| ViewToggle.EmployerStatus | src/components/ViewToggleSettings.tsx:108 | "Employer Active" exactly when the employer view is on |
| Auth.LoginSuccessIff | src/screens/AuthScreen.tsx:31-35 | sign-in succeeds exactly with email and password filled; any failure is the missing-fields one |
| Auth.SignUpSuccessIff | src/screens/AuthScreen.tsx:37-57 | sign-up succeeds exactly when all required fields are filled, the passwords match and the password has at least 6 characters |
| Auth.ChecksInOrder | src/screens/AuthScreen.tsx:38-51 | a missing field is reported before a mismatch, and a mismatch before a short password |
| Auth.UncheckedFields | src/screens/AuthScreen.tsx:29-58 | the phone number and intent never affect the outcome, and sign-in ignores the sign-up fields |
| Auth.Validate | src/screens/AuthScreen.tsx:29-58 | `handleAuth`'s early-return cascade: the first failing check, else success |
| Auth.ErrorMessage | src/screens/AuthScreen.tsx:33-49 | the alert text of each failure |
| Auth.AuthScreen.constructor | src/screens/AuthScreen.tsx:20-27 | starts in sign-in mode with empty fields |
| Auth.AuthScreen.SwitchMode | src/screens/AuthScreen.tsx:230 | flips only the mode |
| Auth.AuthScreen.SetForm | src/screens/AuthScreen.tsx:89-149 | the field setters change the fields and not the mode |
| Auth.AuthScreen.HandleAuth | src/screens/AuthScreen.tsx:29-58 | the outcome is the validation of the form, and the login callback runs exactly on success |
| ServiceListing.PriceDigits | src/screens/ServiceListingScreen.tsx:106 | keeps only digits and '.', in order |
| ServiceListing.PriceKey | src/screens/ServiceListingScreen.tsx:106 | the number `parseFloat` reads from the kept characters of a price |
| ServiceListing.SortKey | src/screens/ServiceListingScreen.tsx:101-108 | the comparator as an ascending key: negated rating, price, negated reviews |
| ServiceListing.Filtered | src/screens/ServiceListingScreen.tsx:96-99 | keeps exactly the services whose title or provider contains the query, case-insensitively, in order |
| ServiceListing.ServiceMatches | src/screens/ServiceListingScreen.tsx:96-99 | the filter's test: title or provider contains the query, ignoring case |
| ServiceListing.EmptyQueryKeepsAll | src/screens/ServiceListingScreen.tsx:96-99 | the empty query keeps every service |
| ServiceListing.Sorted | src/screens/ServiceListingScreen.tsx:101-108 | a permutation of the filtered list: ratings and review counts non-increasing, or numeric prices non-decreasing |
| ServiceListing.PriceKeyOf | src/screens/ServiceListingScreen.tsx:106 | a price whose kept characters spell a whole number sorts by that number |
| ServiceListing.MockPricesParse | src/screens/ServiceListingScreen.tsx:106 | each built-in price sorts by its dollar amount, the "/hr" or "/job" unit dropped |
| ServiceListing.MockPrice | src/screens/ServiceListingScreen.tsx:106 | a price "$" d1 d2 followed by a unit without digits or dots sorts by the two-digit amount |
| ServiceListing.UnitDropped | src/screens/ServiceListingScreen.tsx:106 | a unit without digits or dots is removed entirely by the price-character filter |
| ServiceListing.DollarPrice | src/screens/ServiceListingScreen.tsx:106 | "$" followed by two digits and a unit keeps exactly the two digits |
| AllCategories.Filtered | src/screens/AllCategoriesScreen.tsx:171-174 | keeps exactly the categories whose name or description contains the query, case-insensitively, in order |
| AllCategories.CategoryMatches | src/screens/AllCategoriesScreen.tsx:171-174 | the filter's test: name or description contains the query, ignoring case |
| AllCategories.EmptyQueryKeepsAll | src/screens/AllCategoriesScreen.tsx:171-174 | the empty query keeps every category |
| AllCategories.Statistics | src/screens/AllCategoriesScreen.tsx:244-249 | the statistics read 16 categories and 235 services |
| AllCategories.TotalIsCountSum | src/screens/AllCategoriesScreen.tsx:249 | the total over the categories is the sum of their service counts |
| AllCategories.TotalServices | src/screens/AllCategoriesScreen.tsx:249 | the reduce sum of `serviceCount` (its value is in `AllCategories.Statistics`) |
| AllCategories.ListCounts | src/screens/AllCategoriesScreen.tsx:23-152 | the built-in categories carry, in order, the sixteen listed service counts |
| AllCategories.CountsTotal | src/screens/AllCategoriesScreen.tsx:249 | the sixteen built-in service counts add up to 235 |
| Messages.Filtered | src/screens/MessagesScreen.tsx:79-82 | keeps exactly the conversations whose sender or service title contains the query, in order |
| Messages.TitleMatches | src/screens/MessagesScreen.tsx:81 | the optional-chained title test: an absent title never matches, a present one matches case-insensitively |
| Messages.MessageMatches | src/screens/MessagesScreen.tsx:79-82 | the filter's test: the sender's name or a present title contains the query, ignoring case |
| Messages.ShownIff | src/screens/MessagesScreen.tsx:79-82 | a conversation is shown exactly when its sender matches or it has a title that matches |
| Messages.UntitledMatchesOnName | src/screens/MessagesScreen.tsx:81 | a conversation without a service title matches on the sender alone |
| Messages.EmptyQueryKeepsAll | src/screens/MessagesScreen.tsx:79-82 | the empty query keeps every conversation |
| HelpSupport.Filtered | src/screens/HelpSupportScreen.tsx:84-89 | keeps exactly the questions in the category whose question or answer contains the query, in order |
| HelpSupport.InCategory | src/screens/HelpSupportScreen.tsx:85 | `matchesCategory`: "all" or the question's own category |
| HelpSupport.SearchMatches | src/screens/HelpSupportScreen.tsx:86-87 | `matchesSearch`: question or answer contains the query, ignoring case |
| HelpSupport.IsExpanded | src/screens/HelpSupportScreen.tsx:109 | an answer is open exactly when its id is the expanded one |
| HelpSupport.AllCategoriesEmptyQuery | src/screens/HelpSupportScreen.tsx:31-89 | "all" with an empty query lists all eight questions in order |
| HelpSupport.FaqHeader | src/screens/HelpSupportScreen.tsx:224 | the title is the fixed prefix, a number and a closing parenthesis |
| HelpSupport.HeaderCountsList | src/screens/HelpSupportScreen.tsx:224 | the number in the title is the length of the list |
| HelpSupport.ToggleFaq | src/screens/HelpSupportScreen.tsx:91-93 | pressing the open question closes it; pressing any other opens that one |
| HelpSupport.ToggleTwice | src/screens/HelpSupportScreen.tsx:91-93 | two presses on one question restore the accordion |
| HelpSupport.FaqIdsDistinct | src/screens/HelpSupportScreen.tsx:31-80 | the built-in questions have distinct ids |
| HelpSupport.AtMostOneExpanded | src/screens/HelpSupportScreen.tsx:91-93 | at most one built-in answer is open at a time |
| HelpSupport.HelpSupportScreen.constructor | src/screens/HelpSupportScreen.tsx:27-29 | starts with no search, the "all" category and nothing open |
| HelpSupport.HelpSupportScreen.Listed | src/screens/HelpSupportScreen.tsx:84-89 | the list shown is a subsequence of the questions |
| HelpSupport.HelpSupportScreen.SetSearchQuery | src/screens/HelpSupportScreen.tsx:176-179 | changes only the search |
| HelpSupport.HelpSupportScreen.SelectCategory | src/screens/HelpSupportScreen.tsx:124 | changes only the category |
| HelpSupport.HelpSupportScreen.ToggleFaqItem | src/screens/HelpSupportScreen.tsx:91-93 | the open question becomes the toggle of the old one |
| Bookings.ParseStatus | src/screens/BookingsScreen.tsx:19 | reads back exactly the five status spellings, and nothing else |
| Bookings.StatusName | src/screens/BookingsScreen.tsx:19 | the five status spellings (inverted by `Bookings.ParseStatus`, see `Bookings.ParseStatusName`) |
| Bookings.ParseStatusName | src/screens/BookingsScreen.tsx:19 | every status reads back from its spelling |
| Bookings.StatusColor | src/screens/BookingsScreen.tsx:72-81 | grey exactly for a string that is not a status |
| Bookings.StatusIcon | src/screens/BookingsScreen.tsx:83-92 | the question-mark icon exactly for a string that is not a status |
| Bookings.BadgesDistinct | src/screens/BookingsScreen.tsx:72-92 | different statuses get different colours and different icons |
| Bookings.ExtraAction | src/screens/BookingsScreen.tsx:131-145 | an extra button exactly for pending, confirmed and completed bookings |
| Bookings.Upcoming | src/screens/BookingsScreen.tsx:153-155 | exactly the pending, confirmed and in-progress bookings, in order |
| Bookings.Past | src/screens/BookingsScreen.tsx:156-158 | exactly the completed and cancelled bookings, in order |
| Bookings.IsUpcoming | src/screens/BookingsScreen.tsx:153-155 | pending, confirmed or in-progress |
| Bookings.IsPast | src/screens/BookingsScreen.tsx:156-158 | completed or cancelled |
| Bookings.TabsPartition | src/screens/BookingsScreen.tsx:153-158 | the two tabs are disjoint, cover every booking, and their counts add up |
| Bookings.Listed | src/screens/BookingsScreen.tsx:153-158 | a booking listed under a tab belongs to that tab and not the other |
| Bookings.MockTabCounts | src/screens/BookingsScreen.tsx:185-193 | the built-in bookings give tabs of 2 and 1 |
| Onboarding.NextIndex | src/screens/OnboardingScreen.tsx:63-69 | Next moves to the following slide, and finishes exactly on the last one |
| Onboarding.PreviousIndex | src/screens/OnboardingScreen.tsx:71-75 | Previous moves back one slide, and stays on the first |
| Onboarding.PreviousUndoesNext | src/screens/OnboardingScreen.tsx:63-75 | Previous undoes Next wherever Next does not finish |
| Onboarding.NextReachesFinish | src/screens/OnboardingScreen.tsx:63-69 | from any slide, Next visits each later slide in turn and finishes on the press after the last |
| Onboarding.AfterNextPresses | src/screens/OnboardingScreen.tsx:63-69 | the slide after k presses of Next, or finished |
| Onboarding.ShowsPrevious | src/screens/OnboardingScreen.tsx:138 | the Previous button is rendered exactly after the first slide |
| Onboarding.NextCaption | src/screens/OnboardingScreen.tsx:146 | "Get Started" exactly on the last slide, "Next" otherwise |
| Onboarding.Dots | src/screens/OnboardingScreen.tsx:90-100 | one dot per slide, active exactly at the current index |
| Onboarding.DotWidth | src/screens/OnboardingScreen.tsx:90-100 | a dot is 20 or 8 wide |
| Onboarding.DotColor | src/screens/OnboardingScreen.tsx:96 | white for the active dot, translucent white otherwise |
| Onboarding.OneActiveDot | src/screens/OnboardingScreen.tsx:90-100 | exactly one dot is active, and it is wide and white |
| Onboarding.OnboardingScreen.constructor | src/screens/OnboardingScreen.tsx:49 | starts on the first slide |
| Onboarding.OnboardingScreen.ScrollToNext | src/screens/OnboardingScreen.tsx:63-69 | finishes exactly on the last slide, and otherwise moves to the next index |
| Onboarding.OnboardingScreen.ScrollToPrevious | src/screens/OnboardingScreen.tsx:71-75 | moves to the previous index |
| Onboarding.OnboardingScreen.Skip | src/screens/OnboardingScreen.tsx:114 | Skip finishes from any slide |
| Onboarding.OnboardingScreen.ViewableItemsChanged | src/screens/OnboardingScreen.tsx:53-57 | the first visible slide becomes current; nothing visible changes nothing |
| MainScreen.FeatureCards | src/screens/MainScreen.tsx:67-101 | each enabled view adds its card, and the rating and payment cards always close the list |
| MainScreen.VisibleCardsCount | src/screens/MainScreen.tsx:23 | the count is between 2 and 4 |
| MainScreen.LayoutByCount | src/screens/MainScreen.tsx:29-36 | two cards stacked at full width, three or four cards in a 48% grid |
| MainScreen.CountMatchesCards | src/screens/MainScreen.tsx:23 | the count the layout uses is the number of cards rendered |
| MainScreen.CardLayout | src/screens/MainScreen.tsx:26-43 | the layout is vertical exactly when the cards are full width |
| MainScreen.LayoutCases | src/screens/MainScreen.tsx:26-43 | both views give 4 cards in a 48% grid; one view gives 3 cards and none gives 2, each in a full-width column |
| MainScreen.ThreeCardGridNeverShown | src/screens/MainScreen.tsx:29-43 | the three-card grid is always overridden |
| MainScreen.CtaText | src/screens/MainScreen.tsx:107-112 | the three texts for both views, employer only, and otherwise |
| MainScreen.CtaButton | src/screens/MainScreen.tsx:114-123 | "Find Services" exactly for an employer, "Offer Skills" exactly for a provider-only user, and no button with neither view |
| MainScreen.CtaButtonHasCard | src/screens/MainScreen.tsx:67-123 | the button leads to a feature whose card is shown |

## Left out

- **Negotiation state transitions.** The screens do not update the negotiated price, the bargaining status or the offer history. They only forward offers, acceptances and rejections to optional callbacks, which App.tsx never supplies. No transition engine is invented. The id and timestamp of an offer come from an unseen caller.
- **Persistence.** Storing the first-launch flag is AsyncStorage I/O, which is not part of this model. `isFirstLaunch` is an input to the splash routing. The navigation history and the two view flags are plain state.
- **Static screens.** The terms, privacy, profile and service discovery screens are static content; `src/context/AppContext.tsx` is not part of this model. Their only logic, a section accordion, is the one modelled for the help screen.
- **Formatting.** Neither `toFixed` formatting of prices and ratings nor date formatting is modelled. Date-valued fields are dropped from the records, and the displayed price of a provider's service is not modelled.
- **Clocks.** `Date.now()` is a parameter of `OfferSkills.OfferSkillsScreen.HandleAddService`.
- **Strings.** Strings are sequences of characters, not UTF-16 code units. `toLowerCase` is ASCII only.
- JsNumbers.ParseFloat: computes on exact reals; double rounding, overflow to infinity and negative zero are not modelled.
- JsNumbers.NumberToString: covers whole numbers only. JavaScript switches to exponent notation from 10^21, which is not modelled.
- ServiceListing.PriceKey: `parseFloat` of the kept characters is taken as 0 when it is NaN. Every built-in price parses to a finite number, so this never matters there.
- BargainModal.OfferForm.SendOffer: uses the corrected price check of Findings row 2, so it sends nothing for "Infinity", where the written code sends an offer priced Infinity.
- PaymentMethods.PaymentMethodsScreen.AddNewMethod: uses the corrected id of Findings row 3, so after deleting "1" it adds "4", where the written code adds a second "3".
- **Set as Default on the default method.** The option is disabled for the method that is already the default (src/screens/PaymentMethodsScreen.tsx:157-159). The model does not represent this alert option.
- ServiceListing.Sorted: states order and permutation, not the stability of JavaScript's sort among equal keys.
- **UI plumbing.** `Alert` dialogs are modelled as the confirmed action simply happening, and console-logging handlers are left out. In App.tsx, the search and edit handlers do nothing and are not modelled. React rendering, styles, `Modal` and keyboard handling are not modelled.
- Onboarding.OnboardingScreen.ScrollToNext: `scrollToIndex` and the viewability callback are modelled as an immediate update of the index.
- EditProfile.EditProfileScreen.RemoveSpecialty: requires an index within the list, because the button exists only for rendered specialties.
- **Settings screen.** The view-toggle wiring of the settings screen is the `ViewToggle` module applied to the two flags.
- **Offer skills screen.** The category selection there is only state; the screen derives nothing from it.
- **Type mismatch.** The booking status of `src/types/index.ts:61` has no in-progress value, while the bookings screen uses one. `Bookings` follows the screen.

## Findings

| source | as written | input that shows it | evidently intended | confidence | as-written member | corrected member |
|---|---|---|---|---|---|---|
| src/components/BargainModal.tsx:94-97 | the offer form opens for status `none` or `in_progress` only, so an absent status is refused | a seeker opens the modal on a service with no `bargainingStatus`; the detail screen (src/screens/ServiceDetailScreen.tsx:144-148) enabled the button, but no offer form appears | an absent status reads as `none`, as on the detail screen; the section title and button text (src/components/BargainModal.tsx:206, 237) still compare with `none` as written (`BargainModal.OfferSectionTitle`, `BargainModal.SendButtonText`), so with an absent status the corrected form opens headed "Make an Offer" with a "Send Offer" button, not "Set Your Price" and "Set Price & Start Bargaining" | high, not executed | BargainModal.AbsentStatusRefusedAsWritten | BargainModal.CanMakeOfferCases |
| src/components/BargainModal.tsx:43-44 | the check `isNaN(price) \|\| price <= 0` lets positive infinity through | price text "Infinity" | only finite positive amounts become offers | high, not executed | BargainModal.InfinityPassesAsWritten | BargainModal.BuildOffer |
| src/screens/PaymentMethodsScreen.tsx:102,117 | a new method's id is `String(length + 1)` | delete method "1", then add a method: the list holds two methods with id "3" | ids stay distinct (one more than the largest numeric id) | high, not executed | PaymentMethods.IdCollisionAsWritten | PaymentMethods.AddKeepsWellFormed |
