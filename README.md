# FindYourCo core, modelled in Dafny

FindYourCo is a web app that matches startup founders with prospective
co-founders and employees. This project models the logic at its centre:

- **Match normaliser.** `structureMatchOutput` turns one scored match
  from the language model, plus the profile rows fetched for it, into the
  card the UI shows. It has an employee branch, a startup branch and a
  fallback.
- **Matching service.** `findSimilarEmployeesForFounder` and
  `findSimilarStartupsForEmployee` do four things: they gate on the
  caller's role, join the candidate tables, cut the JSON array out of the
  model's reply, and sort the result by fit. Any thrown error becomes `[]`.
- **Post feed.** `getPostsWithUserDetails` orders posts newest first and
  collects the distinct author ids. It builds the profile and detail
  dictionaries and attaches an author's profile, role and details to
  each post.
- **Profile service.** It holds the role predicates and the null-returning
  lookup of the logged-in user's profile.
- **Pages.** Each page's state machine or list transform is modelled:
  - the search and category filter of the Matches page;
  - the sort and colour tiers of the Matchings page;
  - the skill list of PostIdea and the tag toggle of CreatePost;
  - the display name, handle, avatar and theme of the Layout shell;
  - the per-chat messages of the Chat page and the assistant of the
    AIChat page;
  - the two-step founder and employee onboarding wizards.

Shared modules model the JavaScript primitives the code relies on, with
JavaScript's own edge cases:

- `Text`: the string functions.
  - `trim` with its whitespace set, plus ASCII `toUpperCase`/`toLowerCase`.
  - `split` on one character and `join` (`"".split(",")` is `[""]`).
  - `indexOf` and `lastIndexOf`, which return `-1` when the character is
    absent.
  - `slice` with its negative-index rules.
  - `includes`.
- `Lists`: the list functions `filter`, `find` and `slice(0, n)`, dedupe
  through a `Set`, and `filter(x => x !== v)`.
- `StableSort`: the sort of ES2019 and later, which is stable. It is
  given both as a functional specification and as an in-place insertion
  sort on an array.
- `Store`: the database rows and the `.eq(...).single()` lookups.

Module by module, the code's form is mirrored:

- Pure code is functions and lemmas.
- React state is a class whose methods are the handlers. Each
  asynchronous handler is split into a `Begin…` method and a
  `Complete…` method, and the outcome the backend returns is a parameter.
  A timer is a pending queue that a `ReplyFires` method pops.
- The loops that fill dictionaries and sort in place are methods with
  loop invariants.

## Model

| member | source | states |
|---|---|---|
| MatchCard.StructureMatchOutput | frontend/src/services/structureMatchOutput.js:1-61 | The card is verified exactly when the employee branch or the startup branch applies. The employee branch wins when both apply. The returned percentage is the model's fit, the avatar has at most 2 characters, and the id comes from the branch taken. |
| MatchCard.EmployeeCardFields | frontend/src/services/structureMatchOutput.js:3-23 | Employee card: name and bio come from the profile. Role is `recommendedRole`, else `current_position`, else `'employee'`. Skills, previous companies and interests are the skills row's fields, each `[]` when that field or the whole row is missing. Location is the city/country join of the profile, empty iff both are empty. Education is the profile's, else `""`. The avatar is that of the profile's name, `'??'` for a nameless card. |
| MatchCard.StartupCardFields | frontend/src/services/structureMatchOutput.js:25-45 | Startup card: `interests` is `[industry]`, or `[]` when there is no industry. `previousCompanies` is `[]` and role is `suggestedRole` or `'founder'`. Bio is the pitch, else the description, else `""`. Skills are the tech stack or `[]`. The avatar is that of the startup's name, `'??'` for a nameless card. Location and education are the founder's city/country join and background, or `""` without a founder row. |
| MatchCard.FallbackCardFields | frontend/src/services/structureMatchOutput.js:47-61 | Fallback card: unverified, avatar `'??'`. The id is the employee id, else the startup id, else `""`. All other fields are empty. |
| MatchCard.Present | frontend/src/services/structureMatchOutput.js:13 | `filter(Boolean)` keeps only non-empty parts and never adds any. |
| MatchCard.LocationSpec | frontend/src/services/structureMatchOutput.js:13-35 | The location is `""` iff neither part is given. It is the one part when only one is given, and `city + ", " + country` when both are. |
| MatchCard.Initials | frontend/src/services/structureMatchOutput.js:20-42 | One initial at most per token. |
| MatchCard.InitialsOfTokens | frontend/src/services/structureMatchOutput.js:20-42 | For non-empty tokens, the initials are exactly the first characters, in order. |
| MatchCard.Avatar | frontend/src/services/structureMatchOutput.js:19-43 | The avatar has at most 2 characters and is `'??'` for a missing or empty name. |
| MatchCard.AvatarOfWords | frontend/src/services/structureMatchOutput.js:19-21 | For a name of space-separated non-empty words, the avatar is the uppercased first letters of the first one or two words. |
| MatchCard.JoinNonEmpty | frontend/src/services/structureMatchOutput.js:20 | Joining parts whose first part is non-empty gives a non-empty string. |
| MatchCard.AvatarOfSpaces | frontend/src/services/structureMatchOutput.js:19-21 | A name made only of spaces is truthy but has no initials, so its avatar is `""`. |
| MatchCard.SpacesHaveNoInitials | frontend/src/services/structureMatchOutput.js:20 | Splitting a string of spaces on `' '` gives only empty tokens, so there are no initials. |
| MatchCard.AvatarTwoWords | frontend/src/services/structureMatchOutput.js:19-21 | `"First Last"` gives the two uppercased initials. |
| MatchCard.AvatarOneWord | frontend/src/services/structureMatchOutput.js:19-21 | A one-word name gives its uppercased first letter. |
| MatchingService.EmployeesWithSkills | frontend/src/services/matchingService.js:51-54 | Same length and order as the employees. Each entry's skills are the first skills row naming that employee, or none iff no row names it. |
| MatchingService.StartupsWithFounders | frontend/src/services/matchingService.js:187-193 | Same length and order as the startups. Each entry's founder is the first founder row with that id, or none iff there is none. |
| MatchingService.ExtractArray | frontend/src/services/matchingService.js:124-126 | The slice sent to `JSON.parse` is no longer than the reply. |
| MatchingService.ExtractArrayBracketed | frontend/src/services/matchingService.js:124-126 | When a `[` comes no later than the last `]`, the slice is exactly the text from the first `[` to the last `]` inclusive. |
| MatchingService.ExtractArrayUnbracketed | frontend/src/services/matchingService.js:124-126 | Otherwise the slice is `""` or `"]"`, and it is `""` when the reply has no `]`. |
| MatchingService.Caller | frontend/src/services/matchingService.js:9-20 | The caller is accepted iff it is signed in and has a profile with the required role. Each failure (not signed in, no profile, wrong role) has its own error. |
| MatchingService.FounderPayload | frontend/src/services/matchingService.js:23-60 | The payload carries the founder row or nothing. With a founder whose id is non-empty, the startup sent is that founder's startup lookup; otherwise no startup is sent. The employees are joined with their skills. |
| MatchingService.FounderInput | frontend/src/services/matchingService.js:9-60 | The founder payload is built iff the caller passes the gate and both candidate tables can be read. A gate failure is passed on unchanged. |
| MatchingService.EmployeeInput | frontend/src/services/matchingService.js:145-202 | The employee payload is built iff the gate, the employee row, its skills row and both startup tables all succeed. It carries those rows and the startups joined with their founders. |
| MatchingService.Scored | frontend/src/services/matchingService.js:114-129 | A model error becomes a Gemini failure. The result is parsed iff the reply's bracketed slice parses, and a parse failure becomes a parse error. |
| MatchingService.ScoredNeedsBrackets | frontend/src/services/matchingService.js:124-139 | A successful parse came from the first-`[`-to-last-`]` slice. A reply with no `]` always fails to parse. |
| MatchingService.SortByFit | frontend/src/services/matchingService.js:131 | Sorting in place yields the stable descending sort by `fitPercentage`: a permutation whose fit never increases. |
| MatchingService.FindSimilarEmployeesForFounder | frontend/src/services/matchingService.js:5-140 | Any failure yields `[]`. Success yields the parsed matches sorted by fit. A rejected caller causes only lookups, and the employee pool is read iff the gate passes. The model is called iff the payload was built. |
| MatchingService.FindSimilarStartupsForEmployee | frontend/src/services/matchingService.js:141-284 | Same as the founder direction, for employees. The startup pool is read only after the gate passes. |
| PostFeed.NewestFirst | frontend/src/lib/supabaseClient.js:55-58 | The posts are a permutation of the table, ordered so that `created_at` never increases. |
| PostFeed.AuthorIds | frontend/src/lib/supabaseClient.js:62 | The author ids are exactly the truthy `user_id`s of the posts. |
| PostFeed.UserIds | frontend/src/lib/supabaseClient.js:62 | Each truthy `user_id` appears exactly once, and nothing else appears. |
| PostFeed.LastByKeyKeys | frontend/src/lib/supabaseClient.js:74-96 | A dictionary filled by `forEach` has exactly the keys of the rows. |
| PostFeed.LastByKeyIsLast | frontend/src/lib/supabaseClient.js:74-96 | Each key maps to the last row with that key. |
| PostFeed.IndexBy | frontend/src/lib/supabaseClient.js:74-96 | The `forEach` loop builds that dictionary. |
| PostFeed.IdsWithRole | frontend/src/lib/supabaseClient.js:80-81 | The ids are exactly those of the profiles with the given role. |
| PostFeed.RolePartition | frontend/src/lib/supabaseClient.js:80-81 | With distinct profile ids, the employee and founder id lists are disjoint. Together they hold exactly the ids of the employee and founder profiles. |
| PostFeed.Attach | frontend/src/lib/supabaseClient.js:99-114 | The entry keeps the post. It has a profile iff its `user_id` is in the profile map. `role` is the profile's role or null. `userDetails` is the detail row for that role when one exists, and null otherwise. |
| PostFeed.AttachAll | frontend/src/lib/supabaseClient.js:99-115 | One entry per post, in order. |
| PostFeed.AuthorProfileFound | frontend/src/lib/supabaseClient.js:62-100 | A post finds a profile iff its `user_id` is truthy and some profile row has that `auth_user_id`. |
| PostFeed.GetPostsWithUserDetails | frontend/src/lib/supabaseClient.js:53-118 | A posts error gives `{null, error}`. No author ids gives the ordered posts unchanged. A profile error gives `{null, profileError}`. Otherwise each ordered post gets its profile, role and details, with a missing detail table read as `[]`. |
| ProfileService.GetLoggedInUserProfile | frontend/src/services/profileService.js:3-17 | The result is null when there is no session or the query fails. It is the signed-in user's row iff exactly one row matches. |
| ProfileService.RolePredicates | frontend/src/services/profileService.js:19-25 | `isEmployee` and `isFounder` are never both true, and both are false for a missing profile. Each holds iff the role says so. |
| Store.OrElse | frontend/src/services/structureMatchOutput.js:9 | `v \|\| fallback` is `v` when it is a non-empty string, and the fallback otherwise. |
| Store.Single | frontend/src/services/matchingService.js:14-19 | `.single()` succeeds iff exactly one row matches, and then yields that row. |
| Store.ProfileOfUser | frontend/src/services/matchingService.js:14-19 | A row is found iff the table read succeeds and exactly one profile row whose `auth_user_id` is the signed-in user exists, and the row found is that one. |
| Store.FounderOfProfile | frontend/src/services/matchingService.js:23-27 | A row is found iff the table read succeeds and exactly one founder row whose `profile_id` is the profile exists, and the row found is that one. |
| Store.StartupOfFounder | frontend/src/services/matchingService.js:30-38 | A row is found iff the table read succeeds and exactly one startup row whose `founder_profile_id` is the founder exists, and the row found is that one. |
| Store.EmployeeOfProfile | frontend/src/services/matchingService.js:159-164 | A row is found iff the table read succeeds and exactly one employee row whose `profile_id` is the profile exists, and the row found is that one. |
| Store.SkillsOfEmployee | frontend/src/services/matchingService.js:167-172 | A row is found iff the table read succeeds and exactly one skills row whose `employee_profile_id` is the employee exists, and the row found is that one. |
| MatchesPage.ClearFilters | frontend/src/pages/Matches.js:363-366 | Clear Filters gives search `""` and filter `'all'`. |
| MatchesPage.FilteredCoFounders | frontend/src/pages/Matches.js:124-145 | The kept people are an order-preserving subsequence, each passing both the search and the category. Everyone who passes both is kept. |
| MatchesPage.FilteredCoFoundersCount | frontend/src/pages/Matches.js:124-145 | Each person who passes both the search and the category is kept as many times as they occur in the list; anyone else is kept zero times. |
| MatchesPage.EmptySearchMatchesAll | frontend/src/pages/Matches.js:125-126 | The empty search term matches everyone. |
| MatchesPage.ClearFiltersShowsAll | frontend/src/pages/Matches.js:124-145 | After Clear Filters the whole list is shown. |
| MatchesPage.DesignFilter | frontend/src/pages/Matches.js:135-136 | `'design'` keeps a person iff some skill contains `"Design"`. |
| MatchesPage.UnknownFilter | frontend/src/pages/Matches.js:129-140 | An unknown category keeps a person iff they have at least one skill. |
| SkillChips.SkillChips | frontend/src/pages/Matches.js:286-298 | At most 4 chips are shown, a prefix of the skills. With more than 4 skills, `+n more` has n = length − 4; otherwise it is 0. Shown plus hidden is the whole list. The match cards in `frontend/src/pages/Matchings.jsx` (lines 296-308) cut their skills the same way. |
| MatchingsPage.SortedMatches | frontend/src/pages/Matchings.jsx:116 | The sorted copy is a permutation of the matches, with `matchPercentage` never increasing. |
| MatchingsPage.SortedMatchesStable | frontend/src/pages/Matchings.jsx:116 | Matches with equal percentage keep their relative order. |
| MatchingsPage.TierOf | frontend/src/pages/Matchings.jsx:118-130 | ≥90 is green, 80–89 blue, 70–79 yellow, below 70 gray, each as an iff. |
| MatchingsPage.SameTier | frontend/src/pages/Matchings.jsx:118-130 | `getMatchColor` and `getMatchBgColor` pick the colours of the same tier, and distinct tiers have distinct colours. |
| MatchingsPage.TierMonotone | frontend/src/pages/Matchings.jsx:118-130 | A higher percentage never gets a lower tier. |
| PostIdea.WithSkill | frontend/src/pages/PostIdea.js:33-39 | `addSkill` appends a non-empty skill not yet listed and leaves the list alone otherwise. It keeps the list duplicate-free and free of empty skills. |
| PostIdea.AddThenRemove | frontend/src/pages/PostIdea.js:33-48 | Adding a new skill and then removing it restores the list. |
| PostIdea.RemoveKeepsSet | frontend/src/pages/PostIdea.js:43-48 | `removeSkill` drops every occurrence, keeps the rest in order, and keeps the list a set. |
| PostIdea.Suggestions | frontend/src/pages/PostIdea.js:212-214 | The suggestions are the first at most 8 predefined skills not yet selected. |
| PostIdea.SuggestionsInOrder | frontend/src/pages/PostIdea.js:212-214 | The suggestions keep the predefined order. |
| PostIdea.PrefixIsSubsequence | frontend/src/pages/PostIdea.js:214 | A prefix of a subsequence is a subsequence. |
| PostIdea.PostIdeaForm.constructor | frontend/src/pages/PostIdea.js:10-17 | The form starts empty and not submitting. |
| PostIdea.PostIdeaForm.HandleInputChange | frontend/src/pages/PostIdea.js:25-31 | Sets the named field and nothing else. |
| PostIdea.PostIdeaForm.SetSkillInput | frontend/src/pages/PostIdea.js:173 | Sets the skill input and nothing else. |
| PostIdea.PostIdeaForm.AddSkill | frontend/src/pages/PostIdea.js:33-41 | The list becomes `WithSkill` of the old list, and the input is always cleared. |
| PostIdea.PostIdeaForm.RemoveSkill | frontend/src/pages/PostIdea.js:43-48 | The list loses every copy of the skill, and the input is untouched. |
| PostIdea.PostIdeaForm.HandleSkillKeyPress | frontend/src/pages/PostIdea.js:50-55 | Enter adds the trimmed input and clears it. Any other key changes nothing. |
| PostIdea.PostIdeaForm.AddDisabled | frontend/src/pages/PostIdea.js:179 | The Add button is disabled iff the input is blank. |
| PostIdea.PostIdeaForm.ClickAdd | frontend/src/pages/PostIdea.js:176-180 | An enabled click adds the trimmed input. A disabled button changes nothing. |
| PostIdea.PostIdeaForm.SubmitDisabled | frontend/src/pages/PostIdea.js:236 | Submit is enabled iff not submitting and both title and description are non-empty. |
| PostIdea.PostIdeaForm.BeginSubmit | frontend/src/pages/PostIdea.js:57-59 | Submitting starts and the fields are kept. |
| PostIdea.PostIdeaForm.FinishSubmit | frontend/src/pages/PostIdea.js:64-71 | Title, description, skills and input are reset, and submitting ends. |
| CreatePost.Toggle | frontend/src/pages/CreatePost.jsx:35-41 | A present tag is removed (every copy). An absent tag is appended at the end. |
| CreatePost.ToggleTwice | frontend/src/pages/CreatePost.jsx:35-41 | Toggling an absent tag twice restores the list. |
| CreatePost.ToggleNoDuplicates | frontend/src/pages/CreatePost.jsx:37-40 | Toggling keeps a duplicate-free list duplicate-free. |
| CreatePost.ToggleKeepsOthers | frontend/src/pages/CreatePost.jsx:37-40 | The other tags and their order are unchanged. |
| CreatePost.PreviewTags | frontend/src/pages/CreatePost.jsx:281 | The preview is the first at most 3 tags. |
| CreatePost.CreatePostPage.constructor | frontend/src/pages/CreatePost.jsx:20-23 | Everything starts empty. |
| CreatePost.CreatePostPage.SetPostContent | frontend/src/pages/CreatePost.jsx:103-107 | The content is the typed text cut at `maxLength` 500, and nothing else changes. |
| CreatePost.CreatePostPage.HandleTagToggle | frontend/src/pages/CreatePost.jsx:35-41 | The tags become `Toggle` of the old tags, and nothing else changes. |
| CreatePost.CreatePostPage.SetFundingStage | frontend/src/pages/CreatePost.jsx:22 | Sets the funding stage only. |
| CreatePost.CreatePostPage.SetLocation | frontend/src/pages/CreatePost.jsx:23 | Sets the location only. |
| CreatePost.CreatePostPage.HandleSubmit | frontend/src/pages/CreatePost.jsx:43-52 | Navigates to `/dashboard` and keeps the draft. |
| CreatePost.CreatePostPage.CharactersRemaining | frontend/src/pages/CreatePost.jsx:54-107 | `500 − length`, which lies between 0 and 500. |
| CreatePost.CreatePostPage.PublishDisabled | frontend/src/pages/CreatePost.jsx:74 | Publish is disabled iff the content is blank. |
| Layout.DisplayName | frontend/src/components/Layout.jsx:68-73 | With an email, the name is the part before the first `@` (the whole email if there is none) and holds no `@`. Otherwise it is `'Your Name'`. |
| Layout.Handle | frontend/src/components/Layout.jsx:76-81 | `'@' + display name` with an email, `'@yourhandle'` otherwise. |
| Layout.UserAvatar | frontend/src/components/Layout.jsx:84-90 | The first up to 2 characters of the display name, uppercased. With the ASCII-only case mapping of the model this is at most 2 long. `'YO'` without an email. |
| Layout.UserOfAddress | frontend/src/components/Layout.jsx:68-90 | For `local@domain`, the name is `local`, the handle `@local`, and the avatar the uppercased first two characters of `local`. |
| Layout.ThemeFieldsDiffer | frontend/src/components/Layout.jsx:104-113 | Each of the eight theme fields differs between dark and light mode. |
| Layout.LayoutShell.constructor | frontend/src/components/Layout.jsx:22-24 | Dark mode, settings closed, no user. |
| Layout.LayoutShell.CurrentTheme | frontend/src/components/Layout.jsx:104-113 | The theme is a function of the mode alone. |
| Layout.LayoutShell.SetCurrentUser | frontend/src/components/Layout.jsx:58-65 | Stores the user only. |
| Layout.LayoutShell.ToggleTheme | frontend/src/components/Layout.jsx:99-102 | Flips the mode, closes settings, and switches to the other theme, so every one of the eight theme fields changes. |
| Layout.LayoutShell.ToggleSettings | frontend/src/components/Layout.jsx:23 | Flips the settings panel. |
| Layout.LayoutShell.MouseDown | frontend/src/components/Layout.jsx:40-51 | A click outside the panel closes it. A click inside keeps its state. |
| Layout.LayoutShell.HandleNavigate | frontend/src/components/Layout.jsx:35-38 | Goes to the path and closes settings. |
| Layout.LayoutShell.HandleLogout | frontend/src/components/Layout.jsx:27-33 | Closes settings and goes to `/` with a "Logged out" toast. |
| Layout.ToggleThemeTwice | frontend/src/components/Layout.jsx:99-102 | Toggling twice restores the mode and the theme. |
| Chat.AppendToSpec | frontend/src/pages/Chat.js:99-102 | One message is appended to the chat's list, which is created if absent. Every other chat's list is unchanged. |
| Chat.PickResponse | frontend/src/pages/Chat.js:109-116 | The reply is one of the five canned responses. |
| Chat.NameOf | frontend/src/pages/Chat.js:117 | A name is found iff the id is a conversation's. |
| Chat.NameOfEntry | frontend/src/pages/Chat.js:117-121 | The name found is that conversation's name. |
| Chat.ChatPage.constructor | frontend/src/pages/Chat.js:18-36 | Chat 1 is selected, the input is empty, and the demo messages are loaded. |
| Chat.ChatPage.CurrentMessages | frontend/src/pages/Chat.js:136 | The selected chat's list, or `[]`. |
| Chat.ChatPage.SelectConversation | frontend/src/pages/Chat.js:169 | Selects a listed conversation and changes nothing else. |
| Chat.ChatPage.SetMessage | frontend/src/pages/Chat.js:319 | Sets the input only. |
| Chat.ChatPage.HandleSendMessage | frontend/src/pages/Chat.js:87-108 | A blank input changes nothing. Otherwise one own message is appended to the selected chat, the input is cleared, typing starts, and a reply is queued for that chat. |
| Chat.ChatPage.ReplyFires | frontend/src/pages/Chat.js:108-132 | The queued reply is appended to the chat it was queued for. It is from that conversation's name, not own, with a canned text, and typing stops. An unknown chat throws, which changes nothing. |
| AIChat.GenerateAIResponse | frontend/src/pages/AIChat.jsx:87-98 | The answer is one of the three canned responses. |
| AIChat.AIChatPage.constructor | frontend/src/pages/AIChat.jsx:19-22 | No messages, empty input, not typing, and the welcome screen shown. |
| AIChat.AIChatPage.SetCurrentMessage | frontend/src/pages/AIChat.jsx:20 | Sets the input only. |
| AIChat.AIChatPage.HandleSendMessage | frontend/src/pages/AIChat.jsx:55-85 | A blank input changes nothing. Otherwise the welcome is hidden, a user message is appended, the input is cleared, typing starts and a reply is queued. The welcome never reappears. |
| AIChat.AIChatPage.HandleKeyPress | frontend/src/pages/AIChat.jsx:105-110 | Enter without Shift sends a non-blank input. Enter on a blank input, Shift+Enter and any other key change nothing. |
| AIChat.AIChatPage.ReplyFires | frontend/src/pages/AIChat.jsx:75-84 | An AI message with a canned answer is appended after the others, and typing stops. |
| AIChat.AIChatPage.HandleQuickPrompt | frontend/src/pages/AIChat.jsx:100-103 | Sets the input to exactly the prompt text and sends nothing. |
| FounderOnboarding.FounderWizard.constructor | frontend/src/pages/Onboarding/Founder/FounderOnboarding.jsx:10-36 | Step 1 with empty founder and startup data (empty `tech_stack`), no error, not loading. |
| FounderOnboarding.FounderWizard.ProfileLoaded | frontend/src/pages/Onboarding/Founder/FounderOnboarding.jsx:10 | The signed-in profile arrives. Nothing else changes. |
| FounderOnboarding.FounderWizard.EditFounder | frontend/src/pages/Onboarding/Founder/FounderOnboarding.jsx:104-194 | Sets one founder field. Nothing else changes. |
| FounderOnboarding.FounderWizard.EditStartup | frontend/src/pages/Onboarding/Founder/FounderOnboarding.jsx:219-324 | Sets one startup field. Nothing else changes. |
| FounderOnboarding.FounderWizard.TechStackText | frontend/src/pages/Onboarding/Founder/FounderOnboarding.jsx:285 | An empty stack shows as `""`. |
| FounderOnboarding.FounderWizard.EditTechStack | frontend/src/pages/Onboarding/Founder/FounderOnboarding.jsx:285-286 | The stack becomes the text split on `","`, and reading it back gives the typed text. |
| FounderOnboarding.FounderWizard.BeginFounderSubmit | frontend/src/pages/Onboarding/Founder/FounderOnboarding.jsx:38-43 | Clears the error, starts loading and sends the founder upsert for the signed-in profile. |
| FounderOnboarding.FounderWizard.CompleteFounderSubmit | frontend/src/pages/Onboarding/Founder/FounderOnboarding.jsx:43-50 | Success stores the returned id in the submitted data and moves to step 2. Failure keeps step 1 and sets the founder error. Loading ends either way. |
| FounderOnboarding.FounderWizard.BeginStartupSubmit | frontend/src/pages/Onboarding/Founder/FounderOnboarding.jsx:53-58 | Clears the error, starts loading and sends the startup upsert with the founder id from step 1. |
| FounderOnboarding.FounderWizard.CompleteStartupSubmit | frontend/src/pages/Onboarding/Founder/FounderOnboarding.jsx:58-64 | Success goes to `/dashboard`. Failure sets the startup error. Loading ends either way. |
| EmployeeOnboarding.WithList | frontend/src/pages/Onboarding/Employee/EmployeeOnboarding.jsx:246-298 | The edited list becomes the text split on `","`. The other lists and the scalar fields are unchanged. |
| EmployeeOnboarding.ListTextRoundTrip | frontend/src/pages/Onboarding/Employee/EmployeeOnboarding.jsx:246-298 | Joining with `","` after splitting on `","` gives back the typed text. |
| EmployeeOnboarding.EmployeeWizard.constructor | frontend/src/pages/Onboarding/Employee/EmployeeOnboarding.jsx:10-34 | Step 1 with empty data and empty `skill_tags`, `tech_stack` and `open_to_roles`. |
| EmployeeOnboarding.EmployeeWizard.ProfileLoaded | frontend/src/pages/Onboarding/Employee/EmployeeOnboarding.jsx:10 | The signed-in profile arrives. Nothing else changes. |
| EmployeeOnboarding.EmployeeWizard.EditEmployee | frontend/src/pages/Onboarding/Employee/EmployeeOnboarding.jsx:105-222 | Sets one employee field. Nothing else changes. |
| EmployeeOnboarding.EmployeeWizard.EditSkills | frontend/src/pages/Onboarding/Employee/EmployeeOnboarding.jsx:259-310 | Sets one scalar skills field. Nothing else changes. |
| EmployeeOnboarding.EmployeeWizard.EditList | frontend/src/pages/Onboarding/Employee/EmployeeOnboarding.jsx:246-298 | Sets one list from the typed text, which reads back unchanged. |
| EmployeeOnboarding.EmployeeWizard.BeginEmployeeSubmit | frontend/src/pages/Onboarding/Employee/EmployeeOnboarding.jsx:49-54 | Clears the error, starts loading and sends the employee upsert. |
| EmployeeOnboarding.EmployeeWizard.CompleteEmployeeSubmit | frontend/src/pages/Onboarding/Employee/EmployeeOnboarding.jsx:54-61 | Success stores the returned id and moves to step 2. Failure keeps step 1 with the employee error. Loading ends either way. |
| EmployeeOnboarding.EmployeeWizard.BeginSkillsSubmit | frontend/src/pages/Onboarding/Employee/EmployeeOnboarding.jsx:64-69 | Clears the error, starts loading and sends the skills upsert with the employee id from step 1. |
| EmployeeOnboarding.EmployeeWizard.CompleteSkillsSubmit | frontend/src/pages/Onboarding/Employee/EmployeeOnboarding.jsx:69-75 | Success goes to `/dashboard`. Failure sets the skills error. Loading ends either way. |
| StableSort.Insert | frontend/src/services/matchingService.js:131 | One insertion step adds exactly one element. |
| StableSort.InsertPermutation | frontend/src/services/matchingService.js:131 | Insertion adds exactly the new element to the multiset. |
| StableSort.InsertSorted | frontend/src/services/matchingService.js:131 | Insertion keeps a non-increasing list non-increasing. |
| StableSort.SortDescPermutation | frontend/src/services/matchingService.js:131 | The sort is a permutation. |
| StableSort.SortDescSorted | frontend/src/services/matchingService.js:131 | The sort's keys never increase. |
| StableSort.InsertStable | frontend/src/services/matchingService.js:131 | Insertion keeps equal keys in arrival order. |
| StableSort.SortDescStable | frontend/src/services/matchingService.js:131 | Equal keys keep their input order. |
| StableSort.SortDescOfSorted | frontend/src/services/matchingService.js:131 | An already sorted list is left as it is. |
| StableSort.SortDescIdempotent | frontend/src/services/matchingService.js:131 | Sorting twice equals sorting once. |
| StableSort.InsertAt | frontend/src/services/matchingService.js:131 | Sinking `a[i]` leftwards makes `a[..i+1]` the insertion of `a[i]` into the prefix and leaves the rest alone. |
| StableSort.SortInPlace | frontend/src/services/matchingService.js:131 | The in-place sort leaves the array equal to the specification sort of its old contents. |
| Text.Trim | frontend/src/pages/PostIdea.js:53 | `trim` strips whitespace at both ends. |
| Text.TrimEmptyIffBlank | frontend/src/pages/CreatePost.jsx:74 | `!s.trim()` holds iff `s` is all whitespace. |
| Text.Split | frontend/src/pages/Onboarding/Founder/FounderOnboarding.jsx:286 | `split` yields at least one piece, and no piece holds the separator. |
| Text.JoinSplit | frontend/src/pages/Onboarding/Founder/FounderOnboarding.jsx:285-286 | `split(",").join(",")` is the identity. |
| Text.SplitJoinEmpty | frontend/src/pages/Onboarding/Founder/FounderOnboarding.jsx:285-286 | The empty list shows as `""`, which splits back to `[""]`, not `[]`. |
| Text.IndexOf | frontend/src/services/matchingService.js:124 | `-1` iff the character is absent. Otherwise it is the first position holding it. |
| Text.LastIndexOf | frontend/src/services/matchingService.js:125 | `-1` iff the character is absent. Otherwise it is the last position holding it. |
| Text.Slice | frontend/src/services/matchingService.js:126 | A contiguous piece of the string, no longer than it: the characters from `start` to `end` when `0 <= start <= end <= length`, and empty when the indices are reversed or `start` is past the end. |
| Text.SliceResolves | frontend/src/services/matchingService.js:126 | A negative index counts from the end and stops at 0, and an index past the end stops at the end. |
| Text.SliceContiguous | frontend/src/services/matchingService.js:126 | What `slice` returns is always one contiguous piece of the string. |
| Text.SliceIndex | frontend/src/services/matchingService.js:126 | One `slice` argument resolved: a negative one counts from the end and stops at 0, one within the string is kept, and one past the end stops at the end. |
| Lists.Filter | frontend/src/pages/Matches.js:124 | Every kept element is in the input and passes the test, and every input element that passes is kept. At most as long as the input. |
| Lists.FilterMultiset | frontend/src/pages/Matches.js:124 | A filter keeps every copy of an element that passes and no copy of one that fails. |
| Lists.FilterIsSubsequence | frontend/src/pages/Matches.js:124 | A filter is an order-preserving subsequence. |
| Lists.Find | frontend/src/services/matchingService.js:52 | `find` gives the first element passing the test, or nothing iff none passes. |
| Lists.Dedupe | frontend/src/lib/supabaseClient.js:62 | `[...new Set(xs)]` holds every input element exactly once and nothing else. |
| Lists.DedupeIsSubsequence | frontend/src/lib/supabaseClient.js:62 | The deduplicated list keeps the input order. |
| Lists.DedupeSnoc | frontend/src/lib/supabaseClient.js:62 | Adding an element at the end adds it to the deduplicated list only when it is new. |
| Lists.DedupeCons | frontend/src/lib/supabaseClient.js:62 | The first element comes first, followed by the deduplicated rest without it: each element stands where it first occurs. |
| Lists.RemoveSpec | frontend/src/pages/PostIdea.js:46 | `filter(x => x !== v)` removes every `v` and keeps every copy of every other element, in order. |
| Lists.RemoveSnoc | frontend/src/pages/PostIdea.js:46 | Removing from a list with one more element at the end removes from the list and keeps that element unless it is `v`. |

## Left out

- I/O is not performed. Every Supabase query and every `supabase.auth`
  call is an input:
  - the tables are sequences of rows;
  - a table whose query fails is listed in `Db.down`;
  - the session is an optional user id, with an auth error and "no user"
    both read as none;
  - an upsert outcome is a parameter of its `Complete…` method.
- The Gemini call is a parameter `generate(payload)`. The prompt text, the
  model configuration and `generateContent` are not part of this model.
- `JSON.parse` is a parameter `parse` that may fail. A parsed value that
  is not an array folds into failure. `JSON.stringify` of the payload is
  the structured `Payload` value itself. A parsed array holding `null`
  would make the sort at `matchingService.js:131` throw and yield `[]`; a
  typed `parse` cannot produce one, so that case is not modelled.
- The two reads under `Promise.all` are modelled sequentially, because
  the concurrency of the parallel fetch is not modelled.
- Timers (`setTimeout`) are queues of pending replies. Each reply fires
  through an explicit `ReplyFires` call.
- `Math.random()` is a real `r` in [0, 1), passed in. `Date.now()` ids and
  `toLocaleTimeString` timestamps are not modelled.
- Rendering, animation, routing and console logging are not modelled.
  Navigation is a `route` field. The Matches and Chat demo data is only
  the part the handlers read.
- `useSupabaseUser` is the `ProfileLoaded` call.
- The browser's `required` checks are preconditions of the `Begin…`
  methods. The textarea's `maxLength` is a cut of the typed text.
- `fitPercentage` and `matchPercentage` are integers, so `NaN` and absent
  scores are not modelled, and `fitPercentage || 0` is the percentage
  itself.
- MatchesPage.UnknownFilter: the code's `default: return true` sits
  inside `skills.some(...)`. An unknown category therefore keeps only
  people with at least one skill, not everyone. The model follows the
  code.
- Text.ToUpper and Text.ToLower: only the ASCII letters change case. The
  full Unicode mapping of `toUpperCase`/`toLowerCase` is not modelled.
- Strings are sequences of Dafny `char`s, each a Unicode scalar value,
  while a JavaScript string is a sequence of UTF-16 code units. A
  character outside the Basic Multilingual Plane (an emoji, say) is one
  `char` in the model and two code units in the program, so lengths and
  positions count such characters differently in the members below.
- CreatePost.CreatePostPage.SetPostContent and
  CreatePost.CreatePostPage.CharactersRemaining: `maxLength={500}` and
  the counter count code units in the program and `char`s in the model.
- Text.IndexOf, Text.LastIndexOf and Text.Slice: positions are `char`
  positions, not code-unit positions.
- MatchCard.Initials: `x[0]` of a token is its first `char` in the model
  but the first code unit (half of a surrogate pair, possibly) in the
  program.
- Layout.UserAvatar: `substring(0, 2)` takes two `char`s in the model and
  two code units in the program. Uppercasing maps ASCII letters only.
  JavaScript's full
  Unicode `toUpperCase` can lengthen a character (`"ß"` becomes `"SS"`),
  so the program's avatar can be 3 long; the bound of 2 holds for the
  model only.
- Layout.UserOfAddress: the uppercased avatar uses the same ASCII-only
  mapping.
- MatchCard.Avatar, MatchCard.AvatarOfWords, MatchCard.AvatarTwoWords and
  MatchCard.AvatarOneWord: the initials are uppercased by the ASCII-only
  mapping, so non-ASCII initials stay as they are and never lengthen.
- MatchesPage.FilteredCoFounders: the search lowercases ASCII letters
  only, so a search for `"émile"` does not match `"Émile"` in the model
  though it does in the program.
- PostFeed.NewestFirst: posts whose `created_at` is equal keep their
  table order. The database does not fix the order of ties, so this is a
  choice of the model.
- MatchCard.Avatar: only the "at most 2 characters" and "missing name
  gives `'??'`" parts are stated for every input. The exact initials are
  stated by AvatarOfWords for names made of non-empty words. A name such
  as `"? ?"` also yields `"??"`, so the converse does not hold. A
  whitespace-only name yields `""`.
- Chat.ChatPage.HandleSendMessage and AIChat.AIChatPage.HandleSendMessage
  guard on `IsBlank`. Text.TrimEmptyIffBlank proves it means exactly
  `!text.trim()`.
- Chat.ChatPage.ReplyFires: when the queued chat id matches no
  conversation, the source throws inside the timer. That throw is
  modelled as a reply that changes nothing but the queue.
- Lookups in a JavaScript object keyed by `null` or `undefined` are not
  modelled. A post whose `user_id` is missing finds no profile.
- MatchingsPage.GetMatchColor and MatchingsPage.GetMatchBgColor have no
  contracts of their own. TierOf and SameTier state their meaning.
- The "Demo Input" buttons of both onboarding wizards
  (`handleDemoInputStep1` and `handleDemoInputStep2` in
  `EmployeeOnboarding.jsx` and in `FounderOnboarding.jsx`) fill a step
  with a random record from demo data files. They are not modelled:
  they depend on `Math.random()` and on data that is not part of this
  model.
- The thin storage wrappers (`completeProfile.js`, the lookup services,
  `RoleSelection.jsx`), the static pages, the shell's `Layout.js` and the
  backend pass-through are outside this model.
