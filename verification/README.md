# Learning app list and state logic, in Dafny

This project models the list and state logic of a client-side learning app (videos, cards, notes, courses and quizzes):

- **Interaction stores.** These are the swips store's per-item interaction records and the context provider's four id sets. The course list has enrol and wishlist updates. The notes store has add, merge-update and progress recomputation. The filter store is a five-field record.
- **Filter and sort engines.** These are case-insensitive search, exact or case-insensitive facets, view flags, and stable descending sorts by likes, views, date, students or price.
- **Cursors and windows.** These are bounded and cyclic index stepping, the three-card sliding window, the "load more" counter and the append-by-twelve reveal buffer.
- **Small helpers.** These are the `m:ss` timer, the download-file slug, the difficulty price badge, the "Reset All" predicate, the note editor's form and the quiz answer slots.

Each source file becomes one module:

- Stores and components whose state changes step by step become classes. Each method's `ensures` ties the new state to a pure function of the old state.
- The properties the application relies on are proved as lemmas about those functions.
- Timestamps are integers passed in as `now`.
- `toLowerCase` is ASCII lower-casing.
- JavaScript's stable `Array.prototype.sort` is the stable insertion sort `Sorting.SortDesc`.

## Model

| member | source | states |
|---|---|---|
| SwipsStore.Current | src/lib/useSwipsStore.ts:49-56 | the stored record for an id, or the all-false record with progress 0 viewed now |
| SwipsStore.Apply | src/lib/useSwipsStore.ts:48-155 | like and dislike never leave both flags set; a consistent record stays consistent; progress stays in [0, 100] |
| SwipsStore.Step | src/lib/useSwipsStore.ts:58-67 | an action writes only the entry of its id, starting from the current record; every other entry is kept |
| SwipsStore.Clamp | src/lib/useSwipsStore.ts:150 | `min(100, max(0, p))` lies in [0, 100] and is `p` itself inside that range |
| SwipsStore.StepConsistent | src/lib/useSwipsStore.ts:64 | one action keeps every record consistent (not liked and disliked at once, progress in range) |
| SwipsStore.ReplayConsistent | src/lib/useSwipsStore.ts:48-155 | any sequence of actions keeps the map consistent |
| SwipsStore.NeverLikedAndDisliked | src/lib/useSwipsStore.ts:86 | from the empty map no sequence of actions leaves an id both liked and disliked |
| SwipsStore.WishlistTwice | src/lib/useSwipsStore.ts:92-111 | two wishlist toggles restore the record (the default record stays created) |
| SwipsStore.LikeTwice | src/lib/useSwipsStore.ts:48-67 | two like toggles restore the like flag and leave the dislike flag cleared |
| SwipsStore.Merge | src/lib/useSwipsStore.ts:157-159 | `{ ...filters, ...patch }`: fields in the patch win, the others are kept |
| SwipsStore.MergeIdempotent | src/lib/useSwipsStore.ts:157-159 | merging a patch twice equals merging it once |
| SwipsStore.MergeFull | src/lib/useSwipsStore.ts:157-159 | a patch naming every field gives the same filters whatever they were before |
| SwipsStore.FilteredContent | src/lib/useSwipsStore.ts:163-210 | the result is a sub-multiset of the content; every kept item passes every active filter (`Keeps`: category and difficulty equal ignoring case, the type, and the lower-cased search found in the title, the description or a tag); every passing item is kept; the result is sorted non-increasingly by the sort key |
| SwipsStore.KeepsIgnoresCase | src/lib/useSwipsStore.ts:168-191 | lower-casing the search, the category or the difficulty keeps exactly the same items; an item's category matches whatever its case |
| SwipsStore.FilteredContentStable | src/lib/useSwipsStore.ts:194-207 | items with equal sort keys keep their content order |
| SwipsStore.InitialFiltersKeepAll | src/lib/useSwipsStore.ts:39-45 | with the initial filters the result is a permutation of the content |
| SwipsStore.Store.constructor | src/lib/useSwipsStore.ts:38-46 | the content given, the initial filters, 'latest', no interactions |
| SwipsStore.Store.ToggleLike | src/lib/useSwipsStore.ts:48-67 | only the id's record changes: like flag flipped, dislike cleared |
| SwipsStore.Store.ToggleDislike | src/lib/useSwipsStore.ts:70-90 | only the id's record changes: dislike flipped, like cleared |
| SwipsStore.Store.ToggleWishlist | src/lib/useSwipsStore.ts:92-111 | only the wishlist flag of that id flips |
| SwipsStore.Store.ToggleEnrollment | src/lib/useSwipsStore.ts:113-133 | the enrolment flag flips and the record is stamped viewed now |
| SwipsStore.Store.UpdateProgress | src/lib/useSwipsStore.ts:135-155 | the stored progress is the clamped value, in [0, 100], stamped now |
| SwipsStore.Store.SetFilter | src/lib/useSwipsStore.ts:157-159 | the filters become the merge of the old filters and the patch |
| SwipsStore.Store.SetSorting | src/lib/useSwipsStore.ts:161 | the sorting is replaced |
| SwipsStore.Store.GetFilteredContent | src/lib/useSwipsStore.ts:163-210 | the filtered, sorted content; the store is not changed |
| Sorting.SortDesc | src/lib/useSwipsStore.ts:194-207 | the comparator sort `b.key - a.key`: a permutation, sorted non-increasingly |
| Sorting.SortDescStable | src/lib/useSwipsStore.ts:194-207 | the sort is stable: equal keys keep their input order |
| Sorting.FilterSortDesc | src/lib/useSwipsStore.ts:165-207 | filter then sort: sub-multiset, only kept items, every kept item, sorted |
| SwipsContext.Flip | src/lib/SwipsContext.tsx:141-151 | `has ? delete : add` flips membership of that id only |
| SwipsContext.ApplyToggle | src/lib/SwipsContext.tsx:107-163 | a like adds the id and drops its dislike, or removes the like and leaves dislikes; dislike is symmetric; wishlist and enrol flip one set |
| SwipsContext.ToggleKeepsDisjoint | src/lib/SwipsContext.tsx:107-139 | a toggle keeps liked and disliked disjoint |
| SwipsContext.AllKeepDisjoint | src/lib/SwipsContext.tsx:107-139 | once disjoint, liked and disliked stay disjoint under any toggles |
| SwipsContext.FlipTwice | src/lib/SwipsContext.tsx:141-163 | two wishlist or enrol toggles of an id restore the sets |
| SwipsContext.ToggleFlipsQuery | src/lib/SwipsContext.tsx:107-179 | a toggle flips the answer of its own membership query for that id |
| SwipsContext.Context.constructor | src/lib/SwipsContext.tsx:69-104 | the provider starts from the given (persisted) sets |
| SwipsContext.Context.ToggleLike | src/lib/SwipsContext.tsx:107-122 | from any state, the sets become the like toggle of the old sets; liked and disliked stay disjoint when they were |
| SwipsContext.Context.ToggleDislike | src/lib/SwipsContext.tsx:124-139 | from any state, the sets become the dislike toggle of the old sets; liked and disliked stay disjoint when they were |
| SwipsContext.Context.ToggleWishlist | src/lib/SwipsContext.tsx:141-151 | only the wishlist set flips at the id |
| SwipsContext.Context.ToggleEnrolled | src/lib/SwipsContext.tsx:153-163 | only the enrolled set flips at the id |
| SwipsContext.Context.GetLikeCount | src/lib/SwipsContext.tsx:166-169 | 1 exactly when the id is liked, 0 exactly when not |
| SwipsContext.Context.GetDislikeCount | src/lib/SwipsContext.tsx:171-174 | 1 exactly when the id is disliked, 0 exactly when not |
| SwipsContext.Context.IsLiked | src/lib/SwipsContext.tsx:176 | membership in the liked set |
| SwipsContext.Context.IsDisliked | src/lib/SwipsContext.tsx:177 | membership in the disliked set |
| SwipsContext.Context.IsWishlisted | src/lib/SwipsContext.tsx:178 | membership in the wishlisted set |
| SwipsContext.Context.IsEnrolled | src/lib/SwipsContext.tsx:179 | membership in the enrolled set |
| FilterStore.Assign | src/lib/useFilterStore.ts:31-37 | the assigned key takes the value and every other key is kept |
| FilterStore.AssignIdempotent | src/lib/useFilterStore.ts:31-37 | assigning the same key and value twice equals once |
| FilterStore.AssignCommutes | src/lib/useFilterStore.ts:31-37 | assignments to different keys commute |
| FilterStore.ResetKey | src/lib/useFilterStore.ts:18-24 | the assignment of a key's initial value targets that key |
| FilterStore.ResetKeyRestores | src/lib/useFilterStore.ts:18-37 | resetting a key gives it its initial value and keeps the others |
| FilterStore.ResetEveryKey | src/lib/useFilterStore.ts:18-40 | resetting all five keys one by one gives the initial record |
| FilterStore.Store.constructor | src/lib/useFilterStore.ts:29 | the store starts with the initial record |
| FilterStore.Store.SetFilter | src/lib/useFilterStore.ts:31-37 | the filters become the old filters with the one key assigned |
| FilterStore.Store.ResetFilters | src/lib/useFilterStore.ts:39-40 | the filters become the initial record whatever they were |
| NotesStore.MergeNote | src/lib/useNotesStore.ts:139-144 | `{ ...note, ...updates }`: each of the ten fields takes the update's value when present and keeps the note's when absent |
| NotesStore.MergeNothing | src/lib/useNotesStore.ts:139-144 | an update with no fields leaves the note unchanged |
| NotesStore.RoundPercent | src/lib/useNotesStore.ts:150 | round-half-up of `100·s/t` for `t ≠ 0`, characterised by its bounds; non-finite when `t = 0` |
| NotesStore.RoundingUnique | src/lib/useNotesStore.ts:150 | the rounding bounds determine the percentage uniquely |
| NotesStore.RoundPercentInRange | src/lib/useNotesStore.ts:150 | for `0 ≤ s ≤ t` the percentage is in [0, 100] |
| NotesStore.RoundPercentIsHundred | src/lib/useNotesStore.ts:150-157 | the percentage is 100 exactly when `199t ≤ 200s < 201t` |
| NotesStore.StatusFor | src/lib/useNotesStore.ts:157 | 'completed' exactly at 100, 'in-progress' otherwise |
| NotesStore.WithProgress | src/lib/useNotesStore.ts:150-159 | only progress and status change; status is 'completed' exactly when progress is 100 |
| NotesStore.SeedNotes | src/lib/useNotesStore.ts:34-134 | three notes with distinct ids, unread, in progress, with as many slides as they count |
| NotesStore.ValuesIn | src/components/NotesSection.tsx:31 | the stored notes listed in key order |
| NotesStore.Store.Values | src/components/NotesSection.tsx:31 | `Object.values(notes)`: one note per key, in insertion order |
| NotesStore.Store.constructor | src/lib/useNotesStore.ts:34-135 | the three seed notes keyed by id, no current note |
| NotesStore.Store.AddNote | src/lib/useNotesStore.ts:136-138 | the note is stored under its id; every other note is kept |
| NotesStore.Store.UpdateNote | src/lib/useNotesStore.ts:139-144 | the update is merged into the stored note; other notes are kept |
| NotesStore.Store.SetCurrentNote | src/lib/useNotesStore.ts:145 | only the current id changes |
| NotesStore.Store.GetNoteById | src/lib/useNotesStore.ts:146 | a plain lookup: the note exactly when the id is stored |
| NotesStore.Store.UpdateNoteProgress | src/lib/useNotesStore.ts:147-160 | an unknown id changes nothing; otherwise only that note's progress and status are recomputed |
| CourseData.SeedCourses | src/hooks/useCourseData.ts:50-360 | eighteen seed courses |
| CourseData.SeedWellFormed | src/hooks/useCourseData.ts:50-360 | seed ids are unique and a course is free exactly when its price is 0 |
| CourseData.Enroll | src/hooks/useCourseData.ts:453-459 | the matching course becomes enrolled at progress 0; every other course is unchanged; length kept |
| CourseData.ToggleWish | src/hooks/useCourseData.ts:461-467 | the matching course's wishlist flag flips; every other course is unchanged |
| CourseData.UpdatesKeepIds | src/hooks/useCourseData.ts:454 | both updates keep every position's id |
| CourseData.ToggleWishTwice | src/hooks/useCourseData.ts:461-467 | two wishlist toggles restore the list |
| CourseData.EnrollIdempotent | src/hooks/useCourseData.ts:453-459 | enrolling twice equals enrolling once |
| CourseData.EnrolledCourses | src/hooks/useCourseData.ts:469-471 | exactly the enrolled courses, a sub-multiset of the list |
| CourseData.WishlistCourses | src/hooks/useCourseData.ts:473-475 | exactly the wishlisted courses, a sub-multiset of the list |
| CourseData.DerivedListsKeepOrder | src/hooks/useCourseData.ts:469-475 | both derived lists keep list order (they distribute over concatenation) |
| CourseData.EnrolledAfterEnroll | src/hooks/useCourseData.ts:453-471 | an enrolled course appears in the enrolled list |
| CourseData.SubjectCourses | src/hooks/useCourseData.ts:372 | a prefix, in list order, of the courses of that subject, `min(k, 3)` long when the subject has `k` |
| CourseData.SubjectCoursesAll | src/hooks/useCourseData.ts:372 | a course of the subject with fewer than three of its subject before it is listed; a subject with at most three courses has all of them listed |
| CourseData.Subjects | src/hooks/useCourseData.ts:362-451 | eight subjects numbered 1–8, each with its first three courses |
| CourseData.Catalogue.constructor | src/hooks/useCourseData.ts:50 | the hook starts from the seed list |
| CourseData.Catalogue.EnrollCourse | src/hooks/useCourseData.ts:453-459 | the list becomes its enrol update |
| CourseData.Catalogue.ToggleWishlist | src/hooks/useCourseData.ts:461-467 | the list becomes its wishlist update |
| CoursesSection.TabBase | src/components/CoursesSection.tsx:50-65 | 'mycourses' starts from the enrolled list, 'wishlist' from the wishlist, anything else from all courses |
| CoursesSection.SortCourses | src/components/CoursesSection.tsx:91-108 | a permutation sorted by date, price (either way) or students; an unknown key keeps the order |
| CoursesSection.FilteredCourses | src/components/CoursesSection.tsx:46-111 | 'subjects' gives nothing; otherwise a sub-multiset of the tab's list with every kept course passing the query and `filterBy` (`Keeps`: a blank query or the lower-cased query in the title, subject, author or a tag; 'all', the price flag for 'free'/'paid', else the level ignoring case), and every passing course kept |
| CoursesSection.KeepsRules | src/components/CoursesSection.tsx:67-88 | the query is compared without regard to case; 'free' and 'paid' split the catalogue in two; a blank query with 'all' keeps every course |
| CoursesSection.FilteredCoursesSpec | src/components/CoursesSection.tsx:68-108 | the filter-then-sort pipeline keeps exactly the passing courses |
| CoursesSection.FilteredCoursesOrdered | src/components/CoursesSection.tsx:91-108 | the result is ordered as `sortBy` asks and lies within the catalogue |
| CoursesSection.NoFiltersShowsEverything | src/components/CoursesSection.tsx:46-111 | blank query, 'all' filter and an unknown sort key show the catalogue unchanged |
| CoursesSection.FindSubject | src/components/CoursesSection.tsx:114 | a subject with that id, or none when no subject has it |
| CoursesSection.FindSubjectFirst | src/components/CoursesSection.tsx:114 | `find` returns the earliest subject with that id |
| CoursesSection.Section.constructor | src/components/CoursesSection.tsx:31-34 | tab 'all', sort 'recent', filter 'all', empty search |
| CoursesSection.Section.HandleViewCourses | src/components/CoursesSection.tsx:113-119 | a known subject sets the search to its name and the tab to 'all'; an unknown id changes nothing |
| Feeds.FeedItems | src/components/swips/CardFeed.tsx:32-66 | the feed pipeline: sub-multiset, every item of the kind and view and matching the search and exact facets, every such item kept, sorted |
| Feeds.MissingRecordExcluded | src/components/swips/CardFeed.tsx:32-43 | in the liked, wishlisted and enrolled views every shown item has an interaction record |
| Feeds.FeedItemsStable | src/components/swips/CardFeed.tsx:56-66 | items with equal sort keys keep content order |
| Feeds.ToggleChip | src/components/swips/CardFeed.tsx:125 | clicking the selected chip clears it; any other chip becomes the selection |
| Feeds.ToggleChipTwice | src/components/swips/CardFeed.tsx:125 | two clicks on the same chip from no selection end with none |
| Feeds.ItemAt | src/components/swips/VideoFeed.tsx:72 | the item at the cursor exactly when the cursor is inside the list |
| Feeds.BoundedStep | src/components/swips/VideoFeed.tsx:100-107 | 'up' moves while below the last index, 'down' while above 0; otherwise the cursor stays; a cursor in range stays in range |
| Feeds.BoundedStepsStayInRange | src/components/swips/VideoFeed.tsx:100-107 | no sequence of steps takes a cursor out of a non-empty list |
| CardFeed.SortedCards | src/components/swips/CardFeed.tsx:32-66 | only cards of the view survive, each passing search and exact facets, every such card kept, sorted by the store's sorting |
| CardFeed.Categories | src/components/swips/CardFeed.tsx:120 | every content category once, each one occurring in the content |
| CardFeed.CategoriesFirstAppearance | src/components/swips/CardFeed.tsx:120 | the chips come in order of first appearance: an earlier chip's category occurs in the content before any occurrence of a later chip's |
| CardFeed.Swipe | src/components/swips/CardFeed.tsx:69-81 | width kept; the window moves up exactly on 'up' with `end < length` and down exactly on 'down' with `start > 0`, by one |
| CardFeed.SwipeKeepsValid | src/components/swips/CardFeed.tsx:70-75 | a swipe keeps a valid window valid: one page wide, starting at 0 or later, and ending within the cards unless there are fewer than a page |
| CardFeed.SwipesKeepValid | src/components/swips/CardFeed.tsx:69-81 | no series of swipes makes a valid window invalid |
| CardFeed.InitialValid | src/components/swips/CardFeed.tsx:18 | from the initial window every series of swipes stays valid |
| CardFeed.UpThenDown | src/components/swips/CardFeed.tsx:69-81 | a successful 'up' is undone by 'down' |
| CardFeed.Visible | src/components/swips/CardFeed.tsx:204 | `slice(start, end)`: at most three cards, the window's own cards, three while the window lies inside the list |
| CardFeed.CounterMatchesVisible | src/components/swips/CardFeed.tsx:254 | while the window starts inside the list the badge (`CounterOf`: start + 1, the end capped at the total, the total) counts exactly the visible cards |
| CardFeed.StaleWindow | src/components/swips/CardFeed.tsx:204-254 | a window left past the end of a shrunken list shows nothing and a badge with first > last |
| CardFeed.Feed.constructor | src/components/swips/CardFeed.tsx:17-18 | window `[0, 3)`, filters hidden |
| CardFeed.Feed.HandleSwipe | src/components/swips/CardFeed.tsx:69-81 | the window becomes its swipe, and stays valid |
| CardFeed.Feed.ToggleFilters | src/components/swips/CardFeed.tsx:107 | the panel flag flips |
| CardFeed.ClickCategory | src/components/swips/CardFeed.tsx:125 | only the store's category changes, to the chip toggle |
| CardFeed.ClickDifficulty | src/components/swips/CardFeed.tsx:142 | only the store's difficulty changes, to the chip toggle |
| CardFeed.ResetButton | src/components/swips/CardFeed.tsx:181-184 | the filter store ends in its initial record, sorting 'latest' |
| VideoFeed.SortedVideos | src/components/swips/VideoFeed.tsx:36-70 | only videos of the view survive, each passing search and exact facets, every such video kept, sorted |
| VideoFeed.ScreenOf | src/components/swips/VideoFeed.tsx:72-73 | the player for the video at the cursor with its stored record (if any), and the message exactly when the cursor is outside the list |
| VideoFeed.StaleCursorHidesVideos | src/components/swips/VideoFeed.tsx:72 | a cursor left past the end of a shrunken list shows the message although videos match |
| VideoFeed.Feed.constructor | src/components/swips/VideoFeed.tsx:18-20 | cursor 0, paused, muted |
| VideoFeed.Feed.HandleSwipe | src/components/swips/VideoFeed.tsx:100-107 | playback stops on every swipe; the cursor takes one bounded step and stays in range |
| VideoFeed.Feed.TogglePlaying | src/components/swips/VideoFeed.tsx:144 | playback flips |
| VideoFeed.Feed.ToggleMuted | src/components/swips/VideoFeed.tsx:228 | sound flips |
| VideoTab.TabVideos | src/components/swips/VideoTab.tsx:42-76 | the video pipeline on the swips store's own filters and sorting: sub-multiset, kept videos pass, every passing video kept, sorted |
| VideoTab.CyclicStep | src/components/swips/VideoTab.tsx:78-86 | the step as written: inside the list it wraps around and, with two or more videos, always moves |
| VideoTab.StepInverse | src/components/swips/VideoTab.tsx:78-86 | inside the list 'up' then 'down' and 'down' then 'up' return to the start |
| VideoTab.UpsAdvance | src/components/swips/VideoTab.tsx:81 | `k ≤ n` steps 'up' advance `k` places, wrapping once |
| VideoTab.FullCycle | src/components/swips/VideoTab.tsx:81 | `n` steps 'up' return to the start |
| VideoTab.OutOfRangeDrifts | src/components/swips/VideoTab.tsx:81 | from a cursor at or past the end, 'up' moves further out |
| VideoTab.EmptyListTickLeavesRange | src/components/swips/VideoTab.tsx:17-29 | an autoplay tick on an empty list moves the cursor to 1, outside a later one-video list |
| VideoTab.Step | src/components/swips/VideoTab.tsx:78-86 | corrected step: always inside a non-empty list, 0 for an empty one, the cyclic step inside the list |
| VideoTab.ScreenOf | src/components/swips/VideoTab.tsx:96-127 | the message exactly for an empty list; a failed render exactly for a non-empty list with the cursor outside; otherwise the video at the cursor |
| VideoTab.StepNeverFailsRender | src/components/swips/VideoTab.tsx:78-127 | after any corrected step the tab renders without failing |
| VideoTab.Tab.constructor | src/components/swips/VideoTab.tsx:14-15 | cursor 0, autoplay on |
| VideoTab.Tab.HandleSwipe | src/components/swips/VideoTab.tsx:78-86 | the cursor takes the corrected step and stays inside a non-empty list |
| VideoTab.Tab.AutoplayTick | src/components/swips/VideoTab.tsx:17-29 | with autoplay on the cursor steps 'up'; otherwise nothing moves |
| VideoTab.Tab.ToggleAutoplay | src/components/swips/VideoTab.tsx:158 | autoplay flips |
| SwipsCardsTab.Cards | src/components/swips/CardsTab.tsx:33 | the store's filtered content restricted to cards and notes: sub-multiset, each kept item a card or note passing the filters, every such item kept, sorted |
| SwipsCardsTab.CardsSpec | src/components/swips/CardsTab.tsx:33 | the card-or-note filter over the store's result keeps exactly those items, in sorted order |
| SwipsCardsTab.LoadMore | src/components/swips/CardsTab.tsx:57-59 | never past the total nor more than eight more; strictly grows while cards remain; exactly eight more when that many remain |
| SwipsCardsTab.LoadMoreTimesValue | src/components/swips/CardsTab.tsx:57-59 | `k` presses show `8k` more cards or all of them |
| SwipsCardsTab.LoadMoreReachesEnd | src/components/swips/CardsTab.tsx:57-59 | from twelve, `⌈(n − 12)/8⌉` presses reveal every card |
| SwipsCardsTab.Shown | src/components/swips/CardsTab.tsx:145 | a prefix of the cards of length `min(visible, n)` |
| SwipsCardsTab.CounterMatchesShown | src/components/swips/CardsTab.tsx:175-191 | "Showing k of n" counts the shown cards; it reaches `n` exactly when "Load More" is not offered (`LoadMoreOffered`: fewer shown than the total) |
| SwipsCardsTab.MissingRecordShownAsDefault | src/components/swips/CardsTab.tsx:146-153 | a card without a record is shown with all flags false and progress 0 |
| SwipsCardsTab.ResetPatchRestores | src/components/swips/CardsTab.tsx:41-50 | the reset patch gives the initial filters whatever they were |
| SwipsCardsTab.Tab.constructor | src/components/swips/CardsTab.tsx:15-30 | twelve cards visible, filters hidden |
| SwipsCardsTab.Tab.HandleLoadMore | src/components/swips/CardsTab.tsx:57-59 | the count becomes its load-more step and grows while cards remain |
| SwipsCardsTab.Tab.ToggleFilters | src/components/swips/CardsTab.tsx:79 | the panel flag flips |
| SwipsCardsTab.Reset | src/components/swips/CardsTab.tsx:41-50 | initial filters and 'latest'; content and interactions kept |
| SwipsCardsTab.Search | src/components/swips/CardsTab.tsx:71 | only the search changes; the content, the sorting and the interactions are kept |
| SwipsCardsTab.ClickCategory | src/components/swips/CardsTab.tsx:95 | only the category changes, to the chip toggle; the content, the sorting and the interactions are kept |
| SwipsCardsTab.ClickDifficulty | src/components/swips/CardsTab.tsx:112 | only the difficulty changes, to the chip toggle; the content, the sorting and the interactions are kept |
| RevealBuffer.Extend | src/components/CardsTab.tsx:42-53 | the buffer only grows; it changes exactly when items remain; a prefix stays a prefix of length `min(len + 12, n)` |
| RevealBuffer.ExtendTake | src/components/CardsTab.tsx:42-53 | extending the first `m` items gives the first `m + 12` |
| RevealBuffer.RevealedAfter | src/components/CardsTab.tsx:34-53 | after the first batch and `k` intersections the buffer is the first `12(k + 1)` items |
| RevealBuffer.Buffer.constructor | src/components/CardsTab.tsx:34 | the first twelve items |
| RevealBuffer.Buffer.OnIntersect | src/components/CardsTab.tsx:42-53 | the buffer becomes its extension, stays a prefix within `n`, and grows while the trigger is shown (`TriggerShown`: fewer revealed than the content holds) |
| RevealBuffer.Buffer.Reset | src/components/CardsTab.tsx:55-57 | back to the first twelve items |
| ReelView.KeyDirection | src/components/swips/ReelView.tsx:41-47 | only the two arrow keys step |
| ReelView.KeyStep | src/components/swips/ReelView.tsx:41-47 | ArrowUp goes back while above 0, ArrowDown forward while below the last; otherwise no move |
| ReelView.InputsStayInRange | src/components/swips/ReelView.tsx:41-61 | no mix of swipes and keys takes the cursor out of a non-empty list |
| ReelView.Rupees | src/components/swips/ReelView.tsx:70-77 | the rupee sign followed by the amount |
| ReelView.GetPrice | src/components/swips/ReelView.tsx:70-77 | ₹999 exactly for Intermediate, ₹1,499 exactly for Advanced, ₹499 exactly for everything else |
| ReelView.EmptyRendersNothing | src/components/swips/ReelView.tsx:38 | an empty list has no current item |
| ReelView.Reel.constructor | src/components/swips/ReelView.tsx:34-36 | cursor 0, paused, muted |
| ReelView.Reel.HandleSwipe | src/components/swips/ReelView.tsx:53-61 | one bounded step; playback stops exactly when the cursor moves |
| ReelView.Reel.HandleKey | src/components/swips/ReelView.tsx:41-47 | one key step, staying in range |
| ReelView.Reel.TogglePlaying | src/components/swips/ReelView.tsx:100 | playback flips |
| SwipsPage.KindOf | src/pages/SwipsPage.tsx:24 | 'videos' lists videos and 'cards' lists cards |
| SwipsPage.FilteredItems | src/pages/SwipsPage.tsx:133-146 | a sub-multiset of the content; every item (by `PageKeeps`) of the tab's type, in 'all' matching the category exactly, elsewhere flagged in the view; every passing item kept |
| SwipsPage.OnlyCategoryIsRead | src/pages/SwipsPage.tsx:133-146 | the list depends on the category only, so the page's search box does not change it |
| SwipsPage.CategoryIgnoredOutsideAll | src/pages/SwipsPage.tsx:137-144 | outside 'all' the category is ignored |
| SwipsPage.DisplayOf | src/pages/SwipsPage.tsx:149-206 | a selected item alone; otherwise the "No … found" message exactly for an empty list, a grid in 'all' and a reel elsewhere |
| SwipsPage.Page.constructor | src/pages/SwipsPage.tsx:17-19 | view 'all', type 'cards', nothing selected |
| SwipsPage.Page.HandleTabChange | src/pages/SwipsPage.tsx:21-29 | type set to the tab's kind; category, difficulty and search cleared; sorting kept |
| SwipsPage.Page.HandleViewChange | src/pages/SwipsPage.tsx:31 | the view is replaced |
| SwipsPage.Page.ViewItem | src/pages/SwipsPage.tsx:19 | the item becomes selected |
| SwipsPage.Page.CloseItem | src/pages/SwipsPage.tsx:157-165 | nothing is selected |
| FilterControls.NullIfEmpty | src/components/swips/FilterControls.tsx:59 | the empty option stores null; any other value is stored as is |
| FilterControls.Displayed | src/components/swips/FilterControls.tsx:58 | the select shows the stored value, or the empty option for null |
| FilterControls.DisplayedAfterChoice | src/components/swips/FilterControls.tsx:58-59 | choosing an option and displaying the stored value gives it back |
| FilterControls.ChoiceAfterDisplayed | src/components/swips/FilterControls.tsx:58-59 | a stored value other than '' survives display and re-choice |
| FilterControls.AssignmentOf | src/components/swips/FilterControls.tsx:49-182 | each control writes its own key; chips write that key's initial value |
| FilterControls.ControlsKeepNoEmptySelection | src/components/swips/FilterControls.tsx:59-79 | no control stores an empty category or difficulty |
| FilterControls.ClearChipResetsOwnKey | src/components/swips/FilterControls.tsx:134-182 | a chip's × puts its own key back to the initial value, hides that chip (bar sorting) and keeps the other keys |
| FilterControls.SortLabel | src/components/swips/FilterControls.tsx:124 | the option with its first character upper-cased: "Latest", "Popular", "Trending" |
| FilterControls.ChipShownIffChanged | src/components/swips/FilterControls.tsx:134-187 | with no empty selection stored, a filter's chip is shown exactly when that key differs from its initial value; "Reset All" is offered exactly when such a chip is shown or the sorting is not 'latest' |
| FilterControls.ResetAllShownIffChanged | src/components/swips/FilterControls.tsx:187 | with no empty selection stored, "Reset All" is shown exactly when the filters differ from the initial record |
| FilterControls.EmptySelectionHidesReset | src/components/swips/FilterControls.tsx:187 | an empty-string category differs from the initial record yet hides "Reset All" |
| NotesSection.NotesList | src/components/NotesSection.tsx:31-33 | a permutation of the stored notes, sorted by last modification, newest first |
| NotesSection.NotesListHoldsEveryNote | src/components/NotesSection.tsx:31-33 | every stored note is listed, and only stored notes are |
| NotesSection.CurrentNote | src/components/NotesSection.tsx:36 | with an id set, the note under it (none if missing); otherwise the first listed note, if any |
| NotesSection.PrevSlide | src/components/NotesSection.tsx:201 | one back, never below 0 |
| NotesSection.NextSlide | src/components/NotesSection.tsx:210 | one forward, never past the last slide |
| NotesSection.ButtonsStayInRange | src/components/NotesSection.tsx:201-210 | for a slide of a non-empty note both buttons stay on a slide |
| NotesSection.PrevAfterNext | src/components/NotesSection.tsx:201-210 | before the last slide, previous undoes next |
| NotesSection.AutoTick | src/components/NotesSection.tsx:57-61 | advance while before the last slide; otherwise stop auto-play without moving |
| NotesSection.AutoPlayRunsToEnd | src/components/NotesSection.tsx:53-65 | auto-play reaches the last slide after `total − 1 − s` ticks and stops on the next |
| NotesSection.ProgressAsWrittenNeverCompletes | src/components/NotesSection.tsx:46-50 | as written (0-based slide), a note of fewer than 200 slides never reaches 100% |
| NotesSection.ProgressAsWrittenExample | src/components/NotesSection.tsx:46-50 | as written, the last of three slides stores 67%, 'in-progress' |
| NotesSection.ViewedProgress | src/components/NotesSection.tsx:165 | corrected progress: slides seen over total, as the header displays; only progress and status change |
| NotesSection.LastSlideCompletes | src/components/NotesSection.tsx:46-50 | with the corrected progress the last slide gives 100% and 'completed' |
| NotesSection.ViewedProgressInRange | src/components/NotesSection.tsx:46-50 | the corrected progress lies in [0, 100] on every slide |
| NotesSection.Section.constructor | src/components/NotesSection.tsx:26-27 | slide 0, auto-play off |
| NotesSection.Section.Previous | src/components/NotesSection.tsx:201 | the slide becomes the previous-button step |
| NotesSection.Section.Next | src/components/NotesSection.tsx:210 | the slide becomes the next-button step and stays on a slide |
| NotesSection.Section.AutoPlayTick | src/components/NotesSection.tsx:55-62 | slide and auto-play become one tick of the old ones |
| NotesSection.Section.ToggleAutoPlay | src/components/NotesSection.tsx:27 | auto-play flips |
| NotesSection.Section.SelectNote | src/components/NotesSection.tsx:83-86 | the note becomes current and the slide returns to 0 |
| NotesSection.Section.SelectDefault | src/components/NotesSection.tsx:38-43 | without a current id and with notes, the first listed note becomes current; otherwise nothing changes |
| NotesSection.Section.ReportProgress | src/components/NotesSection.tsx:46-50 | the note's stored progress becomes the corrected progress; other notes kept |
| NoteEditor.InitialSlides | src/components/NoteEditor.tsx:23 | the note's slides when it has them, otherwise one empty slide numbered 1 |
| NoteEditor.EditedNote | src/components/NoteEditor.tsx:17 | the note stored under a non-empty id, otherwise none |
| NoteEditor.SlideAdded | src/components/NoteEditor.tsx:56-61 | exactly one empty slide appended, numbered one past the old length; the old slides kept |
| NoteEditor.SlideUpdated | src/components/NoteEditor.tsx:63-70 | only the chosen field of the chosen slide changes; length and other slides kept |
| NoteEditor.NumberingKept | src/components/NoteEditor.tsx:19-70 | a new form's slides are numbered 1, 2, …, and adding or editing keeps that |
| NoteEditor.NewNoteId | src/components/NoteEditor.tsx:30 | `note-` followed by digits that read back as the creation time |
| NoteEditor.NewNoteIdsDiffer | src/components/NoteEditor.tsx:30 | notes created at different times get different ids |
| NoteEditor.NewNote | src/components/NoteEditor.tsx:29-40 | the form's text and slides, slide count = number of slides, progress 0, 'in-progress', five-minute read |
| NoteEditor.EditUpdate | src/components/NoteEditor.tsx:44-51 | the update names text, slides, slide count and time, and not progress, status or read time |
| NoteEditor.EditKeepsProgress | src/components/NoteEditor.tsx:42-52 | saving keeps id, progress, status and read time and takes the rest from the form |
| NoteEditor.Editor.constructor | src/components/NoteEditor.tsx:19-24 | the form starts from the edited note or from blanks |
| NoteEditor.Editor.SetTitle | src/components/NoteEditor.tsx:85 | the title is replaced |
| NoteEditor.Editor.SetCategory | src/components/NoteEditor.tsx:93 | the category is replaced |
| NoteEditor.Editor.SetContent | src/components/NoteEditor.tsx:103 | the description is replaced |
| NoteEditor.Editor.AddSlide | src/components/NoteEditor.tsx:56-61 | the slides become their one-slide extension |
| NoteEditor.Editor.UpdateSlide | src/components/NoteEditor.tsx:63-70 | the slides become their one-field update |
| NoteEditor.Editor.HandleSubmit | src/components/NoteEditor.tsx:26-54 | without an id the new note is added; with one the form is merged into the stored note, or into a blank note under that id when none is stored |
| Quiz.NoAnswers | src/components/QuizPage.tsx:71 | one empty slot per question |
| Quiz.WithAnswer | src/components/QuizPage.tsx:79-83 | only the current slot changes, to the chosen option; length kept |
| Quiz.NoAnswersCount | src/components/QuizPage.tsx:71 | a fresh attempt has nothing answered |
| Quiz.AnswerCounted | src/components/QuizPage.tsx:79-83 | choosing answers the current question; the answered count grows by one exactly when it was unanswered |
| Quiz.AnsweringEnablesOneButton | src/components/QuizPage.tsx:241-257 | with no answer neither button is enabled; after choosing an option "Submit Test" is enabled exactly on the last question and "Next" exactly on the others |
| Quiz.NextEnabledMoves | src/components/QuizPage.tsx:76-95 | an enabled "Next" always moves on, and "Next" and "Submit Test" are never both enabled |
| Quiz.PadTwo | src/components/QuizPage.tsx:104 | `padStart(2, '0')` on a non-empty string: length two at least; one zero before a single character, a longer string kept |
| Quiz.PadTwoDigits | src/components/QuizPage.tsx:104 | below 100 the padded rendering is the tens digit then the units digit |
| Quiz.ParseTime | src/components/QuizPage.tsx:101-105 | reads a time of the shape `digits:dd`; nothing for other strings |
| Quiz.FormatTime | src/components/QuizPage.tsx:101-105 | whole minutes, ':', the remaining seconds as two digits |
| Quiz.FormatTimeRoundTrip | src/components/QuizPage.tsx:101-105 | reading the rendering back gives the seconds |
| Quiz.TimeAllowedShown | src/components/QuizPage.tsx:72 | the clock starts at "30:00" |
| Quiz.Attempt.constructor | src/components/QuizPage.tsx:70-73 | cursor 0, empty slots, thirty minutes, not bookmarked |
| Quiz.Attempt.SelectAnswer | src/components/QuizPage.tsx:79-83 | the slots become their one-slot update; the cursor stays on a question |
| Quiz.Attempt.Next | src/components/QuizPage.tsx:85-89 | forward only below the last question |
| Quiz.Attempt.Previous | src/components/QuizPage.tsx:91-95 | back only above the first question |
| Quiz.Attempt.JumpTo | src/components/QuizPage.tsx:270 | the grid moves the cursor to the clicked question |
| Quiz.Attempt.ToggleBookmark | src/components/QuizPage.tsx:150 | the bookmark flips |
| Quiz.Attempt.Submit | src/components/QuizPage.tsx:97-99 | the answers handed over are the slots, one per question |
| Documentation.FindFrom | src/pages/DocumentationPage.tsx:30 | the first position from `k` whose item points at the topic (`NoteMatches`: a topic id is given and equals the item's note id); none exactly when no later item does |
| Documentation.FindByNote | src/pages/DocumentationPage.tsx:30 | the first item whose note id equals the topic id; none exactly when no item does |
| Documentation.TopicNote | src/pages/DocumentationPage.tsx:34 | the note under a non-empty topic id, none otherwise |
| Documentation.ShownInteraction | src/pages/DocumentationPage.tsx:70-74 | the stored record, or the item's own flags with progress 0 |
| Documentation.PageOf | src/pages/DocumentationPage.tsx:30-74 | "Topic Not Found" exactly when the item or the note is missing; otherwise a filtered item pointing at the topic, its note and the shown record |
| Documentation.NoTopicNotFound | src/pages/DocumentationPage.tsx:34-52 | without a (non-empty) topic id the page is "Topic Not Found" |
| Documentation.HiddenTopicNotFound | src/pages/DocumentationPage.tsx:29-52 | when the store's filters hide every item of the topic the page is "Topic Not Found" |
| Documentation.Slug | src/pages/DocumentationPage.tsx:93 | lower-case and free of whitespace, no longer than the title |
| Documentation.SlugIdempotent | src/pages/DocumentationPage.tsx:93 | slugging a slug changes nothing |
| Documentation.DownloadName | src/pages/DocumentationPage.tsx:93 | the slug followed by `-notes.txt` |
| Documentation.SlugTitleKept | src/pages/DocumentationPage.tsx:93 | a title that is already a slug is kept as is |
| Text.Lower | src/lib/useSwipsStore.ts:170 | ASCII `toLowerCase`, character by character |
| Text.IncludesAt | src/lib/useSwipsStore.ts:187 | `includes` holds exactly when the query occurs at some position |
| Text.NatToString | src/components/QuizPage.tsx:104 | decimal digits, one exactly below 10 |
| Text.DigitsValueOfNatToString | src/components/QuizPage.tsx:104 | reading the decimal rendering back gives the number |
| Text.Capitalize | src/components/swips/FilterControls.tsx:124 | first character upper-cased, the rest kept |
| Text.ReplaceSpaceRuns | src/pages/DocumentationPage.tsx:93 | `replace(/\s+/g, '-')`: no whitespace left; every character is '-' or from the input |
| Text.ReplaceSpaceRunsNoSpace | src/pages/DocumentationPage.tsx:93 | a string without whitespace is unchanged |
| Text.ReplaceSpaceRunsIdempotent | src/pages/DocumentationPage.tsx:93 | a second pass changes nothing |
| Text.ReplaceSpaceRunsRun | src/pages/DocumentationPage.tsx:93 | a whitespace run becomes exactly one '-' |
| Text.ReplaceSpaceRunsKeep | src/pages/DocumentationPage.tsx:93 | a whitespace-free prefix is kept as it is, so with ReplaceSpaceRunsRun a run anywhere in the string becomes one '-' |

## Left out

- Persistence (`persist`, `localStorage` in the stores and the context provider), rendering, animation, event wiring (swipe gestures, key listeners, intersection observers) and the video element (play, mute, `timeupdate` progress). Each event is modelled as the step it triggers.
- Clocks are parameters: `new Date().toISOString()` and `Date.now()` are an integer `now`. ISO timestamps are integers, so date comparisons are integer comparisons.
- Timers are left out: `setTimeout`/`setInterval` auto-play in the notes section and the video tab is a single tick, with no timing or cleanup.
- Floating point:
  - the percentage displays of the quiz, the notes section and the video feed;
  - `toFixed(2)` prices.
- `NotesStore.RoundPercent`: `Math.round(s / t * 100)` is modelled as exact round-half-up of `100·s/t` on integers. The float product can differ from the exact value in the last bit. `t = 0` is the non-finite value.
- `Text.Lower`: `toLowerCase` is ASCII-only. Other scripts are not folded.
- `NotesStore.Store.UpdateNote`: on an unknown id the source stores only the update's fields. The model merges them into a blank note.
- `NotesStore.SeedNotes`: the slide texts of the seed notes are not reproduced; their counts, ids, titles and statuses are.
- `CourseData.SeedCourses`: the per-course ratings, durations and images carry no logic and are not checked beyond the fields the properties use.
- `CourseData.Subjects`: the subject statistics (course counts, students) are static numbers.
- The content list (`sampleContent`) is not part of this model. The content is an input sequence.
- The components/CardsTab.tsx component reads store members the swips store does not define (`filters.subject`, `filters.price`, `setFilters`, `setSearchQuery`). Only its reveal buffer is modelled.
- The context provider's filter setters (search, sort, subject, difficulty, price) are plain state setters. GridView, SubjectsFilter and the card components are presentational.
- `VideoTab.Tab.AutoplayTick`: the autoplay tick steps 'up' with the corrected `VideoTab.Step`, not the as-written `VideoTab.CyclicStep` (see Findings).
- `VideoTab.Tab.HandleSwipe`: the tab's class uses the corrected step `VideoTab.Step`. The step as written is kept as `VideoTab.CyclicStep` (see Findings).
- `VideoTab.ScreenOf`: the fallback record of a video without one has no view time in the source; the model writes 0.
- `NotesSection.Section.ReportProgress`: it reports the corrected progress (see Findings). The as-written progress is `NotesStore.WithProgress` of the 0-based slide.
- `NotesSection.Section.ReportProgress`: it models one write of the progress effect (src/components/NotesSection.tsx:46-50). In the source that effect depends on `currentNote`, and every `updateNoteProgress` stores a new note object (src/lib/useNotesStore.ts:151-159). So the effect runs again after its own write, storing the same value each time, without end (not executed).
- `NotesSection.Section.AutoPlayTick`: it models one tick of the interval. The auto-play effect (src/components/NotesSection.tsx:53-65) also depends on `currentNote`, so with the loop above its interval is cleared and re-created on every pass (not executed).
- `RevealBuffer.Buffer.OnIntersect`: an intersection in the model is one run of the effect at src/components/CardsTab.tsx:42-53. That effect also depends on `content`, which `getFilteredContent()` rebuilds on every render (line 28). So one intersection can run it several times and append several batches (not executed).
- `RevealBuffer.RevealedAfter`: it counts runs of the reveal effect, not intersections, for the same reason.
- src/components/CardsTab.tsx evaluates `filters.subject.includes(...)` (line 109) on every render, because the filter panel (lines 90-95) is always mounted and only its height animates. The swips store's filters have no `subject`, so as written the component throws whenever the filtered content is non-empty (not executed).
- src/components/NotesSection.tsx declares `containerVariants` (lines 67 and 97) and `itemVariants` (lines 77 and 107) twice in one function body. That is a block-scoped redeclaration error, so the component does not compile as written (not executed). These animation constants carry no logic; the model reads the component without the second pair.
- `Quiz.Attempt.constructor`: it requires at least one question, because the page renders the current question unconditionally. The timer is never decremented in the source, so its value stays at thirty minutes.
- `Quiz.PadTwo`: it requires a non-empty string; `padStart(2, '0')` on the empty string would give "00", but the clock only pads decimal renderings, which always have a digit.
- `Quiz.FormatTime`: it takes a natural number of seconds; the source only ever formats the initial 1800.
- The note editor's `onOpenChange` callback and dialog state are left out.

## Findings

| source | as written | input that shows it | evidently intended | confidence | as-written member | corrected member |
|---|---|---|---|---|---|---|
| src/components/NotesSection.tsx:46-50 | the 0-based `currentSlide` is passed to `updateNoteProgress`, which stores `round(slide / total · 100)` and marks 'completed' only at 100 | a note of 3 slides on its last slide (index 2) stores 67% and 'in-progress', while the header shows 100% Complete; below 200 slides no slide ever gives 100 | progress counts the slides seen, `slide + 1`, so the last slide completes the note | not executed; high | NotesSection.ProgressAsWrittenNeverCompletes | NotesSection.LastSlideCompletes |
| src/components/swips/VideoTab.tsx:78-86 | 'up' wraps only when the cursor equals `length − 1`, and the autoplay timer steps 'up' even when no video matches | with no matching videos the timer moves the cursor from 0 to 1 (`0 ≠ −1`); when a single video matches again, `sortedVideos[1]` is undefined and reading `.id` fails | the cursor stays inside the list (or at 0 for an empty list) | not executed; medium | VideoTab.EmptyListTickLeavesRange | VideoTab.StepNeverFailsRender |
