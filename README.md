# Kitchen storefront rules, modelled in Dafny

This project models the decision logic of the GIZZN/kuhni kitchen storefront.
It covers six parts:

- **Consultation** (`consultation.dfy`): the quiz that recommends products.
  It has the question table, the answer update, the per-product scorer, the
  ranking (positive scores only, stable sort by descending score, the first
  three) and the wizard that steps through the questions.
- **Catalog** (`catalog.dfy`): the catalog page pipeline. Search, category
  and inclusive price filters run in turn on a copy of the table, then one of
  three stable sorts or none. Also the price-bound update, the sort label and
  the URL parameters.
- **Products** (`products.dfy`): the static product and category tables,
  their consistency, and the lookup, category, search and slug helpers.
- **Header** (`header.dfy`): the live search of the site header, a small
  state machine over query, results, focus, the dropdown flag and the
  mobile-menu flag.
- **Profile** (`profile.dfy`): the checks made before an address or a
  payment method is sent, the form handlers, the order status labels, the
  bonus arithmetic and the tab chosen from the URL.
- **Database** (`database.dfy`): the environment lookup with fallback names,
  the ordered missing-variable errors, the SSL decision and the logger gates.

Support modules:

- `wrappers.dfy`: `Option` and `Result`.
- `text.dfy`: lower-casing, substring search, `trim` and `localeCompare`.
- `seqs.dfy`: `filter`, `find` and `slice(0, n)` over sequences.
- `sorting.dfy`: a stable insertion sort, given both as a function on
  sequences (`SortSeq`) and as an in-place method on an array
  (`InsertionSort`).

State that the source keeps in React `useState` hooks becomes fields of a
Dafny class. This applies to `Consultation.Wizard`, `Header.HeaderSearch`
and `Profile.ProfileForms`. Their methods modify those fields and state the
new values.

Loops become methods proved against a specification function:

- `calculateRecommendations` becomes `Consultation.CalculateRecommendations`.
- The scoring body becomes `Consultation.ScoreProduct`.
- `filteredProducts` becomes `Catalog.FilteredProducts`.
- `getEnvVar` becomes `Database.GetEnvVar`.
- The in-place sorts become `Sorting.InsertionSort`.

Modelling choices:

- **Numbers.** Prices are whole roubles (`int`). Ratings are integer tenths
  of a star, so 4.5 is 45 and the quality test `rating >= 4.5` becomes
  `rating >= 45`.
- **Sorting.** `Array.prototype.sort` is stable (ECMA-262, since the 2019
  edition): a comparator `cmp` places `a` after `b` exactly when
  `cmp(a, b) > 0`. Any stable sort under a strict weak order gives the same
  result, so a stable insertion sort stands for it.
- **Text.** `toLowerCase` maps only `A`–`Z` and `А`–`Я` (with `Ё`) to lower
  case. `includes` is a plain substring test. `localeCompare` is
  lexicographic order of code points, returning -1, 0 or 1. `trim` removes
  the ECMAScript white-space and line-terminator characters.
  `length` counts UTF-16 code units (`Text.Utf16Length`), so a character
  outside the Basic Multilingual Plane counts twice; Dafny's `|s|` counts
  characters and is used only where the source's test is the same either way.
- **Remainder.** JavaScript's `%` truncates toward zero. It is written out as
  `Profile.JsRem`, because Dafny's `%` is Euclidean.
- **The 'light' usage branch.** The scorer compares the stored usage answer
  with `'light'`. Answers store option ids, and the usage option ids are
  `rarely`, `sometimes`, `often` and `professional`. The branch is modelled
  as written, and `Consultation.LightUsageNeverFires` proves that no answer
  taken from the table triggers it.
- **Environment.** The environment is a `map<string, string>` parameter.
  An unset variable is a missing key, and a truthy value is a non-empty
  string.

## Model

| member | source | states |
|---|---|---|
| Consultation.UpdateAnswers | src/app/consultation/page.tsx:174-186 | The result has the old keys plus the question, and every other question keeps its answers. A single choice becomes exactly `[optionId]`. A multiple choice toggles membership of `optionId`, keeps the membership of every other id, and appends a new id at the end. |
| Consultation.ToggleTwice | src/app/consultation/page.tsx:176-180 | Choosing the same option twice on a multiple-choice question restores the list it had before. |
| Consultation.ChoosingKeepsAnswersFromTable | src/app/consultation/page.tsx:174-186 | When answers are chosen by clicking options of the table, every stored answer is an option id of its question. |
| Consultation.BudgetBands | src/app/consultation/page.tsx:210-222 | The three budget bands partition the prices: low ≤ 20000 < medium ≤ 50000 < high. |
| Consultation.FindDistinctId | src/app/consultation/page.tsx:227 | Among options with distinct ids, `find` by id returns the option with that id. |
| Consultation.CategoryQuestionFound | src/app/consultation/page.tsx:226 | `questions.find(q => q.id === 'category')` is the second question of the table. |
| Consultation.CategoryIdsDistinct | src/app/consultation/page.tsx:52-83 | The category options have pairwise distinct ids. |
| Consultation.AppendRules | src/app/consultation/page.tsx:205-256 | The points and the reasons of two runs of rules are the sums and the concatenations of each. |
| Consultation.CheckBudget | src/app/consultation/page.tsx:208-222 | The budget step adds 30 points and one reason exactly when the first budget answer is the product's band. The reason is 'Премиум качество' for the high band and 'Подходит по бюджету' otherwise. |
| Consultation.CheckCategory | src/app/consultation/page.tsx:224-233 | The category step adds 40 points and 'Соответствует выбранной категории' exactly when the chosen option exists and its weight names the product's category. |
| Consultation.CheckPriorities | src/app/consultation/page.tsx:235-245 | The priority step adds 20 points for 'quality' with a rating of at least 4.5, then 15 for 'price' with a price of at most 25000, each with its reason, in that order. |
| Consultation.CheckUsage | src/app/consultation/page.tsx:247-255 | The usage step adds 25 points for 'professional' above 40000. Otherwise it adds 15 for 'light' at or below 30000. Each comes with its reason. |
| Consultation.Fires | src/app/consultation/page.tsx:208-255 | The six rule conditions of the scorer. A rule fires only once the question it reads (budget, category, priority or usage) has been answered. |
| Consultation.ScoreOfByGroups | src/app/consultation/page.tsx:205-256 | The score of the rules that fired is the sum of the four steps' points, and the reasons are the four steps' reasons in order. |
| Consultation.ScoreOf | src/app/consultation/page.tsx:205-259 | A product's score entry is for that product, with one reason per rule that fires. |
| Consultation.ScoreProduct | src/app/consultation/page.tsx:205-256 | The accumulated score and reasons are exactly `ScoreOf`: the sum of the points of the rules that fired, and one reason per fired rule, in rule order. |
| Consultation.ReasonsMatchRules | src/app/consultation/page.tsx:205-256 | Each fired rule contributes exactly one reason. |
| Consultation.PointsPositive | src/app/consultation/page.tsx:205-256 | The points of a run of rules are never negative, and they are positive exactly when some rule fired. |
| Consultation.SharePoints | src/app/consultation/page.tsx:205-256 | A run of rules that holds a rule at most once scores between 0 and that rule's points. |
| Consultation.PointsOfShares | src/app/consultation/page.tsx:205-256 | When the two usage rules do not both fire, the rules together score at most 30+40+20+15+25 = 130. |
| Consultation.OnlyAtMost | src/app/consultation/page.tsx:205-256 | Each rule fires at most once per product. |
| Consultation.UsageRulesExclusive | src/app/consultation/page.tsx:248-255 | The 'professional' and 'light' usage rules never both fire, because of the `else if`. |
| Consultation.ScoreBounds | src/app/consultation/page.tsx:205-259 | A score lies in 0..130. It is positive exactly when the product has a reason, and there are as many reasons as fired rules. |
| Consultation.ScoreGtIsStrictWeakOrder | src/app/consultation/page.tsx:264 | The comparator `b.score - a.score` is a strict weak order, so the sort is well defined. |
| Consultation.ScorerForIsSound | src/app/consultation/page.tsx:205-259 | The scorer for any answer map scores each product as itself, at most 130, positive exactly when it has reasons. |
| Consultation.ScoredSnoc | src/app/consultation/page.tsx:204-259 | Scoring one more product appends its entry to the list when its score is positive, and leaves the list as it is otherwise. |
| Consultation.CalculateRecommendations | src/app/consultation/page.tsx:202-265 | The loop, the in-place sort and the slice give exactly `Recommendations`: the positively scored products, stably sorted by descending score, cut to three. |
| Consultation.ScoredEntry | src/app/consultation/page.tsx:257-259 | Every kept entry is a listed product with its own score, which lies between 1 and 130 and comes with reasons. |
| Consultation.SortedEntryFrom | src/app/consultation/page.tsx:264 | The sort only rearranges the entries. |
| Consultation.RankedShape | src/app/consultation/page.tsx:257-265 | For any sound scorer, the ranking has at most three entries. Each is a listed product with its own score, positive and at most 130, with reasons. They come in non-increasing score order. |
| Consultation.Recommendations | src/app/consultation/page.tsx:257-265 | There are at most three recommendations, and no more than there are products. |
| Consultation.RecommendationsShape | src/app/consultation/page.tsx:257-265 | The recommendations have at most three entries. Each is a listed product with its own score, positive and at most 130, with non-empty reasons. They come best score first. |
| Consultation.RecommendationsTiesKeepOrder | src/app/consultation/page.tsx:264 | Among the recommendations, the entries with equal scores keep their dataset order. |
| Consultation.NoAnswersNoRecommendations | src/app/consultation/page.tsx:208-259 | An empty answer map yields no recommendations. |
| Consultation.ChosenCategoryOptionIs | src/app/consultation/page.tsx:225-227 | The chosen category option is the option of the category question whose id is the first category answer. |
| Consultation.CategoryRuleIff | src/app/consultation/page.tsx:224-233 | The category points are awarded exactly when a category option with the answered id exists and its weight's category equals the product's category. |
| Consultation.LightUsageNeverFires | src/app/consultation/page.tsx:247-255 | For answers taken from the question table, whose usage option ids are 'rarely', 'sometimes', 'often' and 'professional', the 'light' branch never fires. |
| Consultation.Wizard.constructor | src/app/consultation/page.tsx:168-171 | The wizard starts on the first question with no answers and no results. |
| Consultation.Wizard.SelectOption | src/app/consultation/page.tsx:174-186 | Clicking an option of the current question updates the answers as `UpdateAnswers` does, and keeps every answer an option id. After a single choice, the wizard can proceed. |
| Consultation.Wizard.NextQuestion | src/app/consultation/page.tsx:188-194 | Before the last question it advances by one. On the last question it keeps the index, stores `Recommendations` of the catalog and shows the results. |
| Consultation.Wizard.PrevQuestion | src/app/consultation/page.tsx:196-200 | It steps back by one, and at the first question it does nothing. |
| Consultation.Wizard.RestartQuiz | src/app/consultation/page.tsx:269-274 | It resets the index to 0, clears the answers and the results, and hides the results. |
| Consultation.Wizard.CurrentAnswers | src/app/consultation/page.tsx:276-277 | The answers of the current question, or none. |
| Consultation.Wizard.CanProceed | src/app/consultation/page.tsx:276-278 | The wizard can proceed exactly when the current question has an answer. |
| Catalog.ComparatorIsStrictWeakOrder | src/app/catalog/tovari.tsx:67-79 | The three comparators the page passes to `sort` are strict weak orders. |
| Catalog.Comparator | src/app/catalog/tovari.tsx:67-79 | Only 'priceAsc', 'priceDesc' and 'nameAsc' sort. They place a product after another when it is dearer, when it is cheaper, and when its name compares greater under `localeCompare`. |
| Catalog.NarrowProducts | src/app/catalog/tovari.tsx:44-65 | The search, category, minimum and maximum filters, applied in turn and each skipped when inactive, keep exactly the products that pass all four, in table order. |
| Catalog.CatalogView | src/app/catalog/tovari.tsx:43-82 | The view has as many products as pass the filters. For any key other than the three sort keys it is the filtered table in table order. |
| Catalog.FilteredProducts | src/app/catalog/tovari.tsx:43-82 | The pipeline returns `CatalogView`: the admitted products, stably sorted by the selected comparator, or left in order for 'popular' and unknown keys. |
| Catalog.CatalogViewContents | src/app/catalog/tovari.tsx:44-80 | The output is a permutation of the products that pass every active filter. A product is shown exactly when it is in the table and passes. |
| Catalog.CatalogViewInitial | src/app/catalog/tovari.tsx:43-82 | With an empty search, 'Все', no bounds and 'popular', the output is the table in its order. |
| Catalog.CatalogViewOrdered | src/app/catalog/tovari.tsx:67-79 | 'priceAsc' gives non-decreasing prices and 'priceDesc' non-increasing prices. 'nameAsc' gives names in non-decreasing `localeCompare` order. |
| Catalog.CatalogViewIdempotent | src/app/catalog/tovari.tsx:44-80 | Running the pipeline on its own output changes nothing. |
| Catalog.CatalogViewStable | src/app/catalog/tovari.tsx:67-79 | Products with equal sort keys keep their table order. |
| Catalog.HandlePriceChange | src/app/catalog/tovari.tsx:84-89 | Only the chosen bound takes the new value. |
| Catalog.GetCurrentSortLabel | src/app/catalog/tovari.tsx:98-117 | Each of the four keys gets its label, and any other key gets 'По популярности'. |
| Catalog.ApplyUrlParams | src/app/catalog/tovari.tsx:27-40 | A non-empty `search` replaces the query. A non-empty `category` selects its mapped name, or 'Все' for an unknown slug. Nothing else changes. |
| Products.SlugMapMatchesCategories | src/app/data/products.tsx:127-191 | Every category's slug maps to its name, and every key of the slug map is the slug of some category. |
| Products.ProductIdsAreOneToTwelve | src/app/data/products.tsx:15-124 | The table has twelve products, with ids 1..12 in order. |
| Products.CategoryNames | src/app/data/products.tsx:179 | The filter names are 'Все' followed by the category names in table order, one more than the number of categories. |
| Products.CategoryNamesSpelledOut | src/app/data/products.tsx:127-179 | The filter names, written out. |
| Products.ProductCategoriesListed | src/app/data/products.tsx:15-124 | Every product's category is one of the category names. |
| Products.ProductPricesAndRatings | src/app/data/products.tsx:15-124 | Every price is non-negative and every rating lies between 0 and 5 stars. |
| Products.FindById | src/app/data/products.tsx:195 | `find` by id returns nothing exactly when no product has the id. Otherwise it returns the first product with that id. |
| Products.GetProductById | src/app/data/products.tsx:194-196 | On the table, a product is found exactly for the ids 1..12, and it has the requested id. |
| Products.GetProductsByCategory | src/app/data/products.tsx:198-203 | 'Все' returns the whole list. Any other name returns `Filter` by that category: exactly the products of that category, in table order. |
| Products.CategoryResultsInTableOrder | src/app/data/products.tsx:198-203 | The products of a category sit at increasing table positions, and every position holding that category is among them. |
| Products.MatchesQuery | src/app/data/products.tsx:206-209 | A product matches exactly when the lower-cased query occurs at some position of its lower-cased name or category. |
| Products.EmptyQueryMatches | src/app/data/products.tsx:206-209 | Every product matches the empty query. |
| Products.SearchProducts | src/app/data/products.tsx:205-210 | The result is `Filter` by the search test: exactly the products whose lower-cased name or category contains the lower-cased query, in table order. |
| Products.SearchResultsInTableOrder | src/app/data/products.tsx:205-210 | The search results sit at increasing table positions, and every matching position is among them. |
| Products.SearchEmptyReturnsAll | src/app/data/products.tsx:205-210 | The empty query returns every product, in order. |
| Products.GetCategoryBySlug | src/app/data/products.tsx:212-214 | A known slug gives its mapped name, and any other slug gives 'Все'. Either way the result is a filter name. |
| Header.HeaderSearch.constructor | src/components/Header/Header.tsx:31-38 | The header starts with an empty query and results, and with every flag off. |
| Header.HeaderSearch.HandleSearch | src/components/Header/Header.tsx:56-78 | A query of 0 or 1 UTF-16 code units empties the results and hides them. A longer query sets the results to `searchProducts` of it and shows them. |
| Header.HeaderSearch.HandleSearchSubmit | src/components/Header/Header.tsx:81-88 | An empty query changes nothing. A non-empty one hides the results and clears the focus. |
| Header.HeaderSearch.HandleResultClick | src/components/Header/Header.tsx:91-96 | It clears the query, hides the results and clears the focus. |
| Header.HeaderSearch.ClearSearch | src/components/Header/Header.tsx:176-180 | It clears the query and the results and hides the dropdown. |
| Header.HeaderSearch.ClickOutside | src/components/Header/Header.tsx:100-105 | A press outside the search box hides the results and clears the focus. A press inside changes nothing. |
| Header.HeaderSearch.KeyDown | src/components/Header/Header.tsx:107-113 | Escape closes the menu, hides the results and clears the focus. Other keys change nothing. |
| Header.HeaderSearch.Focus | src/components/Header/Header.tsx:158-163 | Focusing sets the focus flag and reopens the dropdown when a searching query has results. |
| Header.HeaderSearch.ToggleMobileMenu | src/components/Header/Header.tsx:47-49 | It flips the mobile-menu flag and keeps the search state consistent. |
| Header.HeaderSearch.CloseMobileMenu | src/components/Header/Header.tsx:51-53 | It closes the mobile menu and keeps the search state consistent. |
| Header.HeaderSearch.Preview | src/components/Header/Header.tsx:198 | The dropdown lists the first min(5, n) results: entry i is `searchResults[i]`, a table product matching the query. |
| Header.HeaderSearch.DropdownVisible | src/components/Header/Header.tsx:191 | In a consistent state, an open dropdown lists exactly `searchProducts` of the query. |
| Header.HeaderSearch.ShowAllVisible | src/components/Header/Header.tsx:222 | In a consistent state, when the "show all" button appears the preview holds 5 of more than 5 matches of the query. |
| Text.Utf16Length | src/components/Header/Header.tsx:59-65 | `length` counts UTF-16 code units: at least one and at most two per character. |
| Text.AstralCharLength | src/components/Header/Header.tsx:65 | A single character outside the Basic Multilingual Plane has length 2, so it already searches. |
| Header.DropdownVisibleIff | src/components/Header/Header.tsx:191 | In a consistent state, the dropdown shows exactly when the results flag and the focus are on. |
| Header.ShowAllMeansMore | src/components/Header/Header.tsx:198-222 | When "show all" appears, the preview shows 5 of more than 5 matches of the query. |
| Profile.CheckAddress | src/app/profile/page.tsx:208-227 | The address is refused, with its message, exactly when the trimmed street or city is empty. Otherwise the request carries the three trimmed fields, and the postal code may be empty. |
| Profile.CheckedAddressHasText | src/app/profile/page.tsx:208-212 | An accepted street and city each contain a character that is not white space. |
| Profile.CheckAddressIdempotent | src/app/profile/page.tsx:223-227 | The fields sent are already trimmed, so checking them again sends the same request. |
| Profile.RestoredForm | src/app/profile/page.tsx:199-204 | Each form field is the saved value, or '' when it is missing. |
| Profile.SetAddressField | src/app/profile/page.tsx:249-254 | Exactly one address field takes the value, and the others keep theirs. |
| Profile.CheckPayment | src/app/profile/page.tsx:281-304 | A card with a blank number, holder or expiry is refused with its message, and other kinds are never refused. The request carries the fields as typed. |
| Profile.FreshPaymentForm | src/app/profile/page.tsx:260-266 | The new form is an empty card form, marked default exactly when no payment method exists yet. |
| Profile.FreshFormRefused | src/app/profile/page.tsx:257-287 | A fresh card form is refused until its card fields are filled in. |
| Profile.EditPayment | src/app/profile/page.tsx:274-279 | Exactly one payment field takes the value, and the others keep theirs. |
| Profile.StatusText | src/app/profile/page.tsx:483-494 | The three known statuses get their labels, and any other status is returned unchanged. |
| Profile.JsRem | src/app/profile/page.tsx:995 | JavaScript's remainder for a positive divisor: the dividend is the quotient rounded toward zero times the divisor plus the remainder. The remainder is in 0..b-1 for non-negative dividends and in -(b-1)..0 for negative ones. These clauses determine it. |
| Profile.PointsToNextLevel | src/app/profile/page.tsx:995 | The figure is positive, and adding it to the balance reaches a multiple of 2000. A missing balance counts as zero, so it then shows 2000. |
| Profile.PointsToNextLevelBounds | src/app/profile/page.tsx:995 | For non-negative points, the points still needed lie in 1..2000 and reach the next multiple of 2000. They are 2000 exactly at a multiple of 2000. |
| Profile.PointsToNextLevelNegative | src/app/profile/page.tsx:995 | For negative points, the truncating remainder makes the figure at least 2000 and below 4000. |
| Profile.TabFromUrl | src/app/profile/page.tsx:89-95 | 'profile' and 'orders' select their tab. Any other value, or none, keeps the current tab. |
| Profile.ProfileForms.constructor | src/app/profile/page.tsx:50-86 | The initial form and flag state. |
| Profile.ProfileForms.StartEditingAddress | src/app/profile/page.tsx:190-193 | It enters edit mode and clears the error. |
| Profile.ProfileForms.CancelEditingAddress | src/app/profile/page.tsx:196-205 | It leaves edit mode, clears the error and restores the form from the saved address. |
| Profile.ProfileForms.HandleAddressChange | src/app/profile/page.tsx:249-254 | The form becomes `SetAddressField` of the old form. |
| Profile.ProfileForms.SaveAddress | src/app/profile/page.tsx:207-227 | A refused address sets the message and sends nothing. An accepted one marks the update as running, clears the error and returns the trimmed request. |
| Profile.ProfileForms.StartAddingPayment | src/app/profile/page.tsx:257-267 | It opens the fresh payment form and clears the error. |
| Profile.ProfileForms.CancelAddingPayment | src/app/profile/page.tsx:269-272 | It closes the payment form and clears the error. |
| Profile.ProfileForms.HandlePaymentChange | src/app/profile/page.tsx:274-279 | The form becomes `EditPayment` of the old form. |
| Profile.ProfileForms.AddPaymentMethod | src/app/profile/page.tsx:281-304 | A refused card sets the message and sends nothing. Otherwise it marks the request as running, clears the error and returns the request. |
| Database.FirstValue | src/lib/config/database.ts:45-52 | The result is the value of the first listed name that has a non-empty value, or nothing when no name has one. |
| Database.GetEnvVar | src/lib/config/database.ts:45-52 | The loop with early return yields `FirstValue`. |
| Database.PrimaryNameWins | src/lib/config/database.ts:56-60 | The `POSTGRES_*` name wins when it has a value, and the `DB_*` alias is read only when it does not. |
| Database.GetDatabaseConfig | src/lib/config/database.ts:55-86 | It fails with the message of the first missing setting, checking user, password, database, host and port in that order. It succeeds exactly when all five are present, with their values. |
| Database.SslConfig | src/lib/config/database.ts:89-104 | SSL is off for every host and every environment. |
| Database.LoggingFromEnv | src/lib/config/database.ts:4-9 | Logging is on exactly when `DB_LOGGING` is 'true' or `NODE_ENV` is 'development'. The level is `DB_LOG_LEVEL` when non-empty, else 'info'. The settings are printed only for `DB_SHOW_CONFIG` = 'true', and the connection test is off only for `DB_TEST_CONNECTION` = 'false'. |
| Database.EmptyEnvDefaults | src/lib/config/database.ts:4-9 | An empty environment gives logging off, level 'info', no settings output and the connection test on. |
| Database.Shows | src/lib/config/database.ts:12-35 | Read as a threshold: with logging on, a message is written exactly when its kind is among the `Verbosity(level)` most severe kinds. So error shows at error/warn/info/debug, warn at warn/info/debug, info at info/debug and debug only at debug. |
| Database.ShowsMonotone | src/lib/config/database.ts:12-35 | A setting that writes a message also writes every more severe kind. |
| Database.NothingShown | src/lib/config/database.ts:12-35 | Disabled logging, 'silent' and unknown levels write nothing. |
| Database.ShowsConfig | src/lib/config/database.ts:37-41 | The settings are printed whenever `showConfig` is set, even with logging off. |
| Database.ShowsConfigOnlyShowConfig | src/lib/config/database.ts:37-41 | Whether the settings are printed depends only on `showConfig`. |
| Text.ToLowerIdempotent | src/app/data/products.tsx:207-208 | Lower-casing twice is lower-casing once. |
| Text.ContainsEmpty | src/app/catalog/tovari.tsx:47-52 | Every string contains the empty string. |
| Text.ContainsAt | src/app/data/products.tsx:207-208 | `includes` holds exactly when the needle occurs at some position. |
| Text.Trim | src/app/profile/page.tsx:224-226 | The result is a slice of the input with only white space outside it, and it neither begins nor ends with white space. |
| Text.TrimIdempotent | src/app/profile/page.tsx:224-226 | Trimming twice is trimming once. |
| Text.BlankIffAllWhitespace | src/app/profile/page.tsx:209 | A string is empty after trimming exactly when all its characters are white space. |
| Text.LocaleCompareAntisymmetric | src/app/catalog/tovari.tsx:75 | Swapping the arguments of the name comparison negates it. |
| Text.LocaleCompareZeroIffEqual | src/app/catalog/tovari.tsx:75 | The name comparison is 0 exactly for equal names. |
| Text.LocaleCompareTransitive | src/app/catalog/tovari.tsx:75 | The name order is transitive. |
| Seqs.Filter | src/app/catalog/tovari.tsx:48-64 | `filter` keeps exactly the elements that pass, and no more of them than the input has. |
| Seqs.FilterPositions | src/app/catalog/tovari.tsx:48-64 | The output of `filter` holds the passing elements at increasing positions of the input, and every passing position is among them. So it keeps their order and their multiplicity. |
| Seqs.FilterAppend | src/app/catalog/tovari.tsx:48-64 | Filtering distributes over concatenation. |
| Seqs.FilterTwice | src/app/catalog/tovari.tsx:48-64 | Two filters in a row are one filter by the conjunction. |
| Seqs.FindFirst | src/app/data/products.tsx:195 | `find` returns nothing exactly when no element passes. Otherwise it returns the first element that passes. |
| Seqs.Take | src/components/Header/Header.tsx:198 | `slice(0, n)` keeps the first min(n, length) elements. |
| Sorting.SortSeqPermutes | src/app/catalog/tovari.tsx:67-79 | The stable sort only rearranges the elements. |
| Sorting.SortSeqSorted | src/app/catalog/tovari.tsx:67-79 | Under a strict weak order, no element of the result is placed after one it precedes. |
| Sorting.SortSeqOfSorted | src/app/catalog/tovari.tsx:67-79 | Sorting an already sorted sequence leaves it unchanged. |
| Sorting.SortSeqStable | src/app/catalog/tovari.tsx:67-79 | Elements tied with one another keep their relative order. |
| Sorting.InsertInPlace | src/app/catalog/tovari.tsx:67-79 | One pass of insertion sort inserts `a[i]` into the sorted prefix and leaves the rest of the array alone. |
| Sorting.InsertionSort | src/app/catalog/tovari.tsx:67-79 | Sorting the array in place leaves it holding `SortSeq` of its old contents. |

## Left out

- JSX rendering, CSS, icons and images are not modelled. So are `Footer.tsx`, `layout.tsx`, the home page and the catalog page wrapper, which hold no logic.
- The cart and favourites state lives in contexts that are not part of this model, along with the pages that show it.
- Every `fetch`, the handling of its response, `router.push` and navigation, `confirm` and the avatar upload are not modelled. `SaveAddress` and `AddPaymentMethod` stop at the request they would send.
- `setTimeout` message clearing and the 150 ms blur delay of the header search depend on timing, and are not modelled.
- `useEffect` and the registration of DOM listeners are not modelled. Their bodies are modelled: `ClickOutside` and `KeyDown` as methods, `ApplyUrlParams` and `TabFromUrl` as functions that return the new state.
- Floating-point and locale formatting are not modelled: `toLocaleString`, `toFixed`, dates and the progress-bar percentage. The bonus points are whole numbers.
- `Number()` of the price inputs is not modelled: a bound is `None` for an empty input, or a whole number.
- `parseInt` of the port is not modelled: `DbConfig.port` keeps the text read.
- The console output of the database logger is not modelled. Only whether a message would be written is (`Shows`, `ShowsConfig`).
- The full Unicode behaviour of `toLowerCase`, `includes`, `localeCompare` and `trim` is replaced by the approximations described above.
- The question texts, option texts, icons and option weights' display text of the consultation table are not modelled. Only ids, kinds and the weights the scorer reads are kept.
- `categorySlugMap[slug]` in JavaScript also finds inherited object keys such as `constructor`. The model treats the map as holding only its eight slugs.
- `handleSortSelect` and the catalog's dropdown flag are not modelled, and neither are other UI-only flags such as the active tab's rendering.
- The progress bar of the quiz is not modelled.
- The "next" button's `disabled={!canProceed}` is the only guard on advancing. As in the source, `NextQuestion` does not check it itself; `CanProceed` states it.
