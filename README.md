# tager-admin-blog, modelled in Dafny

A model of the logic of the blog plug-in of the Tager admin panel. The plug-in's own logic is small and synchronous:

- **Form converters.** They turn a fetched post or category (or none, for a new one) into form state. They turn form state into the payload of a create or update request. There are two generations: the newer `Posts/PostForm` and `Categories/CategoryForm`, and the older `BlogPostForm` and `BlogCategoryForm`.
- **List helpers.**
  - a client-side category filter;
  - relabelling of language codes with language names;
  - the table columns, some of which appear only under conditions.
- **Advanced-search state.** Two `useAdvancedSearch` hooks hold the selected filters. The filters are seeded from the route query and edited by removing tags.
- **User store.** A guarded fetch-status machine, the profile's scopes, and a permission check with a `*` wildcard.
- **String utilities.** `namespace`, `userNamespace`, `generateNumberArray`, `getNameWithDepth`.

Each source file is one module:

| file | module |
|---|---|
| `PostForm.helpers.ts` | `PostForm` |
| `BlogPostForm.helpers.ts` | `BlogPostForm` |
| `CategoryForm.helpers.ts` | `CategoryForm` |
| `BlogCategoryForm.helpers.ts` | `BlogCategoryForm` |
| `PostList.helpers.ts` | `PostList` |
| `BlogPostList.helpers.ts` | `BlogPostList` |
| `CategoryList.helpers.ts` | `CategoryList` |
| `BlogCategoryList.helpers.ts` | `BlogCategoryList` |
| the two `useAdvancedSearch.ts` | `PostSearch`, `CategorySearch` |
| `store/user.ts` | `UserStore` |
| `utils/common.ts` | `Common` |

The records live in `Model`. `Seqs` and `Strings` hold the JavaScript array and string operations the helpers use: `filter`, `find`, `some`, `filter(notEmpty)`, `split`, `join`, `trim`, `substr`, `reverse` and `String(number)`.

Order and multiplicity of a filtered list are stated with `Seqs.KeepsInOrder` and `Seqs.SelectsInOrder`: the result is read off a strictly increasing list of the positions that pass the test. `Seqs.KeepsInOrderUnique` and `Seqs.SelectsInOrderUnique` prove that these predicates determine the result exactly.

The helpers are pure, so they are functions. Each comes with lemmas: round trips from record to form to payload, defaults, and the order and presence of columns. Stateful code becomes classes:

- **Search hooks.** `PostSearch.Search` and `CategorySearch.Search` have the hooks' refs as fields. Their methods replace the fields as `tagRemovalHandler` and the watchers do.
- **User store.** `UserStore.Store` holds the module state. Its mutation methods are proved against the pure transition `UserStore.Apply`.
- **`userScopes` loop.** The getter's `forEach`/`push` loop is the method `UserStore.Store.UserScopes`, with a loop invariant.

JavaScript semantics are written out where they matter:

- **Truthiness.**
  - A nullable string is truthy only when present and non-empty (`Model.Truthy`).
  - A `languageId` of `''` therefore means "no language filter", just as `null` does.
  - A date of `''` means "no date".
- **Nullish coalescing.** `??` is `Option.GetOr`.
- **Optional chaining.** `a?.b ?? null` is an `Option` match.
- **`split`.** The result is never empty: `''.split(',')` is `['']`.
- **`trim`.** It removes the ECMAScript white-space characters.
- **`Array.from({ length })`.** A negative length gives an empty array.
- **`filter(notEmpty)`.** Applied to a literal column list, it is `Seqs.Present`.

Where the source passes a value through a library the model cannot see, the model takes it as a parameter:

- the translation function `t` / `$t` is a parameter `t: string -> string`;
- `createId` is a parameter `createId: nat -> string`, keyed by the position of the call;
- `universalFieldUtils.createFormField` and `getOutgoingValue` are two function parameters.

## Model

| member | source | states |
|---|---|---|
| Common.Namespace | src/utils/common.ts:3-5 | the result is `ns`, then one `/`, then `name`, with the lengths to match |
| Common.UserNamespace | src/utils/common.ts:7-9 | the result is `"user/"` followed by `name` |
| Common.GenerateNumberArray | src/utils/common.ts:11-13 | length is `length` (0 when negative), and element `i` is `i` |
| Common.DashRunShape | src/utils/common.ts:17-19 | `d` dashes joined by spaces alternate dash and space, have length `2d - 1`, and hold exactly `d` dashes |
| Common.DashRunIsJoin | src/utils/common.ts:17-19 | the dash run equals `join(' ')` of `d` one-dash strings |
| Common.NameWithDepth | src/utils/common.ts:15-23 | ends with `name`, has a space just before it, the prefix holds exactly `max(depth, 0)` dashes, and the length is `2d - 1 + 1 + \|name\|` (or `1 + \|name\|` at depth 0) |
| Model.OptionWithValue | src/views/Posts/PostForm/PostForm.helpers.ts:79-81 | none exactly when no option has the value; otherwise the first option carrying it |
| Model.OptionsWithValues | src/views/Posts/PostForm/PostForm.helpers.ts:83-85 | the options whose values are listed, no others, and every option whose value is listed |
| Model.OptionsWithValuesInOrder | src/views/Posts/PostForm/PostForm.helpers.ts:83-85 | the result is the options whose value is listed, in option order and each as often as it occurs (`Seqs.KeepsInOrder`) |
| Model.RelatedSelection | src/views/Posts/PostForm/PostForm.helpers.ts:83-85 | an option is selected iff it is a post option whose value is the id of a related post; the selection keeps those post options in order and multiplicity |
| Model.LanguageLabel | src/views/Posts/PostList/PostList.helpers.ts:27-31 | an unknown code is kept; a changed label is some language's name for that code; the first language with the code gives the label |
| PostForm.StatusOptions | src/views/Posts/PostForm/PostForm.helpers.ts:18-22 | the option values are exactly PUBLISHED, DRAFT, ARCHIVED in that order |
| PostForm.StatusOption | src/views/Posts/PostForm/PostForm.helpers.ts:87-89 | the option is one of the options; its value is the post's status when an option has it, else the first option's value |
| PostForm.FormFields | src/views/Posts/PostForm/PostForm.helpers.ts:70-72 | one form field per schema; without a post each is built from its schema and no value |
| PostForm.ToFormValues | src/views/Posts/PostForm/PostForm.helpers.ts:46-129 | the status is one of the status options, the language is one of the language options, related posts come from the post options, and there is one dynamic field per schema |
| PostForm.ToCreationPayload | src/views/Posts/PostForm/PostForm.helpers.ts:131-160 | an archive date only comes with PUBLISHED and no publish date, a publish date only with DRAFT and no archive date, and there is one dynamic field per form field |
| PostForm.ToUpdatePayload | src/views/Posts/PostForm/PostForm.helpers.ts:162-169 | the update payload is the creation payload (which already carries `urlAlias`) |
| PostForm.CategoryOptions | src/views/Posts/PostForm/PostForm.helpers.ts:171-181 | no more options than categories |
| PostForm.NewPostDefaults | src/views/Posts/PostForm/PostForm.helpers.ts:53-77 | without a post: empty texts, no images, empty lists, no language, the first status option, no schedule, one schema-built field per schema |
| PostForm.ScheduleDates | src/views/Posts/PostForm/PostForm.helpers.ts:157-158 | `archiveAt` is set iff the status is PUBLISHED, scheduling is on and the date is non-empty; `publishAt` likewise with DRAFT. Both carry the form date, they are never both set, and with ARCHIVED neither is |
| PostForm.PayloadTags | src/views/Posts/PostForm/PostForm.helpers.ts:151 | every payload tag is an untrimmed comma piece of the form text that is not blank, and every such piece is a payload tag; the tags are exactly the non-blank pieces in split order, each as often as it occurs |
| PostForm.TagsRoundTrip | src/views/Posts/PostForm/PostForm.helpers.ts:115 | post tags with no comma and no blank tag come back unchanged in the payload |
| PostForm.ScheduleRoundTrip | src/views/Posts/PostForm/PostForm.helpers.ts:126-127 | a PUBLISHED post with an archive date (or a DRAFT post with a publish date) gets scheduling on and the first 10 characters as the form date. The payload carries that date in the same field and leaves the other field empty |
| PostForm.Selections | src/views/Posts/PostForm/PostForm.helpers.ts:79-85 | an option is a selected related post iff it is a post option whose value is the id of a related post, and the selection keeps those post options in option order and multiplicity; the language is none iff no option carries the post's language, otherwise the first option that does |
| PostForm.PayloadRoundTrip | src/views/Posts/PostForm/PostForm.helpers.ts:79-156 | post to form to payload gives the category ids in order; it also gives the texts, the SEO texts with null as `''`, each image's file id (present iff the post has the image), and the date cut to its first 10 characters (`''` without a date); the language is kept iff an option carries it; the status is the post's status when it is an option, else the first option's value |
| PostForm.AdditionalFieldNames | src/views/Posts/PostForm/PostForm.helpers.ts:116-124 | when the field library keeps the schema, the payload has one dynamic field per schema, in schema order, under the schema's name |
| PostForm.FormFieldConfigs | src/views/Posts/PostForm/PostForm.helpers.ts:116-124 | when the field library keeps the schema, form field `i` carries schema `i` |
| PostForm.AdditionalFieldValues | src/views/Posts/PostForm/PostForm.helpers.ts:116-124 | the first stored field with a schema's name gives that schema's form field its value |
| PostForm.CategoryOptionsInOrder | src/views/Posts/PostForm/PostForm.helpers.ts:171-181 | the options are the categories of the chosen language (all when none), in category order and each as often as it occurs (`Seqs.SelectsInOrder`) |
| PostForm.CategoryOptionsSelection | src/views/Posts/PostForm/PostForm.helpers.ts:171-181 | with no language (null or `''`) every category in order with its depth label; otherwise every category of that language has an option, every option comes from a category of that language, and the options follow those categories in order and multiplicity |
| BlogPostForm.FileId | src/views/BlogPostForm/BlogPostForm.helpers.ts:87 | the id is present iff the file is, and it is the file's id |
| BlogPostForm.ToFormValues | src/views/BlogPostForm/BlogPostForm.helpers.ts:26-77 | the language is one of the language options and the related posts come from the post options |
| BlogPostForm.ToCreationPayload | src/views/BlogPostForm/BlogPostForm.helpers.ts:79-100 | the status is always PUBLISHED; one category id per category option and one related id per related option |
| BlogPostForm.ToUpdatePayload | src/views/BlogPostForm/BlogPostForm.helpers.ts:102-109 | the creation payload plus the form's `urlAlias` |
| BlogPostForm.CategoryOptions | src/views/BlogPostForm/BlogPostForm.helpers.ts:111-123 | no more options than categories |
| BlogPostForm.NewPostDefaults | src/views/BlogPostForm/BlogPostForm.helpers.ts:31-48 | without a post: empty texts, no images, empty lists, no language |
| BlogPostForm.RoundTrip | src/views/BlogPostForm/BlogPostForm.helpers.ts:58-98 | for every post, post to form to payload gives the category ids in order, each image's file id or none, and the texts; the language is kept iff it is an option. When no tag holds a comma or is blank, the tags also come back unchanged |
| BlogPostForm.RelatedPostsSelection | src/views/BlogPostForm/BlogPostForm.helpers.ts:54-56 | an option is selected iff it is a post option whose value is a related post's id; the selection keeps those post options in option order and multiplicity |
| BlogPostForm.CategoryOptionsInOrder | src/views/BlogPostForm/BlogPostForm.helpers.ts:111-123 | the options are the `(id, name)` of the categories of the chosen language (all when none), in category order and each as often as it occurs |
| BlogPostForm.CategoryOptionsSelection | src/views/BlogPostForm/BlogPostForm.helpers.ts:111-123 | with no language every category in order as `(id, name)`; with a language every category of that language has its `(id, name)` option, every option is that of such a category, and the options follow those categories in order and multiplicity |
| CategoryForm.NoParent | src/views/Categories/CategoryForm/CategoryForm.helpers.ts:26 | the no-parent option carries no id |
| CategoryForm.ToFormValues | src/views/Categories/CategoryForm/CategoryForm.helpers.ts:13-57 | a chosen language is an option carrying the category's language; the parent has no id iff there is no category or no parent |
| CategoryForm.ToPayload | src/views/Categories/CategoryForm/CategoryForm.helpers.ts:59-73 | the payload parent is the parent option's value; an image id is present iff the form has an image |
| CategoryForm.ParentOptions | src/views/Categories/CategoryForm/CategoryForm.helpers.ts:75-89 | the no-parent option comes first and every later option carries an id |
| CategoryForm.NewCategoryDefaults | src/views/Categories/CategoryForm/CategoryForm.helpers.ts:22-36 | without a category: empty texts, not default, no image, no language, the no-parent option |
| CategoryForm.RoundTrip | src/views/Categories/CategoryForm/CategoryForm.helpers.ts:39-73 | the parent id round-trips (none stays none). Name, alias and default flag are copied into form and payload. Null SEO texts become `''`. The image id is kept. The payload has a language iff the category's language is an option, and it is then that language |
| CategoryForm.ParentOptionsInOrder | src/views/Categories/CategoryForm/CategoryForm.helpers.ts:75-89 | after the first option, the options are the categories of the chosen language (all when none) in category order and multiplicity |
| CategoryForm.ParentOptionsSelection | src/views/Categories/CategoryForm/CategoryForm.helpers.ts:75-89 | the first option is "no parent"; the length is one plus the number of categories of the language (all when none); after it, every such category has its depth-labelled option, every option is that of such a category, in category order and multiplicity |
| BlogCategoryForm.ToFormValues | src/views/BlogCategoryForm/BlogCategoryForm.helpers.ts:18-44 | a chosen language is an option carrying the category's language |
| BlogCategoryForm.ToCreationPayload | src/views/BlogCategoryForm/BlogCategoryForm.helpers.ts:46-56 | an image id iff the form has an image, a language iff the form has one |
| BlogCategoryForm.ToUpdatePayload | src/views/BlogCategoryForm/BlogCategoryForm.helpers.ts:58-65 | the creation payload plus the form's `urlAlias` |
| BlogCategoryForm.NewCategoryDefaults | src/views/BlogCategoryForm/BlogCategoryForm.helpers.ts:26-35 | without a category: empty texts, no image, no language |
| BlogCategoryForm.RoundTrip | src/views/BlogCategoryForm/BlogCategoryForm.helpers.ts:36-65 | name, alias and image are copied and null SEO texts become `''`; the payload carries the image's id and the language iff it is an option |
| PostList.Relabel | src/views/Posts/PostList/PostList.helpers.ts:25-36 | only the language changes, and nothing changes when there are no languages |
| PostList.ConvertPosts | src/views/Posts/PostList/PostList.helpers.ts:14-37 | never more posts than given |
| PostList.ConvertPostList | src/views/Posts/PostList/PostList.helpers.ts:14-37 | never more posts than given, and all of them when no category is selected |
| PostList.Statuses | src/views/Posts/PostList/PostList.helpers.ts:39-45 | the keys are exactly PUBLISHED, DRAFT and ARCHIVED |
| PostList.StatusesMatchOptions | src/views/Posts/PostList/PostList.helpers.ts:39-45 | each status option's value maps to that option's label |
| PostList.CategoriesCell | src/views/Posts/PostList/PostList.helpers.ts:111-112 | no categories give `''`, one gives its name |
| PostList.NoCategoryKeepsAll | src/views/Posts/PostList/PostList.helpers.ts:19-24 | with no category selected every post is kept, relabelled, in order |
| PostList.KeptPosts | src/views/Posts/PostList/PostList.helpers.ts:19-36 | a post is in the result iff it is the relabelling of a post having a category with the selected id |
| PostList.ConvertConcat | src/views/Posts/PostList/PostList.helpers.ts:19-36 | converting a concatenation concatenates the conversions, so order is kept |
| PostList.NoLanguagesNoRelabel | src/views/Posts/PostList/PostList.helpers.ts:26-35 | with no languages the kept posts are returned unchanged |
| PostList.ColumnOrder | src/views/Posts/PostList/PostList.helpers.ts:47-124 | column ids are 1..8 when the module has languages, otherwise 1,2,3,4,6,7,8 |
| BlogPostList.ConvertPostList | src/views/BlogPostList/BlogPostList.helpers.ts:13-40 | never more posts than given, all of them with no category, and the shared conversion by category id otherwise |
| BlogPostList.SameAsPostList | src/views/BlogPostList/BlogPostList.helpers.ts:13-40 | the older list converts exactly as the newer one for a category with the same id |
| BlogPostList.ColumnOrder | src/views/BlogPostList/BlogPostList.helpers.ts:42-106 | column ids are 1..7 when the module has languages, otherwise 1,2,3,5,6,7 |
| CategoryList.ConvertCategoryList | src/views/Categories/CategoryList/CategoryList.helpers.ts:10-28 | same length and order; only the language changes, to the language's label when there are languages |
| CategoryList.NoLanguagesUnchanged | src/views/Categories/CategoryList/CategoryList.helpers.ts:15-27 | with no languages the list is returned unchanged |
| CategoryList.ConvertConcat | src/views/Categories/CategoryList/CategoryList.helpers.ts:14-27 | relabelling a concatenation concatenates the relabellings |
| CategoryList.CategoryNameCell | src/views/Categories/CategoryList/CategoryList.helpers.ts:45-53 | the text is the name indented by depth; the parameter list is non-empty iff the category is the default one, and is then the one "default: yes" entry |
| CategoryList.ColumnOrder | src/views/Categories/CategoryList/CategoryList.helpers.ts:30-90 | ids are 1, 2, then 3 iff the module has languages, then 4, then 5 iff administrators may be viewed; 3 to 5 columns |
| CategoryList.LinkToPostsByCategory | src/views/Categories/CategoryList/CategoryList.helpers.ts:92-94 | the post list path, `?filter[category]=`, then the id in decimal |
| CategoryList.LinkToPostsInjective | src/views/Categories/CategoryList/CategoryList.helpers.ts:92-94 | different ids give different links |
| BlogCategoryList.ConvertCategoryList | src/views/BlogCategoryList/BlogCategoryList.helpers.ts:13-31 | same length and order; only the language changes, to the language's label when there are languages |
| BlogCategoryList.UnknownLanguageKept | src/views/BlogCategoryList/BlogCategoryList.helpers.ts:18-30 | a category whose code matches no language is unchanged |
| BlogCategoryList.ColumnOrder | src/views/BlogCategoryList/BlogCategoryList.helpers.ts:33-88 | ids are exactly 2,5,4,8,9 with languages and 2,5,8,9 otherwise, including when there is no configuration |
| PostSearch.CategoryOptions | src/views/Posts/PostList/hooks/useAdvancedSearch.ts:56-61 | one option per category, in order, valued by the id in decimal and labelled by the name indented by depth |
| PostSearch.LanguageOptions | src/views/Posts/PostList/hooks/useAdvancedSearch.ts:81-83 | one `(code, name)` option per language, in order |
| PostSearch.InitialDate | src/views/Posts/PostList/hooks/useAdvancedSearch.ts:103-109 | a missing query date is `''`, a present one is kept |
| PostSearch.InitialState | src/views/Posts/PostList/hooks/useAdvancedSearch.ts:63-125 | the selections are the options the query names and the dates are the query's |
| PostSearch.InitialSelections | src/views/Posts/PostList/hooks/useAdvancedSearch.ts:63-93 | every initial selection is named by the query, and every option the query names is selected; each selection keeps the options in option order and multiplicity |
| PostSearch.Without | src/views/Posts/PostList/hooks/useAdvancedSearch.ts:187-194 | the selections other than those with the value, and all of them |
| PostSearch.WithoutInOrder | src/views/Posts/PostList/hooks/useAdvancedSearch.ts:187-194 | the remaining selections are those not carrying the value, in selection order and each as often as it occurs |
| PostSearch.RemoveTag | src/views/Posts/PostList/hooks/useAdvancedSearch.ts:185-200 | a category tag changes only the category selection, a language tag only the language selection, a from-date tag clears both dates, and any other tag changes nothing |
| PostSearch.RemoveTagIdempotent | src/views/Posts/PostList/hooks/useAdvancedSearch.ts:185-200 | removing the same tag twice equals removing it once |
| PostSearch.RemovedTagGone | src/views/Posts/PostList/hooks/useAdvancedSearch.ts:185-220 | after removing a category or language tag, no tag of that filter carries its value |
| PostSearch.FilterRecord | src/views/Posts/PostList/hooks/useAdvancedSearch.ts:166-178 | category and language keys always, with the selected values; each date key iff that date is non-empty; no other keys |
| PostSearch.DateTag | src/views/Posts/PostList/hooks/useAdvancedSearch.ts:133-162 | no tag iff both dates are empty; otherwise a from-date tag with the range label |
| PostSearch.DateTagLabel | src/views/Posts/PostList/hooks/useAdvancedSearch.ts:140-154 | "F - T" with both dates, the from prefix with only the from date, the to prefix with only the to date |
| PostSearch.SelectionTags | src/views/Posts/PostList/hooks/useAdvancedSearch.ts:206-217 | one tag per selection with its value and label, in order |
| PostSearch.TagCount | src/views/Posts/PostList/hooks/useAdvancedSearch.ts:204-220 | the tag count is the two selection counts plus one when either date is set |
| PostSearch.TagsFollowSelections | src/views/Posts/PostList/hooks/useAdvancedSearch.ts:204-220 | the category tags come first and then the language tags, in selection order; when either date is set the date tag comes last, right after them |
| PostSearch.NarrowedCategoryOptions | src/views/Posts/PostList/hooks/useAdvancedSearch.ts:224-237 | all category options when no language is selected; never more options than categories |
| PostSearch.NarrowedOptionsSound | src/views/Posts/PostList/hooks/useAdvancedSearch.ts:229-236 | with a language selected, every option is that of a category of a selected language |
| PostSearch.NarrowedOptionsComplete | src/views/Posts/PostList/hooks/useAdvancedSearch.ts:229-236 | with a language selected, every category of a selected language has its option, and the options follow those categories in order and multiplicity |
| PostSearch.NarrowedOptionsInOrder | src/views/Posts/PostList/hooks/useAdvancedSearch.ts:229-236 | with a language selected, the options are those of the categories of a selected language, in category order and each as often as it occurs |
| PostSearch.DateFormatReverses | src/views/Posts/PostList/hooks/useAdvancedSearch.ts:47 | `y-m-d` with dash-free parts becomes `d.m.y` |
| PostSearch.DateFormatExample | src/views/Posts/PostList/hooks/useAdvancedSearch.ts:47 | `2024-01-31` becomes `31.01.2024` |
| PostSearch.Search.constructor | src/views/Posts/PostList/hooks/useAdvancedSearch.ts:73-125 | the refs start from the initial state |
| PostSearch.Search.TagRemoval | src/views/Posts/PostList/hooks/useAdvancedSearch.ts:185-200 | the new refs are `RemoveTag` of the old ones; the inputs are unchanged |
| PostSearch.Search.SetQuery | src/views/Posts/PostList/hooks/useAdvancedSearch.ts:75-129 | both selections are reseeded; each date is reseeded only when its query date changed |
| PostSearch.Search.SetCategoryList | src/views/Posts/PostList/hooks/useAdvancedSearch.ts:75-77 | only the category selection is reseeded |
| PostSearch.Search.SetLanguageList | src/views/Posts/PostList/hooks/useAdvancedSearch.ts:97-99 | only the language selection is reseeded |
| PostSearch.Search.FilterParams | src/views/Posts/PostList/hooks/useAdvancedSearch.ts:166-181 | category and language keys always, date keys iff the dates are set |
| PostSearch.Search.TagList | src/views/Posts/PostList/hooks/useAdvancedSearch.ts:204-220 | as many tags as selections, plus one for the dates |
| PostSearch.Search.CategoryOptionList | src/views/Posts/PostList/hooks/useAdvancedSearch.ts:224-237 | all category options while no language is selected |
| PostSearch.Search.LanguageOptionList | src/views/Posts/PostList/hooks/useAdvancedSearch.ts:81-83 | one option per language |
| CategorySearch.RemoveTag | src/views/Categories/CategoryList/hooks/useAdvancedSearch.ts:69-75 | only a language tag changes the selection, by dropping the selections with its value |
| CategorySearch.RemoveTagIdempotent | src/views/Categories/CategoryList/hooks/useAdvancedSearch.ts:69-75 | removing the same tag twice equals removing it once |
| CategorySearch.RemovedTagGone | src/views/Categories/CategoryList/hooks/useAdvancedSearch.ts:69-86 | after removing a language tag no tag carries its value, and every other selection keeps its tag |
| CategorySearch.SameAsPostSearch | src/views/Categories/CategoryList/hooks/useAdvancedSearch.ts:69-75 | the language selection is edited exactly as in the post list's search |
| CategorySearch.FilterRecord | src/views/Categories/CategoryList/hooks/useAdvancedSearch.ts:61-65 | the only key is `language`, holding the selected values in order |
| CategorySearch.Tags | src/views/Categories/CategoryList/hooks/useAdvancedSearch.ts:79-86 | one language tag per selection with its value and label, in order |
| CategorySearch.InitialSelection | src/views/Categories/CategoryList/hooks/useAdvancedSearch.ts:43-50 | an option is initially selected iff its language code is named by the query; the selection keeps the language options in order and multiplicity |
| CategorySearch.Search.constructor | src/views/Categories/CategoryList/hooks/useAdvancedSearch.ts:39-53 | the selection starts as the options the query names |
| CategorySearch.Search.TagRemoval | src/views/Categories/CategoryList/hooks/useAdvancedSearch.ts:69-75 | the new selection is `RemoveTag` of the old one |
| CategorySearch.Search.SetInputs | src/views/Categories/CategoryList/hooks/useAdvancedSearch.ts:43-57 | the watcher reseeds the selection from the new query and languages |
| CategorySearch.Search.LanguageOptionList | src/views/Categories/CategoryList/hooks/useAdvancedSearch.ts:39-41 | one `(code, name)` option per language, in order |
| CategorySearch.Search.FilterParams | src/views/Categories/CategoryList/hooks/useAdvancedSearch.ts:61-65 | the only key is `language` |
| CategorySearch.Search.TagList | src/views/Categories/CategoryList/hooks/useAdvancedSearch.ts:79-86 | one tag per selection |
| UserStore.Initial | src/store/user.ts:65-68 | the status is IDLE and there is no profile |
| UserStore.Apply | src/store/user.ts:69-87 | STARTED moves IDLE to LOADING keeping the profile and changes nothing otherwise; from LOADING, FULFILLED sets the fetched profile and SUCCESS and REJECTED clears the profile and sets FAILURE, and otherwise they change nothing; every change is one of IDLE to LOADING, LOADING to SUCCESS or FAILURE |
| UserStore.Terminal | src/store/user.ts:69-87 | from SUCCESS or FAILURE no run of mutations changes anything |
| UserStore.NeverIdleAgain | src/store/user.ts:69-87 | once the status has left IDLE no run of mutations brings it back |
| UserStore.FetchOnlyOnce | src/store/user.ts:89-92 | after the first start, whatever follows, the status is never IDLE, so the fetch action never commits again |
| UserStore.ConsistentPreserved | src/store/user.ts:69-87 | the mutations keep "a profile is held iff the status is SUCCESS" |
| UserStore.ConsistentReachable | src/store/user.ts:65-87 | every state reachable from the initial one holds a profile iff the status is SUCCESS |
| UserStore.Scopes | src/store/user.ts:44-53 | no scopes without a profile |
| UserStore.FlattenAppend | src/store/user.ts:48-50 | appending a role appends its scopes |
| UserStore.FlattenMembers | src/store/user.ts:44-53 | a scope is in the flattened list iff some role has it |
| UserStore.HasPermission | src/store/user.ts:54-60 | granted iff `*` or the scope is among the scopes; never without a profile |
| UserStore.PermissionByRole | src/store/user.ts:54-60 | granted iff some role has `*` or the scope |
| UserStore.Store.constructor | src/store/user.ts:65-68 | the store starts in the initial state |
| UserStore.Store.ProfileRequestStarted | src/store/user.ts:70-74 | from IDLE the status becomes LOADING and the profile is kept; from any other status nothing changes |
| UserStore.Store.ProfileRequestFulfilled | src/store/user.ts:75-80 | from LOADING the status becomes SUCCESS and the profile the fetched user; from any other status nothing changes |
| UserStore.Store.ProfileRequestRejected | src/store/user.ts:81-86 | from LOADING the status becomes FAILURE and the profile is cleared; from any other status nothing changes |
| UserStore.Store.FetchUserProfile | src/store/user.ts:89-92 | commits iff the status was IDLE, and then the status is LOADING; otherwise nothing changes |
| UserStore.Store.UserScopes | src/store/user.ts:44-53 | the loop returns the roles' scopes concatenated in role order, `[]` without a profile |
| UserStore.Store.UserHasPermission | src/store/user.ts:54-60 | granted iff `*` or the scope is among the profile's scopes |
| Strings.SplitNonBlank | src/views/Posts/PostForm/PostForm.helpers.ts:151 | the kept pieces contain no comma, are not blank, come from the split, and every non-blank piece is kept |
| Strings.SplitNonBlankInOrder | src/views/Posts/PostForm/PostForm.helpers.ts:151 | the kept pieces are the non-blank pieces of the split, in split order and each as often as it occurs |
| Strings.SplitNonBlankJoin | src/views/BlogPostForm/BlogPostForm.helpers.ts:75 | tags with no comma and no blank tag, joined by `,` and split again, come back unchanged |

## Left out

- Requests, promises and toasts are left out: `src/services/requests.ts` and every `src/hooks/*` file. They are HTTP and reactive plumbing.
- The promise chain of the fetch action (`src/store/user.ts:94-104`) is left out, because the request is I/O. The model has the IDLE guard and the three mutations; which of FULFILLED and REJECTED follows is the caller's choice of mutation.
- `userProfile` (`src/store/user.ts:41-43`) returns the `profile` field itself; it has no separate member.
- The store's namespacing and Vuex plumbing are not part of this model.
- URL compilation is left out. `getBlogPostFormUrl` and `getBlogCategoryFormUrl` go through the foreign `path-to-regexp` `compile`, so the admin-link URLs in the name cells are not modelled. `CategoryList.helpers.ts` imports `getBlogPostListUrl` from `@/constants/paths`, which does not export it; the model resolves that import to `src/utils/paths.ts:5-7`, which returns `BLOG_ROUTE_PATHS.POST_LIST`, the constant `/blog/posts` (`CategoryList.PostListPath`).
- Cells that read `process.env`, `window.location` or `getWebsiteOrigin()` are left out: the website links in the name and link columns.
- Column styles, widths, types and `options` are left out. Only id, heading and field are modelled.
- `getFilterParams`, `getFilterParamAsString` and `getFilterParamAsStringArray` belong to an unseen library. The model takes the already-parsed query as input and returns the filter record before `getFilterParams`.
- The view's `v-model` writes to the search refs are left out; they are plain assignments from the view.
- The translation function, `createId` and the dynamic-field library are parameters, so their outputs are not modelled.
- `src/views/BlogSettings/BlogSettings.helpers.ts` is not part of this model. It is a thin map over the dynamic-field library.
- Configuration and bootstrap files are not part of this model: `src/constants/*` (except the post-list path and the `*` scope), `src/router`, `src/locales`, `src/main.ts`, `src/dev*` and `rollup.config.js`.
- `null` and `undefined` are not told apart. Both are `None`, which matches how every converter treats them (`??`, `?.` and truthiness).
- The dash glyph of `getNameWithDepth` (`src/utils/common.ts:18`) is a mis-decoded em dash in the source text. The model uses the single character U+2014.
- PostForm.StatusOption: it requires a non-empty option list, because the source reads `statusOptions[0]` unguarded. Its only caller builds the list with `getStatusOptions`, which has three entries. The same requirement is on `PostForm.ToFormValues` and the lemmas about it.
- PostForm.ToFormValues: it does not model `createId` as a counter. Each of the four image widgets gets the key the parameter returns for its position.
- PostForm.AdditionalFieldNames: it requires that the dynamic-field library keeps each field's schema. The library is unseen, so this is an assumption about it, not a fact of this repository.
- PostSearch.Search.SetQuery: it follows Vue's watcher rule as the model reads it. The selection watchers fire on every query change, because their sources build a new array. A date watcher fires only when its string changes.
- Strings.IntToString: ids are taken to be integers, so `String(id)` is decimal digits with an optional `-`; JavaScript's formatting of fractional, exponent-sized or non-finite numbers is not modelled (it also affects `PostSearch.CategoryOptions` and `CategoryList.LinkToPostsByCategory`).
- Common.GenerateNumberArray: the length is an integer; `Array.from({ length })` truncating a fractional length and throwing a `RangeError` above 2^32 - 1 are not modelled. `Common.NameWithDepth` inherits this for the depth.
- The route query is one input to the search classes; route changes are calls of `SetQuery` / `SetInputs`.
- Select options take the name `caption` for their label, because `label` is a Dafny keyword.
