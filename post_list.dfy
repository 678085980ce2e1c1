/**
 * The newer post list (`src/views/Posts/PostList/PostList.helpers.ts`): client-side category filter,
 * language relabelling, the status labels and the table's columns.
 */
module PostList {
  import opened Wrappers
  import opened Model
  import Seqs
  import Strings
  import PostForm

  /** Whether a post belongs to the selected category (every post does when none is selected). */
  predicate InSelectedCategory(post: PostShort, selectedId: Option<int>)
  {
    selectedId.Some? ==> Seqs.Exists(post.categories, (c: CategoryRef) => c.id == selectedId.value)
  }

  /** The post with its language code replaced by the language's name when the language list is not empty. */
  function Relabel(post: PostShort, languages: seq<Language>): (r: PostShort)
    ensures r.(language := post.language) == post
    ensures |languages| == 0 ==> r == post
  {
    if |languages| > 0 then post.(language := LanguageLabel(post.language, languages)) else post
  }

  /**
   * The list conversion shared by both post lists: the posts of the selected category, in order, with
   * display languages.
   */
  function ConvertPosts(posts: seq<PostShort>, selectedId: Option<int>, languages: seq<Language>)
    : (r: seq<PostShort>)
    ensures |r| <= |posts|
  {
    var kept := Seqs.Filter(posts, (p: PostShort) => InSelectedCategory(p, selectedId));
    Seqs.Map(kept, (p: PostShort) => Relabel(p, languages))
  }

  /** `convertPostList`: the selected category is compared by id. */
  function ConvertPostList(posts: seq<PostShort>, selected: Option<Category>, languages: seq<Language>)
    : (r: seq<PostShort>)
    ensures |r| <= |posts|
    ensures selected.None? ==> |r| == |posts|
  {
    var selectedId := if selected.Some? then Some(selected.value.id) else None;
    if selected.None? then NoCategoryKeepsAll(posts, languages); ConvertPosts(posts, selectedId, languages)
    else ConvertPosts(posts, selectedId, languages)
  }

  /** `getStatuses(t)`: a label for each of the three statuses. */
  function Statuses(t: string -> string): (r: map<string, string>)
    ensures r.Keys == {PostForm.Published, PostForm.Draft, PostForm.Archived}
  {
    map[PostForm.Published := t("blog:statusPublished"),
        PostForm.Draft := t("blog:statusDraft"),
        PostForm.Archived := t("blog:statusArchived")]
  }

  /** The text of the categories cell: the category names separated by a comma and a space. */
  function CategoriesCell(post: PostShort): (r: string)
    ensures |post.categories| == 0 ==> r == ""
    ensures |post.categories| == 1 ==> r == post.categories[0].name
  {
    Strings.Join(seq(|post.categories|, i requires 0 <= i < |post.categories| => post.categories[i].name), ", ")
  }

  /** `getPostTableColumnDefs`: the literal column list with the language column present only when needed. */
  function Columns(moduleConfig: Option<ModuleConfig>, t: string -> string): seq<Column>
  {
    Seqs.Present(ColumnList(moduleConfig, t))
  }

  /** The literal column list, with an absent entry in place of the language column when it is not needed. */
  function ColumnList(moduleConfig: Option<ModuleConfig>, t: string -> string): seq<Option<Column>>
  {
    LeadingColumns(t) + [LanguageColumn(moduleConfig, t)] + TrailingColumns(t)
  }

  /** The id, status, name and image columns. */
  function LeadingColumns(t: string -> string): seq<Option<Column>>
  {
    [Some(Column(1, "ID", "id")),
     Some(Column(2, t("blog:status"), "status")),
     Some(Column(3, t("blog:name"), "name")),
     Some(Column(4, t("blog:image"), "image"))]
  }

  /** The language column, present only when the module has languages. */
  function LanguageColumn(moduleConfig: Option<ModuleConfig>, t: string -> string): Option<Column>
  {
    if IsLangSpecific(moduleConfig) then Some(Column(5, t("blog:language"), "language")) else None
  }

  /** The date, categories and actions columns. */
  function TrailingColumns(t: string -> string): seq<Option<Column>>
  {
    [Some(Column(6, t("blog:date"), "datetime")),
     Some(Column(7, t("blog:categories"), "categories")),
     Some(Column(8, t("blog:actions"), "actions"))]
  }

  // ---------------------------------------------------------------------------------------------
  // Properties

  /** With no category selected every post is kept, relabelled, in order. */
  lemma NoCategoryKeepsAll(posts: seq<PostShort>, languages: seq<Language>)
    ensures var r := ConvertPosts(posts, None, languages);
      |r| == |posts| && forall i :: 0 <= i < |r| ==> r[i] == Relabel(posts[i], languages)
  {
    Seqs.FilterAll(posts, (p: PostShort) => InSelectedCategory(p, None));
  }

  /** A post is in the result exactly when some post of the selected category relabels to it. */
  lemma KeptPosts(posts: seq<PostShort>, selectedId: Option<int>, languages: seq<Language>, x: PostShort)
    ensures x in ConvertPosts(posts, selectedId, languages) <==>
            exists i :: 0 <= i < |posts| && InSelectedCategory(posts[i], selectedId) && x == Relabel(posts[i], languages)
  {
    var p := (q: PostShort) => InSelectedCategory(q, selectedId);
    var kept := Seqs.Filter(posts, p);
    var r := ConvertPosts(posts, selectedId, languages);
    if x in r {
      var m :| 0 <= m < |r| && r[m] == x;
      var i :| 0 <= i < |posts| && posts[i] == kept[m];
    }
    if exists i :: 0 <= i < |posts| && InSelectedCategory(posts[i], selectedId) && x == Relabel(posts[i], languages) {
      var i :| 0 <= i < |posts| && InSelectedCategory(posts[i], selectedId) && x == Relabel(posts[i], languages);
      assert p(posts[i]);
      var m :| 0 <= m < |kept| && kept[m] == posts[i];
      assert r[m] == x;
    }
  }

  /** Converting a concatenation converts each part: the list keeps its order. */
  lemma ConvertConcat(a: seq<PostShort>, b: seq<PostShort>, selectedId: Option<int>, languages: seq<Language>)
    ensures ConvertPosts(a + b, selectedId, languages) ==
            ConvertPosts(a, selectedId, languages) + ConvertPosts(b, selectedId, languages)
  {
    var keep := (p: PostShort) => InSelectedCategory(p, selectedId);
    Seqs.FilterConcat(a, b, keep);
    Seqs.MapConcat(Seqs.Filter(a, keep), Seqs.Filter(b, keep), (p: PostShort) => Relabel(p, languages));
  }

  /** With an empty language list the kept posts are returned unchanged. */
  lemma NoLanguagesNoRelabel(posts: seq<PostShort>, selectedId: Option<int>)
    ensures ConvertPosts(posts, selectedId, []) == Seqs.Filter(posts, (p: PostShort) => InSelectedCategory(p, selectedId))
  {
  }

  /**
   * The language column (id 5) is shown exactly when the module has languages; the columns are then 1 to 8,
   * otherwise the same without 5.
   */
  lemma ColumnOrder(moduleConfig: Option<ModuleConfig>, t: string -> string)
    ensures ColumnIds(Columns(moduleConfig, t)) ==
            if IsLangSpecific(moduleConfig) then [1, 2, 3, 4, 5, 6, 7, 8] else [1, 2, 3, 4, 6, 7, 8]
  {
    PresentIdsAround(LeadingColumns(t), LanguageColumn(moduleConfig, t), TrailingColumns(t));
    LeadingIds(t);
    TrailingIds(t);
  }

  lemma LeadingIds(t: string -> string)
    ensures ColumnIds(Seqs.Present(LeadingColumns(t))) == [1, 2, 3, 4]
  {
    Seqs.PresentAllSome(LeadingColumns(t));
  }

  lemma TrailingIds(t: string -> string)
    ensures ColumnIds(Seqs.Present(TrailingColumns(t))) == [6, 7, 8]
  {
    Seqs.PresentAllSome(TrailingColumns(t));
  }

  /** The status labels agree with the post form's status options. */
  lemma StatusesMatchOptions(t: string -> string)
    ensures forall o :: o in PostForm.StatusOptions(t) ==> o.value in Statuses(t) && Statuses(t)[o.value] == o.caption
  {
  }
}
