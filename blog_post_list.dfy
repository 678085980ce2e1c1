/**
 * The legacy post list (`src/views/BlogPostList/BlogPostList.helpers.ts`): the same client-side filter
 * and relabelling as the newer list, and a table without a status column.
 */
module BlogPostList {
  import opened Wrappers
  import opened Model
  import Seqs
  import PostList

  /** `convertPostList`: the selected legacy category is compared by id. */
  function ConvertPostList(posts: seq<PostShort>, selected: Option<BlogCategory>, languages: seq<Language>)
    : (r: seq<PostShort>)
    ensures |r| <= |posts|
    ensures selected.None? ==> |r| == |posts|
    ensures selected.Some? ==> r == PostList.ConvertPosts(posts, Some(selected.value.id), languages)
  {
    var selectedId := if selected.Some? then Some(selected.value.id) else None;
    if selected.None? then PostList.NoCategoryKeepsAll(posts, languages); PostList.ConvertPosts(posts, selectedId, languages)
    else PostList.ConvertPosts(posts, selectedId, languages)
  }

  /** `getPostTableColumnDefs`: the literal column list, from which the absent language column is dropped. */
  function Columns(moduleConfig: Option<ModuleConfig>, t: string -> string): seq<Column>
  {
    Seqs.Present(ColumnList(moduleConfig, t))
  }

  /** The literal column list, with an absent entry in place of the language column when it is not needed. */
  function ColumnList(moduleConfig: Option<ModuleConfig>, t: string -> string): seq<Option<Column>>
  {
    LeadingColumns(t) + [LanguageColumn(moduleConfig, t)] + TrailingColumns(t)
  }

  /** The id, name and image columns. */
  function LeadingColumns(t: string -> string): seq<Option<Column>>
  {
    [Some(Column(1, "ID", "id")),
     Some(Column(2, t("blog:name"), "name")),
     Some(Column(3, t("blog:image"), "image"))]
  }

  /** The language column, present only when the module has languages. */
  function LanguageColumn(moduleConfig: Option<ModuleConfig>, t: string -> string): Option<Column>
  {
    if IsLangSpecific(moduleConfig) then Some(Column(4, t("blog:language"), "language")) else None
  }

  /** The date, categories and actions columns. */
  function TrailingColumns(t: string -> string): seq<Option<Column>>
  {
    [Some(Column(5, t("blog:date"), "date")),
     Some(Column(6, t("blog:categories"), "categories")),
     Some(Column(7, t("blog:actions"), "actions"))]
  }

  /** Both lists convert posts the same way: only the type of the selected category differs. */
  lemma SameAsPostList(posts: seq<PostShort>, selected: Option<BlogCategory>, category: Option<Category>,
                       languages: seq<Language>)
    requires selected.None? <==> category.None?
    requires selected.Some? ==> selected.value.id == category.value.id
    ensures ConvertPostList(posts, selected, languages) == PostList.ConvertPostList(posts, category, languages)
  {
  }

  /**
   * The language column (id 4) is shown exactly when the module has languages; the columns are then 1 to 7,
   * otherwise the same without 4.
   */
  lemma ColumnOrder(moduleConfig: Option<ModuleConfig>, t: string -> string)
    ensures ColumnIds(Columns(moduleConfig, t)) ==
            if IsLangSpecific(moduleConfig) then [1, 2, 3, 4, 5, 6, 7] else [1, 2, 3, 5, 6, 7]
  {
    PresentIdsAround(LeadingColumns(t), LanguageColumn(moduleConfig, t), TrailingColumns(t));
    LeadingIds(t);
    TrailingIds(t);
  }

  lemma LeadingIds(t: string -> string)
    ensures ColumnIds(Seqs.Present(LeadingColumns(t))) == [1, 2, 3]
  {
    Seqs.PresentAllSome(LeadingColumns(t));
  }

  lemma TrailingIds(t: string -> string)
    ensures ColumnIds(Seqs.Present(TrailingColumns(t))) == [5, 6, 7]
  {
    Seqs.PresentAllSome(TrailingColumns(t));
  }
}
