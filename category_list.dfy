/**
 * The newer category list (`src/views/Categories/CategoryList/CategoryList.helpers.ts`): language
 * relabelling, the table's columns, the name cell and the link to a category's posts.
 */
module CategoryList {
  import opened Wrappers
  import opened Model
  import Seqs
  import Strings
  import Common

  /** The path of the post list (`BLOG_ROUTE_PATHS.POST_LIST`). */
  const PostListPath: string := "/blog/posts"

  /** `convertCategoryList`: every category, in order, with its language code replaced by the language's name. */
  function ConvertCategoryList(categories: seq<Category>, languages: seq<Language>): (r: seq<Category>)
    ensures |r| == |categories|
    ensures forall i :: 0 <= i < |r| ==> r[i].(language := categories[i].language) == categories[i]
    ensures forall i :: 0 <= i < |r| ==>
      r[i].language == if |languages| > 0 then LanguageLabel(categories[i].language, languages) else categories[i].language
  {
    seq(|categories|, i requires 0 <= i < |categories| =>
      if |languages| > 0 then categories[i].(language := LanguageLabel(categories[i].language, languages))
      else categories[i])
  }

  /** A labelled parameter shown under a name (`paramList` entry). */
  datatype Param = Param(name: string, value: string)

  /** What the name column shows for a category: the indented name and its parameters. */
  datatype NameCell = NameCell(text: string, paramList: seq<Param>)

  /** The name column's cell: the name indented by depth, and a "default" marker on the default category. */
  function CategoryNameCell(category: Category, t: string -> string): (r: NameCell)
    ensures r.text == Common.NameWithDepth(category.name, category.depth)
    ensures |r.paramList| > 0 <==> category.isDefault
    ensures category.isDefault ==> r.paramList == [Param(t("blog:defaultCategory"), t("blog:yes"))]
  {
    NameCell(Common.NameWithDepth(category.name, category.depth),
             if category.isDefault then [Param(t("blog:defaultCategory"), t("blog:yes"))] else [])
  }

  /** `getCategoryTableColumnDefs`: the literal column list, from which the absent columns are dropped. */
  function Columns(moduleConfig: Option<ModuleConfig>, t: string -> string, canViewAdministrators: bool)
    : seq<Column>
  {
    Seqs.Present(ColumnList(moduleConfig, t, canViewAdministrators))
  }

  /** The literal column list: the language column needs languages, the actions column the permission. */
  function ColumnList(moduleConfig: Option<ModuleConfig>, t: string -> string, canViewAdministrators: bool)
    : seq<Option<Column>>
  {
    LeadingColumns(t) + [LanguageColumn(moduleConfig, t)] + [Some(Column(4, t("blog:posts"), "linkToPosts"))]
    + [ActionsColumn(t, canViewAdministrators)]
  }

  /** The name and link columns. */
  function LeadingColumns(t: string -> string): seq<Option<Column>>
  {
    [Some(Column(1, t("blog:name"), "name")),
     Some(Column(2, t("blog:link"), "path"))]
  }

  /** The language column, present only when the module has languages. */
  function LanguageColumn(moduleConfig: Option<ModuleConfig>, t: string -> string): Option<Column>
  {
    if IsLangSpecific(moduleConfig) then Some(Column(3, t("blog:language"), "language")) else None
  }

  /** The actions column, present only for those who may view administrators. */
  function ActionsColumn(t: string -> string, canViewAdministrators: bool): Option<Column>
  {
    if canViewAdministrators then Some(Column(5, t("blog:actions"), "actions")) else None
  }

  /** `getLinkToPostsByCategory`: the post list filtered by the category's id. */
  function LinkToPostsByCategory(categoryId: int): (r: string)
    ensures |r| > |PostListPath + "?filter[category]="|
    ensures r[..|PostListPath + "?filter[category]="|] == PostListPath + "?filter[category]="
    ensures r[|PostListPath + "?filter[category]="|..] == Strings.IntToString(categoryId)
  {
    PostListPath + "?filter[category]=" + Strings.IntToString(categoryId)
  }

  // ---------------------------------------------------------------------------------------------
  // Properties

  /** Without languages the list is returned unchanged. */
  lemma NoLanguagesUnchanged(categories: seq<Category>)
    ensures ConvertCategoryList(categories, []) == categories
  {
  }

  /** Relabelling commutes with concatenation: the list keeps its order. */
  lemma ConvertConcat(a: seq<Category>, b: seq<Category>, languages: seq<Language>)
    ensures ConvertCategoryList(a + b, languages) == ConvertCategoryList(a, languages) + ConvertCategoryList(b, languages)
  {
  }

  /**
   * The name and link columns always come first and the posts column always follows them; the language
   * column (3) needs languages and the actions column (5) the permission.
   */
  lemma ColumnOrder(moduleConfig: Option<ModuleConfig>, t: string -> string, canViewAdministrators: bool)
    ensures ColumnIds(Columns(moduleConfig, t, canViewAdministrators)) ==
            [1, 2] + (if IsLangSpecific(moduleConfig) then [3] else []) + [4] + (if canViewAdministrators then [5] else [])
    ensures 3 <= |Columns(moduleConfig, t, canViewAdministrators)| <= 5
  {
    var posts := Some(Column(4, t("blog:posts"), "linkToPosts"));
    PresentIdsSnoc(LeadingColumns(t) + [LanguageColumn(moduleConfig, t)] + [posts], ActionsColumn(t, canViewAdministrators));
    PresentIdsAround(LeadingColumns(t), LanguageColumn(moduleConfig, t), [posts]);
    Seqs.PresentSingle(posts);
    Seqs.PresentAllSome(LeadingColumns(t));
  }

  /** Different categories link to different post lists. */
  lemma LinkToPostsInjective(m: int, n: int)
    requires LinkToPostsByCategory(m) == LinkToPostsByCategory(n)
    ensures m == n
  {
    var k := |PostListPath + "?filter[category]="|;
    assert LinkToPostsByCategory(m)[k..] == LinkToPostsByCategory(n)[k..];
    Strings.IntToStringInjective(m, n);
  }
}
