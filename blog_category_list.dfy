/**
 * The legacy category list (`src/views/BlogCategoryList/BlogCategoryList.helpers.ts`): language
 * relabelling and the table's columns, whose headings are fixed English words.
 */
module BlogCategoryList {
  import opened Wrappers
  import opened Model
  import Seqs

  /** `convertCategoryList`: every category, in order, with its language code replaced by the language's name. */
  function ConvertCategoryList(categories: seq<BlogCategory>, languages: seq<Language>): (r: seq<BlogCategory>)
    ensures |r| == |categories|
    ensures forall i :: 0 <= i < |r| ==> r[i].(language := categories[i].language) == categories[i]
    ensures forall i :: 0 <= i < |r| ==>
      r[i].language == if |languages| > 0 then LanguageLabel(categories[i].language, languages) else categories[i].language
  {
    seq(|categories|, i requires 0 <= i < |categories| =>
      if |languages| > 0 then categories[i].(language := LanguageLabel(categories[i].language, languages))
      else categories[i])
  }

  /** `getCategoryTableColumnDefs`: the literal column list, from which the absent language column is dropped. */
  function Columns(moduleConfig: Option<ModuleConfig>): seq<Column>
  {
    Seqs.Present(ColumnList(moduleConfig))
  }

  /** The literal column list, with an absent entry in place of the language column when it is not needed. */
  function ColumnList(moduleConfig: Option<ModuleConfig>): seq<Option<Column>>
  {
    [Some(Column(2, "Name", "name")), Some(Column(5, "Website URL", "url"))]
    + [LanguageColumn(moduleConfig)]
    + [Some(Column(8, "Posts", "linkToPosts")), Some(Column(9, "Actions", "actions"))]
  }

  /** The language column, present only when the module has languages. */
  function LanguageColumn(moduleConfig: Option<ModuleConfig>): Option<Column>
  {
    if IsLangSpecific(moduleConfig) then Some(Column(4, "Language", "language")) else None
  }

  /** A category whose language has no entry keeps its code. */
  lemma UnknownLanguageKept(categories: seq<BlogCategory>, languages: seq<Language>, i: int)
    requires 0 <= i < |categories|
    requires forall k :: 0 <= k < |languages| ==> languages[k].id != categories[i].language
    ensures ConvertCategoryList(categories, languages)[i] == categories[i]
  {
  }

  /**
   * The columns keep the literal's order (name, website link, language, posts, actions); the language
   * column is there exactly when the module has languages, and a missing configuration has none.
   */
  lemma ColumnOrder(moduleConfig: Option<ModuleConfig>)
    ensures ColumnIds(Columns(moduleConfig)) == if IsLangSpecific(moduleConfig) then [2, 5, 4, 8, 9] else [2, 5, 8, 9]
    ensures moduleConfig.None? ==> ColumnIds(Columns(moduleConfig)) == [2, 5, 8, 9]
  {
    var head := [Some(Column(2, "Name", "name")), Some(Column(5, "Website URL", "url"))];
    var tail := [Some(Column(8, "Posts", "linkToPosts")), Some(Column(9, "Actions", "actions"))];
    PresentIdsAround(head, LanguageColumn(moduleConfig), tail);
    Seqs.PresentAllSome(head);
    Seqs.PresentAllSome(tail);
  }
}
