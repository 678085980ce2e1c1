/**
 * The advanced search of the newer category list (`src/views/Categories/CategoryList/hooks/useAdvancedSearch.ts`):
 * a single language filter, seeded from the route query and edited by tag removal.
 */
module CategorySearch {
  import opened Model
  import Seqs
  import PostSearch

  /** `tagRemovalHandler` on the selection: only a language tag drops the selections with its value. */
  function RemoveTag(languageFilter: seq<SelectOption<string>>, tag: PostSearch.FilterTag): (r: seq<SelectOption<string>>)
    ensures tag.name != PostSearch.LanguageName ==> r == languageFilter
    ensures tag.name == PostSearch.LanguageName ==> r == PostSearch.Without(languageFilter, tag.value)
  {
    if tag.name == PostSearch.LanguageName then PostSearch.Without(languageFilter, tag.value) else languageFilter
  }

  /** `filterParams` before `getFilterParams`: the one `language` entry. */
  function FilterRecord(languageFilter: seq<SelectOption<string>>): (r: map<string, PostSearch.FilterValue>)
    ensures r.Keys == {PostSearch.LanguageName}
    ensures r[PostSearch.LanguageName].Texts? && |r[PostSearch.LanguageName].texts| == |languageFilter|
    ensures forall i :: 0 <= i < |languageFilter| ==> r[PostSearch.LanguageName].texts[i] == languageFilter[i].value
  {
    map[PostSearch.LanguageName := PostSearch.Texts(Values(languageFilter))]
  }

  /** `tags`: one language tag per selection, in order. */
  function Tags(languageFilter: seq<SelectOption<string>>, t: string -> string): (r: seq<PostSearch.FilterTag>)
    ensures |r| == |languageFilter|
    ensures forall i :: 0 <= i < |r| ==>
      r[i] == PostSearch.FilterTag(languageFilter[i].value, languageFilter[i].caption, PostSearch.LanguageName, t("blog:language"))
  {
    seq(|languageFilter|, i requires 0 <= i < |languageFilter| =>
      PostSearch.FilterTag(languageFilter[i].value, languageFilter[i].caption, PostSearch.LanguageName, t("blog:language")))
  }

  /** The hook's language ref, with the inputs its watcher follows. */
  class Search {
    var languageList: seq<Language>
    var queryLanguage: seq<string>
    var languageFilter: seq<SelectOption<string>>

    /** `useAdvancedSearch(...)`: the selection starts as the options the query names. */
    constructor (languages: seq<Language>, query: seq<string>)
      ensures languageList == languages && queryLanguage == query
      ensures languageFilter == OptionsWithValues(PostSearch.LanguageOptions(languages), query)
    {
      languageList := languages;
      queryLanguage := query;
      languageFilter := OptionsWithValues(PostSearch.LanguageOptions(languages), query);
    }

    /** `tagRemovalHandler(tag)`. */
    method TagRemoval(tag: PostSearch.FilterTag)
      modifies this
      ensures languageFilter == RemoveTag(old(languageFilter), tag)
      ensures languageList == old(languageList) && queryLanguage == old(queryLanguage)
    {
      if tag.name == PostSearch.LanguageName {
        languageFilter := PostSearch.Without(languageFilter, tag.value);
      }
    }

    /** A new route query or language list: the watcher reseeds the selection. */
    method SetInputs(languages: seq<Language>, query: seq<string>)
      modifies this
      ensures languageList == languages && queryLanguage == query
      ensures languageFilter == OptionsWithValues(PostSearch.LanguageOptions(languages), query)
    {
      languageList := languages;
      queryLanguage := query;
      languageFilter := OptionsWithValues(PostSearch.LanguageOptions(languages), query);
    }

    /** `languageOptionList`. */
    function LanguageOptionList(): (r: seq<SelectOption<string>>)
      reads this
      ensures |r| == |languageList|
      ensures forall i :: 0 <= i < |r| ==> r[i].value == languageList[i].id && r[i].caption == languageList[i].name
    {
      PostSearch.LanguageOptions(languageList)
    }

    /** `filterParams`. */
    function FilterParams(): (r: map<string, PostSearch.FilterValue>)
      reads this
      ensures r.Keys == {PostSearch.LanguageName}
    {
      FilterRecord(languageFilter)
    }

    /** `tags`. */
    function TagList(t: string -> string): (r: seq<PostSearch.FilterTag>)
      reads this
      ensures |r| == |languageFilter|
    {
      Tags(languageFilter, t)
    }
  }

  // ---------------------------------------------------------------------------------------------
  // Properties

  /**
   * The initial selection holds the language options the query names and no other, in the languages' order and
   * each as often as it is offered.
   */
  lemma InitialSelection(languages: seq<Language>, query: seq<string>)
    ensures var r := OptionsWithValues(PostSearch.LanguageOptions(languages), query);
      && (forall i :: 0 <= i < |languages| ==>
            (SelectOption(languages[i].id, languages[i].name) in r <==> languages[i].id in query))
      && Seqs.KeepsInOrder(r, PostSearch.LanguageOptions(languages), (o: SelectOption<string>) => o.value in query)
  {
    var options := PostSearch.LanguageOptions(languages);
    OptionsWithValuesInOrder(options, query);
    forall i | 0 <= i < |languages| && languages[i].id in query
      ensures SelectOption(languages[i].id, languages[i].name) in OptionsWithValues(options, query)
    {
      assert options[i] == SelectOption(languages[i].id, languages[i].name);
    }
  }

  /** Removing the same tag twice is removing it once. */
  lemma RemoveTagIdempotent(languageFilter: seq<SelectOption<string>>, tag: PostSearch.FilterTag)
    ensures RemoveTag(RemoveTag(languageFilter, tag), tag) == RemoveTag(languageFilter, tag)
  {
    Seqs.FilterIdempotent(languageFilter, (o: SelectOption<string>) => o.value != tag.value);
  }

  /** After a language tag is removed no tag carries its value, and every other selection keeps its tag. */
  lemma RemovedTagGone(languageFilter: seq<SelectOption<string>>, tag: PostSearch.FilterTag, t: string -> string)
    requires tag.name == PostSearch.LanguageName
    ensures forall x :: x in Tags(RemoveTag(languageFilter, tag), t) ==> x.value != tag.value
    ensures forall i :: 0 <= i < |languageFilter| && languageFilter[i].value != tag.value ==>
      Tags(languageFilter, t)[i] in Tags(RemoveTag(languageFilter, tag), t)
  {
    var r := RemoveTag(languageFilter, tag);
    forall i | 0 <= i < |languageFilter| && languageFilter[i].value != tag.value
      ensures Tags(languageFilter, t)[i] in Tags(r, t)
    {
      var j :| 0 <= j < |r| && r[j] == languageFilter[i];
      assert Tags(r, t)[j] == Tags(languageFilter, t)[i];
    }
  }

  /** The category list's search handles languages exactly as the post list's search does. */
  lemma SameAsPostSearch(s: PostSearch.SearchState, tag: PostSearch.FilterTag)
    ensures PostSearch.RemoveTag(s, tag).languageFilter == RemoveTag(s.languageFilter, tag)
  {
  }
}
