/**
 * The advanced search of the newer post list (`src/views/Posts/PostList/hooks/useAdvancedSearch.ts`).
 *
 * The hook keeps four refs (the selected categories, the selected languages and the two dates), seeds them
 * from the route query, resets them from watchers and edits them in `tagRemovalHandler`. `PostSearch.Search`
 * holds those refs as fields; everything the hook computes from them (the filter record, the tag list, the
 * narrowed category options) is a function of a `SearchState` value.
 */
module PostSearch {
  import opened Wrappers
  import opened Model
  import Seqs
  import Strings
  import Common

  /** The filter names (`FilterTypes`). */
  const CategoryName: string := "category"
  const LanguageName: string := "language"
  const FromDateName: string := "from-date"
  const ToDateName: string := "to-date"

  /** `dateFormat`: the `-`-separated components in reverse order, joined by dots. */
  function DateFormat(date: string): string
  {
    Strings.Join(Strings.Reverse(Strings.Split(date, '-')), ".")
  }

  /** The route query as the query parsers return it: two string arrays and two optional strings. */
  datatype Query = Query(category: seq<string>, language: seq<string>, fromDate: Option<string>, toDate: Option<string>)

  /** `FilterTagType`: a removable chip above the list. */
  datatype FilterTag = FilterTag(value: string, caption: string, name: string, title: string)

  /** A value of the filter record: one string or an array of them. */
  datatype FilterValue = Text(text: string) | Texts(texts: seq<string>)

  /** The four refs of the hook. */
  datatype SearchState = SearchState(
    categoryFilter: seq<SelectOption<string>>,
    languageFilter: seq<SelectOption<string>>,
    fromDate: string,
    toDate: string)

  /** The option of a category: its id as a string, and its name indented by depth. */
  function CategoryOption(category: Category): SelectOption<string>
  {
    SelectOption(Strings.IntToString(category.id), Common.NameWithDepth(category.name, category.depth))
  }

  /** `categoryOptionList`: one option per category, in order. */
  function CategoryOptions(categories: seq<Category>): (r: seq<SelectOption<string>>)
    ensures |r| == |categories|
    ensures forall i :: 0 <= i < |r| ==>
      r[i].value == Strings.IntToString(categories[i].id) &&
      r[i].caption == Common.NameWithDepth(categories[i].name, categories[i].depth)
  {
    seq(|categories|, i requires 0 <= i < |categories| => CategoryOption(categories[i]))
  }

  /** `languageOptionList`: one option per language, its code and its name, in order. */
  function LanguageOptions(languages: seq<Language>): (r: seq<SelectOption<string>>)
    ensures |r| == |languages|
    ensures forall i :: 0 <= i < |r| ==> r[i] == SelectOption(languages[i].id, languages[i].name)
  {
    seq(|languages|, i requires 0 <= i < |languages| => SelectOption(languages[i].id, languages[i].name))
  }

  /** `getFilterParamAsString(query, name) ?? ''`. */
  function InitialDate(param: Option<string>): (r: string)
    ensures param.None? ==> r == ""
    ensures param.Some? ==> r == param.value
  {
    param.GetOr("")
  }

  /** The refs as the hook seeds them: the options the query selects, and the query's dates. */
  function InitialState(categories: seq<Category>, languages: seq<Language>, query: Query): (r: SearchState)
    ensures r.categoryFilter == OptionsWithValues(CategoryOptions(categories), query.category)
    ensures r.languageFilter == OptionsWithValues(LanguageOptions(languages), query.language)
    ensures r.fromDate == InitialDate(query.fromDate) && r.toDate == InitialDate(query.toDate)
  {
    SearchState(
      OptionsWithValues(CategoryOptions(categories), query.category),
      OptionsWithValues(LanguageOptions(languages), query.language),
      InitialDate(query.fromDate),
      InitialDate(query.toDate))
  }

  /** The selections without those carrying `value`, in order. */
  function Without(options: seq<SelectOption<string>>, value: string): (r: seq<SelectOption<string>>)
    ensures |r| <= |options|
    ensures forall i :: 0 <= i < |r| ==> r[i] in options && r[i].value != value
    ensures forall i :: 0 <= i < |options| && options[i].value != value ==> options[i] in r
  {
    Seqs.Filter(options, (o: SelectOption<string>) => o.value != value)
  }

  /** Dropping a value keeps the other selections in their order, each as often as it occurs. */
  lemma WithoutInOrder(options: seq<SelectOption<string>>, value: string)
    ensures Seqs.KeepsInOrder(Without(options, value), options, (o: SelectOption<string>) => o.value != value)
  {
    Seqs.FilterInOrder(options, (o: SelectOption<string>) => o.value != value);
  }

  /**
   * `tagRemovalHandler`: a category or language tag drops the selections with its value, a from-date tag
   * clears both dates, and any other tag changes nothing.
   */
  function RemoveTag(s: SearchState, tag: FilterTag): (r: SearchState)
    ensures tag.name == CategoryName ==>
      r == s.(categoryFilter := Without(s.categoryFilter, tag.value))
    ensures tag.name == LanguageName ==>
      r == s.(languageFilter := Without(s.languageFilter, tag.value))
    ensures tag.name == FromDateName ==> r == s.(fromDate := "", toDate := "")
    ensures tag.name !in {CategoryName, LanguageName, FromDateName} ==> r == s
  {
    var s1 := if tag.name == CategoryName then s.(categoryFilter := Without(s.categoryFilter, tag.value)) else s;
    var s2 := if tag.name == LanguageName then s1.(languageFilter := Without(s1.languageFilter, tag.value)) else s1;
    if tag.name == FromDateName then s2.(fromDate := "", toDate := "") else s2
  }

  /** `filterParams` before `getFilterParams`: both selections always, each date only when it is set. */
  function FilterRecord(s: SearchState): (r: map<string, FilterValue>)
    ensures CategoryName in r && r[CategoryName] == Texts(Values(s.categoryFilter))
    ensures LanguageName in r && r[LanguageName] == Texts(Values(s.languageFilter))
    ensures FromDateName in r <==> s.fromDate != ""
    ensures ToDateName in r <==> s.toDate != ""
    ensures FromDateName in r ==> r[FromDateName] == Text(s.fromDate)
    ensures ToDateName in r ==> r[ToDateName] == Text(s.toDate)
    ensures r.Keys <= {CategoryName, LanguageName, FromDateName, ToDateName}
  {
    var filters := map[CategoryName := Texts(Values(s.categoryFilter)), LanguageName := Texts(Values(s.languageFilter))];
    var withFrom := if s.fromDate != "" then filters[FromDateName := Text(s.fromDate)] else filters;
    if s.toDate != "" then withFrom[ToDateName := Text(s.toDate)] else withFrom
  }

  /** The label of the date tag, by which of the two dates are set. */
  function DateLabel(fromDate: string, toDate: string, t: string -> string): string
  {
    if fromDate != "" && toDate != "" then DateFormat(fromDate) + " - " + DateFormat(toDate)
    else if fromDate != "" then t("blog:from") + " " + DateFormat(fromDate)
    else if toDate != "" then t("blog:to") + " " + DateFormat(toDate)
    else ""
  }

  /** The computed `date`: no tag without dates, otherwise one from-date tag with a label for the range. */
  function DateTag(s: SearchState, t: string -> string): (r: Option<FilterTag>)
    ensures r.None? <==> s.fromDate == "" && s.toDate == ""
    ensures r.Some? ==> r.value == FilterTag("", DateLabel(s.fromDate, s.toDate, t), FromDateName, t("blog:dateOfPublication"))
  {
    if s.fromDate == "" && s.toDate == "" then None
    else Some(FilterTag("", DateLabel(s.fromDate, s.toDate, t), FromDateName, t("blog:dateOfPublication")))
  }

  /** The tags of the selections of one filter, in order, each present. */
  function SelectionTags(options: seq<SelectOption<string>>, name: string, title: string): (r: seq<Option<FilterTag>>)
    ensures |r| == |options|
    ensures forall i :: 0 <= i < |r| ==> r[i] == Some(FilterTag(options[i].value, options[i].caption, name, title))
  {
    seq(|options|, i requires 0 <= i < |options| => Some(FilterTag(options[i].value, options[i].caption, name, title)))
  }

  /** `tags`: the category tags, the language tags and the date tag, with the absent date tag dropped. */
  function Tags(s: SearchState, t: string -> string): seq<FilterTag>
  {
    Seqs.Present(SelectionTags(s.categoryFilter, CategoryName, t("blog:category"))
                 + SelectionTags(s.languageFilter, LanguageName, t("blog:language"))
                 + [DateTag(s, t)])
  }

  /** Whether some selected language has the category's language code. */
  predicate LanguageSelected(category: Category, languageFilter: seq<SelectOption<string>>)
  {
    Seqs.Exists(languageFilter, (o: SelectOption<string>) => o.value == category.language)
  }

  /** `selectedCategoryOptionList`: all category options, or those of the categories of a selected language. */
  function NarrowedCategoryOptions(categories: seq<Category>, languageFilter: seq<SelectOption<string>>)
    : (r: seq<SelectOption<string>>)
    ensures |languageFilter| == 0 ==> r == CategoryOptions(categories)
    ensures |r| <= |categories|
  {
    if |languageFilter| == 0 then CategoryOptions(categories)
    else CategoryOptions(Seqs.Filter(categories, (c: Category) => LanguageSelected(c, languageFilter)))
  }

  /** The hook's refs, with the inputs the watchers follow. */
  class Search {
    var categoryList: seq<Category>
    var languageList: seq<Language>
    var query: Query
    var categoryFilter: seq<SelectOption<string>>
    var languageFilter: seq<SelectOption<string>>
    var fromDateFilter: string
    var toDateFilter: string

    /** The refs as a value. */
    function State(): SearchState
      reads this
    {
      SearchState(categoryFilter, languageFilter, fromDateFilter, toDateFilter)
    }

    /** `useAdvancedSearch(...)`: every ref starts from its initial computed value. */
    constructor (categories: seq<Category>, languages: seq<Language>, q: Query)
      ensures categoryList == categories && languageList == languages && query == q
      ensures State() == InitialState(categories, languages, q)
    {
      categoryList := categories;
      languageList := languages;
      query := q;
      categoryFilter := OptionsWithValues(CategoryOptions(categories), q.category);
      languageFilter := OptionsWithValues(LanguageOptions(languages), q.language);
      fromDateFilter := InitialDate(q.fromDate);
      toDateFilter := InitialDate(q.toDate);
    }

    /** `tagRemovalHandler(tag)`. */
    method TagRemoval(tag: FilterTag)
      modifies this
      ensures State() == RemoveTag(old(State()), tag)
      ensures categoryList == old(categoryList) && languageList == old(languageList) && query == old(query)
    {
      if tag.name == CategoryName {
        categoryFilter := Without(categoryFilter, tag.value);
      }
      if tag.name == LanguageName {
        languageFilter := Without(languageFilter, tag.value);
      }
      if tag.name == FromDateName {
        fromDateFilter := "";
        toDateFilter := "";
      }
    }

    /**
     * A new route query. Both selection watchers fire, since their computed sources build a new array each
     * time; a date watcher fires only when the date it follows changes.
     */
    method SetQuery(q: Query)
      modifies this
      ensures query == q && categoryList == old(categoryList) && languageList == old(languageList)
      ensures categoryFilter == OptionsWithValues(CategoryOptions(categoryList), q.category)
      ensures languageFilter == OptionsWithValues(LanguageOptions(languageList), q.language)
      ensures fromDateFilter == if InitialDate(q.fromDate) != InitialDate(old(query).fromDate)
                                then InitialDate(q.fromDate) else old(fromDateFilter)
      ensures toDateFilter == if InitialDate(q.toDate) != InitialDate(old(query).toDate)
                              then InitialDate(q.toDate) else old(toDateFilter)
    {
      var oldQuery := query;
      query := q;
      categoryFilter := OptionsWithValues(CategoryOptions(categoryList), q.category);
      languageFilter := OptionsWithValues(LanguageOptions(languageList), q.language);
      if InitialDate(q.fromDate) != InitialDate(oldQuery.fromDate) {
        fromDateFilter := InitialDate(q.fromDate);
      }
      if InitialDate(q.toDate) != InitialDate(oldQuery.toDate) {
        toDateFilter := InitialDate(q.toDate);
      }
    }

    /** A new category list: the category selection is reseeded from the query. */
    method SetCategoryList(categories: seq<Category>)
      modifies this
      ensures categoryList == categories && languageList == old(languageList) && query == old(query)
      ensures State() == old(State()).(categoryFilter := OptionsWithValues(CategoryOptions(categories), query.category))
    {
      categoryList := categories;
      categoryFilter := OptionsWithValues(CategoryOptions(categories), query.category);
    }

    /** A new language list: the language selection is reseeded from the query. */
    method SetLanguageList(languages: seq<Language>)
      modifies this
      ensures languageList == languages && categoryList == old(categoryList) && query == old(query)
      ensures State() == old(State()).(languageFilter := OptionsWithValues(LanguageOptions(languages), query.language))
    {
      languageList := languages;
      languageFilter := OptionsWithValues(LanguageOptions(languages), query.language);
    }

    /** `filterParams`. */
    function FilterParams(): (r: map<string, FilterValue>)
      reads this
      ensures CategoryName in r && LanguageName in r
      ensures (FromDateName in r <==> fromDateFilter != "") && (ToDateName in r <==> toDateFilter != "")
    {
      FilterRecord(State())
    }

    /** `tags`. */
    function TagList(t: string -> string): (r: seq<FilterTag>)
      reads this
      ensures |r| == |categoryFilter| + |languageFilter| + (if fromDateFilter != "" || toDateFilter != "" then 1 else 0)
    {
      TagCount(State(), t);
      Tags(State(), t)
    }

    /** The exposed `categoryOptionList`. */
    function CategoryOptionList(): (r: seq<SelectOption<string>>)
      reads this
      ensures |languageFilter| == 0 ==> r == CategoryOptions(categoryList)
    {
      NarrowedCategoryOptions(categoryList, languageFilter)
    }

    /** `languageOptionList`. */
    function LanguageOptionList(): (r: seq<SelectOption<string>>)
      reads this
      ensures |r| == |languageList|
    {
      LanguageOptions(languageList)
    }
  }

  // ---------------------------------------------------------------------------------------------
  // Properties

  /** Three dash-free components come back reversed and dot-separated: `yyyy-mm-dd` becomes `dd.mm.yyyy`. */
  lemma DateFormatReverses(y: string, m: string, d: string)
    requires '-' !in y && '-' !in m && '-' !in d
    ensures DateFormat(y + "-" + m + "-" + d) == d + "." + m + "." + y
  {
    var parts := [y, m, d];
    assert parts[1..] == [m, d] && parts[1..][1..] == [d];
    assert Strings.Join([m, d], "-") == m + "-" + d by {
      assert Strings.Join([m, d], "-") == m + "-" + Strings.Join([d], "-");
    }
    assert Strings.Join(parts, "-") == y + "-" + m + "-" + d;
    Strings.SplitJoin(parts, '-');
    var reversed := Strings.Reverse(parts);
    assert reversed == [d, m, y];
    assert reversed[1..] == [m, y] && reversed[1..][1..] == [y];
    assert Strings.Join([m, y], ".") == m + "." + y by {
      assert Strings.Join([m, y], ".") == m + "." + Strings.Join([y], ".");
    }
  }

  /** The example of the date picker's format. */
  lemma DateFormatExample()
    ensures DateFormat("2024-01-31") == "31.01.2024"
  {
    var y, m, d := "2024", "01", "31";
    assert '-' !in y && '-' !in m && '-' !in d;
    DateFormatReverses(y, m, d);
    assert y + "-" + m + "-" + d == "2024-01-31";
    assert d + "." + m + "." + y == "31.01.2024";
  }

  /** Removing the same tag twice is removing it once. */
  lemma RemoveTagIdempotent(s: SearchState, tag: FilterTag)
    ensures RemoveTag(RemoveTag(s, tag), tag) == RemoveTag(s, tag)
  {
    Seqs.FilterIdempotent(s.categoryFilter, (o: SelectOption<string>) => o.value != tag.value);
    Seqs.FilterIdempotent(s.languageFilter, (o: SelectOption<string>) => o.value != tag.value);
  }

  /** After a category or language tag is removed, no tag of that filter carries its value. */
  lemma RemovedTagGone(s: SearchState, tag: FilterTag, t: string -> string)
    requires tag.name == CategoryName || tag.name == LanguageName
    ensures forall x :: x in Tags(RemoveTag(s, tag), t) && x.name == tag.name ==> x.value != tag.value
  {
    var r := RemoveTag(s, tag);
    TagsFromSelections(r, t);
    forall x | x in Tags(r, t) && x.name == tag.name
      ensures x.value != tag.value
    {
      assert TagOfSelection(x, r);
      if tag.name == CategoryName {
        var o :| o in r.categoryFilter && o.value == x.value;
      } else {
        var o :| o in r.languageFilter && o.value == x.value;
      }
    }
  }

  /** A tag comes from a selected category, a selected language, or the dates. */
  predicate TagOfSelection(x: FilterTag, s: SearchState)
  {
    || (x.name == CategoryName && exists o :: o in s.categoryFilter && o.value == x.value)
    || (x.name == LanguageName && exists o :: o in s.languageFilter && o.value == x.value)
    || x.name == FromDateName
  }

  /** Every tag is that of a selection or the date tag. */
  lemma TagsFromSelections(s: SearchState, t: string -> string)
    ensures forall x :: x in Tags(s, t) ==> TagOfSelection(x, s)
  {
    var cats := SelectionTags(s.categoryFilter, CategoryName, t("blog:category"));
    var langs := SelectionTags(s.languageFilter, LanguageName, t("blog:language"));
    Seqs.PresentConcat(cats + langs, [DateTag(s, t)]);
    Seqs.PresentConcat(cats, langs);
    Seqs.PresentAllSome(cats);
    Seqs.PresentAllSome(langs);
    Seqs.PresentSingle(DateTag(s, t));
    var pc, pl, pd := Seqs.Present(cats), Seqs.Present(langs), Seqs.Present([DateTag(s, t)]);
    assert Tags(s, t) == pc + pl + pd;
    forall x | x in Tags(s, t)
      ensures TagOfSelection(x, s)
    {
      if x in pc {
        var i :| 0 <= i < |pc| && pc[i] == x;
        assert s.categoryFilter[i] in s.categoryFilter;
      } else if x in pl {
        var i :| 0 <= i < |pl| && pl[i] == x;
        assert s.languageFilter[i] in s.languageFilter;
      } else {
        assert x in pd;
      }
    }
  }

  /** One tag per selection, plus one when either date is set. */
  lemma TagCount(s: SearchState, t: string -> string)
    ensures |Tags(s, t)| == |s.categoryFilter| + |s.languageFilter| + (if s.fromDate != "" || s.toDate != "" then 1 else 0)
  {
    var cats := SelectionTags(s.categoryFilter, CategoryName, t("blog:category"));
    var langs := SelectionTags(s.languageFilter, LanguageName, t("blog:language"));
    Seqs.PresentConcat(cats + langs, [DateTag(s, t)]);
    Seqs.PresentConcat(cats, langs);
    Seqs.PresentAllSome(cats);
    Seqs.PresentAllSome(langs);
    Seqs.PresentSingle(DateTag(s, t));
  }

  /**
   * The selection tags come first, in selection order, with the selections' values and captions; the date tag,
   * when either date is set, follows them.
   */
  lemma TagsFollowSelections(s: SearchState, t: string -> string)
    ensures var tags := Tags(s, t);
      && |tags| >= |s.categoryFilter| + |s.languageFilter|
      && (forall i :: 0 <= i < |s.categoryFilter| ==>
            tags[i] == FilterTag(s.categoryFilter[i].value, s.categoryFilter[i].caption, CategoryName, t("blog:category")))
      && (forall i :: 0 <= i < |s.languageFilter| ==>
            tags[|s.categoryFilter| + i] ==
              FilterTag(s.languageFilter[i].value, s.languageFilter[i].caption, LanguageName, t("blog:language")))
      && ((s.fromDate != "" || s.toDate != "") ==>
            |tags| == |s.categoryFilter| + |s.languageFilter| + 1
            && tags[|s.categoryFilter| + |s.languageFilter|] == DateTag(s, t).value)
  {
    var cats := SelectionTags(s.categoryFilter, CategoryName, t("blog:category"));
    var langs := SelectionTags(s.languageFilter, LanguageName, t("blog:language"));
    Seqs.PresentConcat(cats + langs, [DateTag(s, t)]);
    Seqs.PresentConcat(cats, langs);
    Seqs.PresentAllSome(cats);
    Seqs.PresentAllSome(langs);
    Seqs.PresentSingle(DateTag(s, t));
  }

  /** The date tag's label: the range when both dates are set, otherwise the from/to prefix and the one date. */
  lemma DateTagLabel(s: SearchState, t: string -> string)
    ensures s.fromDate != "" && s.toDate != "" ==>
      DateTag(s, t).value.caption == DateFormat(s.fromDate) + " - " + DateFormat(s.toDate)
    ensures s.fromDate != "" && s.toDate == "" ==>
      DateTag(s, t).value.caption == t("blog:from") + " " + DateFormat(s.fromDate)
    ensures s.fromDate == "" && s.toDate != "" ==>
      DateTag(s, t).value.caption == t("blog:to") + " " + DateFormat(s.toDate)
  {
  }

  /** Whether `o` is the option of one of the categories whose language is selected. */
  predicate OptionOfSelected(o: SelectOption<string>, categories: seq<Category>, languageFilter: seq<SelectOption<string>>)
  {
    exists k :: 0 <= k < |categories| && LanguageSelected(categories[k], languageFilter) && o == CategoryOption(categories[k])
  }

  /** With a language selected, every option is that of a category of a selected language. */
  lemma NarrowedOptionsSound(categories: seq<Category>, languageFilter: seq<SelectOption<string>>)
    requires |languageFilter| > 0
    ensures var r := NarrowedCategoryOptions(categories, languageFilter);
      forall i :: 0 <= i < |r| ==> OptionOfSelected(r[i], categories, languageFilter)
  {
    var p := (c: Category) => LanguageSelected(c, languageFilter);
    var kept := Seqs.Filter(categories, p);
    var r := NarrowedCategoryOptions(categories, languageFilter);
    assert r == CategoryOptions(kept);
    forall i | 0 <= i < |r|
      ensures OptionOfSelected(r[i], categories, languageFilter)
    {
      assert p(kept[i]);
      var k :| 0 <= k < |categories| && categories[k] == kept[i];
      assert r[i] == CategoryOption(categories[k]);
    }
  }

  /** With a language selected, every category of a selected language has its option (membership only). */
  lemma NarrowedOptionsMembers(categories: seq<Category>, languageFilter: seq<SelectOption<string>>)
    requires |languageFilter| > 0
    ensures var r := NarrowedCategoryOptions(categories, languageFilter);
      forall k :: 0 <= k < |categories| && LanguageSelected(categories[k], languageFilter) ==>
        CategoryOption(categories[k]) in r
  {
    var p := (c: Category) => LanguageSelected(c, languageFilter);
    var kept := Seqs.Filter(categories, p);
    var r := NarrowedCategoryOptions(categories, languageFilter);
    assert r == CategoryOptions(kept);
    forall k | 0 <= k < |categories| && LanguageSelected(categories[k], languageFilter)
      ensures CategoryOption(categories[k]) in r
    {
      assert p(categories[k]);
      var i :| 0 <= i < |kept| && kept[i] == categories[k];
      assert r[i] == CategoryOption(categories[k]);
    }
  }

  /** With a language selected, the options follow the categories of a selected language in order. */
  lemma NarrowedOptionsInOrder(categories: seq<Category>, languageFilter: seq<SelectOption<string>>)
    requires |languageFilter| > 0
    ensures Seqs.SelectsInOrder(NarrowedCategoryOptions(categories, languageFilter), categories,
                                (c: Category) => LanguageSelected(c, languageFilter), CategoryOption)
  {
    var p := (c: Category) => LanguageSelected(c, languageFilter);
    Seqs.MapFilterInOrder(categories, p, CategoryOption, NarrowedCategoryOptions(categories, languageFilter));
  }

  /**
   * With a language selected, every category of a selected language has its option, and the options are those
   * categories' options in category order, each as often as the category occurs.
   */
  lemma NarrowedOptionsComplete(categories: seq<Category>, languageFilter: seq<SelectOption<string>>)
    requires |languageFilter| > 0
    ensures var r := NarrowedCategoryOptions(categories, languageFilter);
      && (forall k :: 0 <= k < |categories| && LanguageSelected(categories[k], languageFilter) ==>
            CategoryOption(categories[k]) in r)
      && Seqs.SelectsInOrder(r, categories, (c: Category) => LanguageSelected(c, languageFilter), CategoryOption)
  {
    NarrowedOptionsMembers(categories, languageFilter);
    NarrowedOptionsInOrder(categories, languageFilter);
  }

  /** Every initial selection is named by the query, and every option the query names is selected. */
  lemma InitialSelectionMembers(categories: seq<Category>, languages: seq<Language>, query: Query)
    ensures var s := InitialState(categories, languages, query);
      && (forall i :: 0 <= i < |s.languageFilter| ==> s.languageFilter[i].value in query.language)
      && (forall i :: 0 <= i < |languages| && languages[i].id in query.language ==>
            SelectOption(languages[i].id, languages[i].name) in s.languageFilter)
      && (forall i :: 0 <= i < |s.categoryFilter| ==> s.categoryFilter[i].value in query.category)
      && (forall i :: 0 <= i < |categories| && Strings.IntToString(categories[i].id) in query.category ==>
            CategoryOption(categories[i]) in s.categoryFilter)
  {
    var s := InitialState(categories, languages, query);
    forall i | 0 <= i < |categories| && Strings.IntToString(categories[i].id) in query.category
      ensures CategoryOption(categories[i]) in s.categoryFilter
    {
      assert CategoryOptions(categories)[i] == CategoryOption(categories[i]);
    }
  }
  /**
   * The initial selections are the options the query names: every selection is named by the query, every named
   * option is selected, and the selections keep the options' order, each as often as it is offered.
   */
  lemma InitialSelections(categories: seq<Category>, languages: seq<Language>, query: Query)
    ensures var s := InitialState(categories, languages, query);
      && (forall i :: 0 <= i < |s.languageFilter| ==> s.languageFilter[i].value in query.language)
      && (forall i :: 0 <= i < |languages| && languages[i].id in query.language ==>
            SelectOption(languages[i].id, languages[i].name) in s.languageFilter)
      && (forall i :: 0 <= i < |s.categoryFilter| ==> s.categoryFilter[i].value in query.category)
      && (forall i :: 0 <= i < |categories| && Strings.IntToString(categories[i].id) in query.category ==>
            CategoryOption(categories[i]) in s.categoryFilter)
      && Seqs.KeepsInOrder(s.languageFilter, LanguageOptions(languages),
                           (o: SelectOption<string>) => o.value in query.language)
      && Seqs.KeepsInOrder(s.categoryFilter, CategoryOptions(categories),
                           (o: SelectOption<string>) => o.value in query.category)
  {
    InitialSelectionMembers(categories, languages, query);
    OptionsWithValuesInOrder(LanguageOptions(languages), query.language);
    OptionsWithValuesInOrder(CategoryOptions(categories), query.category);
  }

}
