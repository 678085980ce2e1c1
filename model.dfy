/**
 * The records the blog module exchanges with its API and its form widgets.
 * Only the fields the helpers read or write are kept.
 */
module Model {
  import opened Wrappers
  import Seqs

  /** An uploaded file as the API returns it. */
  datatype FileType = FileType(id: int, name: string, url: string)

  /** The value of a single-file upload widget: a client-side key and the file it shows. */
  datatype FileInput = FileInput(id: string, file: FileType)

  /** `OptionType<V>`: one entry of a select input (`label` is a Dafny keyword, so the label is `caption`). */
  datatype SelectOption<V> = SelectOption(value: V, caption: string)

  /** A content language of the module: its code and its display name. */
  datatype Language = Language(id: string, name: string)

  /** The part of the module configuration the helpers read. */
  datatype ModuleConfig = ModuleConfig(languages: seq<Language>)

  /** A category as a post or a child category refers to it. */
  datatype CategoryRef = CategoryRef(id: int, name: string)

  /** A category as the newer views receive it. */
  datatype Category = Category(
    id: int,
    name: string,
    urlAlias: string,
    url: string,
    depth: int,
    language: string,
    parent: Option<CategoryRef>,
    isDefault: bool,
    pageTitle: Option<string>,
    pageDescription: Option<string>,
    pageKeywords: Option<string>,
    openGraphTitle: Option<string>,
    openGraphDescription: Option<string>,
    openGraphImage: Option<FileType>)

  /** A category as the older views receive it. */
  datatype BlogCategory = BlogCategory(
    id: int,
    name: string,
    urlAlias: string,
    url: string,
    language: string,
    pageTitle: Option<string>,
    pageDescription: Option<string>,
    openGraphImage: Option<FileType>)

  /** A post as the post lists receive it. */
  datatype PostShort = PostShort(
    id: int,
    title: string,
    url: string,
    status: string,
    date: string,
    image: Option<FileType>,
    language: string,
    categories: seq<CategoryRef>)

  /** A post that another post links to. */
  datatype RelatedPost = RelatedPost(id: int, title: string)

  /** The schema of one dynamic field, as the module configuration describes it. */
  datatype FieldConfig = FieldConfig(name: string, fieldType: string)

  /** A dynamic field value on the wire: the field's name and its value. */
  datatype AdditionalField<V> = AdditionalField(name: string, value: V)

  /** A dynamic field inside the form: its schema and the widget's value. */
  datatype FormField<W> = FormField(config: FieldConfig, value: W)

  /** A post as the newer post form receives it; `V` is the type of dynamic field values. */
  datatype PostFull<V> = PostFull(
    id: int,
    title: string,
    excerpt: string,
    body: string,
    datetime: Option<string>,
    coverImage: Option<FileType>,
    image: Option<FileType>,
    imageMobile: Option<FileType>,
    pageTitle: Option<string>,
    pageDescription: Option<string>,
    openGraphImage: Option<FileType>,
    urlAlias: string,
    categories: seq<CategoryRef>,
    language: string,
    relatedPosts: seq<RelatedPost>,
    tags: seq<string>,
    additionalFields: seq<AdditionalField<V>>,
    status: string,
    archiveAt: Option<string>,
    publishAt: Option<string>)

  /** A post as the older post form receives it. */
  datatype BlogPost = BlogPost(
    id: int,
    title: string,
    excerpt: string,
    body: string,
    date: string,
    image: Option<FileType>,
    coverImage: Option<FileType>,
    pageTitle: Option<string>,
    pageDescription: Option<string>,
    openGraphImage: Option<FileType>,
    urlAlias: string,
    categories: seq<CategoryRef>,
    language: string,
    relatedPosts: seq<RelatedPost>,
    tags: seq<string>)

  /** JavaScript truthiness of a nullable string: present and not empty. */
  predicate Truthy(s: Option<string>)
  {
    s.Some? && s.value != ""
  }

  /** `languageId ? language === languageId : true`: a category list's language test, where `''` means no filter. */
  predicate InLanguage(languageId: Option<string>, language: string)
  {
    if Truthy(languageId) then language == languageId.value else true
  }

  /** The raw values of a list of select options, in order (`options.map(o => o.value)`). */
  function Values<V>(options: seq<SelectOption<V>>): (r: seq<V>)
    ensures |r| == |options|
    ensures forall i :: 0 <= i < |r| ==> r[i] == options[i].value
  {
    seq(|options|, i requires 0 <= i < |options| => options[i].value)
  }

  /** `options.find(o => o.value === v)`: the first option carrying `v`, or none when no option does. */
  function OptionWithValue<V(==)>(options: seq<SelectOption<V>>, v: V): (r: Option<SelectOption<V>>)
    ensures r.None? <==> v !in Values(options)
    ensures r.Some? ==> r.value.value == v && exists k :: 0 <= k < |options| && options[k] == r.value &&
                                                           forall j :: 0 <= j < k ==> options[j].value != v
  {
    var r := Seqs.Find(options, (o: SelectOption<V>) => o.value == v);
    assert r.None? <==> v !in Values(options) by {
      if v in Values(options) {
        var k :| 0 <= k < |options| && Values(options)[k] == v;
        assert options[k].value == v;
      }
    }
    r
  }

  /** `options.filter(o => values.some(v => v === o.value))`: the options carrying one of `values`, in option order. */
  function OptionsWithValues<V(==)>(options: seq<SelectOption<V>>, values: seq<V>): (r: seq<SelectOption<V>>)
    ensures |r| <= |options|
    ensures forall i :: 0 <= i < |r| ==> r[i] in options && r[i].value in values
    ensures forall i :: 0 <= i < |options| && options[i].value in values ==> options[i] in r
  {
    Seqs.Filter(options, (o: SelectOption<V>) => o.value in values)
  }

  /** The selected options are the order-preserving sub-sequence of the options whose value is listed. */
  lemma OptionsWithValuesInOrder<V>(options: seq<SelectOption<V>>, values: seq<V>)
    ensures Seqs.KeepsInOrder(OptionsWithValues(options, values), options, (o: SelectOption<V>) => o.value in values)
  {
    var p := (o: SelectOption<V>) => o.value in values;
    Seqs.FilterInOrder(options, p);
    Seqs.KeepsInOrderSameTest(Seqs.Filter(options, p), options, p, (o: SelectOption<V>) => o.value in values);
  }

  /** `relatedPosts.some((relatedPost) => relatedPost.id === option.value)`. */
  predicate IsRelated(related: seq<RelatedPost>, o: SelectOption<int>)
  {
    exists j :: 0 <= j < |related| && related[j].id == o.value
  }

  /**
   * The related-post selection of both post forms: the post options whose value is the id of a related post,
   * in option order and each as often as it is offered.
   */
  lemma RelatedSelection(postOptions: seq<SelectOption<int>>, related: seq<RelatedPost>)
    ensures var r := OptionsWithValues(postOptions, Seqs.Map(related, (rp: RelatedPost) => rp.id));
      && (forall o :: o in r <==> o in postOptions && IsRelated(related, o))
      && Seqs.KeepsInOrder(r, postOptions, (o: SelectOption<int>) => IsRelated(related, o))
  {
    var ids := Seqs.Map(related, (rp: RelatedPost) => rp.id);
    var r := OptionsWithValues(postOptions, ids);
    OptionsWithValuesInOrder(postOptions, ids);
    forall o: SelectOption<int> ensures o.value in ids <==> IsRelated(related, o) {
      if o.value in ids {
        var j :| 0 <= j < |ids| && ids[j] == o.value;
        assert related[j].id == o.value;
      }
      if IsRelated(related, o) {
        var j :| 0 <= j < |related| && related[j].id == o.value;
        assert ids[j] == o.value;
      }
    }
    Seqs.KeepsInOrderSameTest(r, postOptions, (o: SelectOption<int>) => o.value in ids,
                              (o: SelectOption<int>) => IsRelated(related, o));
    forall o ensures o in r <==> o in postOptions && IsRelated(related, o) {
      if o in postOptions && IsRelated(related, o) {
        var k :| 0 <= k < |postOptions| && postOptions[k] == o;
      }
    }
  }

  /** `moduleConfig ? moduleConfig.languages.length > 0 : false`: whether the lists show a language column. */
  predicate IsLangSpecific(moduleConfig: Option<ModuleConfig>)
  {
    moduleConfig.Some? && |moduleConfig.value.languages| > 0
  }

  /**
   * The display form of a language code in the lists: the name of the first language with that code, or the
   * code itself when none has it or the language list is empty.
   */
  function LanguageLabel(code: string, languages: seq<Language>): (r: string)
    ensures (forall i :: 0 <= i < |languages| ==> languages[i].id != code) ==> r == code
    ensures r != code ==> exists k :: 0 <= k < |languages| && languages[k].id == code && languages[k].name == r
    ensures forall k :: (0 <= k < |languages| && languages[k].id == code &&
                         (forall j :: 0 <= j < k ==> languages[j].id != code)) ==> r == languages[k].name
  {
    if |languages| > 0 then
      var found := Seqs.Find(languages, (l: Language) => l.id == code);
      assert found.Some? ==> exists k :: 0 <= k < |languages| && languages[k] == found.value && languages[k].id == code &&
                                         forall j :: 0 <= j < k ==> languages[j].id != code;
      if found.Some? then found.value.name else code
    else code
  }

  /** A table column: its id, its header and the row field it shows. */
  datatype Column = Column(id: int, name: string, field: string)

  /** The ids of a list of columns, in order. */
  function ColumnIds(columns: seq<Column>): (r: seq<int>)
    ensures |r| == |columns| && forall i :: 0 <= i < |r| ==> r[i] == columns[i].id
  {
    seq(|columns|, i requires 0 <= i < |columns| => columns[i].id)
  }

  lemma ColumnIdsConcat(a: seq<Column>, b: seq<Column>)
    ensures ColumnIds(a + b) == ColumnIds(a) + ColumnIds(b)
  {
  }

  /** The ids of an optional column. */
  function OptionalId(column: Option<Column>): (r: seq<int>)
    ensures column.None? <==> r == []
  {
    if column.Some? then [column.value.id] else []
  }

  /** The ids of the columns present in a literal list with one optional entry at the end. */
  lemma PresentIdsSnoc(columns: seq<Option<Column>>, last: Option<Column>)
    ensures ColumnIds(Seqs.Present(columns + [last])) == ColumnIds(Seqs.Present(columns)) + OptionalId(last)
  {
    Seqs.PresentConcat(columns, [last]);
    Seqs.PresentSingle(last);
    ColumnIdsConcat(Seqs.Present(columns), Seqs.Present([last]));
  }

  /** The ids of the columns present in a literal list with one optional entry between two others. */
  lemma PresentIdsAround(head: seq<Option<Column>>, middle: Option<Column>, tail: seq<Option<Column>>)
    ensures ColumnIds(Seqs.Present(head + [middle] + tail)) ==
            ColumnIds(Seqs.Present(head)) + OptionalId(middle) + ColumnIds(Seqs.Present(tail))
  {
    Seqs.PresentConcat(head + [middle], tail);
    PresentIdsSnoc(head, middle);
    ColumnIdsConcat(Seqs.Present(head + [middle]), Seqs.Present(tail));
  }
}
