/**
 * The newer category form (`src/views/Categories/CategoryForm/CategoryForm.helpers.ts`): a fetched category
 * becomes form state with a parent select, and the form state becomes the create/update payload.
 */
module CategoryForm {
  import opened Wrappers
  import opened Model
  import Seqs
  import Common

  datatype FormValues = FormValues(
    language: Option<SelectOption<string>>,
    name: string,
    parent: SelectOption<Option<int>>,
    urlAlias: string,
    isDefault: bool,
    pageTitle: string,
    pageDescription: string,
    pageKeywords: string,
    openGraphTitle: string,
    openGraphDescription: string,
    openGraphImage: Option<FileInput>)

  /** `CategoryPayload`: the keyword and Open Graph text fields of the form are not sent. */
  datatype Payload = Payload(
    language: Option<string>,
    name: string,
    parent: Option<int>,
    urlAlias: string,
    isDefault: bool,
    pageTitle: string,
    pageDescription: string,
    openGraphImage: Option<int>)

  /** The parent option that stands for "no parent". */
  function NoParent(t: string -> string): (r: SelectOption<Option<int>>)
    ensures r.value.None?
  {
    SelectOption(None, t("blog:noParent"))
  }

  /** `convertCategoryToFormValues`; `createId` is the widget key given to an existing Open Graph image. */
  function ToFormValues(category: Option<Category>, languageOptions: seq<SelectOption<string>>,
                        t: string -> string, createId: string): (r: FormValues)
    ensures r.language.Some? ==> r.language.value in languageOptions && category.Some? &&
                                 r.language.value.value == category.value.language
    ensures r.parent.value.None? <==> category.None? || category.value.parent.None?
  {
    match category
    case None =>
      // `category?.language` is undefined here, and no option carries undefined.
      FormValues(None, "", NoParent(t), "", false, "", "", "", "", "", None)
    case Some(c) =>
      FormValues(
        OptionWithValue(languageOptions, c.language),
        c.name,
        match c.parent
        case Some(p) => SelectOption(Some(p.id), p.name)
        case None => NoParent(t),
        c.urlAlias,
        c.isDefault,
        c.pageTitle.GetOr(""),
        c.pageDescription.GetOr(""),
        c.pageKeywords.GetOr(""),
        c.openGraphTitle.GetOr(""),
        c.openGraphDescription.GetOr(""),
        match c.openGraphImage
        case Some(f) => Some(FileInput(createId, f))
        case None => None)
  }

  /** `convertCategoryFormValuesToPayload`. */
  function ToPayload(values: FormValues): (r: Payload)
    ensures r.parent == values.parent.value
    ensures r.openGraphImage.Some? <==> values.openGraphImage.Some?
  {
    Payload(
      if values.language.Some? then Some(values.language.value.value) else None,
      values.name,
      values.parent.value,
      values.urlAlias,
      values.isDefault,
      values.pageTitle,
      values.pageDescription,
      if values.openGraphImage.Some? then Some(values.openGraphImage.value.file.id) else None)
  }

  /** The parent option of one category: its id, labelled by its name indented by its depth. */
  function ParentOption(c: Category): SelectOption<Option<int>>
  {
    SelectOption(Some(c.id), Common.NameWithDepth(c.name, c.depth))
  }

  /** `convertCategoryListToOptions`: "no parent" first, then the categories of the chosen language. */
  function ParentOptions(categories: seq<Category>, languageId: Option<string>, t: string -> string)
    : (r: seq<SelectOption<Option<int>>>)
    ensures |r| >= 1 && r[0] == NoParent(t)
    ensures forall i :: 1 <= i < |r| ==> r[i].value.Some?
  {
    var kept := Seqs.Filter(categories, (c: Category) => InLanguage(languageId, c.language));
    [NoParent(t)] + seq(|kept|, i requires 0 <= i < |kept| => ParentOption(kept[i]))
  }

  // ---------------------------------------------------------------------------------------------
  // Properties

  /** A new category starts with empty text, not default, no image, no language and "no parent". */
  lemma NewCategoryDefaults(languageOptions: seq<SelectOption<string>>, t: string -> string, createId: string)
    ensures var r := ToFormValues(None, languageOptions, t, createId);
      && r.name == r.urlAlias == r.pageTitle == r.pageDescription == r.pageKeywords == ""
      && r.openGraphTitle == r.openGraphDescription == ""
      && !r.isDefault && r.openGraphImage.None? && r.language.None?
      && r.parent == SelectOption(None, t("blog:noParent"))
  {
  }

  /**
   * Editing a category and saving it unchanged keeps its parent id (none stays none), name, alias, default flag
   * and Open Graph image id, and its language code when a language option carries it; missing SEO texts become
   * empty strings.
   */
  lemma RoundTrip(category: Category, languageOptions: seq<SelectOption<string>>, t: string -> string, createId: string)
    ensures var form := ToFormValues(Some(category), languageOptions, t, createId);
      var r := ToPayload(form);
      && (form.parent.value.Some? ==> form.parent == SelectOption(Some(category.parent.value.id), category.parent.value.name))
      && r.parent == (if category.parent.Some? then Some(category.parent.value.id) else None)
      && form.name == r.name == category.name
      && form.urlAlias == r.urlAlias == category.urlAlias
      && form.isDefault == r.isDefault == category.isDefault
      && r.pageTitle == category.pageTitle.GetOr("") && r.pageDescription == category.pageDescription.GetOr("")
      && form.pageKeywords == category.pageKeywords.GetOr("")
      && form.openGraphTitle == category.openGraphTitle.GetOr("")
      && form.openGraphDescription == category.openGraphDescription.GetOr("")
      && r.openGraphImage == (if category.openGraphImage.Some? then Some(category.openGraphImage.value.id) else None)
      && (r.language.Some? <==> category.language in Values(languageOptions))
      && (r.language.Some? ==> r.language.value == category.language)
  {
  }

  /** After "no parent", the options follow the categories of the chosen language in order. */
  lemma ParentOptionsInOrder(categories: seq<Category>, languageId: Option<string>, t: string -> string)
    ensures Seqs.SelectsInOrder(ParentOptions(categories, languageId, t)[1..], categories,
                                (c: Category) => InLanguage(languageId, c.language), ParentOption)
  {
    var p := (c: Category) => InLanguage(languageId, c.language);
    Seqs.MapFilterInOrder(categories, p, ParentOption, ParentOptions(categories, languageId, t)[1..]);
  }

  /** After "no parent", the options are the kept categories' parent options. */
  lemma ParentOptionsTail(categories: seq<Category>, languageId: Option<string>, t: string -> string)
    ensures ParentOptions(categories, languageId, t)[1..]
         == Seqs.Map(Seqs.Filter(categories, (c: Category) => InLanguage(languageId, c.language)), ParentOption)
  {
  }

  /** One option more than there are categories of the chosen language; one per category when none is chosen. */
  lemma ParentOptionsLength(categories: seq<Category>, languageId: Option<string>, t: string -> string)
    ensures var r := ParentOptions(categories, languageId, t);
      && |r| == 1 + |Seqs.Filter(categories, (c: Category) => InLanguage(languageId, c.language))|
      && (!Truthy(languageId) ==> |r| == 1 + |categories|)
  {
    if !Truthy(languageId) {
      Seqs.FilterAll(categories, (c: Category) => InLanguage(languageId, c.language));
    }
  }

  /** Which categories have a parent option: those of the chosen language (all when none is chosen), and no other. */
  lemma ParentOptionsMembers(categories: seq<Category>, languageId: Option<string>, t: string -> string)
    ensures var options := ParentOptions(categories, languageId, t)[1..];
      && (forall c :: c in categories && InLanguage(languageId, c.language) ==> ParentOption(c) in options)
      && (forall o :: o in options ==> exists c :: c in categories && InLanguage(languageId, c.language) && o == ParentOption(c))
  {
    ParentOptionsTail(categories, languageId, t);
    Seqs.MapFilterMembers(categories, (c: Category) => InLanguage(languageId, c.language), ParentOption,
                          ParentOptions(categories, languageId, t)[1..]);
  }

  /**
   * The parent options are "no parent" followed by exactly the categories of the chosen language (every category
   * when none is chosen), each labelled with its depth, in category order and each as often as it occurs.
   */
  lemma ParentOptionsSelection(categories: seq<Category>, languageId: Option<string>, t: string -> string)
    ensures var r := ParentOptions(categories, languageId, t);
      && r[0] == NoParent(t)
      && |r| == 1 + |Seqs.Filter(categories, (c: Category) => InLanguage(languageId, c.language))|
      && (!Truthy(languageId) ==> |r| == 1 + |categories|)
      && (forall c :: c in categories && InLanguage(languageId, c.language) ==> ParentOption(c) in r[1..])
      && (forall o :: o in r[1..] ==> exists c :: c in categories && InLanguage(languageId, c.language) && o == ParentOption(c))
      && Seqs.SelectsInOrder(r[1..], categories, (c: Category) => InLanguage(languageId, c.language), ParentOption)
  {
    ParentOptionsLength(categories, languageId, t);
    ParentOptionsMembers(categories, languageId, t);
    ParentOptionsInOrder(categories, languageId, t);
  }
}
