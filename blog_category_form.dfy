/** The older category form (`src/views/BlogCategoryForm/BlogCategoryForm.helpers.ts`). */
module BlogCategoryForm {
  import opened Wrappers
  import opened Model

  datatype FormValues = FormValues(
    name: string,
    pageTitle: string,
    pageDescription: string,
    openGraphImage: Option<FileType>,
    urlAlias: string,
    language: Option<SelectOption<string>>)

  datatype CreationPayload = CreationPayload(
    name: string,
    pageTitle: string,
    pageDescription: string,
    openGraphImage: Option<int>,
    language: Option<string>)

  /** `{ ...creationPayload, urlAlias }`. */
  datatype UpdatePayload = UpdatePayload(creation: CreationPayload, urlAlias: string)

  /** `convertCategoryToFormValues`. */
  function ToFormValues(category: Option<BlogCategory>, languageOptions: seq<SelectOption<string>>): (r: FormValues)
    ensures r.language.Some? ==> r.language.value in languageOptions && category.Some? &&
                                 r.language.value.value == category.value.language
  {
    match category
    case None => FormValues("", "", "", None, "", None)
    case Some(c) =>
      FormValues(c.name, c.pageTitle.GetOr(""), c.pageDescription.GetOr(""), c.openGraphImage, c.urlAlias,
                 OptionWithValue(languageOptions, c.language))
  }

  /** `convertCategoryFormValuesToCreationPayload`. */
  function ToCreationPayload(values: FormValues): (r: CreationPayload)
    ensures r.openGraphImage.Some? <==> values.openGraphImage.Some?
    ensures r.language.Some? <==> values.language.Some?
  {
    CreationPayload(
      values.name, values.pageTitle, values.pageDescription,
      if values.openGraphImage.Some? then Some(values.openGraphImage.value.id) else None,
      if values.language.Some? then Some(values.language.value.value) else None)
  }

  /** `convertCategoryFormValuesToUpdatePayload`. */
  function ToUpdatePayload(values: FormValues): (r: UpdatePayload)
    ensures r.creation == ToCreationPayload(values) && r.urlAlias == values.urlAlias
  {
    UpdatePayload(ToCreationPayload(values), values.urlAlias)
  }

  /** A new category starts with empty texts, no image and no language. */
  lemma NewCategoryDefaults(languageOptions: seq<SelectOption<string>>)
    ensures var r := ToFormValues(None, languageOptions);
      r.name == r.pageTitle == r.pageDescription == r.urlAlias == "" && r.openGraphImage.None? && r.language.None?
  {
  }

  /**
   * An existing category keeps its name, alias and image in the form, with empty strings for missing SEO texts,
   * and saving it unchanged sends back its image id and its language code when an option carries it.
   */
  lemma RoundTrip(category: BlogCategory, languageOptions: seq<SelectOption<string>>)
    ensures var form := ToFormValues(Some(category), languageOptions);
      var r := ToUpdatePayload(form);
      && form.name == category.name && form.urlAlias == category.urlAlias
      && form.openGraphImage == category.openGraphImage
      && form.pageTitle == category.pageTitle.GetOr("") && form.pageDescription == category.pageDescription.GetOr("")
      && r.creation.name == category.name && r.urlAlias == category.urlAlias
      && r.creation.openGraphImage == (if category.openGraphImage.Some? then Some(category.openGraphImage.value.id) else None)
      && (r.creation.language.Some? <==> category.language in Values(languageOptions))
      && (r.creation.language.Some? ==> r.creation.language.value == category.language)
  {
  }
}
